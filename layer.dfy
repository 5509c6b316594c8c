/** The canvas-backed image layer of the viewer: its pan/zoom state, its image
    data and its canvas, and the operations that update them in place. */
module Html {
  import Transform
  import opened Canvas

  /** What draw places on a canvas of size width x height: the image is put unscaled
      into a scratch canvas of that size, which is then drawn at the layout's origin,
      stretched by the layout's zoom. */
  function DrawPlacement(image: Image, t: Transform.State, width: nat, height: nat): (p: Placement)
    ensures p.source.Buffer? && p.source.image == image
    ensures p.source.width == width && p.source.height == height
    ensures Transform.ScreenOf(0.0, t.originX, t.zoomX) == p.x
    ensures Transform.ScreenOf(width as real, t.originX, t.zoomX) == p.x + p.width
    ensures Transform.ScreenOf(0.0, t.originY, t.zoomY) == p.y
    ensures Transform.ScreenOf(height as real, t.originY, t.zoomY) == p.y + p.height
  {
    Placement(Buffer(image, width, height), t.originX, t.originY,
              width as real * t.zoomX, height as real * t.zoomY)
  }

  /** The calls one draw makes on the canvas: clear it, then draw the image. */
  function DrawOps(image: Image, t: Transform.State, width: nat, height: nat): (ops: seq<Op>) {
    [Clear, Paint(DrawPlacement(image, t, width, height))]
  }

  /** After a draw the canvas shows the layer's image and nothing else. */
  lemma DrawShowsImage(log: seq<Op>, image: Image, t: Transform.State, width: nat, height: nat)
    ensures Visible(log + DrawOps(image, t, width, height)) == [DrawPlacement(image, t, width, height)]
  {
  }

  /** Drawing again without a state change shows the same thing as drawing once. */
  lemma DrawTwiceShowsOnce(log: seq<Op>, image: Image, t: Transform.State, width: nat, height: nat)
    ensures var d := DrawOps(image, t, width, height);
      Visible(log + d + d) == Visible(log + d)
  {
  }

  /** What merge draws: the other canvas as it shows now, at (0, 0) and at its own size. */
  function MergePlacement(otherLog: seq<Op>, otherWidth: nat, otherHeight: nat): (p: Placement) {
    Placement(Surface(Visible(otherLog), otherWidth, otherHeight), 0.0, 0.0,
              otherWidth as real, otherHeight as real)
  }

  class Layer {
    const name: string
    /** Whether initialise has bound the canvas and its context. */
    var ready: bool
    /** The canvas size, fixed by initialise. */
    var width: nat
    var height: nat
    /** Every clearRect and drawImage call made on this layer's canvas. */
    var canvas: seq<Op>
    var imageData: Option<Image>
    var originX: real
    var originY: real
    var zoomX: real
    var zoomY: real

    function Layout(): (t: Transform.State)
      reads this
    {
      Transform.State(originX, originY, zoomX, zoomY)
    }

    /** Zooms stay in range, and an initialised layer has a non-empty canvas and image data. */
    ghost predicate Valid()
      reads this
    {
      Transform.Valid(Layout()) && (ready ==> imageData.Some? && width > 0 && height > 0)
    }

    /** What one draw appends to the canvas log in the current state. */
    function Frame(): (ops: seq<Op>)
      reads this
      requires imageData.Some?
    {
      DrawOps(imageData.value, Layout(), width, height)
    }

    constructor (name: string)
      ensures Valid() && this.name == name
      ensures !ready && canvas == [] && imageData == None
      ensures Layout() == Transform.Identity
    {
      this.name := name;
      ready := false;
      width, height := 0, 0;
      canvas := [];
      imageData := None;
      originX, originY := 0.0, 0.0;
      zoomX, zoomY := 1.0, 1.0;
    }

    /** Bind the canvas at the given size, clear it and capture its (empty) content.
        Reading back a canvas with a zero width or height fails, so such a call
        sizes and clears the canvas but leaves the layer unusable and its image data as it was. */
    method Initialise(inputWidth: nat, inputHeight: nat)
      requires Valid()
      modifies this`ready, this`width, this`height, this`canvas, this`imageData
      ensures Valid()
      ensures ready == (inputWidth > 0 && inputHeight > 0)
      ensures width == inputWidth && height == inputHeight
      ensures canvas == old(canvas) + [Clear]
      ensures imageData == if ready then Some(Capture([], inputWidth, inputHeight)) else old(imageData)
    {
      width, height := inputWidth, inputHeight;
      canvas := canvas + [Clear];
      VisibleSnoc(old(canvas), Clear);
      if width == 0 || height == 0 {
        ready := false;
        return;
      }
      imageData := Some(Capture(Visible(canvas), width, height));
      ready := true;
    }

    /** Clear the whole canvas. */
    method ClearContextRect()
      requires ready
      modifies this`canvas
      ensures canvas == old(canvas) + [Clear]
      ensures Visible(canvas) == []
    {
      canvas := canvas + [Clear];
      VisibleSnoc(old(canvas), Clear);
    }

    /** Replace the image data wholesale; nothing is drawn. */
    method SetImageData(data: Image)
      requires Valid()
      modifies this`imageData
      ensures Valid()
      ensures imageData == Some(data)
    {
      imageData := Some(data);
    }

    /** Back to origin (0, 0) and zoom (1, 1), whatever the layout was. */
    method ResetLayout()
      modifies this`originX, this`originY, this`zoomX, this`zoomY
      ensures Layout() == Transform.ResetLayout(old(Layout())) == Transform.Identity
    {
      originX, originY := 0.0, 0.0;
      zoomX, zoomY := 1.0, 1.0;
    }

    /** Clear the canvas and draw the image data through the current layout. */
    method Draw()
      requires Valid() && ready
      modifies this`canvas
      ensures canvas == old(canvas) + Frame()
      ensures Visible(canvas) == [DrawPlacement(imageData.value, Layout(), width, height)]
    {
      ClearContextRect();
      canvas := canvas + [Paint(DrawPlacement(imageData.value, Layout(), width, height))];
      DrawShowsImage(old(canvas), imageData.value, Layout(), width, height);
    }

    /** Apply a bounded zoom about (centerX, centerY); an accepted zoom draws once.
        Only an accepted zoom touches the canvas, so only it needs an initialised layer. */
    method SetZoom(stepX: real, stepY: real, centerX: real, centerY: real)
      requires Valid()
      requires ready || !Transform.ZoomAccepted(Layout(), stepX, stepY)
      modifies this`originX, this`originY, this`zoomX, this`zoomY, this`canvas
      ensures Valid()
      ensures Layout() == Transform.SetZoom(old(Layout()), stepX, stepY, centerX, centerY)
      ensures if Transform.ZoomAccepted(old(Layout()), stepX, stepY)
              then canvas == old(canvas) + Frame()
              else canvas == old(canvas)
    {
      var newZoomX := zoomX + stepX;
      var newZoomY := zoomY + stepY;
      if newZoomX <= 0.1 || newZoomX >= 10.0 || newZoomY <= 0.1 || newZoomY >= 10.0 {
        return;
      }
      originX := centerX - (centerX - originX) * (newZoomX / zoomX);
      originY := centerY - (centerY - originY) * (newZoomY / zoomY);
      zoomX := newZoomX;
      zoomY := newZoomY;
      Draw();
    }

    /** setZoom followed by a draw: two draws when the zoom is accepted, one otherwise. */
    method Zoom(stepX: real, stepY: real, centerX: real, centerY: real)
      requires Valid() && ready
      modifies this`originX, this`originY, this`zoomX, this`zoomY, this`canvas
      ensures Valid()
      ensures Layout() == Transform.SetZoom(old(Layout()), stepX, stepY, centerX, centerY)
      ensures if Transform.ZoomAccepted(old(Layout()), stepX, stepY)
              then canvas == old(canvas) + Frame() + Frame()
              else canvas == old(canvas) + Frame()
      ensures Visible(canvas) == [DrawPlacement(imageData.value, Layout(), width, height)]
    {
      SetZoom(stepX, stepY, centerX, centerY);
      Draw();
    }

    /** Apply a bounded pan; both origins move or neither does. Never draws. */
    method SetTranslate(tx: real, ty: real)
      requires Valid() && ready
      modifies this`originX, this`originY
      ensures Valid()
      ensures Layout() == Transform.SetTranslate(old(Layout()), tx, ty, width as real, height as real)
    {
      var w := width as real;
      var h := height as real;
      if zoomX >= 1.0 {
        if originX + tx < -1.0 * (w * zoomX) + w || originX + tx > 0.0 { return; }
      } else {
        if originX + tx > -1.0 * (w * zoomX) + w || originX + tx < 0.0 { return; }
      }
      if zoomY >= 1.0 {
        if originY + ty < -1.0 * (h * zoomY) + h || originY + ty > 0.0 { return; }
      } else {
        if originY + ty > -1.0 * (h * zoomY) + h || originY + ty < 0.0 { return; }
      }
      originX := originX + tx;
      originY := originY + ty;
    }

    /** setTranslate followed by one draw, whether or not the pan was accepted. */
    method Translate(tx: real, ty: real)
      requires Valid() && ready
      modifies this`originX, this`originY, this`canvas
      ensures Valid()
      ensures Layout() == Transform.SetTranslate(old(Layout()), tx, ty, width as real, height as real)
      ensures canvas == old(canvas) + Frame()
    {
      SetTranslate(tx, ty);
      Draw();
    }

    /** Draw the other layer's canvas onto this one at (0, 0), reset this layout,
        capture this canvas as the new image data, then clear the other canvas. */
    method Merge(other: Layer)
      requires Valid() && ready && other.ready
      modifies this`canvas, this`originX, this`originY, this`zoomX, this`zoomY, this`imageData
      modifies other`canvas
      ensures Valid()
      ensures Layout() == Transform.Identity
      ensures imageData == Some(Capture(
                Visible(old(canvas)) + [MergePlacement(old(other.canvas), old(other.width), old(other.height))],
                width, height))
      ensures other != this ==>
                && canvas == old(canvas) + [Paint(MergePlacement(old(other.canvas), other.width, other.height))]
                && other.canvas == old(other.canvas) + [Clear]
      ensures other == this ==>
                canvas == old(canvas) + [Paint(MergePlacement(old(canvas), width, height)), Clear]
      ensures Visible(other.canvas) == []
      ensures old(other.Valid()) ==> other.Valid()
    {
      var p := MergePlacement(other.canvas, other.width, other.height);
      canvas := canvas + [Paint(p)];
      VisibleSnoc(old(canvas), Paint(p));
      ResetLayout();
      imageData := Some(Capture(Visible(canvas), width, height));
      other.ClearContextRect();
    }
  }

  /** Zoom scenarios on a 100 x 100 layer, driven through the class contracts alone. */
  method ZoomScenarios()
  {
    var image := new Layer("imageLayer");
    image.Initialise(100, 100);
    image.SetZoom(0.5, 0.5, 50.0, 50.0);
    Transform.ZoomScenario();
    assert image.Layout() == Transform.State(-25.0, -25.0, 1.5, 1.5);

    image.ResetLayout();
    image.Zoom(9.0, 9.0, 50.0, 50.0);
    Transform.ZoomRejectScenario();
    assert image.Layout() == Transform.Identity;
  }

  /** Pan scenarios on a 100 x 100 layer, driven through the class contracts alone. */
  method PanScenarios()
  {
    var image := new Layer("imageLayer");
    image.Initialise(100, 100);
    image.SetTranslate(10.0, 0.0);
    Transform.TranslateRejectScenario();
    assert image.Layout() == Transform.Identity;

    image.SetZoom(1.0, 1.0, 50.0, 50.0);
    assert image.Layout() == Transform.State(-50.0, -50.0, 2.0, 2.0);
    image.Translate(-60.0, 0.0);
    Transform.TranslateLowerBoundScenario();
    assert image.Layout() == Transform.State(-50.0, -50.0, 2.0, 2.0);
  }

  /** Flattening a drawing layer onto a zoomed image layer. */
  method MergeScenario()
  {
    var image := new Layer("imageLayer");
    image.Initialise(100, 100);
    image.SetImageData(Decoded(0));
    image.Zoom(1.0, 1.0, 50.0, 50.0);
    var drawing := new Layer("drawLayer");
    drawing.Initialise(100, 100);
    image.Merge(drawing);
    assert image.Layout() == Transform.Identity;
    assert Visible(drawing.canvas) == [];
    assert drawing.Layout() == Transform.Identity;
  }
}
