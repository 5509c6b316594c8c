/** An abstract 2D canvas. Pixels are not modelled: a canvas is the log of the
    clearRect and drawImage calls made on it, oldest first, and what it shows is
    the list of images drawn since the last clear, bottom to top. */
module Canvas {

  datatype Option<T> = None | Some(value: T)

  /** Pixel content held outside a canvas (an ImageData). */
  datatype Image =
    | Capture(shown: seq<Placement>, width: nat, height: nat)  // read back from a canvas with getImageData
    | Decoded(frame: nat)                                      // handed in by a caller; opaque here

  /** What a drawImage call copies from. */
  datatype Source =
    | Buffer(image: Image, width: nat, height: nat)            // a scratch canvas of this size with `image` put unscaled at (0, 0)
    | Surface(shown: seq<Placement>, width: nat, height: nat)  // another canvas, as it shows now

  /** One drawImage call: the source stretched onto the rectangle (x, y, width, height). */
  datatype Placement = Placement(source: Source, x: real, y: real, width: real, height: real)

  datatype Op = Clear | Paint(placement: Placement)

  /** What a canvas with this log shows: the images painted after the last clear, in order. */
  function Visible(log: seq<Op>): (r: seq<Placement>)
    ensures |r| <= |log|
    ensures Clear !in log ==> |r| == |log| && forall i :: 0 <= i < |log| ==> log[i] == Paint(r[i])
    ensures forall p :: p in r ==> Paint(p) in log
    decreases |log|
  {
    if log == [] then []
    else
      match log[|log| - 1]
      case Clear => []
      case Paint(p) => Visible(log[..|log| - 1]) + [p]
  }

  /** One more call on a canvas: a clear empties it, a paint goes on top. */
  lemma VisibleSnoc(log: seq<Op>, op: Op)
    ensures Visible(log + [op]) == if op.Clear? then [] else Visible(log) + [op.placement]
  {
    assert (log + [op])[..|log|] == log;
  }

  /** Appending calls to a log: a clear among them hides everything drawn before. */
  lemma {:induction false} VisibleAppend(a: seq<Op>, b: seq<Op>)
    ensures Visible(a + b) == if Clear in b then Visible(b) else Visible(a) + Visible(b)
    decreases |b|
  {
    if b == [] {
      assert a + b == a;
    } else {
      var n := |b| - 1;
      var front := b[..n];
      assert b == front + [b[n]];
      assert a + b == (a + front) + [b[n]];
      VisibleAppend(a, front);
      VisibleSnoc(a + front, b[n]);
      VisibleSnoc(front, b[n]);
      assert Clear in b <==> Clear in front || b[n].Clear?;
    }
  }

  /** Whatever a clear hides stays hidden: the canvas shows what was painted after
      any clear in its log, so by the clause of `Visible` for clear-free logs it shows
      exactly the images painted after the last clear, in order. */
  lemma {:induction false} VisibleSinceClear(log: seq<Op>, i: nat)
    requires i < |log| && log[i] == Clear
    ensures Visible(log) == Visible(log[i + 1..])
  {
    assert log == log[..i + 1] + log[i + 1..];
    VisibleAppend(log[..i + 1], log[i + 1..]);
    assert log[..i + 1] == log[..i] + [Clear];
    VisibleSnoc(log[..i], Clear);
  }
}
