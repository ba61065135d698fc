/**
 Rectangle outlines of the PixelPlotter lab (`DrawRectangle`).

 The routine makes two loops: the first writes the top row Y and the row
 Y + Height - 1 for every column of the width, the second writes the left
 column X and the column X + Width - 1 for every row of the height. There
 is no guard on the sizes, so the pixels written are exactly those two
 loops' calls, even for degenerate sizes.
 */
module Rectangle {

  import opened Optional
  import opened Raster

  function Max0(n: int): nat
  {
    if n < 0 then 0 else n
  }

  /** The calls of the first loop for its first `n` iterations, in call order. */
  function RowCalls(X: int, Y: int, height: int, n: nat): (calls: seq<Point>)
    ensures |calls| == 2 * n
  {
    if n == 0 then []
    else RowCalls(X, Y, height, n - 1) + [(X + n - 1, Y), (X + n - 1, Y + height - 1)]
  }

  /** The calls of the second loop for its first `n` iterations, in call order. */
  function ColumnCalls(X: int, Y: int, width: int, n: nat): (calls: seq<Point>)
    ensures |calls| == 2 * n
  {
    if n == 0 then []
    else ColumnCalls(X, Y, width, n - 1) + [(X, Y + n - 1), (X + width - 1, Y + n - 1)]
  }

  /** Every `SetViewportPixel` call `DrawRectangle` makes, in order. */
  function RectangleCalls(X: int, Y: int, width: int, height: int): seq<Point>
  {
    RowCalls(X, Y, height, Max0(width)) + ColumnCalls(X, Y, width, Max0(height))
  }

  /** The outline of the rectangle [X, X + W - 1] x [Y, Y + H - 1]. */
  predicate OnBorder(X: int, Y: int, width: int, height: int, p: Point)
  {
    && X <= p.0 < X + width && Y <= p.1 < Y + height
    && (p.0 == X || p.0 == X + width - 1 || p.1 == Y || p.1 == Y + height - 1)
  }

  /**
   `DrawRectangle` with the source's two loops. Besides the new viewport it
   returns the pixels passed to `SetViewportPixel`, in call order.
   */
  method DrawRectangle(v: Viewport, X: int, Y: int, width: int, height: int, colour: Colour)
    returns (r: Viewport, calls: seq<Point>)
    ensures calls == RectangleCalls(X, Y, width, height)
    ensures forall p :: At(r, p) == if p in calls then Some(colour) else At(v, p)
  {
    r, calls := v, [];
    var i := 0;
    while i < width
      invariant 0 <= i == Max0(i) <= Max0(width)
      invariant calls == RowCalls(X, Y, height, i)
      invariant forall p :: At(r, p) == if p in calls then Some(colour) else At(v, p)
    {
      r := r[(X + i, Y) := colour];
      r := r[(X + i, Y + height - 1) := colour];
      calls := calls + [(X + i, Y), (X + i, Y + height - 1)];
      i := i + 1;
    }
    ghost var rows := calls;
    i := 0;
    while i < height
      invariant 0 <= i == Max0(i) <= Max0(height)
      invariant calls == rows + ColumnCalls(X, Y, width, i)
      invariant forall p :: At(r, p) == if p in calls then Some(colour) else At(v, p)
    {
      r := r[(X, Y + i) := colour];
      r := r[(X + width - 1, Y + i) := colour];
      calls := calls + [(X, Y + i), (X + width - 1, Y + i)];
      i := i + 1;
    }
  }

  lemma {:induction false} RowCallsMembers(X: int, Y: int, height: int, n: nat, p: Point)
    ensures p in RowCalls(X, Y, height, n) <==> X <= p.0 < X + n && (p.1 == Y || p.1 == Y + height - 1)
  {
    if n > 0 {
      RowCallsMembers(X, Y, height, n - 1, p);
    }
  }

  lemma {:induction false} ColumnCallsMembers(X: int, Y: int, width: int, n: nat, p: Point)
    ensures p in ColumnCalls(X, Y, width, n) <==> Y <= p.1 < Y + n && (p.0 == X || p.0 == X + width - 1)
  {
    if n > 0 {
      ColumnCallsMembers(X, Y, width, n - 1, p);
    }
  }

  /** For positive sizes the pixels written are exactly the rectangle's outline. */
  lemma WritesExactlyBorder(X: int, Y: int, width: int, height: int)
    requires width >= 1 && height >= 1
    ensures forall p :: p in RectangleCalls(X, Y, width, height) <==> OnBorder(X, Y, width, height, p)
  {
    forall p ensures p in RectangleCalls(X, Y, width, height) <==> OnBorder(X, Y, width, height, p) {
      RowCallsMembers(X, Y, height, width, p);
      ColumnCallsMembers(X, Y, width, height, p);
    }
  }

  /** No pixel strictly inside the rectangle is written. */
  lemma InteriorUntouched(X: int, Y: int, width: int, height: int, p: Point)
    requires X < p.0 < X + width - 1 && Y < p.1 < Y + height - 1
    ensures p !in RectangleCalls(X, Y, width, height)
  {
    RowCallsMembers(X, Y, height, Max0(width), p);
    ColumnCallsMembers(X, Y, width, Max0(height), p);
  }

  /** `SetViewportPixel` is called 2W + 2H times for non-negative sizes, so each corner is written twice. */
  lemma CallCount(X: int, Y: int, width: int, height: int)
    requires width >= 0 && height >= 0
    ensures |RectangleCalls(X, Y, width, height)| == 2 * width + 2 * height
  {
  }

  /** The corner (X, Y) is written once by each loop. */
  lemma {:induction false} TopLeftWrittenTwice(X: int, Y: int, width: int, height: int)
    requires width >= 1 && height >= 1
    ensures var calls := RectangleCalls(X, Y, width, height);
            calls[0] == (X, Y) && calls[2 * width] == (X, Y)
  {
    RowCallsPrefix(X, Y, height, width);
    ColumnCallsPrefix(X, Y, width, height);
  }

  lemma {:induction false} RowCallsPrefix(X: int, Y: int, height: int, n: nat)
    requires n >= 1
    ensures RowCalls(X, Y, height, n)[0] == (X, Y)
  {
    if n > 1 {
      RowCallsPrefix(X, Y, height, n - 1);
    }
  }

  lemma {:induction false} ColumnCallsPrefix(X: int, Y: int, width: int, n: nat)
    requires n >= 1
    ensures ColumnCalls(X, Y, width, n)[0] == (X, Y)
  {
    if n > 1 {
      ColumnCallsPrefix(X, Y, width, n - 1);
    }
  }

  /** With no width and no height nothing is written. */
  lemma NothingForEmptySizes(X: int, Y: int, width: int, height: int)
    requires width <= 0 && height <= 0
    ensures RectangleCalls(X, Y, width, height) == []
  {
  }

  /** With zero height the unguarded first loop still writes rows Y and Y - 1. */
  lemma ZeroHeightWritesTwoRows(X: int, Y: int, width: int, p: Point)
    requires width > 0
    ensures p in RectangleCalls(X, Y, width, 0) <==> X <= p.0 < X + width && (p.1 == Y || p.1 == Y - 1)
  {
    RowCallsMembers(X, Y, 0, width, p);
  }
}
