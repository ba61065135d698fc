/**
 The colour cycle of the Assignment scene's third light.

 The channels r, g, b are floats in the source but only ever hold whole
 numbers from 0 to 255, which floats represent exactly, so they are
 modelled as integers. Each frame adds the deltas (dr, dg, db) to the
 channels and then, at each of the six corners of the hue hexagon, sets
 the deltas that walk to the next corner.
 */
module HueCycle {

  datatype Hue = Hue(r: int, g: int, b: int, dr: int, dg: int, db: int)

  /** The globals' initial values: red, and no deltas yet. */
  const Start := Hue(255, 0, 0, 0, 0, 0)

  /**
   One frame: add the deltas, then the six corner tests. The tests are
   sequential `if`s, so where several matched the last would win; the chain
   below asks them from the last to the first.
   */
  function Step(h: Hue): Hue
  {
    var r, g, b := h.r + h.dr, h.g + h.dg, h.b + h.db;
    if r == 255 && g == 0 && b == 255 then Hue(r, g, b, 0, 0, -1)
    else if r == 0 && g == 0 && b == 255 then Hue(r, g, b, 1, 0, 0)
    else if r == 0 && g == 255 && b == 255 then Hue(r, g, b, 0, -1, 0)
    else if r == 0 && g == 255 && b == 0 then Hue(r, g, b, 0, 0, 1)
    else if r == 255 && g == 255 && b == 0 then Hue(r, g, b, -1, 0, 0)
    else if r == 255 && g == 0 && b == 0 then Hue(r, g, b, 0, 1, 0)
    else Hue(r, g, b, h.dr, h.dg, h.db)
  }

  /** `n` frames. */
  function Updates(h: Hue, n: nat): Hue
  {
    if n == 0 then h else Step(Updates(h, n - 1))
  }

  /**
   The state `t` frames past corner `j` of the hexagon, for edges j = 0..5
   and t = 0..254: one channel at 255, one at 0, and the third walking from
   one to the other.
   */
  function Edge(j: int, t: int): (h: Hue)
    requires 0 <= j < 6 && 0 <= t < 255
    ensures 0 <= h.r <= 255 && 0 <= h.g <= 255 && 0 <= h.b <= 255
  {
    if j == 0 then Hue(255, t, 0, 0, 1, 0)
    else if j == 1 then Hue(255 - t, 255, 0, -1, 0, 0)
    else if j == 2 then Hue(0, 255, t, 0, 0, 1)
    else if j == 3 then Hue(0, 255 - t, 255, 0, -1, 0)
    else if j == 4 then Hue(t, 0, 255, 1, 0, 0)
    else Hue(255, 0, 255 - t, 0, 0, -1)
  }

  /** The state after the (k+1)-th frame, for k in one period of 6 * 255 = 1530 frames: k % 255 frames along edge k / 255. */
  function Cycle(k: int): (h: Hue)
    requires 0 <= k < 1530
    ensures 0 <= h.r <= 255 && 0 <= h.g <= 255 && 0 <= h.b <= 255
  {
    Edge(k / 255, k % 255)
  }

  /** The first frame turns the initial red into the start of the cycle. */
  lemma FirstStep()
    ensures Step(Start) == Edge(0, 0) == Cycle(0)
  {
  }

  /** The hue is on the hexagon: channels in range, one at 255, one at 0, exactly one delta set, to +1 or -1. */
  predicate OnHexagon(h: Hue)
  {
    && 0 <= h.r <= 255 && 0 <= h.g <= 255 && 0 <= h.b <= 255
    && (h.r == 255 || h.g == 255 || h.b == 255)
    && (h.r == 0 || h.g == 0 || h.b == 0)
    && (h.dr == 0 || h.dg == 0) && (h.dr == 0 || h.db == 0) && (h.dg == 0 || h.db == 0)
    && (h.dr == 1 || h.dr == -1 || h.dg == 1 || h.dg == -1 || h.db == 1 || h.db == -1)
    && -1 <= h.dr <= 1 && -1 <= h.dg <= 1 && -1 <= h.db <= 1
  }

  lemma EdgeOnHexagon(j: int, t: int)
    requires 0 <= j < 6 && 0 <= t < 255
    ensures OnHexagon(Edge(j, t))
  {
  }

  /** The edge and offset one frame later: along the edge, onto the next corner, or from the sixth edge back to the first. */
  function Next(j: int, t: int): (p: (int, int))
    requires 0 <= j < 6 && 0 <= t < 255
    ensures 0 <= p.0 < 6 && 0 <= p.1 < 255
  {
    if t < 254 then (j, t + 1) else if j < 5 then (j + 1, 0) else (0, 0)
  }

  /** Each frame walks one step along the cycle. */
  lemma StepEdge(j: int, t: int)
    requires 0 <= j < 6 && 0 <= t < 255
    ensures Step(Edge(j, t)) == Edge(Next(j, t).0, Next(j, t).1)
  {
    if t < 254 {
      StepAlong(j, t);
    } else if j < 5 {
      StepCorner(j);
    } else {
      assert Step(Edge(5, 254)) == Edge(0, 0);
    }
  }

  /** Inside an edge, a frame moves one step along it. */
  lemma StepAlong(j: int, t: int)
    requires 0 <= j < 6 && 0 <= t < 254
    ensures Step(Edge(j, t)) == Edge(j, t + 1)
  {
    if j == 0 {
      assert Edge(j, t) == Hue(255, t, 0, 0, 1, 0);
    } else if j == 1 {
      assert Edge(j, t) == Hue(255 - t, 255, 0, -1, 0, 0);
    } else if j == 2 {
      assert Edge(j, t) == Hue(0, 255, t, 0, 0, 1);
    } else if j == 3 {
      assert Edge(j, t) == Hue(0, 255 - t, 255, 0, -1, 0);
    } else if j == 4 {
      assert Edge(j, t) == Hue(t, 0, 255, 1, 0, 0);
    } else {
      assert Edge(j, t) == Hue(255, 0, 255 - t, 0, 0, -1);
    }
  }

  /** The last frame of edge j reaches corner j + 1 and turns onto the next edge. */
  lemma StepCorner(j: int)
    requires 0 <= j < 5
    ensures Step(Edge(j, 254)) == Edge(j + 1, 0)
  {
    if j == 0 {
      assert Step(Edge(0, 254)) == Edge(1, 0);
    } else if j == 1 {
      assert Step(Edge(1, 254)) == Edge(2, 0);
    } else if j == 2 {
      assert Step(Edge(2, 254)) == Edge(3, 0);
    } else if j == 3 {
      assert Step(Edge(3, 254)) == Edge(4, 0);
    } else {
      assert Step(Edge(4, 254)) == Edge(5, 0);
    }
  }

  /** The hue is one of the states of the cycle. */
  predicate OnCycle(h: Hue)
  {
    exists j, t | 0 <= j < 6 && 0 <= t < 255 :: Edge(j, t) == h
  }

  /** The initial state steps onto the cycle, and a state on the cycle stays on it, on the hexagon. */
  lemma StepStaysOnCycle(h: Hue)
    requires OnCycle(h) || h == Start
    ensures OnCycle(Step(h)) && OnHexagon(Step(h))
  {
    if h == Start {
      FirstStep();
      EdgeOnHexagon(0, 0);
    } else {
      var j, t :| 0 <= j < 6 && 0 <= t < 255 && Edge(j, t) == h;
      StepEdge(j, t);
      EdgeOnHexagon(Next(j, t).0, Next(j, t).1);
    }
  }

  /**
   Frame n + 1 is t frames along edge j, where n == 1530 m + 255 j + t:
   proved by walking forward one frame at a time.
   */
  lemma {:induction false} Walk(n: nat) returns (m: nat, j: nat, t: nat)
    ensures j < 6 && t < 255 && n == 1530 * m + 255 * j + t
    ensures Updates(Start, n + 1) == Edge(j, t)
  {
    if n == 0 {
      FirstStep();
      m, j, t := 0, 0, 0;
    } else {
      var m', j', t' := Walk(n - 1);
      Forward(n, j', t');
      j, t := Next(j', t').0, Next(j', t').1;
      m := if j' == 5 && t' == 254 then m' + 1 else m';
    }
  }

  /** One more frame from a known position on the cycle. */
  lemma Forward(n: nat, j: int, t: int)
    requires 0 <= j < 6 && 0 <= t < 255
    requires Updates(Start, n) == Edge(j, t)
    ensures Updates(Start, n + 1) == Edge(Next(j, t).0, Next(j, t).1)
  {
    StepEdge(j, t);
  }

  /** Frame 1 + 1530 m + 255 j + t is t frames along edge j, in every turn m. */
  lemma UpdatesAt(m: nat, j: nat, t: nat)
    requires j < 6 && t < 255
    ensures Updates(Start, 1 + 1530 * m + 255 * j + t) == Edge(j, t)
  {
    var m', j', t' := Walk(1530 * m + 255 * j + t);
    Unique(m, j, t, m', j', t');
  }

  /** The decomposition into turns, edges and offsets is unique. */
  lemma Unique(m: nat, j: nat, t: nat, m': nat, j': nat, t': nat)
    requires j < 6 && t < 255 && j' < 6 && t' < 255
    requires 1530 * m + 255 * j + t == 1530 * m' + 255 * j' + t'
    ensures m == m' && j == j' && t == t'
  {
  }

  /** The frame count n >= 1 lands t frames along edge j. */
  lemma Position(n: nat) returns (j: nat, t: nat)
    requires n >= 1
    ensures j < 6 && t < 255 && Updates(Start, n) == Edge(j, t)
  {
    var m;
    m, j, t := Walk(n - 1);
  }

  /** Turns, edge and offset of a frame count: n == 1530 m + 255 j + t. */
  lemma Decompose(n: nat) returns (m: nat, j: nat, t: nat)
    ensures n == 1530 * m + 255 * j + t && j < 6 && t < 255
  {
    m := n / 1530;
    var r := n % 1530;
    j, t := r / 255, r % 255;
  }

  /** After n + 1 frames from the start the state is step n mod 1530 of the cycle. */
  lemma UpdatesFromStart(n: nat)
    ensures Updates(Start, n + 1) == Cycle(n % 1530)
  {
    var m, j, t := Decompose(n);
    UpdatesAt(m, j, t);
    ResidueOf(n, m, 255 * j + t);
    Quotient255(255 * j + t, j, t);
  }

  /** The residue mod 1530 is the unique remainder in range. */
  lemma ResidueOf(n: int, q: int, m: int)
    requires n == q * 1530 + m && 0 <= m < 1530
    ensures n % 1530 == m
  {
  }

  /** Every frame's colour, including the initial one, has channels in 0..255 and at most one delta set. */
  lemma AlwaysInRange(n: nat)
    ensures var h := Updates(Start, n);
            && 0 <= h.r <= 255 && 0 <= h.g <= 255 && 0 <= h.b <= 255
            && (h.dr == 0 || h.dg == 0) && (h.dr == 0 || h.db == 0) && (h.dg == 0 || h.db == 0)
  {
    if n > 0 {
      OnHexagonAfterFirstFrame(n);
    }
  }

  /** From the first frame on, the hue is always on the hexagon. */
  lemma OnHexagonAfterFirstFrame(n: nat)
    requires n >= 1
    ensures OnHexagon(Updates(Start, n))
  {
    var j, t := Position(n);
    EdgeOnHexagon(j, t);
  }

  /** The colour comes round again every 1530 frames. */
  lemma Periodic(n: nat)
    requires n >= 1
    ensures Updates(Start, n + 1530) == Updates(Start, n)
  {
    var m, j, t := Decompose(n - 1);
    UpdatesAt(m, j, t);
    UpdatesAt(m + 1, j, t);
  }

  /** The colour channels of a hue. */
  function Colour(h: Hue): (int, int, int)
  {
    (h.r, h.g, h.b)
  }

  /** The six corners of the hexagon in the order the cycle visits them. */
  function CornerColour(j: int): (int, int, int)
    requires 0 <= j < 6
  {
    [(255, 0, 0), (255, 255, 0), (0, 255, 0), (0, 255, 255), (0, 0, 255), (255, 0, 255)][j]
  }

  /**
   Every 255 frames, from the first, the colour reaches the next corner of
   the hexagon: frame 1 + 1530 m + 255 j shows corner j.
   */
  lemma Corners(m: nat, j: nat)
    requires j < 6
    ensures Colour(Updates(Start, 1 + 1530 * m + 255 * j)) == CornerColour(j)
  {
    UpdatesAt(m, j, 0);
  }

  /** Quotient and remainder by 255 of a number written as 255 j + t. */
  lemma Quotient255(k: int, j: int, t: int)
    requires k == 255 * j + t && 0 <= t < 255
    ensures k / 255 == j && k % 255 == t
  {
  }

  /** `gLights[2].colour`: each channel divided by 255, so every component lies in [0, 1]. */
  function LightColour(h: Hue): (c: (real, real, real))
    ensures c.0 * 255.0 == h.r as real && c.1 * 255.0 == h.g as real && c.2 * 255.0 == h.b as real
    ensures 0 <= h.r <= 255 && 0 <= h.g <= 255 && 0 <= h.b <= 255 ==>
              0.0 <= c.0 <= 1.0 && 0.0 <= c.1 <= 1.0 && 0.0 <= c.2 <= 1.0
  {
    (h.r as real / 255.0, h.g as real / 255.0, h.b as real / 255.0)
  }
}
