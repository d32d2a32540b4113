/**
 * The corners of the rounded rectangle: which corner each fan wedge belongs
 * to, and how the sweep angle advances from one wedge to the next.
 */
module CornerFacts {
  import opened Scene
  import opened Geometry
  import opened GeometryFacts

  /** Which of the four corners wedge i belongs to: quadrant q covers wedges qs to qs + s - 1. */
  lemma QuadrantBounds(s: nat, i: nat)
    requires 0 < s && i < 4 * s
    ensures i / s < 4
    ensures (i / s) * s <= i < (i / s) * s + s
  {
    var q, m := i / s, i % s;
    assert i == q * s + m && 0 <= m < s;
  }

  /**
   * The anchor of wedge i is the centre of the corner of its quadrant q = i / s:
   * (wi, hi) top right, (-wi, hi) top left, (-wi, -hi) bottom left, (wi, -hi)
   * bottom right, with the texture anchor following the same corners.
   */
  lemma AnchorByQuadrant(wi: real, hi: real, ul: real, ur: real, vl: real, vh: real, s: nat, i: nat)
    requires 0 < s && i < 4 * s
    ensures var q := i / s;
            && (q == 0 ==> AnchorX(wi, s, i) == wi && AnchorY(hi, s, i) == hi
                           && AnchorU(ul, ur, s, i) == ur && AnchorV(vl, vh, s, i) == vh)
            && (q == 1 ==> AnchorX(wi, s, i) == -wi && AnchorY(hi, s, i) == hi
                           && AnchorU(ul, ur, s, i) == ul && AnchorV(vl, vh, s, i) == vh)
            && (q == 2 ==> AnchorX(wi, s, i) == -wi && AnchorY(hi, s, i) == -hi
                           && AnchorU(ul, ur, s, i) == ul && AnchorV(vl, vh, s, i) == vl)
            && (q == 3 ==> AnchorX(wi, s, i) == wi && AnchorY(hi, s, i) == -hi
                           && AnchorU(ul, ur, s, i) == ur && AnchorV(vl, vh, s, i) == vl)
  {
    QuadrantBounds(s, i);
    var q := i / s;
    if q == 1 {
      assert s <= i < 2 * s;
    } else if q == 2 {
      assert 2 * s <= i < 3 * s;
    } else if q == 3 {
      assert 3 * s <= i;
    }
  }

  lemma AngleScale(k: nat, s: nat)
    requires s > 0
    ensures Angle(k, s) == (k as real) * (PI / (2.0 * (s as real)))
  {
    var sr := s as real;
    assert ((4 * s) as real) == 4.0 * sr;
    calc {
      Angle(k, s);
      PI * 2.0 * (k as real) / (4.0 * sr);
      (k as real) * (PI / (2.0 * sr));
    }
  }

  /**
   * The sweep starts at 0 and closes at 2 pi; successive division points are
   * pi / (2s) apart, so the end angle of one wedge is the start of the next;
   * the division point qs is the quarter turn q pi / 2.
   */
  lemma AngleChain(s: nat, k: nat, q: nat)
    requires s > 0
    ensures Angle(0, s) == 0.0
    ensures Angle(4 * s, s) == 2.0 * PI
    ensures Angle(k + 1, s) == Angle(k, s) + PI / (2.0 * (s as real))
    ensures Angle(q * s, s) == (q as real) * PI / 2.0
  {
    var step := PI / (2.0 * (s as real));
    AngleScale(0, s);
    AngleScale(4 * s, s);
    AngleScale(k, s);
    AngleScale(k + 1, s);
    AngleScale(q * s, s);
    assert ((4 * s) as real) * step == 2.0 * PI;
    assert ((q * s) as real) * step == (q as real) * PI / 2.0;
  }

  lemma AngleMonotone(s: nat, j: nat, k: nat)
    requires s > 0 && j <= k
    ensures Angle(j, s) <= Angle(k, s)
    ensures j < k ==> Angle(j, s) < Angle(k, s)
  {
    AngleScale(j, s);
    AngleScale(k, s);
    var step, d := PI / (2.0 * (s as real)), (k - j) as real;
    assert step > 0.0 && d >= 0.0;
    assert d * step >= 0.0 && (j < k ==> d * step > 0.0);
    assert (k as real) * step == (j as real) * step + d * step;
  }

  /** Wedge i sweeps an arc inside the quarter turn of its quadrant q = i / s, counter-clockwise. */
  lemma WedgeSweep(s: nat, i: nat)
    requires 0 < s && i < 4 * s
    ensures var q := i / s;
            (q as real) * PI / 2.0 <= Angle(i, s) < Angle(i + 1, s) <= ((q + 1) as real) * PI / 2.0
  {
    QuadrantBounds(s, i);
    var q := i / s;
    AngleChain(s, i, q);
    AngleChain(s, i, q + 1);
    AngleMonotone(s, q * s, i);
    assert (q + 1) * s == q * s + s;
    AngleMonotone(s, i + 1, (q + 1) * s);
  }

  /** Within one corner the fan is closed: wedge i ends at the very vertex where wedge i + 1 starts its arc. */
  lemma FanContinuity(w: real, h: real, r: real, s: nat, i: nat, cos: real -> real, sin: real -> real)
    requires w != 0.0 && h != 0.0 && i + 1 < 4 * s
    requires i + 1 != s && i + 1 != 2 * s && i + 1 != 3 * s
    ensures 23 + 3 * i <= |Positions(w, h, r, s, cos, sin)| / 3 && 23 + 3 * i <= |UVs(w, h, r, s, cos, sin)| / 2
    ensures Vertex(Positions(w, h, r, s, cos, sin), 20 + 3 * i) == Vertex(Positions(w, h, r, s, cos, sin), 22 + 3 * i)
    ensures TexCoord(UVs(w, h, r, s, cos, sin), 20 + 3 * i) == TexCoord(UVs(w, h, r, s, cos, sin), 22 + 3 * i)
  {
    WedgeVertices(w, h, r, s, i, cos, sin);
    WedgeVertices(w, h, r, s, i + 1, cos, sin);
    var g := InsetsOf(w, h, r);
    assert AnchorX(g.wi, s, i) == AnchorX(g.wi, s, i + 1) && AnchorY(g.hi, s, i) == AnchorY(g.hi, s, i + 1);
    assert AnchorU(g.ul, g.ur, s, i) == AnchorU(g.ul, g.ur, s, i + 1);
    assert AnchorV(g.vl, g.vh, s, i) == AnchorV(g.vl, g.vh, s, i + 1);
  }
}
