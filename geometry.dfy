/**
 * The rounded-rectangle buffer builder of `TCanvas.RoundedRectangle`.
 *
 * The builder emits a triangle list for a w-by-h rectangle with corner radius r
 * centred at the origin: six fixed triangles for the cross-shaped body, then one
 * fan wedge per arc step, s steps for each of the four corners. Positions are
 * flat (x, y, z) triples and texture coordinates flat (u, v) pairs, as the arrays
 * the source hands to `BufferAttribute`. `cos` and `sin` are parameters with no
 * interpretation: every fact proved here holds for any pair of functions.
 */
module Geometry {
  import opened Scene

  /** One triangle as nine position floats: three (x, y, 0) vertices. */
  function Triangle(x0: real, y0: real, x1: real, y1: real, x2: real, y2: real): (p: seq<real>)
    ensures |p| == 9
  {
    [x0, y0, 0.0, x1, y1, 0.0, x2, y2, 0.0]
  }

  /** The texture coordinates of one triangle as six floats. */
  function TexTriangle(u0: real, v0: real, u1: real, v1: real, u2: real, v2: real): (t: seq<real>)
    ensures |t| == 6
  {
    [u0, v0, u1, v1, u2, v2]
  }

  /**
   * The 18 body vertices, as the source's initial position array, one row of
   * that array (one triangle) per term: the centre band, then the left and the
   * right strips between the corners.
   */
  function BodyPositions(wi: real, hi: real, w2: real, h2: real): (p: seq<real>)
    ensures |p| == 54
  {
    Triangle(-wi, -h2,  wi, -h2,  wi, h2) +
    Triangle(-wi, -h2,  wi,  h2, -wi, h2) +
    Triangle(-w2, -hi, -wi, -hi, -wi, hi) +
    Triangle(-w2, -hi, -wi,  hi, -w2, hi) +
    Triangle( wi, -hi,  w2, -hi,  w2, hi) +
    Triangle( wi, -hi,  w2,  hi,  wi, hi)
  }

  /** The texture coordinates of the 18 body vertices, as the source's initial uv array, one row per term. */
  function BodyUVs(ul: real, ur: real, vl: real, vh: real): (t: seq<real>)
    ensures |t| == 36
  {
    TexTriangle( ul, 0.0,  ur, 0.0,  ur, 1.0) +
    TexTriangle( ul, 0.0,  ur, 1.0,  ul, 1.0) +
    TexTriangle(0.0,  vl,  ul,  vl,  ul,  vh) +
    TexTriangle(0.0,  vl,  ul,  vh, 0.0,  vh) +
    TexTriangle( ur,  vl, 1.0,  vl, 1.0,  vh) +
    TexTriangle( ur,  vl, 1.0,  vh,  ur,  vh)
  }

  /** The k-th division point of the full turn into 4s equal steps: wedge i sweeps from Angle(i) to Angle(i + 1). */
  function Angle(k: nat, s: nat): real
    requires s > 0
  {
    PI * 2.0 * (k as real) / ((4 * s) as real)
  }

  /** The corner anchor of wedge i: x is positive in the first and last quarter of the sweep. */
  function AnchorX(wi: real, s: nat, i: nat): real
  {
    if i < s || i >= 3 * s then wi else -wi
  }

  /** The corner anchor of wedge i: y is positive in the first half of the sweep. */
  function AnchorY(hi: real, s: nat, i: nat): real
  {
    if i < 2 * s then hi else -hi
  }

  /** The texture anchor of wedge i, mirroring AnchorX. */
  function AnchorU(ul: real, ur: real, s: nat, i: nat): real
  {
    if i < s || i >= 3 * s then ur else ul
  }

  /** The texture anchor of wedge i, mirroring AnchorY. */
  function AnchorV(vl: real, vh: real, s: nat, i: nat): real
  {
    if i < 2 * s then vh else vl
  }

  /** The coordinate c moved by k times t: an arc point is its anchor plus the radius times a cosine or sine. */
  function Offset(c: real, k: real, t: real): real
  {
    c + k * t
  }

  /** The nine position floats of one fan wedge: the anchor and the two arc points at the given cosines and sines. */
  function Wedge(xc: real, yc: real, r: real, cosa: real, sina: real, cosb: real, sinb: real): (p: seq<real>)
    ensures |p| == 9
  {
    Triangle(xc, yc, Offset(xc, r, cosa), Offset(yc, r, sina), Offset(xc, r, cosb), Offset(yc, r, sinb))
  }

  /** The six uv floats of one fan wedge. */
  function WedgeTex(uc: real, vc: real, ul: real, vl: real, cosa: real, sina: real, cosb: real, sinb: real): (t: seq<real>)
    ensures |t| == 6
  {
    TexTriangle(uc, vc, Offset(uc, ul, cosa), Offset(vc, vl, sina), Offset(uc, ul, cosb), Offset(vc, vl, sinb))
  }

  /** The position floats that iteration i pushes. */
  function WedgePositions(wi: real, hi: real, r: real, s: nat, i: nat, cos: real -> real, sin: real -> real): seq<real>
    requires s > 0
  {
    var a, b := Angle(i, s), Angle(i + 1, s);
    Wedge(AnchorX(wi, s, i), AnchorY(hi, s, i), r, cos(a), sin(a), cos(b), sin(b))
  }

  /** The uv floats that iteration i pushes. */
  function WedgeUVs(ul: real, ur: real, vl: real, vh: real, s: nat, i: nat, cos: real -> real, sin: real -> real): seq<real>
    requires s > 0
  {
    var a, b := Angle(i, s), Angle(i + 1, s);
    WedgeTex(AnchorU(ul, ur, s, i), AnchorV(vl, vh, s, i), ul, vl, cos(a), sin(a), cos(b), sin(b))
  }

  /** The position buffer p0 after n iterations of the loop have pushed wedges 0 to n - 1 onto it, in order. */
  function AppendWedges(p0: seq<real>, wi: real, hi: real, r: real, s: nat, n: nat,
                        cos: real -> real, sin: real -> real): (p: seq<real>)
    requires n <= 4 * s
    ensures |p| == |p0| + 9 * n
  {
    if n == 0 then p0
    else AppendWedges(p0, wi, hi, r, s, n - 1, cos, sin) + WedgePositions(wi, hi, r, s, n - 1, cos, sin)
  }

  /** The uv buffer t0 after n iterations of the loop have pushed the texture coordinates of wedges 0 to n - 1. */
  function AppendWedgeUVs(t0: seq<real>, ul: real, ur: real, vl: real, vh: real, s: nat, n: nat,
                          cos: real -> real, sin: real -> real): (t: seq<real>)
    requires n <= 4 * s
    ensures |t| == |t0| + 6 * n
  {
    if n == 0 then t0
    else AppendWedgeUVs(t0, ul, ur, vl, vh, s, n - 1, cos, sin) + WedgeUVs(ul, ur, vl, vh, s, n - 1, cos, sin)
  }

  /** The values `RoundedRectangle` derives from its arguments before it builds anything. */
  datatype Insets = Insets(wi: real, hi: real, w2: real, h2: real, ul: real, ur: real, vl: real, vh: real)

  /** Inner half-extents, half-extents, and the texture insets of the corner radius. */
  function InsetsOf(w: real, h: real, r: real): Insets
    requires w != 0.0 && h != 0.0
  {
    Insets(w / 2.0 - r, h / 2.0 - r, w / 2.0, h / 2.0, r / w, (w - r) / w, r / h, (h - r) / h)
  }

  /** The whole position buffer of a rounded rectangle. */
  function Positions(w: real, h: real, r: real, s: nat, cos: real -> real, sin: real -> real): (p: seq<real>)
    requires w != 0.0 && h != 0.0
    ensures |p| == 54 + 36 * s
  {
    var g := InsetsOf(w, h, r);
    AppendWedges(BodyPositions(g.wi, g.hi, g.w2, g.h2), g.wi, g.hi, r, s, 4 * s, cos, sin)
  }

  /** The whole uv buffer of a rounded rectangle. */
  function UVs(w: real, h: real, r: real, s: nat, cos: real -> real, sin: real -> real): (t: seq<real>)
    requires w != 0.0 && h != 0.0
    ensures |t| == 36 + 24 * s
  {
    var g := InsetsOf(w, h, r);
    AppendWedgeUVs(BodyUVs(g.ul, g.ur, g.vl, g.vh), g.ul, g.ur, g.vl, g.vh, s, 4 * s, cos, sin)
  }

  /**
   * What the derived values mean: w2 and h2 are the half-extents, the inner
   * half-extents wi and hi lie one corner radius inside them, and the texture
   * insets are the corner radius as a fraction of the width and the height.
   */
  lemma InsetsMeaning(w: real, h: real, r: real)
    requires w != 0.0 && h != 0.0
    ensures var g := InsetsOf(w, h, r);
            && g.w2 * 2.0 == w && g.h2 * 2.0 == h
            && g.w2 - g.wi == r && g.h2 - g.hi == r
            && g.ul * w == r && g.vl * h == r
            && g.ul + g.ur == 1.0 && g.vl + g.vh == 1.0
  {
    var g := InsetsOf(w, h, r);
    assert g.ul + g.ur == (r + (w - r)) / w;
    assert g.vl + g.vh == (r + (h - r)) / h;
  }

  /** The division points run from 0 to a full turn, and every one in between lies in [0, 2 pi]. */
  lemma AngleRange(k: nat, s: nat)
    requires s > 0
    ensures Angle(0, s) == 0.0
    ensures Angle(4 * s, s) == 2.0 * PI
    ensures 0.0 <= Angle(k, s) && (k <= 4 * s ==> Angle(k, s) <= 2.0 * PI)
  {
    var n := (4 * s) as real;
    var turns := (k as real) / n;
    assert Angle(k, s) == 2.0 * PI * turns;
    assert 0.0 <= turns && (k <= 4 * s ==> turns <= 1.0);
    assert Angle(4 * s, s) == 2.0 * PI * (n / n);
  }

  /**
   * Every anchor is a corner of the inner rectangle, and the texture anchor is
   * on the same side as the position anchor: right exactly when x is +wi, top
   * exactly when y is +hi.
   */
  lemma AnchorMirror(wi: real, hi: real, ul: real, ur: real, vl: real, vh: real, s: nat, i: nat)
    requires wi != 0.0 && hi != 0.0 && ul != ur && vl != vh
    ensures AnchorX(wi, s, i) == wi || AnchorX(wi, s, i) == -wi
    ensures AnchorY(hi, s, i) == hi || AnchorY(hi, s, i) == -hi
    ensures AnchorU(ul, ur, s, i) == ur <==> AnchorX(wi, s, i) == wi
    ensures AnchorV(vl, vh, s, i) == vh <==> AnchorY(hi, s, i) == hi
  {
  }

  /**
   * The nine floats iteration i pushes: three vertices at z = 0, the first one
   * the corner anchor, the other two at distance r from it in the directions
   * of the wedge's start and end angles; its six uv floats: the uv anchor and
   * the same directions scaled by ul and vl.
   */
  lemma WedgeShape(wi: real, hi: real, ul: real, ur: real, vl: real, vh: real, r: real, s: nat, i: nat,
                   cos: real -> real, sin: real -> real)
    requires s > 0
    ensures var p, a, b := WedgePositions(wi, hi, r, s, i, cos, sin), Angle(i, s), Angle(i + 1, s);
            && |p| == 9 && p[2] == p[5] == p[8] == 0.0
            && p[0] == AnchorX(wi, s, i) && p[1] == AnchorY(hi, s, i)
            && p[3] - p[0] == r * cos(a) && p[4] - p[1] == r * sin(a)
            && p[6] - p[0] == r * cos(b) && p[7] - p[1] == r * sin(b)
    ensures var t, a, b := WedgeUVs(ul, ur, vl, vh, s, i, cos, sin), Angle(i, s), Angle(i + 1, s);
            && |t| == 6 && t[0] == AnchorU(ul, ur, s, i) && t[1] == AnchorV(vl, vh, s, i)
            && t[2] - t[0] == ul * cos(a) && t[3] - t[1] == vl * sin(a)
            && t[4] - t[0] == ul * cos(b) && t[5] - t[1] == vl * sin(b)
  {
  }

  /** The array the position push of one loop iteration appends is one wedge. */
  lemma WedgePush(xc: real, yc: real, r: real, cosa: real, sina: real, cosb: real, sinb: real)
    ensures [xc, yc, 0.0, xc + r * cosa, yc + r * sina, 0.0, xc + r * cosb, yc + r * sinb, 0.0]
            == Wedge(xc, yc, r, cosa, sina, cosb, sinb)
  {
  }

  /** The array the uv push of one loop iteration appends is one wedge's texture coordinates. */
  lemma WedgeTexPush(uc: real, vc: real, ul: real, vl: real, cosa: real, sina: real, cosb: real, sinb: real)
    ensures [uc, vc, uc + ul * cosa, vc + vl * sina, uc + ul * cosb, vc + vl * sinb]
            == WedgeTex(uc, vc, ul, vl, cosa, sina, cosb, sinb)
  {
  }

  /**
   * The builder itself: the fixed body arrays, then a loop of 4s iterations that
   * pushes one wedge each and carries the sweep angle `phia` from one wedge to the next.
   */
  method RoundedRectangle(w: real, h: real, r: real, s: nat, cos: real -> real, sin: real -> real)
    returns (positions: seq<real>, uvs: seq<real>)
    requires w != 0.0 && h != 0.0
    ensures positions == Positions(w, h, r, s, cos, sin)
    ensures uvs == UVs(w, h, r, s, cos, sin)
  {
    var wi := w / 2.0 - r;
    var hi := h / 2.0 - r;
    var w2 := w / 2.0;
    var h2 := h / 2.0;
    var ul := r / w;
    var ur := (w - r) / w;
    var vl := r / h;
    var vh := (h - r) / h;
    ghost var g := InsetsOf(w, h, r);
    assert wi == g.wi && hi == g.hi && w2 == g.w2 && h2 == g.h2;
    assert ul == g.ul && ur == g.ur && vl == g.vl && vh == g.vh;

    positions := BodyPositions(wi, hi, w2, h2);
    uvs := BodyUVs(ul, ur, vl, vh);
    ghost var p0, t0 := positions, uvs;

    var phia := 0.0;
    var i := 0;
    while i < s * 4
      invariant 0 <= i <= 4 * s
      invariant s > 0 ==> phia == Angle(i, s)
      invariant positions == AppendWedges(p0, wi, hi, r, s, i, cos, sin)
      invariant uvs == AppendWedgeUVs(t0, ul, ur, vl, vh, s, i, cos, sin)
    {
      var phib := PI * 2.0 * ((i + 1) as real) / ((4 * s) as real);
      assert phib == Angle(i + 1, s);

      var cosa := cos(phia);
      var sina := sin(phia);
      var cosb := cos(phib);
      var sinb := sin(phib);

      var xc := if i < s || i >= 3 * s then wi else -wi;
      var yc := if i < 2 * s then hi else -hi;
      assert xc == AnchorX(wi, s, i) && yc == AnchorY(hi, s, i);

      WedgePush(xc, yc, r, cosa, sina, cosb, sinb);
      positions := positions + [xc, yc, 0.0, xc + r * cosa, yc + r * sina, 0.0, xc + r * cosb, yc + r * sinb, 0.0];

      var uc := if i < s || i >= 3 * s then ur else ul;
      var vc := if i < 2 * s then vh else vl;
      assert uc == AnchorU(ul, ur, s, i) && vc == AnchorV(vl, vh, s, i);

      WedgeTexPush(uc, vc, ul, vl, cosa, sina, cosb, sinb);
      uvs := uvs + [uc, vc, uc + ul * cosa, vc + vl * sina, uc + ul * cosb, vc + vl * sinb];

      phia := phib;
      i := i + 1;
    }
    assert i == 4 * s;
  }
}
