/**
 * What the buffers built by `Geometry.RoundedRectangle` look like: their
 * lengths, the fixed body prefix, where each wedge sits and what its vertices
 * are, and two facts that hold for every vertex (its z is zero, and its texture
 * coordinate is the affine image of its position onto the unit square).
 */
module GeometryFacts {
  import opened Scene
  import opened Geometry

  /** Vertex k of a flat (x, y, z) position buffer. */
  function Vertex(p: seq<real>, k: nat): Vec3
    requires 3 * k + 3 <= |p|
  {
    Vec3(p[3 * k], p[3 * k + 1], p[3 * k + 2])
  }

  /** Texture coordinate k of a flat (u, v) buffer. */
  function TexCoord(t: seq<real>, k: nat): Vec2
    requires 2 * k + 2 <= |t|
  {
    Vec2(t[2 * k], t[2 * k + 1])
  }

  // ---------------------------------------------------------------- lengths

  /**
   * Both buffers describe the same 18 + 12s vertices: one more arc step per
   * corner adds 12 vertices, and ten steps give 138.
   */
  lemma VertexCounts(w: real, h: real, r: real, s: nat, cos: real -> real, sin: real -> real)
    requires w != 0.0 && h != 0.0
    ensures |Positions(w, h, r, s, cos, sin)| % 3 == 0 && |UVs(w, h, r, s, cos, sin)| % 2 == 0
    ensures |Positions(w, h, r, s, cos, sin)| / 3 == |UVs(w, h, r, s, cos, sin)| / 2 == 18 + 12 * s
    ensures |Positions(w, h, r, s + 1, cos, sin)| / 3 == |Positions(w, h, r, s, cos, sin)| / 3 + 12
    ensures s == 10 ==> |Positions(w, h, r, s, cos, sin)| == 414 && |UVs(w, h, r, s, cos, sin)| == 276
                        && |Positions(w, h, r, s, cos, sin)| / 3 == 138
  {
    var n, m := |Positions(w, h, r, s, cos, sin)|, |UVs(w, h, r, s, cos, sin)|;
    assert n == 3 * (18 + 12 * s) && m == 2 * (18 + 12 * s);
    assert |Positions(w, h, r, s + 1, cos, sin)| == 3 * (18 + 12 * s + 12);
  }

  /**
   * The card every picture is mapped onto, a unit square with corner radius
   * 0.05 and ten arc steps per corner: its insets, and 414 position floats
   * and 276 uv floats for its 138 vertices.
   */
  lemma CardGeometry(cos: real -> real, sin: real -> real)
    ensures InsetsOf(1.0, 1.0, 0.05) == Insets(0.45, 0.45, 0.5, 0.5, 0.05, 0.95, 0.05, 0.95)
    ensures |Positions(1.0, 1.0, 0.05, 10, cos, sin)| == 414 && |UVs(1.0, 1.0, 0.05, 10, cos, sin)| == 276
    ensures |Positions(1.0, 1.0, 0.05, 10, cos, sin)| / 3 == |UVs(1.0, 1.0, 0.05, 10, cos, sin)| / 2 == 138
  {
    VertexCounts(1.0, 1.0, 0.05, 10, cos, sin);
  }

  // ---------------------------------------------------------------- any loop that pushes chunks

  /** The buffer p0 after a loop whose iteration i pushes chunk(i) has run n times. */
  function Pushes(p0: seq<real>, chunk: nat -> seq<real>, n: nat): seq<real>
  {
    if n == 0 then p0 else Pushes(p0, chunk, n - 1) + chunk(n - 1)
  }

  /** The chunks the positions loop pushes. */
  function PositionChunks(wi: real, hi: real, r: real, s: nat, cos: real -> real, sin: real -> real): nat -> seq<real>
    requires s > 0
  {
    (i: nat) => WedgePositions(wi, hi, r, s, i, cos, sin)
  }

  /** The chunks the uv loop pushes. */
  function UVChunks(ul: real, ur: real, vl: real, vh: real, s: nat, cos: real -> real, sin: real -> real): nat -> seq<real>
    requires s > 0
  {
    (i: nat) => WedgeUVs(ul, ur, vl, vh, s, i, cos, sin)
  }

  /** Chunk i of the positions loop is wedge i. */
  lemma PositionChunkIs(wi: real, hi: real, r: real, s: nat, i: nat, cos: real -> real, sin: real -> real)
    requires s > 0
    ensures PositionChunks(wi, hi, r, s, cos, sin)(i) == WedgePositions(wi, hi, r, s, i, cos, sin)
  {
  }

  /** Chunk i of the uv loop is the texture coordinates of wedge i. */
  lemma UVChunkIs(ul: real, ur: real, vl: real, vh: real, s: nat, i: nat, cos: real -> real, sin: real -> real)
    requires s > 0
    ensures UVChunks(ul, ur, vl, vh, s, cos, sin)(i) == WedgeUVs(ul, ur, vl, vh, s, i, cos, sin)
  {
  }

  /** One more iteration of a push-only loop appends one more chunk. */
  lemma PushesStep(p0: seq<real>, chunk: nat -> seq<real>, n: nat)
    requires n > 0
    ensures Pushes(p0, chunk, n) == Pushes(p0, chunk, n - 1) + chunk(n - 1)
  {
  }

  /** One more iteration of the positions loop appends wedge n - 1. */
  lemma AppendWedgesStep(p0: seq<real>, wi: real, hi: real, r: real, s: nat, n: nat, cos: real -> real, sin: real -> real)
    requires 0 < n <= 4 * s
    ensures AppendWedges(p0, wi, hi, r, s, n, cos, sin)
            == AppendWedges(p0, wi, hi, r, s, n - 1, cos, sin) + WedgePositions(wi, hi, r, s, n - 1, cos, sin)
  {
  }

  /** One more iteration of the uv loop appends the texture coordinates of wedge n - 1. */
  lemma AppendWedgeUVsStep(t0: seq<real>, ul: real, ur: real, vl: real, vh: real, s: nat, n: nat,
                           cos: real -> real, sin: real -> real)
    requires 0 < n <= 4 * s
    ensures AppendWedgeUVs(t0, ul, ur, vl, vh, s, n, cos, sin)
            == AppendWedgeUVs(t0, ul, ur, vl, vh, s, n - 1, cos, sin) + WedgeUVs(ul, ur, vl, vh, s, n - 1, cos, sin)
  {
  }

  /** The induction step of `WedgePushes`. */
  lemma WedgePushesStep(p0: seq<real>, wi: real, hi: real, r: real, s: nat, n: nat,
                        cos: real -> real, sin: real -> real, c: nat -> seq<real>)
    requires 0 < n <= 4 * s
    requires AppendWedges(p0, wi, hi, r, s, n - 1, cos, sin) == Pushes(p0, c, n - 1)
    requires c(n - 1) == WedgePositions(wi, hi, r, s, n - 1, cos, sin)
    ensures AppendWedges(p0, wi, hi, r, s, n, cos, sin) == Pushes(p0, c, n)
  {
    AppendWedgesStep(p0, wi, hi, r, s, n, cos, sin);
    PushesStep(p0, c, n);
  }

  /** The induction step of `WedgeUVPushes`. */
  lemma WedgeUVPushesStep(t0: seq<real>, ul: real, ur: real, vl: real, vh: real, s: nat, n: nat,
                          cos: real -> real, sin: real -> real, c: nat -> seq<real>)
    requires 0 < n <= 4 * s
    requires AppendWedgeUVs(t0, ul, ur, vl, vh, s, n - 1, cos, sin) == Pushes(t0, c, n - 1)
    requires c(n - 1) == WedgeUVs(ul, ur, vl, vh, s, n - 1, cos, sin)
    ensures AppendWedgeUVs(t0, ul, ur, vl, vh, s, n, cos, sin) == Pushes(t0, c, n)
  {
    AppendWedgeUVsStep(t0, ul, ur, vl, vh, s, n, cos, sin);
    PushesStep(t0, c, n);
  }

  /** A loop whose chunks are the wedges builds what `AppendWedges` describes. */
  lemma {:induction false} WedgePushes(p0: seq<real>, wi: real, hi: real, r: real, s: nat, n: nat,
                                       cos: real -> real, sin: real -> real, c: nat -> seq<real>)
    requires 0 < s && n <= 4 * s
    requires forall i: nat :: c(i) == WedgePositions(wi, hi, r, s, i, cos, sin)
    ensures AppendWedges(p0, wi, hi, r, s, n, cos, sin) == Pushes(p0, c, n)
    decreases n
  {
    if n > 0 {
      WedgePushes(p0, wi, hi, r, s, n - 1, cos, sin, c);
      assert AppendWedges(p0, wi, hi, r, s, n - 1, cos, sin) == Pushes(p0, c, n - 1);
      assert c(n - 1) == WedgePositions(wi, hi, r, s, n - 1, cos, sin);
      WedgePushesStep(p0, wi, hi, r, s, n, cos, sin, c);
    }
  }

  /** A loop whose chunks are the wedges' texture coordinates builds what `AppendWedgeUVs` describes. */
  lemma {:induction false} WedgeUVPushes(t0: seq<real>, ul: real, ur: real, vl: real, vh: real, s: nat, n: nat,
                                         cos: real -> real, sin: real -> real, c: nat -> seq<real>)
    requires 0 < s && n <= 4 * s
    requires forall i: nat :: c(i) == WedgeUVs(ul, ur, vl, vh, s, i, cos, sin)
    ensures AppendWedgeUVs(t0, ul, ur, vl, vh, s, n, cos, sin) == Pushes(t0, c, n)
    decreases n
  {
    if n > 0 {
      WedgeUVPushes(t0, ul, ur, vl, vh, s, n - 1, cos, sin, c);
      assert AppendWedgeUVs(t0, ul, ur, vl, vh, s, n - 1, cos, sin) == Pushes(t0, c, n - 1);
      assert c(n - 1) == WedgeUVs(ul, ur, vl, vh, s, n - 1, cos, sin);
      WedgeUVPushesStep(t0, ul, ur, vl, vh, s, n, cos, sin, c);
    }
  }

  lemma PositionsArePushes(p0: seq<real>, wi: real, hi: real, r: real, s: nat, n: nat,
                           cos: real -> real, sin: real -> real)
    requires 0 < s && n <= 4 * s
    ensures AppendWedges(p0, wi, hi, r, s, n, cos, sin) == Pushes(p0, PositionChunks(wi, hi, r, s, cos, sin), n)
  {
    var c := PositionChunks(wi, hi, r, s, cos, sin);
    forall i: nat
      ensures c(i) == WedgePositions(wi, hi, r, s, i, cos, sin)
    {
      PositionChunkIs(wi, hi, r, s, i, cos, sin);
    }
    WedgePushes(p0, wi, hi, r, s, n, cos, sin, c);
  }

  lemma UVsArePushes(t0: seq<real>, ul: real, ur: real, vl: real, vh: real, s: nat, n: nat,
                     cos: real -> real, sin: real -> real)
    requires 0 < s && n <= 4 * s
    ensures AppendWedgeUVs(t0, ul, ur, vl, vh, s, n, cos, sin) == Pushes(t0, UVChunks(ul, ur, vl, vh, s, cos, sin), n)
  {
    var c := UVChunks(ul, ur, vl, vh, s, cos, sin);
    forall i: nat
      ensures c(i) == WedgeUVs(ul, ur, vl, vh, s, i, cos, sin)
    {
      UVChunkIs(ul, ur, vl, vh, s, i, cos, sin);
    }
    WedgeUVPushes(t0, ul, ur, vl, vh, s, n, cos, sin, c);
  }

  /** Pushing never alters an entry that was already there. */
  lemma {:induction false} PushesKeepPrefix(p0: seq<real>, chunk: nat -> seq<real>, n: nat)
    ensures |p0| <= |Pushes(p0, chunk, n)|
    ensures Pushes(p0, chunk, n)[..|p0|] == p0
    decreases n
  {
    if n > 0 {
      PushesKeepPrefix(p0, chunk, n - 1);
      var p, c := Pushes(p0, chunk, n - 1), chunk(n - 1);
      assert Pushes(p0, chunk, n) == p + c;
      assert (p + c)[..|p0|] == p[..|p0|];
    }
  }

  /** Chunk i lands right after the buffer as it was before iteration i. */
  lemma {:induction false} ChunkAt(p0: seq<real>, chunk: nat -> seq<real>, n: nat, i: nat)
    requires i < n
    ensures |Pushes(p0, chunk, i)| + |chunk(i)| <= |Pushes(p0, chunk, n)|
    ensures Pushes(p0, chunk, n)[|Pushes(p0, chunk, i)| .. |Pushes(p0, chunk, i)| + |chunk(i)|] == chunk(i)
    decreases n
  {
    var p, c := Pushes(p0, chunk, n - 1), chunk(n - 1);
    assert Pushes(p0, chunk, n) == p + c;
    var k, l := |Pushes(p0, chunk, i)|, |Pushes(p0, chunk, i)| + |chunk(i)|;
    if i < n - 1 {
      ChunkAt(p0, chunk, n - 1, i);
      assert (p + c)[k .. l] == p[k .. l];
    } else {
      assert (p + c)[k .. l] == c;
    }
  }

  // ---------------------------------------------------------------- layout of the buffers

  /** The buffers start with the fixed body arrays, built from the insets of w, h and r; the loop only appends. */
  lemma BodyPrefix(w: real, h: real, r: real, s: nat, cos: real -> real, sin: real -> real)
    requires w != 0.0 && h != 0.0
    ensures var g := InsetsOf(w, h, r);
            Positions(w, h, r, s, cos, sin)[..54] == BodyPositions(g.wi, g.hi, g.w2, g.h2)
    ensures var g := InsetsOf(w, h, r);
            UVs(w, h, r, s, cos, sin)[..36] == BodyUVs(g.ul, g.ur, g.vl, g.vh)
  {
    var g := InsetsOf(w, h, r);
    var p0, t0 := BodyPositions(g.wi, g.hi, g.w2, g.h2), BodyUVs(g.ul, g.ur, g.vl, g.vh);
    if s > 0 {
      PositionsArePushes(p0, g.wi, g.hi, r, s, 4 * s, cos, sin);
      UVsArePushes(t0, g.ul, g.ur, g.vl, g.vh, s, 4 * s, cos, sin);
      PushesKeepPrefix(p0, PositionChunks(g.wi, g.hi, r, s, cos, sin), 4 * s);
      PushesKeepPrefix(t0, UVChunks(g.ul, g.ur, g.vl, g.vh, s, cos, sin), 4 * s);
    }
  }

  /** Iteration i pushes its wedge right after the starting buffer and the i wedges before it. */
  lemma WedgeAt(p0: seq<real>, wi: real, hi: real, r: real,
                s: nat, n: nat, i: nat, cos: real -> real, sin: real -> real)
    requires i < n <= 4 * s
    ensures AppendWedges(p0, wi, hi, r, s, n, cos, sin)[|p0| + 9 * i .. |p0| + 9 * i + 9]
            == WedgePositions(wi, hi, r, s, i, cos, sin)
  {
    var c := PositionChunks(wi, hi, r, s, cos, sin);
    PositionsArePushes(p0, wi, hi, r, s, n, cos, sin);
    PositionsArePushes(p0, wi, hi, r, s, i, cos, sin);
    ChunkAt(p0, c, n, i);
    assert c(i) == WedgePositions(wi, hi, r, s, i, cos, sin);
  }

  /** Iteration i pushes its texture coordinates right after the starting buffer and those of the i wedges before it. */
  lemma WedgeUVsAt(t0: seq<real>, ul: real, ur: real, vl: real, vh: real,
                   s: nat, n: nat, i: nat, cos: real -> real, sin: real -> real)
    requires i < n <= 4 * s
    ensures AppendWedgeUVs(t0, ul, ur, vl, vh, s, n, cos, sin)[|t0| + 6 * i .. |t0| + 6 * i + 6]
            == WedgeUVs(ul, ur, vl, vh, s, i, cos, sin)
  {
    var c := UVChunks(ul, ur, vl, vh, s, cos, sin);
    UVsArePushes(t0, ul, ur, vl, vh, s, n, cos, sin);
    UVsArePushes(t0, ul, ur, vl, vh, s, i, cos, sin);
    ChunkAt(t0, c, n, i);
    assert c(i) == WedgeUVs(ul, ur, vl, vh, s, i, cos, sin);
  }

  /** Wedge i of the fan occupies floats 54 + 9i to 63 + 9i of the positions and 36 + 6i to 42 + 6i of the uvs. */
  lemma WedgeInBuffer(w: real, h: real, r: real, s: nat, i: nat, cos: real -> real, sin: real -> real)
    requires w != 0.0 && h != 0.0 && i < 4 * s
    ensures var g := InsetsOf(w, h, r);
            Positions(w, h, r, s, cos, sin)[54 + 9 * i .. 63 + 9 * i] == WedgePositions(g.wi, g.hi, r, s, i, cos, sin)
    ensures var g := InsetsOf(w, h, r);
            UVs(w, h, r, s, cos, sin)[36 + 6 * i .. 42 + 6 * i] == WedgeUVs(g.ul, g.ur, g.vl, g.vh, s, i, cos, sin)
  {
    var g := InsetsOf(w, h, r);
    WedgeAt(BodyPositions(g.wi, g.hi, g.w2, g.h2), g.wi, g.hi, r, s, 4 * s, i, cos, sin);
    WedgeUVsAt(BodyUVs(g.ul, g.ur, g.vl, g.vh), g.ul, g.ur, g.vl, g.vh, s, 4 * s, i, cos, sin);
  }

  /** Wedge i, read as three vertices, when the starting buffer holds m vertices. */
  lemma WedgeVerticesAt(p0: seq<real>, m: nat, wi: real, hi: real, r: real,
                        s: nat, n: nat, i: nat, cos: real -> real, sin: real -> real)
    requires i < n <= 4 * s && |p0| == 3 * m
    ensures 3 * (m + 3 * i + 3) <= |AppendWedges(p0, wi, hi, r, s, n, cos, sin)|
    ensures var p, a, b := AppendWedges(p0, wi, hi, r, s, n, cos, sin), Angle(i, s), Angle(i + 1, s);
            var xc, yc := AnchorX(wi, s, i), AnchorY(hi, s, i);
            && Vertex(p, m + 3 * i) == Vec3(xc, yc, 0.0)
            && Vertex(p, m + 3 * i + 1) == Vec3(Offset(xc, r, cos(a)), Offset(yc, r, sin(a)), 0.0)
            && Vertex(p, m + 3 * i + 2) == Vec3(Offset(xc, r, cos(b)), Offset(yc, r, sin(b)), 0.0)
  {
    WedgeAt(p0, wi, hi, r, s, n, i, cos, sin);
    var p := AppendWedges(p0, wi, hi, r, s, n, cos, sin);
    var k := 3 * m + 9 * i;
    var wp := p[k .. k + 9];
    assert wp == WedgePositions(wi, hi, r, s, i, cos, sin);
    assert forall j :: 0 <= j < 9 ==> p[k + j] == wp[j];
  }

  /** The texture coordinates of wedge i, when the starting buffer holds m of them. */
  lemma WedgeTexCoordsAt(t0: seq<real>, m: nat, ul: real, ur: real, vl: real, vh: real,
                         s: nat, n: nat, i: nat, cos: real -> real, sin: real -> real)
    requires i < n <= 4 * s && |t0| == 2 * m
    ensures 2 * (m + 3 * i + 3) <= |AppendWedgeUVs(t0, ul, ur, vl, vh, s, n, cos, sin)|
    ensures var t, a, b := AppendWedgeUVs(t0, ul, ur, vl, vh, s, n, cos, sin), Angle(i, s), Angle(i + 1, s);
            var uc, vc := AnchorU(ul, ur, s, i), AnchorV(vl, vh, s, i);
            && TexCoord(t, m + 3 * i) == Vec2(uc, vc)
            && TexCoord(t, m + 3 * i + 1) == Vec2(Offset(uc, ul, cos(a)), Offset(vc, vl, sin(a)))
            && TexCoord(t, m + 3 * i + 2) == Vec2(Offset(uc, ul, cos(b)), Offset(vc, vl, sin(b)))
  {
    WedgeUVsAt(t0, ul, ur, vl, vh, s, n, i, cos, sin);
    var t := AppendWedgeUVs(t0, ul, ur, vl, vh, s, n, cos, sin);
    var k := 2 * m + 6 * i;
    var wt := t[k .. k + 6];
    assert wt == WedgeUVs(ul, ur, vl, vh, s, i, cos, sin);
    assert forall j :: 0 <= j < 6 ==> t[k + j] == wt[j];
  }

  /**
   * The three vertices (and texture coordinates) of wedge i: its corner anchor,
   * then the arc points at the wedge's start and end angles, at distance r from
   * the anchor in position space and offset by (ul cos, vl sin) in texture space.
   */
  lemma WedgeVertices(w: real, h: real, r: real, s: nat, i: nat, cos: real -> real, sin: real -> real)
    requires w != 0.0 && h != 0.0 && i < 4 * s
    ensures 21 + 3 * i <= |Positions(w, h, r, s, cos, sin)| / 3 && 21 + 3 * i <= |UVs(w, h, r, s, cos, sin)| / 2
    ensures var g, p, a, b := InsetsOf(w, h, r), Positions(w, h, r, s, cos, sin), Angle(i, s), Angle(i + 1, s);
            var xc, yc := AnchorX(g.wi, s, i), AnchorY(g.hi, s, i);
            && Vertex(p, 18 + 3 * i) == Vec3(xc, yc, 0.0)
            && Vertex(p, 19 + 3 * i) == Vec3(Offset(xc, r, cos(a)), Offset(yc, r, sin(a)), 0.0)
            && Vertex(p, 20 + 3 * i) == Vec3(Offset(xc, r, cos(b)), Offset(yc, r, sin(b)), 0.0)
    ensures var g, t, a, b := InsetsOf(w, h, r), UVs(w, h, r, s, cos, sin), Angle(i, s), Angle(i + 1, s);
            var uc, vc := AnchorU(g.ul, g.ur, s, i), AnchorV(g.vl, g.vh, s, i);
            && TexCoord(t, 18 + 3 * i) == Vec2(uc, vc)
            && TexCoord(t, 19 + 3 * i) == Vec2(Offset(uc, g.ul, cos(a)), Offset(vc, g.vl, sin(a)))
            && TexCoord(t, 20 + 3 * i) == Vec2(Offset(uc, g.ul, cos(b)), Offset(vc, g.vl, sin(b)))
  {
    var g := InsetsOf(w, h, r);
    WedgeVerticesAt(BodyPositions(g.wi, g.hi, g.w2, g.h2), 18, g.wi, g.hi, r, s, 4 * s, i, cos, sin);
    WedgeTexCoordsAt(BodyUVs(g.ul, g.ur, g.vl, g.vh), 18, g.ul, g.ur, g.vl, g.vh, s, 4 * s, i, cos, sin);
  }

  // ---------------------------------------------------------------- every vertex lies in the plane z = 0

  /** Every vertex of the position buffer has z = 0. */
  predicate Flat(p: seq<real>)
  {
    forall k :: 0 <= k < |p| && 3 * k + 3 <= |p| ==> Vertex(p, k).z == 0.0
  }

  /** The vertices of a + b are those of a followed by those of b. */
  lemma VertexOfConcat(a: seq<real>, b: seq<real>, m: nat, k: nat)
    requires |a| == 3 * m && 3 * k + 3 <= |a + b|
    ensures k < m ==> Vertex(a + b, k) == Vertex(a, k)
    ensures k >= m ==> 3 * (k - m) + 3 <= |b| && Vertex(a + b, k) == Vertex(b, k - m)
  {
  }

  lemma FlatConcat(a: seq<real>, b: seq<real>, m: nat)
    requires |a| == 3 * m && Flat(a) && Flat(b)
    ensures Flat(a + b)
  {
    forall k: nat | 3 * k + 3 <= |a + b|
      ensures Vertex(a + b, k).z == 0.0
    {
      VertexOfConcat(a, b, m, k);
      if k >= m {
        assert Vertex(b, k - m).z == 0.0;
      }
    }
  }

  lemma {:induction false} FlatPushes(p0: seq<real>, chunk: nat -> seq<real>, n: nat)
    requires |p0| % 3 == 0 && Flat(p0)
    requires forall i :: 0 <= i < n ==> |chunk(i)| % 3 == 0 && Flat(chunk(i))
    ensures |Pushes(p0, chunk, n)| % 3 == 0 && Flat(Pushes(p0, chunk, n))
    decreases n
  {
    if n > 0 {
      FlatPushes(p0, chunk, n - 1);
      var p := Pushes(p0, chunk, n - 1);
      FlatConcat(p, chunk(n - 1), |p| / 3);
    }
  }

  lemma TriangleFlat(x0: real, y0: real, x1: real, y1: real, x2: real, y2: real)
    ensures Flat(Triangle(x0, y0, x1, y1, x2, y2))
  {
    var p := Triangle(x0, y0, x1, y1, x2, y2);
    forall k: nat | 3 * k + 3 <= |p|
      ensures Vertex(p, k).z == 0.0
    {
      assert k == 0 || k == 1 || k == 2;
    }
  }

  lemma BodyFlat(wi: real, hi: real, w2: real, h2: real)
    ensures Flat(BodyPositions(wi, hi, w2, h2))
  {
    var t0, t1, t2 := Triangle(-wi, -h2,  wi, -h2,  wi, h2), Triangle(-wi, -h2,  wi,  h2, -wi, h2),
                      Triangle(-w2, -hi, -wi, -hi, -wi, hi);
    var t3, t4, t5 := Triangle(-w2, -hi, -wi,  hi, -w2, hi), Triangle( wi, -hi,  w2, -hi,  w2, hi),
                      Triangle( wi, -hi,  w2,  hi,  wi, hi);
    TriangleFlat(-wi, -h2,  wi, -h2,  wi, h2);
    TriangleFlat(-wi, -h2,  wi,  h2, -wi, h2);
    TriangleFlat(-w2, -hi, -wi, -hi, -wi, hi);
    TriangleFlat(-w2, -hi, -wi,  hi, -w2, hi);
    TriangleFlat( wi, -hi,  w2, -hi,  w2, hi);
    TriangleFlat( wi, -hi,  w2,  hi,  wi, hi);
    FlatConcat(t0, t1, 3);
    FlatConcat(t0 + t1, t2, 6);
    FlatConcat(t0 + t1 + t2, t3, 9);
    FlatConcat(t0 + t1 + t2 + t3, t4, 12);
    FlatConcat(t0 + t1 + t2 + t3 + t4, t5, 15);
  }

  lemma WedgeFlat(wi: real, hi: real, r: real, s: nat, i: nat, cos: real -> real, sin: real -> real)
    requires s > 0
    ensures Flat(WedgePositions(wi, hi, r, s, i, cos, sin))
  {
    var a, b := Angle(i, s), Angle(i + 1, s);
    var xc, yc := AnchorX(wi, s, i), AnchorY(hi, s, i);
    TriangleFlat(xc, yc, Offset(xc, r, cos(a)), Offset(yc, r, sin(a)), Offset(xc, r, cos(b)), Offset(yc, r, sin(b)));
  }

  /** Every vertex of the rounded rectangle, body and fans alike, lies in the plane z = 0. */
  lemma FlatGeometry(w: real, h: real, r: real, s: nat, cos: real -> real, sin: real -> real)
    requires w != 0.0 && h != 0.0
    ensures Flat(Positions(w, h, r, s, cos, sin))
  {
    var g := InsetsOf(w, h, r);
    var p0 := BodyPositions(g.wi, g.hi, g.w2, g.h2);
    BodyFlat(g.wi, g.hi, g.w2, g.h2);
    if s > 0 {
      var c := PositionChunks(g.wi, g.hi, r, s, cos, sin);
      forall i | 0 <= i < 4 * s
        ensures |c(i)| % 3 == 0 && Flat(c(i))
      {
        assert c(i) == WedgePositions(g.wi, g.hi, r, s, i, cos, sin);
        WedgeFlat(g.wi, g.hi, r, s, i, cos, sin);
      }
      FlatPushes(p0, c, 4 * s);
      PositionsArePushes(p0, g.wi, g.hi, r, s, 4 * s, cos, sin);
    }
  }

  // ---------------------------------------------------------------- every uv is its vertex rescaled onto the unit square

  /** The coordinate x of a box of extent e centred at the origin, rescaled so that the box spans [0, 1]. */
  function Unit(e: real, x: real): real
    requires e != 0.0
  {
    (x + e / 2.0) / e
  }

  /**
   * Every texture coordinate is the position of its vertex, rescaled from the
   * w-by-h rectangle onto the unit square: the texture is laid on the shape
   * without stretching or shifting it.
   */
  predicate Projected(p: seq<real>, t: seq<real>, w: real, h: real)
    requires w != 0.0 && h != 0.0
  {
    forall k :: 0 <= k < |p| && 3 * k + 3 <= |p| && 2 * k + 2 <= |t| ==>
      TexCoord(t, k) == Vec2(Unit(w, Vertex(p, k).x), Unit(h, Vertex(p, k).y))
  }

  /** The texture coordinates of a + b are those of a followed by those of b. */
  lemma TexCoordOfConcat(a: seq<real>, b: seq<real>, m: nat, k: nat)
    requires |a| == 2 * m && 2 * k + 2 <= |a + b|
    ensures k < m ==> TexCoord(a + b, k) == TexCoord(a, k)
    ensures k >= m ==> 2 * (k - m) + 2 <= |b| && TexCoord(a + b, k) == TexCoord(b, k - m)
  {
  }

  lemma ProjectedConcat(a: seq<real>, b: seq<real>, ta: seq<real>, tb: seq<real>, m: nat, w: real, h: real)
    requires w != 0.0 && h != 0.0
    requires |a| == 3 * m && |ta| == 2 * m && Projected(a, ta, w, h) && Projected(b, tb, w, h)
    ensures Projected(a + b, ta + tb, w, h)
  {
    forall k: nat | 3 * k + 3 <= |a + b| && 2 * k + 2 <= |ta + tb|
      ensures TexCoord(ta + tb, k) == Vec2(Unit(w, Vertex(a + b, k).x), Unit(h, Vertex(a + b, k).y))
    {
      VertexOfConcat(a, b, m, k);
      TexCoordOfConcat(ta, tb, m, k);
      if k >= m {
        assert TexCoord(tb, k - m) == Vec2(Unit(w, Vertex(b, k - m).x), Unit(h, Vertex(b, k - m).y));
      }
    }
  }

  lemma {:induction false} ProjectedPushes(p0: seq<real>, t0: seq<real>, pc: nat -> seq<real>, tc: nat -> seq<real>,
                                           m0: nat, n: nat, w: real, h: real)
    requires w != 0.0 && h != 0.0
    requires |p0| == 3 * m0 && |t0| == 2 * m0 && Projected(p0, t0, w, h)
    requires forall i :: 0 <= i < n ==> |pc(i)| == 9 && |tc(i)| == 6 && Projected(pc(i), tc(i), w, h)
    ensures |Pushes(p0, pc, n)| == 3 * (m0 + 3 * n) && |Pushes(t0, tc, n)| == 2 * (m0 + 3 * n)
    ensures Projected(Pushes(p0, pc, n), Pushes(t0, tc, n), w, h)
    decreases n
  {
    if n > 0 {
      ProjectedPushes(p0, t0, pc, tc, m0, n - 1, w, h);
      ProjectedConcat(Pushes(p0, pc, n - 1), pc(n - 1), Pushes(t0, tc, n - 1), tc(n - 1), m0 + 3 * (n - 1), w, h);
    }
  }

  /** A triangle whose texture coordinates are its vertices rescaled. */
  lemma TriangleProjected(w: real, h: real, x0: real, y0: real, x1: real, y1: real, x2: real, y2: real,
                          u0: real, v0: real, u1: real, v1: real, u2: real, v2: real)
    requires w != 0.0 && h != 0.0
    requires u0 == Unit(w, x0) && u1 == Unit(w, x1) && u2 == Unit(w, x2)
    requires v0 == Unit(h, y0) && v1 == Unit(h, y1) && v2 == Unit(h, y2)
    ensures Projected(Triangle(x0, y0, x1, y1, x2, y2), TexTriangle(u0, v0, u1, v1, u2, v2), w, h)
  {
    var p, t := Triangle(x0, y0, x1, y1, x2, y2), TexTriangle(u0, v0, u1, v1, u2, v2);
    forall k: nat | 3 * k + 3 <= |p| && 2 * k + 2 <= |t|
      ensures TexCoord(t, k) == Vec2(Unit(w, Vertex(p, k).x), Unit(h, Vertex(p, k).y))
    {
      assert k == 0 || k == 1 || k == 2;
    }
  }

  /** The uv insets are the inner and outer half-extents rescaled. */
  lemma InsetUnits(w: real, h: real, r: real)
    requires w != 0.0 && h != 0.0
    ensures var g := InsetsOf(w, h, r);
            Unit(w, -g.w2) == 0.0 && Unit(w, -g.wi) == g.ul && Unit(w, g.wi) == g.ur && Unit(w, g.w2) == 1.0
    ensures var g := InsetsOf(w, h, r);
            Unit(h, -g.h2) == 0.0 && Unit(h, -g.hi) == g.vl && Unit(h, g.hi) == g.vh && Unit(h, g.h2) == 1.0
  {
  }

  /** Rescaling commutes with moving along the arc: the uv radius is the position radius rescaled. */
  lemma UnitOffset(e: real, x: real, r: real, c: real)
    requires e != 0.0
    ensures Unit(e, Offset(x, r, c)) == Offset(Unit(e, x), r / e, c)
  {
    calc {
      Unit(e, Offset(x, r, c));
      (x + e / 2.0 + r * c) / e;
      (x + e / 2.0) / e + (r * c) / e;
      { assert (r * c) / e == (r / e) * c; }
      Offset(Unit(e, x), r / e, c);
    }
  }

  /** Six projected triangles in a row are projected. */
  lemma SixProjected(p0: seq<real>, p1: seq<real>, p2: seq<real>, p3: seq<real>, p4: seq<real>, p5: seq<real>,
                     t0: seq<real>, t1: seq<real>, t2: seq<real>, t3: seq<real>, t4: seq<real>, t5: seq<real>,
                     w: real, h: real)
    requires w != 0.0 && h != 0.0
    requires |p0| == |p1| == |p2| == |p3| == |p4| == 9 && |t0| == |t1| == |t2| == |t3| == |t4| == 6
    requires Projected(p0, t0, w, h) && Projected(p1, t1, w, h) && Projected(p2, t2, w, h)
    requires Projected(p3, t3, w, h) && Projected(p4, t4, w, h) && Projected(p5, t5, w, h)
    ensures Projected(p0 + p1 + p2 + p3 + p4 + p5, t0 + t1 + t2 + t3 + t4 + t5, w, h)
  {
    ProjectedConcat(p0, p1, t0, t1, 3, w, h);
    ProjectedConcat(p0 + p1, p2, t0 + t1, t2, 6, w, h);
    ProjectedConcat(p0 + p1 + p2, p3, t0 + t1 + t2, t3, 9, w, h);
    ProjectedConcat(p0 + p1 + p2 + p3, p4, t0 + t1 + t2 + t3, t4, 12, w, h);
    ProjectedConcat(p0 + p1 + p2 + p3 + p4, p5, t0 + t1 + t2 + t3 + t4, t5, 15, w, h);
  }

  lemma BodyProjected(w: real, h: real, r: real)
    requires w != 0.0 && h != 0.0
    ensures var g := InsetsOf(w, h, r);
            Projected(BodyPositions(g.wi, g.hi, g.w2, g.h2), BodyUVs(g.ul, g.ur, g.vl, g.vh), w, h)
  {
    var g := InsetsOf(w, h, r);
    InsetUnits(w, h, r);
    BodyProjectedFrom(w, h, g.wi, g.hi, g.w2, g.h2, g.ul, g.ur, g.vl, g.vh);
  }

  /** The body is projected whenever its uv insets are its position insets rescaled. */
  lemma BodyProjectedFrom(w: real, h: real, wi: real, hi: real, w2: real, h2: real, ul: real, ur: real, vl: real, vh: real)
    requires w != 0.0 && h != 0.0
    requires Unit(w, -w2) == 0.0 && Unit(w, -wi) == ul && Unit(w, wi) == ur && Unit(w, w2) == 1.0
    requires Unit(h, -h2) == 0.0 && Unit(h, -hi) == vl && Unit(h, hi) == vh && Unit(h, h2) == 1.0
    ensures Projected(BodyPositions(wi, hi, w2, h2), BodyUVs(ul, ur, vl, vh), w, h)
  {
    TriangleProjected(w, h, -wi, -h2,  wi, -h2,  wi, h2,   ul, 0.0,  ur, 0.0,  ur, 1.0);
    TriangleProjected(w, h, -wi, -h2,  wi,  h2, -wi, h2,   ul, 0.0,  ur, 1.0,  ul, 1.0);
    TriangleProjected(w, h, -w2, -hi, -wi, -hi, -wi, hi,  0.0,  vl,  ul,  vl,  ul,  vh);
    TriangleProjected(w, h, -w2, -hi, -wi,  hi, -w2, hi,  0.0,  vl,  ul,  vh, 0.0,  vh);
    TriangleProjected(w, h,  wi, -hi,  w2, -hi,  w2, hi,   ur,  vl, 1.0,  vl, 1.0,  vh);
    TriangleProjected(w, h,  wi, -hi,  w2,  hi,  wi, hi,   ur,  vl, 1.0,  vh,  ur,  vh);
    SixProjected(Triangle(-wi, -h2,  wi, -h2,  wi, h2), Triangle(-wi, -h2,  wi,  h2, -wi, h2),
                 Triangle(-w2, -hi, -wi, -hi, -wi, hi), Triangle(-w2, -hi, -wi,  hi, -w2, hi),
                 Triangle( wi, -hi,  w2, -hi,  w2, hi), Triangle( wi, -hi,  w2,  hi,  wi, hi),
                 TexTriangle( ul, 0.0,  ur, 0.0,  ur, 1.0), TexTriangle( ul, 0.0,  ur, 1.0,  ul, 1.0),
                 TexTriangle(0.0,  vl,  ul,  vl,  ul,  vh), TexTriangle(0.0,  vl,  ul,  vh, 0.0,  vh),
                 TexTriangle( ur,  vl, 1.0,  vl, 1.0,  vh), TexTriangle( ur,  vl, 1.0,  vh,  ur,  vh), w, h);
    assert BodyPositions(wi, hi, w2, h2) ==
           Triangle(-wi, -h2,  wi, -h2,  wi, h2) + Triangle(-wi, -h2,  wi,  h2, -wi, h2) +
           Triangle(-w2, -hi, -wi, -hi, -wi, hi) + Triangle(-w2, -hi, -wi,  hi, -w2, hi) +
           Triangle( wi, -hi,  w2, -hi,  w2, hi) + Triangle( wi, -hi,  w2,  hi,  wi, hi);
    assert BodyUVs(ul, ur, vl, vh) ==
           TexTriangle( ul, 0.0,  ur, 0.0,  ur, 1.0) + TexTriangle( ul, 0.0,  ur, 1.0,  ul, 1.0) +
           TexTriangle(0.0,  vl,  ul,  vl,  ul,  vh) + TexTriangle(0.0,  vl,  ul,  vh, 0.0,  vh) +
           TexTriangle( ur,  vl, 1.0,  vl, 1.0,  vh) + TexTriangle( ur,  vl, 1.0,  vh,  ur,  vh);
  }

  lemma WedgeProjected(w: real, h: real, r: real, s: nat, i: nat, cos: real -> real, sin: real -> real)
    requires w != 0.0 && h != 0.0 && s > 0
    ensures var g := InsetsOf(w, h, r);
            Projected(WedgePositions(g.wi, g.hi, r, s, i, cos, sin), WedgeUVs(g.ul, g.ur, g.vl, g.vh, s, i, cos, sin), w, h)
  {
    var g := InsetsOf(w, h, r);
    var a, b := Angle(i, s), Angle(i + 1, s);
    var xc, yc := AnchorX(g.wi, s, i), AnchorY(g.hi, s, i);
    var uc, vc := AnchorU(g.ul, g.ur, s, i), AnchorV(g.vl, g.vh, s, i);
    InsetUnits(w, h, r);
    assert uc == Unit(w, xc) && vc == Unit(h, yc);
    assert g.ul == r / w && g.vl == r / h;
    UnitOffset(w, xc, r, cos(a));
    UnitOffset(h, yc, r, sin(a));
    UnitOffset(w, xc, r, cos(b));
    UnitOffset(h, yc, r, sin(b));
    TriangleProjected(w, h, xc, yc, Offset(xc, r, cos(a)), Offset(yc, r, sin(a)), Offset(xc, r, cos(b)), Offset(yc, r, sin(b)),
                      uc, vc, Offset(uc, g.ul, cos(a)), Offset(vc, g.vl, sin(a)), Offset(uc, g.ul, cos(b)), Offset(vc, g.vl, sin(b)));
  }

  /** Every texture coordinate of the rounded rectangle, body and fans alike, is its vertex rescaled onto the unit square. */
  lemma ProjectedGeometry(w: real, h: real, r: real, s: nat, cos: real -> real, sin: real -> real)
    requires w != 0.0 && h != 0.0
    ensures Projected(Positions(w, h, r, s, cos, sin), UVs(w, h, r, s, cos, sin), w, h)
  {
    var g := InsetsOf(w, h, r);
    BodyProjected(w, h, r);
    if s > 0 {
      var pc, tc := PositionChunks(g.wi, g.hi, r, s, cos, sin), UVChunks(g.ul, g.ur, g.vl, g.vh, s, cos, sin);
      forall i | 0 <= i < 4 * s
        ensures |pc(i)| == 9 && |tc(i)| == 6 && Projected(pc(i), tc(i), w, h)
      {
        assert pc(i) == WedgePositions(g.wi, g.hi, r, s, i, cos, sin);
        assert tc(i) == WedgeUVs(g.ul, g.ur, g.vl, g.vh, s, i, cos, sin);
        WedgeProjected(w, h, r, s, i, cos, sin);
      }
      var p0, t0 := BodyPositions(g.wi, g.hi, g.w2, g.h2), BodyUVs(g.ul, g.ur, g.vl, g.vh);
      ProjectedPushes(p0, t0, pc, tc, 18, 4 * s, w, h);
      PositionsArePushes(p0, g.wi, g.hi, r, s, 4 * s, cos, sin);
      UVsArePushes(t0, g.ul, g.ur, g.vl, g.vh, s, 4 * s, cos, sin);
    }
  }
}
