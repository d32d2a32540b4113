/**
 * The wheel carousel as `createObjects` builds it and as its `wheel` listener
 * drives it: two wheels laid out the same way, the top one moved up and the
 * bottom one down, both turned by every scroll event.
 */
module WheelCarousel {
  import opened Scene
  import opened WheelLayout
  import opened ScrollRotation

  /** The two wheels right after `createObjects`: the same layout, unrotated, moved apart along y. */
  function Created(paths: seq<string>, cos: real -> real, sin: real -> real): Wheels
  {
    Wheels(WheelState(Vec3(0.0, TopOffset, 0.0), 0.0, Layout(paths, cos, sin)),
           WheelState(Vec3(0.0, BottomOffset, 0.0), 0.0, Layout(paths, cos, sin)))
  }

  /**
   * The freshly built carousel shows every picture upright, keeps its two wheels
   * in step, and puts the top wheel's centre 7.3 above the bottom one's.
   */
  lemma CreatedShape(paths: seq<string>, cos: real -> real, sin: real -> real)
    ensures var c := Created(paths, cos, sin);
            && Upright(c.top) && Upright(c.bottom) && InStep(c)
            && c.top.position.y - c.bottom.position.y == 7.3
            && |c.top.children| == |paths|
  {
    var c := Created(paths, cos, sin);
    forall j | 0 <= j < |c.top.children|
      ensures WorldSpin(c.top, j) == 0.0
    {
      assert c.top.children[j] == SlotMesh(paths, j, cos, sin);
    }
  }

  /**
   * However the user scrolls, every picture on both wheels stays upright, the
   * wheels stay in step and in place, and where they end up depends only on
   * the sum of the deltas.
   */
  lemma ScrolledShape(paths: seq<string>, cos: real -> real, sin: real -> real, deltas: seq<real>)
    ensures var c := ScrollAll(Created(paths, cos, sin), deltas);
            && Upright(c.top) && Upright(c.bottom) && InStep(c)
            && c.top.position == Vec3(0.0, TopOffset, 0.0) && c.bottom.position == Vec3(0.0, BottomOffset, 0.0)
            && c == Scroll(Created(paths, cos, sin), Total(deltas))
  {
    CreatedShape(paths, cos, sin);
    ScrollAllKeeps(Created(paths, cos, sin), deltas);
    ScrollAllTotal(Created(paths, cos, sin), deltas);
  }

  /**
   * The carousel the page builds from its sixteen image paths: each wheel
   * holds mesh i showing image i at angle i pi / 8 on the ring of radius 3, one
   * unit behind the wheel, unrotated, and the two wheels hold the same meshes.
   */
  lemma ShownCarousel(cos: real -> real, sin: real -> real)
    ensures var c := Created(ImagePaths, cos, sin);
            && |c.top.children| == |c.bottom.children| == 16
            && forall i :: 0 <= i < 16 ==>
                 var a := (i as real) * (PI / 8.0);
                 && c.top.children[i] == c.bottom.children[i]
                 && c.top.children[i] == Mesh(ImagePaths[i], Vec3(cos(a) * 3.0, sin(a) * 3.0, -1.0), 0.0)
  {
    var c := Created(ImagePaths, cos, sin);
    SixteenSlots();
    forall i | 0 <= i < 16
      ensures c.top.children[i] == Mesh(ImagePaths[i], Vec3(cos((i as real) * (PI / 8.0)) * 3.0, sin((i as real) * (PI / 8.0)) * 3.0, -1.0), 0.0)
    {
      assert c.top.children[i] == SlotMesh(ImagePaths, i, cos, sin);
      assert SlotAngle(16, i) == (i as real) * (PI / 8.0);
    }
  }

  /** The carousel's state: its two wheels, the image count the listener iterates over, and the last scroll speed. */
  class Carousel {
    var top: Wheel
    var bottom: Wheel
    var count: nat
    var scrollSpeed: real

    /** The wheels are two separate groups, each with one child per image. */
    ghost predicate Valid()
      reads this, top, bottom
    {
      top != bottom && |top.children| == count && |bottom.children| == count
    }

    /** Both wheels as values. */
    function Snapshot(): Wheels
      reads this, top, bottom
    {
      Wheels(top.Snapshot(), bottom.Snapshot())
    }

    /**
     * `createObjects`: one mesh per path on each wheel at its slot of the ring,
     * the bottom mesh a copy of the top one, then the top wheel moved up by 3.85
     * and the bottom wheel down by 3.45 along their (still unrotated) y axes.
     */
    constructor (paths: seq<string>, cos: real -> real, sin: real -> real)
      requires cos(0.0) == 1.0 && sin(0.0) == 0.0
      ensures Valid() && fresh(top) && fresh(bottom)
      ensures count == |paths| && scrollSpeed == 0.0
      ensures Snapshot() == Created(paths, cos, sin)
    {
      var topWheel := new Wheel();
      var bottomWheel := new Wheel();
      var n := |paths|;
      var radianInterval := if n > 0 then (2.0 * PI) / (n as real) else 0.0;
      var i := 0;
      while i < n
        modifies topWheel, bottomWheel
        invariant 0 <= i <= n
        invariant topWheel.children == Layout(paths, cos, sin)[..i]
        invariant bottomWheel.children == Layout(paths, cos, sin)[..i]
        invariant topWheel.position == Vec3(0.0, 0.0, 0.0) && topWheel.angle == 0.0
        invariant bottomWheel.position == Vec3(0.0, 0.0, 0.0) && bottomWheel.angle == 0.0
      {
        var x := cos(radianInterval * (i as real)) * WheelRadius;
        var y := sin(radianInterval * (i as real)) * WheelRadius;
        var topMesh := Mesh(paths[i], Vec3(x, y, Depth), 0.0);
        var bottomMesh := topMesh.(position := Vec3(x, y, Depth));
        assert radianInterval * (i as real) == SlotAngle(n, i);
        assert topMesh == bottomMesh == SlotMesh(paths, i, cos, sin);
        LayoutGrows(paths, cos, sin, i);
        topWheel.Add(topMesh);
        bottomWheel.Add(bottomMesh);
        i := i + 1;
      }
      assert Layout(paths, cos, sin)[..n] == Layout(paths, cos, sin);
      topWheel.TranslateY(TopOffset, cos, sin);
      bottomWheel.TranslateY(BottomOffset, cos, sin);
      top := topWheel;
      bottom := bottomWheel;
      count := n;
      scrollSpeed := 0.0;
    }

    /**
     * The `wheel` listener: both wheels turn by minus the scroll speed, then
     * the first `count` meshes of each turn back by the same amount.
     */
    method OnWheel(deltaY: real)
      requires Valid()
      modifies this, top, bottom
      ensures Valid() && top == old(top) && bottom == old(bottom) && count == old(count)
      ensures scrollSpeed == Speed(deltaY)
      ensures Snapshot() == Scroll(old(Snapshot()), deltaY)
    {
      scrollSpeed := (deltaY / 360.0) / 2.0;
      top.RotateZ(-1.0 * scrollSpeed);
      bottom.RotateZ(-1.0 * scrollSpeed);
      ghost var tc, bc := top.children, bottom.children;
      var i := 0;
      while i < count
        modifies top, bottom
        invariant 0 <= i <= count && |top.children| == |bottom.children| == count
        invariant forall j :: 0 <= j < i ==> top.children[j] == Spin(tc[j], scrollSpeed) && bottom.children[j] == Spin(bc[j], scrollSpeed)
        invariant forall j :: i <= j < count ==> top.children[j] == tc[j] && bottom.children[j] == bc[j]
        invariant top.position == old(top.position) && top.angle == old(top.angle) - scrollSpeed
        invariant bottom.position == old(bottom.position) && bottom.angle == old(bottom.angle) - scrollSpeed
      {
        top.RotateChildZ(i, scrollSpeed);
        bottom.RotateChildZ(i, scrollSpeed);
        i := i + 1;
      }
      assert top.children == SpinAll(tc, scrollSpeed);
      assert bottom.children == SpinAll(bc, scrollSpeed);
    }
  }

  /** The layout loop's children after iteration i: those after iteration i - 1, then the slot mesh of path i. */
  lemma LayoutGrows(paths: seq<string>, cos: real -> real, sin: real -> real, i: nat)
    requires i < |paths|
    ensures Layout(paths, cos, sin)[..i + 1] == Layout(paths, cos, sin)[..i] + [SlotMesh(paths, i, cos, sin)]
  {
    var l := Layout(paths, cos, sin);
    assert l[i] == SlotMesh(paths, i, cos, sin);
    assert l[..i + 1] == l[..i] + [l[i]];
  }
}
