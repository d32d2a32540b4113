/**
 * The two picture wheels of the carousel: a wheel is a `THREE.Group` whose
 * children are the picture meshes, laid out evenly on a ring of radius 3.
 * `cos` and `sin` are parameters with no interpretation; where a fact needs
 * one of their values, the lemma asks for it.
 */
module WheelLayout {
  import opened Scene

  /** The image paths the carousel loads, in order: one mesh per path on each wheel. */
  const ImagePaths: seq<string> := [
    "images/color.jpg",
    "images/abts1.jpg",
    "images/abts2.jpg",
    "images/bit.JPG",
    "images/bit2.JPG",
    "images/hbc1.JPG",
    "images/hbc2.JPG",
    "images/hbcLogo.JPG",
    "images/hh1.JPG",
    "images/hh2.JPG",
    "images/sb1.jpg",
    "images/sb2.jpg",
    "images/sisisBarbershop1.jpg",
    "images/sisisBarbershop2.jpg",
    "images/whatDesigner1.JPG",
    "images/whatDesigner2.JPG"
  ]

  /** Radius of the ring the meshes sit on. */
  const WheelRadius: real := 3.0
  /** Every mesh sits one unit behind its wheel's plane. */
  const Depth: real := -1.0
  /** How far the top wheel is moved along its y axis once it is built. */
  const TopOffset: real := 3.85
  /** How far the bottom wheel is moved along its y axis once it is built. */
  const BottomOffset: real := -3.45

  /** A picture mesh: the image on it, its position in its wheel, and its own rotation about z. */
  datatype Mesh = Mesh(image: string, position: Vec3, spin: real)

  /** Mesh m turned by d about its own z axis. */
  function Spin(m: Mesh, d: real): Mesh
  {
    m.(spin := m.spin + d)
  }

  /** A wheel's state as a value: its translation, its rotation about z and its meshes, in the order they were added. */
  datatype WheelState = WheelState(position: Vec3, angle: real, children: seq<Mesh>)

  /** The angle between two neighbouring meshes when n meshes share the ring. */
  function Interval(n: nat): real
    requires n > 0
  {
    (2.0 * PI) / (n as real)
  }

  /** The angle at which mesh i of n sits. */
  function SlotAngle(n: nat, i: nat): real
    requires i < n
  {
    Interval(n) * (i as real)
  }

  /** Where mesh i of n sits in its wheel. */
  function SlotPosition(n: nat, i: nat, cos: real -> real, sin: real -> real): (p: Vec3)
    requires i < n
    ensures p.z == Depth
    ensures var c, s := cos(SlotAngle(n, i)), sin(SlotAngle(n, i));
            p.x * p.x + p.y * p.y == WheelRadius * WheelRadius * (c * c + s * s)
  {
    var c, s := cos(SlotAngle(n, i)), sin(SlotAngle(n, i));
    assert (c * 3.0) * (c * 3.0) + (s * 3.0) * (s * 3.0) == 9.0 * (c * c + s * s);
    Vec3(c * WheelRadius, s * WheelRadius, Depth)
  }

  /** The mesh the layout loop creates for path i: unrotated, at its slot, showing that image. */
  function SlotMesh(paths: seq<string>, i: nat, cos: real -> real, sin: real -> real): Mesh
    requires i < |paths|
  {
    Mesh(paths[i], SlotPosition(|paths|, i, cos, sin), 0.0)
  }

  /** The children of either wheel once the layout loop is done: one slot mesh per path, in order. */
  function Layout(paths: seq<string>, cos: real -> real, sin: real -> real): seq<Mesh>
  {
    seq(|paths|, i requires 0 <= i < |paths| => SlotMesh(paths, i, cos, sin))
  }

  /**
   * The layout has one mesh per path, showing that path's image, unrotated and
   * one unit behind the wheel, and neighbouring meshes are one interval apart.
   */
  lemma LayoutMeshes(paths: seq<string>, cos: real -> real, sin: real -> real, i: nat)
    requires i < |paths|
    ensures |Layout(paths, cos, sin)| == |paths|
    ensures var m := Layout(paths, cos, sin)[i];
            && m.image == paths[i] && m.spin == 0.0 && m.position.z == Depth
            && m.position == Vec3(cos(SlotAngle(|paths|, i)) * WheelRadius, sin(SlotAngle(|paths|, i)) * WheelRadius, Depth)
  {
  }

  /**
   * The slot angles divide the full turn evenly: the first is 0, each next one
   * is one interval further, all lie in [0, 2 pi) and n intervals make a turn.
   */
  lemma SlotAngles(n: nat, i: nat)
    requires i < n
    ensures SlotAngle(n, 0) == 0.0
    ensures (n as real) * Interval(n) == 2.0 * PI
    ensures i + 1 < n ==> SlotAngle(n, i + 1) == SlotAngle(n, i) + Interval(n)
    ensures 0.0 <= SlotAngle(n, i) < 2.0 * PI
  {
    var step, k := Interval(n), i as real;
    assert step > 0.0;
    assert (n as real) * step == 2.0 * PI;
    assert (k + 1.0) * step == k * step + step;
    assert (n as real - k) * step > 0.0;
    assert (n as real) * step - k * step == (n as real - k) * step;
  }

  /** No two meshes share a slot: distinct indices have distinct angles. */
  lemma SlotsDistinct(n: nat, i: nat, j: nat)
    requires i < j < n
    ensures SlotAngle(n, i) < SlotAngle(n, j)
  {
    var step := Interval(n);
    assert step > 0.0;
    assert ((j - i) as real) * step > 0.0;
    assert (j as real) * step == (i as real) * step + ((j - i) as real) * step;
  }

  /** Every mesh lies on the ring of radius 3 around the wheel's axis, at the point a unit circle maps its angle to. */
  lemma SlotOnRing(n: nat, i: nat, cos: real -> real, sin: real -> real)
    requires i < n
    requires cos(SlotAngle(n, i)) * cos(SlotAngle(n, i)) + sin(SlotAngle(n, i)) * sin(SlotAngle(n, i)) == 1.0
    ensures var p := SlotPosition(n, i, cos, sin);
            p.x * p.x + p.y * p.y == WheelRadius * WheelRadius && p.z == Depth
  {
  }

  /** The carousel shows sixteen pictures, one every pi / 8. */
  lemma SixteenSlots()
    ensures |ImagePaths| == 16
    ensures Interval(|ImagePaths|) == PI / 8.0
  {
  }

  /** A `THREE.Group` holding picture meshes, as far as the carousel uses it. */
  class Wheel {
    var position: Vec3
    var angle: real
    var children: seq<Mesh>

    /** `new THREE.Group()`: at the origin, unrotated, empty. */
    constructor ()
      ensures position == Vec3(0.0, 0.0, 0.0) && angle == 0.0 && children == []
    {
      position := Vec3(0.0, 0.0, 0.0);
      angle := 0.0;
      children := [];
    }

    /** The wheel's state as a value. */
    function Snapshot(): WheelState
      reads this
    {
      WheelState(position, angle, children)
    }

    /** `add`: the mesh becomes the last child. */
    method Add(m: Mesh)
      modifies this
      ensures children == old(children) + [m]
      ensures position == old(position) && angle == old(angle)
    {
      children := children + [m];
    }

    /**
     * `translateY`: moves the wheel by d along its own y axis, which the
     * rotation about z has turned to (-sin angle, cos angle, 0).
     */
    method TranslateY(d: real, cos: real -> real, sin: real -> real)
      modifies this
      ensures position == Vec3(old(position).x - d * sin(old(angle)), old(position).y + d * cos(old(angle)), old(position).z)
      ensures angle == old(angle) && children == old(children)
    {
      position := Vec3(position.x - d * sin(angle), position.y + d * cos(angle), position.z);
    }

    /** `rotateZ`: turns the wheel, and everything on it, by d about its own z axis. */
    method RotateZ(d: real)
      modifies this
      ensures angle == old(angle) + d
      ensures position == old(position) && children == old(children)
    {
      angle := angle + d;
    }

    /** `children[i].rotateZ`: turns mesh i by d about its own z axis; nothing else moves. */
    method RotateChildZ(i: nat, d: real)
      requires i < |children|
      modifies this
      ensures children == old(children)[i := Spin(old(children)[i], d)]
      ensures position == old(position) && angle == old(angle)
    {
      children := children[i := Spin(children[i], d)];
    }
  }
}
