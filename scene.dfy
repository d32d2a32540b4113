/** Values shared by the geometry builder, the ring layout and the scroll controller. */
module Scene {

  /** The value of `Math.PI`, as the decimal literal that denotes the double nearest to pi. */
  const PI: real := 3.141592653589793

  /** A point or offset in the scene's 3D space. */
  datatype Vec3 = Vec3(x: real, y: real, z: real)

  /** A texture coordinate. */
  datatype Vec2 = Vec2(u: real, v: real)
}
