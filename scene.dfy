/** The scene data the renderer reads once per frame and never changes. */
module Scenes {

  datatype Vec3 = Vec3(x: real, y: real, z: real)

  datatype Vec4 = Vec4(x: real, y: real, z: real, w: real)

  datatype Camera = Camera(fov: real, zNear: real, zFar: real, exposure: real)

  /** The fields of class Scene that the renderer reads. */
  datatype Scene = Scene(
    loaded: bool,
    minBounds: Vec3,
    maxBounds: Vec3,
    camera: Camera,
    skyColor: Vec4)
}
