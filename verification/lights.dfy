/** `DirectionalLight` (Renderer/src/DirectionalLight.cpp,
    Renderer/include/DirectionalLight.hpp): a plain record read by the
    physics meshes when they fill their light buffers. */
module Lights {
  import opened Geometry

  datatype DirectionalLight = DirectionalLight(
    direction: Vec3,
    color: Vec3,
    ambientIntensity: real,
    diffuseIntensity: real)

  /** `DirectionalLight()`: a white light shining along (1, 1, 0) with
      ambient 0.4 and diffuse 0.6. */
  function DefaultDirectionalLight(): (l: DirectionalLight)
    ensures l.direction == Vec3(1.0, 1.0, 0.0)
    ensures l.color == Vec3(1.0, 1.0, 1.0)
    ensures l.ambientIntensity == 0.4 && l.diffuseIntensity == 0.6
  {
    DirectionalLight(Vec3(1.0, 1.0, 0.0), Splat3(1.0), 0.4, 0.6)
  }

  /** `DirectionalLight(col, aIntensity, dIntensity, dir)`: note the
      argument order differs from the member order; each argument lands in
      its own member. */
  function NewDirectionalLight(col: Vec3, aIntensity: real, dIntensity: real, dir: Vec3): (l: DirectionalLight)
    ensures l.color == col && l.direction == dir
    ensures l.ambientIntensity == aIntensity && l.diffuseIntensity == dIntensity
  {
    DirectionalLight(dir, col, aIntensity, dIntensity)
  }

  /** Every light is the explicit constructor applied to its own getters, so
      the explicit constructor reaches every light (the default one included)
      and the getters invert it. */
  lemma ConstructorInvertsGetters(l: DirectionalLight)
    ensures NewDirectionalLight(l.color, l.ambientIntensity, l.diffuseIntensity, l.direction) == l
    ensures DefaultDirectionalLight() == NewDirectionalLight(Splat3(1.0), 0.4, 0.6, Vec3(1.0, 1.0, 0.0))
  {
  }
}
