/** The engine's vector values (glm::vec2, vec3, vec4 and the engine's Vec2), with real components. */
module Vectors {
  datatype Vec2 = Vec2(x: real, y: real)
  datatype Vec3 = Vec3(x: real, y: real, z: real)
  datatype Vec4 = Vec4(x: real, y: real, z: real, w: real)
}
