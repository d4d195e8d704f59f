/** Types shared by the three models. */
module Common {

  /** C++ `unsigned int` on the platforms Chrono targets: 32 bits. */
  newtype uint32 = x: int | 0 <= x < 0x1_0000_0000

  /** `static_cast<unsigned int>` of a signed or wider value: reduction modulo 2^32. */
  function ToUInt32(x: int): (r: uint32)
    ensures 0 <= x < 0x1_0000_0000 ==> r as int == x
    ensures (r as int - x) % 0x1_0000_0000 == 0
  {
    (x % 0x1_0000_0000) as uint32
  }

  /** A three-component vector (`ChVector`, `float3`); floating point is modelled by `real`. */
  datatype Vec3 = Vec3(x: real, y: real, z: real)

  function Sub(a: Vec3, b: Vec3): Vec3 {
    Vec3(a.x - b.x, a.y - b.y, a.z - b.z)
  }

  function Dot(a: Vec3, b: Vec3): real {
    a.x * b.x + a.y * b.y + a.z * b.z
  }
}
