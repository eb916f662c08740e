/**
 * Graphics Color: an RGBA value stored with components in [0, 1].  The
 * constructors take 8-bit components, pass them through CorrectColor (a clamp
 * to [0, 255]) and divide by 255.
 */
module Color {
  import opened CoreBuffer
  import opened Vectors

  datatype Color = Color(value: Vec4)

  /** One component of CorrectColor: values above 255 become 255, then values below 0 become 0. */
  function ClampComponent(c: real): (r: real)
    ensures 0.0 <= r <= 255.0
    ensures 0.0 <= c <= 255.0 ==> r == c
    ensures c > 255.0 ==> r == 255.0
    ensures c < 0.0 ==> r == 0.0
  {
    var high := if c > 255.0 then 255.0 else c;
    if high < 0.0 then 0.0 else high
  }

  predicate InByteRange(v: Vec4)
  {
    0.0 <= v.x <= 255.0 && 0.0 <= v.y <= 255.0 && 0.0 <= v.z <= 255.0 && 0.0 <= v.w <= 255.0
  }

  predicate InUnitRange(v: Vec4)
  {
    0.0 <= v.x <= 1.0 && 0.0 <= v.y <= 1.0 && 0.0 <= v.z <= 1.0 && 0.0 <= v.w <= 1.0
  }

  /** CorrectColor: each of the four components clamped into [0, 255] on its own. */
  function CorrectColor(color: Vec4): (r: Vec4)
  {
    Vec4(ClampComponent(color.x), ClampComponent(color.y), ClampComponent(color.z), ClampComponent(color.w))
  }

  /**
   * CorrectColor always lands in [0, 255], leaves a colour already in range
   * unchanged, and so applying it twice is the same as once.
   */
  lemma CorrectColorClamps(color: Vec4)
    ensures InByteRange(CorrectColor(color))
    ensures InByteRange(color) ==> CorrectColor(color) == color
    ensures CorrectColor(CorrectColor(color)) == CorrectColor(color)
  {
  }

  function ByteComponent(b: uint8): real { b as int as real }

  /** Color(): black and opaque. */
  function DefaultColor(): (c: Color)
    ensures c.value == Vec4(0.0, 0.0, 0.0, 1.0)
  {
    var color := CorrectColor(Vec4(0.0, 0.0, 0.0, 255.0));
    Color(Vec4(color.x / 255.0, color.y / 255.0, color.z / 255.0, 1.0))
  }

  /** Color(r, g, b): each component divided by 255, alpha fixed at 1. */
  function ColorRGB(r: uint8, g: uint8, b: uint8): (c: Color)
    ensures InUnitRange(c.value) && c.value.w == 1.0
    ensures c.value.x * 255.0 == ByteComponent(r) && c.value.y * 255.0 == ByteComponent(g) && c.value.z * 255.0 == ByteComponent(b)
  {
    var color := CorrectColor(Vec4(ByteComponent(r), ByteComponent(g), ByteComponent(b), 255.0));
    Color(Vec4(color.x / 255.0, color.y / 255.0, color.z / 255.0, 1.0))
  }

  /** Color(r, g, b, a): all four components divided by 255. */
  function ColorRGBA(r: uint8, g: uint8, b: uint8, a: uint8): (c: Color)
    ensures InUnitRange(c.value)
    ensures c.value.x * 255.0 == ByteComponent(r) && c.value.y * 255.0 == ByteComponent(g)
    ensures c.value.z * 255.0 == ByteComponent(b) && c.value.w * 255.0 == ByteComponent(a)
  {
    var color := CorrectColor(Vec4(ByteComponent(r), ByteComponent(g), ByteComponent(b), ByteComponent(a)));
    Color(Vec4(color.x / 255.0, color.y / 255.0, color.z / 255.0, color.w / 255.0))
  }

  /** GetValues: the stored value. */
  function GetValues(c: Color): (v: Vec4)
    ensures v == c.value
  {
    c.value
  }

  /**
   * The stored value determines the bytes it came from: equal colours were
   * built from equal components, and an opaque RGBA colour equals the RGB one.
   */
  lemma {:induction false} ColorRGBAInjective(r: uint8, g: uint8, b: uint8, a: uint8, r': uint8, g': uint8, b': uint8, a': uint8)
    ensures GetValues(ColorRGBA(r, g, b, a)) == GetValues(ColorRGBA(r', g', b', a')) ==> r == r' && g == g' && b == b' && a == a'
    ensures ColorRGBA(r, g, b, 255) == ColorRGB(r, g, b)
  {
    var c, c' := ColorRGBA(r, g, b, a), ColorRGBA(r', g', b', a');
    if GetValues(c) == GetValues(c') {
      assert ByteComponent(r) == ByteComponent(r');
      assert ByteComponent(g) == ByteComponent(g');
      assert ByteComponent(b) == ByteComponent(b');
      assert ByteComponent(a) == ByteComponent(a');
    }
    var solid, rgb := ColorRGBA(r, g, b, 255), ColorRGB(r, g, b);
    assert solid.value.w * 255.0 == 255.0;
  }
}
