/**
 * The Vulkan renderer's draw-list bookkeeping.  Between BeginDrawing and
 * EndDrawing, sprites and strings are collected into parallel lists
 * (textures, meshes, model transforms, UV-transform push constants); a
 * string also fills the text index buffer of the current frame's next text
 * slot.  EndDrawing hands the lists to the frame being drawn and advances
 * the ring of three frames in flight.  GPU objects are named by handles,
 * and each presented frame is recorded as the list of what it draws.
 */
module Renderer {
  import opened Wrappers
  import opened Vectors
  import opened VulkanTypes
  import opened VulkanBuffer
  import Mesh
  import CoreBuffer
  import VulkanUtils
  import Color

  const FramesInFlight: nat := 3
  const MaxQuadCount: nat := 100
  const MaxCharCount: nat := 1000
  /** sizeof(VertexColorTexture): vec3, vec4 and vec2 of 32-bit floats. */
  const VertexColorTextureSize: nat := 36
  /** sizeof(MVP): three 4x4 float matrices. */
  const MvpSize: nat := 192
  const U16: nat := 0x1_0000

  /** A sprite's or a string's placement. */
  datatype ModelData = ModelData(position: Vec3, rotation: Vec3, scale: Vec3)

  /** A font as DrawString uses it: its atlas texture and the codepoints it has glyphs for. */
  datatype Font = Font(atlas: nat, glyphs: set<nat>)

  /** The text DrawString is given: the bytes of a std::string, walked one `char` at a time. */
  type Text = seq<CoreBuffer.uint8>

  const CarriageReturn: CoreBuffer.uint8 := 0x0D
  const LineFeed: CoreBuffer.uint8 := 0x0A
  const Space: CoreBuffer.uint8 := 0x20
  const Tab: CoreBuffer.uint8 := 0x09
  /** The codepoint of '?', the stand-in glyph. */
  const QuestionMark: nat := 0x3F
  const U32: nat := 0x1_0000_0000

  /** A sprite as a frame draws it: texture, mesh, model transform and the UV transform pushed as a constant. */
  datatype SpriteDraw = SpriteDraw(texture: nat, mesh: nat, model: ModelData, uvTransform: Vec4)

  /** A string as a frame draws it: atlas texture, model transform, and the indices of its text slot. */
  datatype TextDraw = TextDraw(texture: nat, model: ModelData, indexCount: nat, indices: seq<Mesh.uint16>)

  /**
   * A presented frame: the colour its render pass clears to and the sprites
   * and strings it draws, or a clear to a background colour.
   */
  datatype Presented = Drawn(clearColor: Vec4, sprites: seq<SpriteDraw>, texts: seq<TextDraw>) | Cleared(background: Vec4)

  /** The clear value a drawn frame uses: the background colour's red, green and blue with alpha 1. */
  function OpaqueClearColor(background: Color.Color): (v: Vec4)
    ensures v.w == 1.0
    ensures v.x == background.value.x && v.y == background.value.y && v.z == background.value.z
  {
    var c := Color.GetValues(background);
    Vec4(c.x, c.y, c.z, 1.0)
  }

  /** The text vertex buffer of one slot: room for 1000 characters of four vertices, kept mapped. */
  function TextVertexDescription(): (d: BufferDescription)
    ensures d.size == MaxCharCount * 4 * VertexColorTextureSize && d.data.None? && d.keepMapped
    ensures UsageFlagsOf(d.usage) == VkBufferVertex
    ensures AllocationFlagsOf(d.allocationUsage, d.keepMapped) == VmaMapped | VmaHostAccessSequentialWrite
  {
    BufferDescription(MaxCharCount * 4 * VertexColorTextureSize, None, UsageVertex, HostWrite, true)
  }

  /** The text index buffer of one slot: room for 1000 characters of six 16-bit indices, kept mapped. */
  function TextIndexDescription(): (d: BufferDescription)
    ensures d.size == MaxCharCount * 6 * Mesh.IndexSize && d.data.None? && d.keepMapped
    ensures UsageFlagsOf(d.usage) == VkBufferIndex
    ensures AllocationFlagsOf(d.allocationUsage, d.keepMapped) == VmaMapped | VmaHostAccessSequentialWrite
  {
    BufferDescription(MaxCharCount * 6 * Mesh.IndexSize, None, UsageIndex, HostWrite, true)
  }

  /** Per frame in flight, `perFrame` buffers all made from one description. */
  ghost predicate FrameSlots(slots: seq<seq<BufferDescription>>, perFrame: nat, d: BufferDescription)
  {
    |slots| == FramesInFlight && forall f :: 0 <= f < |slots| ==> slots[f] == seq(perFrame, _ => d)
  }

  /**
   * Init's buffer loops: for each frame in flight, 2 * 100 uniform buffers
   * holding one MVP each, and 100 text vertex and 100 text index buffers.
   */
  method InitBufferSlots() returns (uniform: seq<seq<BufferDescription>>, textVertex: seq<seq<BufferDescription>>, textIndex: seq<seq<BufferDescription>>)
    ensures FrameSlots(uniform, 2 * MaxQuadCount, VulkanUtils.UniformDescription(MvpSize))
    ensures FrameSlots(textVertex, MaxQuadCount, TextVertexDescription())
    ensures FrameSlots(textIndex, MaxQuadCount, TextIndexDescription())
  {
    var u, v, x := VulkanUtils.UniformDescription(MvpSize), TextVertexDescription(), TextIndexDescription();
    uniform, textVertex, textIndex := [], [], [];
    for i := 0 to FramesInFlight
      invariant |uniform| == |textVertex| == |textIndex| == i
      invariant forall f :: 0 <= f < i ==> uniform[f] == seq(2 * MaxQuadCount, _ => u)
      invariant forall f :: 0 <= f < i ==> textVertex[f] == seq(MaxQuadCount, _ => v)
      invariant forall f :: 0 <= f < i ==> textIndex[f] == seq(MaxQuadCount, _ => x)
    {
      var frameUniform, frameVertex, frameIndex := [], [], [];
      for j := 0 to MaxQuadCount
        invariant |frameUniform| == 2 * j && |frameVertex| == |frameIndex| == j
        invariant forall k :: 0 <= k < 2 * j ==> frameUniform[k] == u
        invariant forall k :: 0 <= k < j ==> frameVertex[k] == v && frameIndex[k] == x
      {
        frameUniform := frameUniform + [u, u];
        frameVertex := frameVertex + [v];
        frameIndex := frameIndex + [x];
      }
      uniform := uniform + [frameUniform];
      textVertex := textVertex + [frameVertex];
      textIndex := textIndex + [frameIndex];
    }
  }

  /** Bytes DrawString moves the pen for without drawing: carriage return, newline, space and tab. */
  predicate IsSkipped(c: CoreBuffer.uint8)
  {
    c == CarriageReturn || c == LineFeed || c == Space || c == Tab
  }

  /**
   * The codepoint getGlyph is asked for: the byte read as a signed `char`
   * and converted to the 32-bit unsigned codepoint type, so bytes from 0x80
   * up are sign-extended to 0xFFFFFF80 and beyond.
   */
  function GlyphCodepoint(c: CoreBuffer.uint8): (cp: nat)
    ensures cp < U32
    ensures c < 0x80 ==> cp == c as nat
    ensures 0x80 <= c ==> cp == U32 - 0x100 + c as nat
  {
    var signed := if c < 0x80 then c as int else c as int - 0x100;
    signed % U32
  }

  /** The glyphs a font loads: the charset 0x20 through 0xFF of Font.cpp. */
  predicate LoadsLatin1Charset(font: Font)
  {
    forall cp :: cp in font.glyphs ==> 0x20 <= cp <= 0xFF
  }

  /** With the font's charset, a byte from 0x80 up never finds a glyph of its own. */
  lemma HighBytesHaveNoGlyph(font: Font, c: CoreBuffer.uint8)
    requires LoadsLatin1Charset(font) && 0x80 <= c
    ensures GlyphCodepoint(c) !in font.glyphs
  {
  }

  /** The number of quads a text needs: one per byte that is not skipped, so never more than its length. */
  function QuadCountOf(s: Text): (n: nat)
    ensures n <= |s|
  {
    if |s| == 0 then 0
    else QuadCountOf(s[..|s| - 1]) + (if IsSkipped(s[|s| - 1]) then 0 else 1)
  }

  /** Every drawn byte has a glyph, or the font has the '?' glyph to stand in for it. */
  predicate HasGlyphs(s: Text, font: Font)
  {
    forall i :: 0 <= i < |s| && !IsSkipped(s[i]) ==> GlyphCodepoint(s[i]) in font.glyphs || QuestionMark in font.glyphs
  }

  /**
   * A two-byte UTF-8 character such as U+00E9 (bytes C3 A9) is drawn as two
   * quads, and with a font of the engine's charset that lacks '?' the string
   * stops early, although the font has a glyph for U+00E9.
   */
  lemma {:induction false} Utf8CharacterIsTwoQuads(font: Font)
    requires LoadsLatin1Charset(font) && QuestionMark !in font.glyphs
    ensures QuadCountOf([0xC3, 0xA9]) == 2
    ensures !HasGlyphs([0xC3, 0xA9], font)
  {
    var s: Text := [0xC3, 0xA9];
    assert s[..1] == [0xC3] && s[..1][..0] == [];
    HighBytesHaveNoGlyph(font, s[0]);
    assert !IsSkipped(s[0]);
  }

  /** The six indices of quad q: the quad pattern offset by 4q, stored as uint16. */
  function QuadIndicesFor(q: nat): (r: seq<Mesh.uint16>)
    ensures |r| == 6
  {
    seq(6, m requires 0 <= m < 6 => ((Mesh.QuadIndices[m] as int + 4 * q) % U16) as Mesh.uint16)
  }

  /** The index buffer of a string of q quads. */
  function TextIndices(q: nat): (r: seq<Mesh.uint16>)
    ensures |r| == 6 * q
  {
    if q == 0 then [] else TextIndices(q - 1) + QuadIndicesFor(q - 1)
  }

  /** Entry 6p + m of the index buffer is pattern entry m offset by 4p, truncated to 16 bits. */
  lemma {:induction false} TextIndicesAt(q: nat, p: nat, m: nat)
    requires p < q && m < 6
    ensures 6 * p + m < |TextIndices(q)|
    ensures TextIndices(q)[6 * p + m] as int == (Mesh.QuadIndices[m] as int + 4 * p) % U16
  {
    if p < q - 1 {
      TextIndicesAt(q - 1, p, m);
    }
  }

  /** Each entry of the quad pattern names one of the quad's four corners. */
  lemma QuadPatternBelowFour(m: nat)
    requires m < 6
    ensures Mesh.QuadIndices[m] as int < 4
  {
  }

  /**
   * Within the 1000-character text buffers no index wraps: entry k belongs to
   * quad k / 6 and is that quad's pattern entry offset by 4 (k / 6), so every
   * index names one of the 4q vertices written.
   */
  lemma TextIndicesInRange(q: nat)
    requires q <= MaxCharCount
    ensures forall k :: 0 <= k < |TextIndices(q)| ==> TextIndices(q)[k] as int == 4 * (k / 6) + Mesh.QuadIndices[k % 6] as int
    ensures forall k :: 0 <= k < |TextIndices(q)| ==> TextIndices(q)[k] as int < 4 * q
  {
    forall k | 0 <= k < |TextIndices(q)|
      ensures TextIndices(q)[k] as int == 4 * (k / 6) + Mesh.QuadIndices[k % 6] as int
      ensures TextIndices(q)[k] as int < 4 * q
    {
      var p, m := k / 6, k % 6;
      assert k == 6 * p + m;
      TextIndicesAt(q, p, m);
      QuadPatternBelowFour(m);
      assert 4 * p + Mesh.QuadIndices[m] as int < U16;
    }
  }

  /**
   * DrawString's character loop: one quad per character that is not skipped,
   * writing that quad's six indices; it gives up (completed false) at the
   * first drawn character with neither its own glyph nor the '?' glyph.
   */
  method BuildTextIndices(s: Text, font: Font) returns (completed: bool, quadCount: nat, indices: seq<Mesh.uint16>)
    ensures completed <==> HasGlyphs(s, font)
    ensures completed ==> quadCount == QuadCountOf(s) && indices == TextIndices(quadCount)
  {
    quadCount, indices := 0, [];
    for i := 0 to |s|
      invariant quadCount == QuadCountOf(s[..i]) && indices == TextIndices(quadCount)
      invariant HasGlyphs(s[..i], font)
    {
      assert s[..i + 1][..i] == s[..i];
      var character := s[i];
      if character == CarriageReturn {
        continue;
      }
      if character == LineFeed {
        continue;
      }
      if character == Space {
        continue;
      }
      if character == Tab {
        continue;
      }
      if GlyphCodepoint(character) !in font.glyphs && QuestionMark !in font.glyphs {
        return false, quadCount, indices;
      }
      indices := indices + QuadIndicesFor(quadCount);
      quadCount := quadCount + 1;
    }
    assert s[..|s|] == s;
    completed := true;
  }

  /**
   * What a frame draws from the lists: sprite i with texture i, model
   * transform i and push constant i; then string j from slot
   * |meshes| + j of the texture and model lists, with 6 indices per quad
   * from text slot j.
   */
  function DrawList(background: Color.Color, textures: seq<nat>, meshes: seq<nat>, modelData: seq<ModelData>, pushConstants: seq<Vec4>,
                    textCount: nat, textQuadCounts: seq<nat>, textIndices: seq<seq<Mesh.uint16>>): (p: Presented)
    requires |textures| >= |meshes| + textCount && |modelData| >= |meshes| + textCount && |pushConstants| >= |meshes|
    requires |textQuadCounts| >= textCount && |textIndices| >= textCount
    ensures p.Drawn? && p.clearColor == OpaqueClearColor(background)
    ensures |p.sprites| == |meshes| && |p.texts| == textCount
    ensures forall i :: 0 <= i < |meshes| ==> p.sprites[i] == SpriteDraw(textures[i], meshes[i], modelData[i], pushConstants[i])
    ensures forall j :: 0 <= j < textCount ==>
              p.texts[j] == TextDraw(textures[|meshes| + j], modelData[|meshes| + j], 6 * textQuadCounts[j], textIndices[j])
  {
    var n := |meshes|;
    Drawn(OpaqueClearColor(background),
          seq(n, i requires 0 <= i < n => SpriteDraw(textures[i], meshes[i], modelData[i], pushConstants[i])),
          seq(textCount, j requires 0 <= j < textCount => TextDraw(textures[n + j], modelData[n + j], 6 * textQuadCounts[j], textIndices[j])))
  }

  class Renderer {
    var textures: seq<nat>
    var meshes: seq<nat>
    var modelData: seq<ModelData>
    var pushConstants: seq<Vec4>
    var textCount: nat
    var uniformBufferCount: nat
    var textQuadCounts: seq<nat>
    /** Per frame and text slot, the indices the last string drawn into that slot wrote. */
    var textIndexData: seq<seq<seq<Mesh.uint16>>>
    var currentFrame: nat
    /** The colour the last Clear set; every later drawn frame is cleared to it. */
    var backgroundColor: Color.Color
    /** The frames presented so far, oldest first. */
    var presented: seq<Presented>
    /** The handle of the default quad mesh every sprite uses. */
    var quadMesh: nat
    var uniformBuffers: seq<seq<BufferDescription>>
    var textVertexBuffers: seq<seq<BufferDescription>>
    var textIndexBuffers: seq<seq<BufferDescription>>

    /** The frame index stays in the ring, and the text tables have their fixed sizes. */
    ghost predicate Valid()
      reads this
    {
      && currentFrame < FramesInFlight
      && textCount <= MaxQuadCount && |textQuadCounts| == MaxQuadCount
      && |textIndexData| == FramesInFlight
      && (forall f :: 0 <= f < FramesInFlight ==> |textIndexData[f]| == MaxQuadCount)
      && FrameSlots(uniformBuffers, 2 * MaxQuadCount, VulkanUtils.UniformDescription(MvpSize))
      && FrameSlots(textVertexBuffers, MaxQuadCount, TextVertexDescription())
      && FrameSlots(textIndexBuffers, MaxQuadCount, TextIndexDescription())
    }

    /** Every slot EndDrawing reads exists: sprite i in all four lists, string j at |meshes| + j. */
    ghost predicate SlotsInRange()
      reads this
    {
      |textures| >= |meshes| + textCount && |modelData| >= |meshes| + textCount && |pushConstants| >= |meshes|
    }

    /** Push constant i belongs to sprite i of the current frame. */
    ghost predicate PushConstantsAligned()
      reads this
    {
      |pushConstants| == |meshes|
    }

    /** Init: empty lists, frame 0, 100 text slots, and the per-frame buffer slots. */
    constructor (quad: nat)
      ensures Valid() && SlotsInRange() && PushConstantsAligned()
      ensures textures == [] && meshes == [] && modelData == [] && pushConstants == []
      ensures textCount == 0 && currentFrame == 0 && presented == [] && quadMesh == quad
      ensures backgroundColor == Color.DefaultColor()
      ensures textQuadCounts == seq(MaxQuadCount, _ => 0)
      ensures FrameSlots(uniformBuffers, 2 * MaxQuadCount, VulkanUtils.UniformDescription(MvpSize))
      ensures FrameSlots(textVertexBuffers, MaxQuadCount, TextVertexDescription())
      ensures FrameSlots(textIndexBuffers, MaxQuadCount, TextIndexDescription())
    {
      textures, meshes, modelData, pushConstants := [], [], [], [];
      textCount, uniformBufferCount := 0, 0;
      textQuadCounts := seq(MaxQuadCount, _ => 0);
      textIndexData := seq(FramesInFlight, _ => seq(MaxQuadCount, _ => []));
      currentFrame := 0;
      backgroundColor := Color.DefaultColor();
      presented := [];
      quadMesh := quad;
      new;
      uniformBuffers, textVertexBuffers, textIndexBuffers := InitBufferSlots();
    }

    /** BeginDrawing: the text and uniform-buffer counters restart at 0; the lists are untouched. */
    method BeginDrawing()
      requires Valid()
      modifies this
      ensures Valid()
      ensures textCount == 0 && uniformBufferCount == 0
      ensures textures == old(textures) && meshes == old(meshes) && modelData == old(modelData) && pushConstants == old(pushConstants)
      ensures textQuadCounts == old(textQuadCounts) && textIndexData == old(textIndexData)
      ensures currentFrame == old(currentFrame) && presented == old(presented) && quadMesh == old(quadMesh)
      ensures backgroundColor == old(backgroundColor)
      ensures |modelData| >= |meshes| && |textures| >= |meshes| && |pushConstants| >= |meshes| ==> SlotsInRange()
      ensures old(PushConstantsAligned()) ==> PushConstantsAligned()
    {
      textCount := 0;
      uniformBufferCount := 0;
    }

    /** DrawSprite: exactly one entry more in each of the four parallel lists. */
    method DrawSprite(texture: nat, position: Vec3, rotation: Vec3, scale: Vec3, uvTransform: Vec4)
      requires Valid()
      modifies this
      ensures Valid()
      ensures textures == old(textures) + [texture] && meshes == old(meshes) + [quadMesh]
      ensures modelData == old(modelData) + [ModelData(position, rotation, scale)]
      ensures pushConstants == old(pushConstants) + [uvTransform]
      ensures textCount == old(textCount) && textQuadCounts == old(textQuadCounts) && textIndexData == old(textIndexData)
      ensures currentFrame == old(currentFrame) && presented == old(presented) && quadMesh == old(quadMesh)
      ensures backgroundColor == old(backgroundColor)
      ensures old(SlotsInRange()) ==> SlotsInRange()
      ensures old(PushConstantsAligned()) ==> PushConstantsAligned()
    {
      textures := textures + [texture];
      meshes := meshes + [quadMesh];
      modelData := modelData + [ModelData(position, rotation, scale)];
      pushConstants := pushConstants + [uvTransform];
    }

    /**
     * DrawString: pushes the font atlas, then builds the string's quads.  On
     * a normal finish its indices fill the current frame's next text slot,
     * its quad count is recorded there, one model transform is pushed and the
     * text count grows by one.  When a glyph and '?' are both missing it
     * returns early, leaving the atlas pushed and nothing else changed.
     */
    method DrawString(s: Text, font: Font, position: Vec3, rotation: Vec3, scale: Vec3)
      requires Valid() && textCount < MaxQuadCount && QuadCountOf(s) <= MaxCharCount
      requires Space as nat in font.glyphs
      modifies this
      ensures Valid()
      ensures textures == old(textures) + [font.atlas]
      ensures meshes == old(meshes) && pushConstants == old(pushConstants)
      ensures currentFrame == old(currentFrame) && presented == old(presented) && quadMesh == old(quadMesh)
      ensures backgroundColor == old(backgroundColor)
      ensures HasGlyphs(s, font) ==>
                && modelData == old(modelData) + [ModelData(position, rotation, scale)]
                && textCount == old(textCount) + 1
                && textQuadCounts == old(textQuadCounts)[old(textCount) := QuadCountOf(s)]
                && textIndexData == old(textIndexData)[currentFrame := old(textIndexData)[currentFrame][old(textCount) := TextIndices(QuadCountOf(s))]]
      ensures !HasGlyphs(s, font) ==>
                modelData == old(modelData) && textCount == old(textCount) && textQuadCounts == old(textQuadCounts) && textIndexData == old(textIndexData)
      ensures old(SlotsInRange()) ==> SlotsInRange()
      ensures old(PushConstantsAligned()) ==> PushConstantsAligned()
    {
      textures := textures + [font.atlas];
      var completed, quadCount, indices := BuildTextIndices(s, font);
      if !completed {
        return;
      }
      var slots := textIndexData[currentFrame];
      textIndexData := textIndexData[currentFrame := slots[textCount := indices]];
      modelData := modelData + [ModelData(position, rotation, scale)];
      textQuadCounts := textQuadCounts[textCount := quadCount];
      textCount := textCount + 1;
    }

    /**
     * EndDrawing as the engine has it: the frame draws the lists, then
     * textures, meshes and model transforms are cleared, but the push
     * constants are kept, and the frame ring advances.
     */
    method EndDrawingAsWritten()
      requires Valid() && SlotsInRange() && |meshes| + textCount <= 2 * MaxQuadCount
      modifies this
      ensures Valid()
      ensures presented == old(presented) + [DrawList(old(backgroundColor), old(textures), old(meshes), old(modelData), old(pushConstants), old(textCount), old(textQuadCounts), old(textIndexData)[old(currentFrame)])]
      ensures textures == [] && meshes == [] && modelData == []
      ensures pushConstants == old(pushConstants)
      ensures |old(meshes)| > 0 ==> !PushConstantsAligned()
      ensures currentFrame == (old(currentFrame) + 1) % FramesInFlight
      ensures textCount == old(textCount) && textQuadCounts == old(textQuadCounts) && textIndexData == old(textIndexData) && quadMesh == old(quadMesh)
      ensures backgroundColor == old(backgroundColor)
    {
      presented := presented + [DrawList(backgroundColor, textures, meshes, modelData, pushConstants, textCount, textQuadCounts, textIndexData[currentFrame])];
      currentFrame := (currentFrame + 1) % FramesInFlight;
      textures, meshes, modelData := [], [], [];
    }

    /**
     * EndDrawing with the fourth parallel list cleared as well: the frame
     * draws the lists, all four lists are cleared, and the frame ring
     * advances, so the next frame's sprites start again at push constant 0.
     */
    method EndDrawing()
      requires Valid() && SlotsInRange() && |meshes| + textCount <= 2 * MaxQuadCount
      modifies this
      ensures Valid() && PushConstantsAligned()
      ensures presented == old(presented) + [DrawList(old(backgroundColor), old(textures), old(meshes), old(modelData), old(pushConstants), old(textCount), old(textQuadCounts), old(textIndexData)[old(currentFrame)])]
      ensures textures == [] && meshes == [] && modelData == [] && pushConstants == []
      ensures currentFrame == (old(currentFrame) + 1) % FramesInFlight
      ensures textCount == old(textCount) && textQuadCounts == old(textQuadCounts) && textIndexData == old(textIndexData) && quadMesh == old(quadMesh)
      ensures backgroundColor == old(backgroundColor)
    {
      presented := presented + [DrawList(backgroundColor, textures, meshes, modelData, pushConstants, textCount, textQuadCounts, textIndexData[currentFrame])];
      currentFrame := (currentFrame + 1) % FramesInFlight;
      textures, meshes, modelData, pushConstants := [], [], [], [];
    }

    /**
     * Clear: stores the colour as the background later frames are cleared
     * to, presents a frame cleared to it (alpha included), and advances the
     * frame ring.
     */
    method Clear(background: Color.Color)
      requires Valid()
      modifies this
      ensures Valid()
      ensures backgroundColor == background
      ensures presented == old(presented) + [Cleared(Color.GetValues(background))]
      ensures currentFrame == (old(currentFrame) + 1) % FramesInFlight
      ensures textures == old(textures) && meshes == old(meshes) && modelData == old(modelData) && pushConstants == old(pushConstants)
      ensures textCount == old(textCount) && textQuadCounts == old(textQuadCounts) && textIndexData == old(textIndexData) && quadMesh == old(quadMesh)
    {
      backgroundColor := background;
      presented := presented + [Cleared(Color.GetValues(background))];
      currentFrame := (currentFrame + 1) % FramesInFlight;
    }
  }

  /**
   * Two frames of one sprite each, through EndDrawing as written: the second
   * frame's sprite is drawn with the first frame's UV transform, whatever
   * the second DrawSprite passed.
   */
  method StaleUVTransformScenario(texture: nat, quad: nat, place: ModelData, first: Vec4, second: Vec4) returns (frames: seq<Presented>)
    ensures |frames| == 2 && frames[0].Drawn? && frames[1].Drawn?
    ensures |frames[0].sprites| == 1 && |frames[1].sprites| == 1
    ensures frames[0].sprites[0].uvTransform == first
    ensures frames[1].sprites[0].uvTransform == first
  {
    var r := new Renderer(quad);
    r.BeginDrawing();
    r.DrawSprite(texture, place.position, place.rotation, place.scale, first);
    r.EndDrawingAsWritten();
    r.BeginDrawing();
    r.DrawSprite(texture, place.position, place.rotation, place.scale, second);
    r.EndDrawingAsWritten();
    frames := r.presented;
  }

  /** The same two frames through EndDrawing: each frame's sprite is drawn with its own UV transform. */
  method FreshUVTransformScenario(texture: nat, quad: nat, place: ModelData, first: Vec4, second: Vec4) returns (frames: seq<Presented>)
    ensures |frames| == 2 && frames[0].Drawn? && frames[1].Drawn?
    ensures |frames[0].sprites| == 1 && |frames[1].sprites| == 1
    ensures frames[0].sprites[0].uvTransform == first
    ensures frames[1].sprites[0].uvTransform == second
  {
    var r := new Renderer(quad);
    r.BeginDrawing();
    r.DrawSprite(texture, place.position, place.rotation, place.scale, first);
    r.EndDrawing();
    r.BeginDrawing();
    r.DrawSprite(texture, place.position, place.rotation, place.scale, second);
    r.EndDrawing();
    frames := r.presented;
  }

  /**
   * A Clear followed by a drawn frame: the drawn frame's render pass clears
   * to the colour Clear was given, with its alpha replaced by 1.
   */
  method ClearThenDrawScenario(quad: nat, background: Color.Color) returns (frames: seq<Presented>)
    ensures |frames| == 2 && frames[0].Cleared? && frames[1].Drawn?
    ensures frames[0].background == background.value
    ensures frames[1].clearColor == Vec4(background.value.x, background.value.y, background.value.z, 1.0)
  {
    var r := new Renderer(quad);
    r.Clear(background);
    r.BeginDrawing();
    r.EndDrawing();
    frames := r.presented;
  }

  /**
   * A string whose glyph is missing (the font has only the space glyph, so
   * neither 'A' nor '?') returns early after pushing its atlas,
   * and a sprite drawn after it in the same frame takes texture slot 0: the
   * sprite is drawn with the font atlas instead of its own texture.
   */
  method AtlasShiftScenario(quad: nat, atlas: nat, texture: nat, place: ModelData, uv: Vec4) returns (frames: seq<Presented>)
    ensures |frames| == 1 && frames[0].Drawn?
    ensures |frames[0].sprites| == 1 && |frames[0].texts| == 0
    ensures frames[0].sprites[0].texture == atlas
  {
    var r := new Renderer(quad);
    r.BeginDrawing();
    r.DrawString([0x41], Font(atlas, {Space as nat}), place.position, place.rotation, place.scale);
    r.DrawSprite(texture, place.position, place.rotation, place.scale, uv);
    r.EndDrawing();
    frames := r.presented;
  }
}
