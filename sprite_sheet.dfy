/**
 * Graphics SpriteSheet: a texture cut into a grid of equally sized sections,
 * and the frame lists built from it.  Sections are kept in pixel units; the
 * engine stores the same rectangles divided by the texture size (texture
 * coordinates).  Horizontal cells are counted by rowsCount and vertical ones
 * by columnsCount, as the engine names them, and sections run row by row.
 */
module SpriteSheet {
  import opened Wrappers

  const U32: int := 0x1_0000_0000
  newtype uint32 = x: int | 0 <= x < 0x1_0000_0000

  /** A loaded texture: its identity and its size in pixels. */
  datatype Texture = Texture(id: nat, width: nat, height: nat)

  /** A rectangle of the texture, in pixels. */
  datatype Section = Section(startX: nat, startY: nat, width: nat, height: nat)

  /** The part of the texture a sprite shows: all of it (texture coordinates (0,0) to (1,1)) or one section. */
  datatype UvRegion = WholeTexture | Region(section: Section)

  /** The SpriteRenderer component: an optional texture and the region of it to draw. */
  datatype SpriteRenderer = SpriteRenderer(texture: Option<Texture>, region: UvRegion)

  /** A SpriteRenderer as the component's defaults leave it: no texture, the whole texture region. */
  const DefaultSpriteRenderer: SpriteRenderer := SpriteRenderer(None, WholeTexture)

  /** The position of grid cell (x, y) in the row-by-row section list. */
  function Cell(rowsCount: nat, x: nat, y: nat): nat
  {
    y * rowsCount + x
  }

  lemma MulMonotone(a: nat, b: nat, c: nat)
    requires a <= b
    ensures a * c <= b * c
  {
    assert b * c - a * c == (b - a) * c;
  }

  /** Every cell of an earlier row comes before the first cell of row y0. */
  lemma CellBeforeRow(rowsCount: nat, x: nat, y: nat, y0: nat)
    requires x < rowsCount && y < y0
    ensures Cell(rowsCount, x, y) < y0 * rowsCount
  {
    MulMonotone(y + 1, y0, rowsCount);
  }

  /** The sections of the grid: cell (x, y) starts at (x * spriteWidth, y * spriteHeight) and has the sprite's size. */
  ghost predicate IsGrid(sections: seq<Section>, rowsCount: nat, columnsCount: nat, spriteWidth: nat, spriteHeight: nat)
  {
    && |sections| == rowsCount * columnsCount
    && forall x: nat, y: nat :: x < rowsCount && y < columnsCount ==>
         Cell(rowsCount, x, y) < |sections| && sections[Cell(rowsCount, x, y)] == Section(x * spriteWidth, y * spriteHeight, spriteWidth, spriteHeight)
  }

  /** The frame for one section index: that section of the texture, or the default when the index is out of range. */
  function FrameFor(texture: Texture, sections: seq<Section>, index: nat): (frame: SpriteRenderer)
    ensures index < |sections| ==> frame.texture == Some(texture) && frame.region == Region(sections[index])
    ensures index >= |sections| ==> frame == DefaultSpriteRenderer
  {
    if index < |sections| then SpriteRenderer(Some(texture), Region(sections[index])) else DefaultSpriteRenderer
  }

  /** The number of frames GetFrames(first, last) builds: last - first + 1 in 32-bit unsigned arithmetic. */
  function RangeCount(first: uint32, last: uint32): nat
  {
    (last as int - first as int + 1) % U32
  }

  /** The section index of frame k of GetFrames(first, last): k + first truncated to 32 bits. */
  function RangeIndex(first: uint32, k: nat): nat
  {
    (k + first as int) % U32
  }

  /** A range inside the sheet gives last - first + 1 frames, frame k showing section first + k. */
  lemma RangeWithinSheet(texture: Texture, sections: seq<Section>, first: uint32, last: uint32)
    requires first <= last && (last as int) < |sections| < U32
    ensures RangeCount(first, last) == last as int - first as int + 1
    ensures forall k :: 0 <= k < RangeCount(first, last) ==>
              RangeIndex(first, k) == first as int + k && FrameFor(texture, sections, RangeIndex(first, k)) == SpriteRenderer(Some(texture), Region(sections[first as int + k]))
  {
  }

  /**
   * A reversed range is not rejected: first == last + 1 gives no frames, and
   * any larger first wraps around to 2^32 - (first - last - 1) frames.
   */
  lemma ReversedRange(first: uint32, last: uint32)
    requires first > last
    ensures first as int == last as int + 1 ==> RangeCount(first, last) == 0
    ensures first as int > last as int + 1 ==> RangeCount(first, last) == U32 - (first as int - last as int - 1) > 1
  {
  }

  /** The nested loops of Subdivide: the sections of a rowsCount by columnsCount grid, filled row by row. */
  method FillSections(rowsCount: nat, columnsCount: nat, spriteWidth: nat, spriteHeight: nat) returns (grid: seq<Section>)
    ensures IsGrid(grid, rowsCount, columnsCount, spriteWidth, spriteHeight)
  {
    var rows, cols := rowsCount, columnsCount;
    grid := seq(rows * cols, _ => Section(0, 0, 0, 0));
    var i := 0;
    for y := 0 to cols
      invariant |grid| == rows * cols
      invariant i == y * rows
      invariant forall x': nat, y': nat :: x' < rows && y' < y ==>
                  Cell(rows, x', y') < |grid| && grid[Cell(rows, x', y')] == Section(x' * spriteWidth, y' * spriteHeight, spriteWidth, spriteHeight)
    {
      for x := 0 to rows
        invariant |grid| == rows * cols
        invariant i == y * rows + x
        invariant forall x': nat, y': nat :: x' < rows && y' < y ==>
                    Cell(rows, x', y') < |grid| && grid[Cell(rows, x', y')] == Section(x' * spriteWidth, y' * spriteHeight, spriteWidth, spriteHeight)
        invariant forall x': nat :: x' < x ==>
                    Cell(rows, x', y) < |grid| && grid[Cell(rows, x', y)] == Section(x' * spriteWidth, y * spriteHeight, spriteWidth, spriteHeight)
      {
        CellBeforeRow(rows, x, y, cols);
        forall x': nat, y': nat | x' < rows && y' < y
          ensures Cell(rows, x', y') < i
        {
          CellBeforeRow(rows, x', y', y);
        }
        grid := grid[i := Section(x * spriteWidth, y * spriteHeight, spriteWidth, spriteHeight)];
        i := i + 1;
      }
    }
  }

  class SpriteSheet {
    var texture: Texture
    var rowsCount: nat
    var columnsCount: nat
    var sections: seq<Section>

    /** The number of sections fits the 32-bit counts the engine keeps. */
    ghost predicate Valid()
      reads this
    {
      |sections| < U32
    }

    /** SpriteSheet(texture, spriteWidth, spriteHeight): keeps the texture and subdivides it. */
    constructor (tex: Texture, spriteWidth: nat, spriteHeight: nat)
      requires spriteWidth > 0 && spriteHeight > 0
      requires (tex.width / spriteWidth) * (tex.height / spriteHeight) < U32
      ensures texture == tex && Valid()
      ensures rowsCount == tex.width / spriteWidth && columnsCount == tex.height / spriteHeight
      ensures IsGrid(sections, rowsCount, columnsCount, spriteWidth, spriteHeight)
    {
      texture := tex;
      rowsCount := 0;
      columnsCount := 0;
      sections := [];
      new;
      Subdivide(spriteWidth, spriteHeight);
    }

    /**
     * Subdivide: whole sprites across the width and down the height (integer
     * division), one section per cell, filled row by row.
     */
    method Subdivide(spriteWidth: nat, spriteHeight: nat)
      requires spriteWidth > 0 && spriteHeight > 0
      requires (texture.width / spriteWidth) * (texture.height / spriteHeight) < U32
      modifies this
      ensures texture == old(texture)
      ensures rowsCount == texture.width / spriteWidth && columnsCount == texture.height / spriteHeight
      ensures Valid()
      ensures IsGrid(sections, rowsCount, columnsCount, spriteWidth, spriteHeight)
    {
      var width, height := texture.width, texture.height;
      rowsCount := width / spriteWidth;
      columnsCount := height / spriteHeight;
      sections := FillSections(rowsCount, columnsCount, spriteWidth, spriteHeight);
    }

    /** GetFrames(indices): one frame per index, the default frame for an index outside the sheet. */
    method GetFramesOf(indices: seq<uint32>) returns (frames: seq<SpriteRenderer>)
      ensures |frames| == |indices|
      ensures forall i :: 0 <= i < |indices| ==> frames[i] == FrameFor(texture, sections, indices[i] as nat)
    {
      frames := seq(|indices|, _ => DefaultSpriteRenderer);
      for i := 0 to |frames|
        invariant |frames| == |indices|
        invariant forall j :: 0 <= j < i ==> frames[j] == FrameFor(texture, sections, indices[j] as nat)
        invariant forall j :: i <= j < |frames| ==> frames[j] == DefaultSpriteRenderer
      {
        var sectionIndex := indices[i];
        if sectionIndex as int >= |sections| {
          continue;
        }
        frames := frames[i := SpriteRenderer(Some(texture), Region(sections[sectionIndex]))];
      }
    }

    /** GetFrames(first, last): the frames of the consecutive section indices first, first + 1, ... */
    method GetFramesInRange(first: uint32, last: uint32) returns (frames: seq<SpriteRenderer>)
      ensures |frames| == RangeCount(first, last)
      ensures forall k :: 0 <= k < |frames| ==> frames[k] == FrameFor(texture, sections, RangeIndex(first, k))
    {
      var count := (last as int - first as int + 1) % U32;
      var indices := seq(count, _ => 0 as uint32);
      for i := 0 to count
        invariant |indices| == count
        invariant forall j :: 0 <= j < i ==> indices[j] as int == RangeIndex(first, j)
      {
        indices := indices[i := ((i + first as int) % U32) as uint32];
      }
      frames := GetFramesOf(indices);
    }

    /** GetFrames(): every section in order; an empty sheet gives no frames. */
    method GetFrames() returns (frames: seq<SpriteRenderer>)
      requires Valid()
      ensures |frames| == |sections|
      ensures forall i :: 0 <= i < |sections| ==> frames[i] == SpriteRenderer(Some(texture), Region(sections[i]))
    {
      var last := ((|sections| - 1) % U32) as uint32;
      frames := GetFramesInRange(0, last);
    }
  }

  /** On a sheet subdivided from its texture, every section lies inside the texture. */
  lemma {:induction false} SectionsInsideTexture(texture: Texture, sections: seq<Section>, spriteWidth: nat, spriteHeight: nat)
    requires spriteWidth > 0 && spriteHeight > 0
    requires IsGrid(sections, texture.width / spriteWidth, texture.height / spriteHeight, spriteWidth, spriteHeight)
    ensures forall i :: 0 <= i < |sections| ==>
              sections[i].startX + sections[i].width <= texture.width && sections[i].startY + sections[i].height <= texture.height
  {
    var rows, cols := texture.width / spriteWidth, texture.height / spriteHeight;
    forall i | 0 <= i < |sections|
      ensures sections[i].startX + sections[i].width <= texture.width && sections[i].startY + sections[i].height <= texture.height
    {
      var x, y := i % rows, i / rows;
      assert Cell(rows, x, y) == i;
      MulMonotone(y + 1, cols, rows);
      MulMonotone(x + 1, rows, spriteWidth);
      MulMonotone(y + 1, cols, spriteHeight);
      assert sections[i] == Section(x * spriteWidth, y * spriteHeight, spriteWidth, spriteHeight);
    }
  }
}
