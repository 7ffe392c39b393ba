/**
 * The tables: the `Table_General` style base, the highlighted-cell rules
 * the three tables share, and `Table_Bh_Embedding` (the nine coordinates of
 * the dark-bubble embedding, shown as one row or split into a non-compact
 * and a compact table), `Table_Energy_Scales` and `Table_Summary_Induce`.
 */
module Tables {
  import opened Python
  import opened Anim
  import opened Style

  /** `Table_General`: the table style, stored as given; `cornerRad` holds
      the derived per-corner radii. */
  class TableGeneral {
    const textColor: Color
    const hlight1Color: Color
    const hlight2Color: Color
    const hlight3Color: Color
    const decoratorColor: Color
    const decoratorStrokeW: real
    const cornerRad: seq<real>
    const strokeW: real
    const strokeOpa: real
    const fillOpa: real

    constructor (textColor: Color := White, hlight1Color: Color := Green, hlight2Color: Color := Red,
                 hlight3Color: Color := Blue, decoratorColor: Color := White, decoratorStrokeW: real := 1.0,
                 cornerRad: real := 0.0, cornerRadDirection: seq<real> := NoRounding,
                 strokeW: real := 1.0, strokeOpa: real := 1.0, fillOpa: real := 0.3)
      ensures this.textColor == textColor && this.decoratorColor == decoratorColor
      ensures this.hlight1Color == hlight1Color && this.hlight2Color == hlight2Color
      ensures this.hlight3Color == hlight3Color
      ensures this.cornerRad == CornerRadii(cornerRad, cornerRadDirection)
      ensures this.decoratorStrokeW == decoratorStrokeW && this.strokeW == strokeW
      ensures this.strokeOpa == strokeOpa && this.fillOpa == fillOpa
    {
      this.textColor := textColor;
      this.hlight1Color := hlight1Color;
      this.hlight2Color := hlight2Color;
      this.hlight3Color := hlight3Color;
      this.cornerRad := CornerRadii(cornerRad, cornerRadDirection);
      this.decoratorColor := decoratorColor;
      this.decoratorStrokeW := decoratorStrokeW;
      this.strokeW := strokeW;
      this.strokeOpa := strokeOpa;
      this.fillOpa := fillOpa;
    }

    /** What the highlighting code reads from the style: the three
        highlight colours, the first corner radius and the slightly more
        intense opacity `fill_opa + 0.1`. Reading `corner_rad[0]` raises
        IndexError when the direction given was empty. */
    function HighlightPalette(): (r: Result<Palette>)
      ensures r.Ok? <==> 1 <= |cornerRad|
      ensures r.Ok? ==> r.value == Palette(hlight1Color, hlight2Color, hlight3Color, cornerRad[0], fillOpa + 0.1)
    {
      var corner :- At(cornerRad, 0);
      Ok(Palette(hlight1Color, hlight2Color, hlight3Color, corner, fillOpa + 0.1))
    }
  }

  /** With the default direction the highlight palette exists and its
      corner radius is zero, whatever the scalar radius. */
  lemma DefaultPaletteIsSquare(cornerRad: real)
    ensures |CornerRadii(cornerRad, NoRounding)| == 4 && CornerRadii(cornerRad, NoRounding)[0] == 0.0
  {
    DefaultDirectionIsSquare(cornerRad);
  }

  /** The style values a highlighted row is drawn with. */
  datatype Palette = Palette(h1: Color, h2: Color, h3: Color, corner: real, opacity: real)

  /** One `add_highlighted_cell((row, col), …)` call; `corners` is the
      per-corner radius list when one is passed. */
  datatype Highlight = Highlight(row: nat, col: nat, color: Color, opacity: real, corners: Option<seq<real>>)

  /** The highlighted rows: the two halves of the split embedding table,
      the single row of the together table, and the three-cell headers of
      the energy-scale and summary tables. */
  datatype Layout = NonCompact | Compact | Together | Header

  function Width(l: Layout): nat
  {
    match l
    case NonCompact => 4
    case Compact => 5
    case Together => 9
    case Header => 3
  }

  /** The colour of cell i of a row. */
  function CellColor(l: Layout, i: nat, p: Palette): Color
  {
    match l
    case NonCompact => if i == 3 then p.h2 else p.h1
    case Compact => p.h3
    case Together => if i == 0 then p.h1 else if i == 8 then p.h3 else if i < 3 then p.h1 else if i == 3 then p.h2 else p.h3
    case Header => if i == 0 then p.h1 else if i == 1 then p.h2 else p.h3
  }

  /** The corner list of cell i of an n-cell row: the first cell bends its
      upper-left corner, the last its lower-left one, and the cells in
      between are passed no corner list. */
  function EndCorners(corner: real, i: nat, n: nat): Option<seq<real>>
  {
    if i == 0 then Some(CornerRadii(corner, [1.0, 0.0, 0.0, 0.0]))
    else if i == n - 1 then Some(CornerRadii(corner, [0.0, 0.0, 0.0, 1.0]))
    else None
  }

  /** The highlight call for cell i of a row: row 1, column i + 1. */
  function Cell(l: Layout, i: nat, p: Palette): Highlight
  {
    Highlight(1, i + 1, CellColor(l, i, p), p.opacity, EndCorners(p.corner, i, Width(l)))
  }

  /** Every row rounds only its two end cells: the first one at its
      upper-left corner and the last at its lower-left one, each by the
      style's first corner radius, and no other corner. */
  lemma EndCornersRule(l: Layout, i: nat, p: Palette)
    requires i < Width(l)
    ensures Cell(l, i, p).corners.Some? <==> i == 0 || i == Width(l) - 1
    ensures i == 0 ==> Cell(l, i, p).corners == Some(CornerRadii(p.corner, OnlyCorner(0)))
    ensures i == Width(l) - 1 ==> Cell(l, i, p).corners == Some(CornerRadii(p.corner, OnlyCorner(3)))
    ensures Cell(l, i, p).row == 1 && Cell(l, i, p).col == i + 1 && Cell(l, i, p).opacity == p.opacity
  {
    assert [1.0, 0.0, 0.0, 0.0] == OnlyCorner(0);
    assert [0.0, 0.0, 0.0, 1.0] == OnlyCorner(3);
  }

  /** The header of both the energy-scale and the summary table reads
      hlight 1, 2, 3 from left to right. */
  lemma HeaderColors(p: Palette)
    ensures seq(3, i requires 0 <= i < 3 => CellColor(Header, i, p)) == [p.h1, p.h2, p.h3]
  {
  }

  /** The together row colours each of the nine cells as the split tables
      colour the same coordinate: the first four as the non-compact table,
      the last five as the compact one. Rounding agrees at the two outer
      ends; where the halves meet, the split tables round the last
      non-compact cell and the first compact cell, the together row
      neither. */
  lemma TogetherMatchesSplit(p: Palette, i: nat)
    requires i < 9
    ensures i < 4 ==> CellColor(Together, i, p) == CellColor(NonCompact, i, p)
    ensures 4 <= i ==> CellColor(Together, i, p) == CellColor(Compact, i - 4, p)
    ensures i == 0 ==> Cell(Together, i, p).corners == Cell(NonCompact, i, p).corners
    ensures i == 8 ==> Cell(Together, i, p).corners == Cell(Compact, i - 4, p).corners
    ensures (i == 3 ==> Cell(Together, i, p).corners.None? && Cell(NonCompact, i, p).corners.Some?)
    ensures (i == 4 ==> Cell(Together, i, p).corners.None? && Cell(Compact, i - 4, p).corners.Some?)
  {
  }

  /** The colour and opacity a coordinate label is set to. */
  datatype Tint = Tint(color: Color, opacity: real)

  /**
   * A `MobjectTable` being decorated: the highlight calls made on it, in
   * order, and the tint set on each label of its first row (None while a
   * label keeps its own colour).
   */
  class MobjectTable {
    const rows: nat
    const cols: nat
    var highlights: seq<Highlight>
    var labelTints: seq<Option<Tint>>

    constructor (rows: nat, cols: nat)
      ensures this.rows == rows && this.cols == cols
      ensures highlights == [] && labelTints == seq(cols, _ => None)
    {
      this.rows := rows;
      this.cols := cols;
      highlights := [];
      labelTints := seq(cols, _ => None);
    }

    /** `add_highlighted_cell`: one more highlight call. */
    method AddHighlightedCell(h: Highlight)
      modifies this
      ensures highlights == old(highlights) + [h]
      ensures labelTints == old(labelTints)
    {
      highlights := highlights + [h];
    }

    /** `coordinates[i].set(color=…, fill_opacity=…)`. */
    method SetLabel(i: nat, t: Tint)
      requires i < |labelTints|
      modifies this
      ensures labelTints == old(labelTints)[i := Some(t)]
      ensures highlights == old(highlights)
    {
      labelTints := labelTints[i := Some(t)];
    }
  }

  /** The highlighting loop of a coordinate row: each cell is highlighted
      left to right and its coordinate label gets the cell's colour and
      opacity. */
  method HighlightRow(t: MobjectTable, l: Layout, p: Palette)
    requires l != Header && |t.labelTints| == Width(l)
    modifies t
    ensures t.highlights == old(t.highlights) + seq(Width(l), i requires 0 <= i < Width(l) => Cell(l, i, p))
    ensures t.labelTints == seq(Width(l), i requires 0 <= i < Width(l) => Some(Tint(CellColor(l, i, p), p.opacity)))
  {
    var i := 0;
    while i < Width(l)
      invariant 0 <= i <= Width(l) && |t.labelTints| == Width(l)
      invariant t.highlights == old(t.highlights) + seq(i, j requires 0 <= j < i => Cell(l, j, p))
      invariant forall j :: 0 <= j < i ==> t.labelTints[j] == Some(Tint(CellColor(l, j, p), p.opacity))
      invariant forall j :: i <= j < Width(l) ==> t.labelTints[j] == old(t.labelTints)[j]
    {
      var color := CellColor(l, i, p);
      t.AddHighlightedCell(Highlight(1, i + 1, color, p.opacity, EndCorners(p.corner, i, Width(l))));
      t.SetLabel(i, Tint(color, p.opacity));
      i := i + 1;
    }
  }

  /** The three header highlight calls of the energy-scale and summary
      tables. */
  method HighlightHeader(t: MobjectTable, p: Palette)
    modifies t
    ensures t.highlights == old(t.highlights) + seq(3, i requires 0 <= i < 3 => Cell(Header, i, p))
    ensures t.labelTints == old(t.labelTints)
  {
    t.AddHighlightedCell(Highlight(1, 1, p.h1, p.opacity, Some(CornerRadii(p.corner, [1.0, 0.0, 0.0, 0.0]))));
    t.AddHighlightedCell(Highlight(1, 2, p.h2, p.opacity, None));
    t.AddHighlightedCell(Highlight(1, 3, p.h3, p.opacity, Some(CornerRadii(p.corner, [0.0, 0.0, 0.0, 1.0]))));
  }

  // ---------------------------------------------------------------------
  // Table_Bh_Embedding

  /** The nine coordinates of the embedding, in table order. */
  const Coordinates: seq<string> :=
    ["\\alpha", "\\beta", "\\gamma", "\\mathcal{Z}", "\\Theta", "\\Psi", "\\phi_{1}", "\\phi_{2}", "\\phi_{3}"]

  /** `coordinates[0:4]` and `coordinates[4:]`. */
  function NonCompactCoordinates(): seq<string> { Slice(Coordinates, Some(0), Some(4)) }
  function CompactCoordinates(): seq<string> { Slice(Coordinates, Some(4), None) }

  /** The glyphs of the second row: a box per flat direction, the AdS
      throat line with the dot on it, a circle with a dot per compact
      direction. */
  datatype Glyph = Square | Throat | ThroatDot | Ring | RingDot

  const NonCompactDims: seq<seq<Glyph>> := [[Square], [Square], [Square], [Throat, ThroatDot]]
  const CompactDims: seq<seq<Glyph>> := [[Ring, RingDot], [Ring, RingDot], [Ring, RingDot], [Ring, RingDot], [Ring, RingDot]]

  /** The together row's glyphs: copies of the non-compact glyphs followed
      by copies of the compact ones. */
  function AllDims(): seq<seq<Glyph>> { NonCompactDims + CompactDims }

  /** The split is a partition: the first four coordinates are non-compact,
      the other five compact, concatenating them gives back the nine, and
      each half pairs its coordinates one-to-one with its glyphs. */
  lemma {:induction false} CoordinateSplit()
    ensures NonCompactCoordinates() + CompactCoordinates() == Coordinates
    ensures |NonCompactCoordinates()| == |NonCompactDims| == Width(NonCompact)
    ensures |CompactCoordinates()| == |CompactDims| == Width(Compact)
    ensures |Coordinates| == |AllDims()| == Width(Together)
  {
    SliceSplit(Coordinates, 4);
    assert Slice(Coordinates, Some(0), Some(4)) == Slice(Coordinates, None, Some(4));
  }

  /** Which table a glyph belongs to. */
  datatype Row = SplitNonCompact | SplitCompact | TogetherRow

  /** A glyph of one table: the glyph group of column k, and which of its
      glyphs. */
  datatype Piece = Dim(row: Row, k: nat, g: Glyph)

  /** `MoveAlongPath(dims[k][-1], dims[k][0])`: the last glyph of column k
      travels along the first. */
  function MoveDot(r: Row, dims: seq<seq<Glyph>>, k: nat, rt: real): Anim<Piece>
    requires k < |dims| && 1 <= |dims[k]|
  {
    MoveAlongPath(Dim(r, k, dims[k][|dims[k]| - 1]), Dim(r, k, dims[k][0]), rt)
  }

  /** `move_non_compact`: the dot goes down the AdS throat. */
  function MoveNonCompact(rt: real := 3.0): Anim<Piece>
  {
    MoveDot(SplitNonCompact, NonCompactDims, 3, rt)
  }

  /** `move_compact`: the dots of `compact_dim[-1]`, `[-2]` and `[-3]` go
      round their circles together. */
  function MoveCompact(rt: real := 3.0): Anim<Piece>
  {
    var n := |CompactDims|;
    AnimationGroup([MoveDot(SplitCompact, CompactDims, n - 1, rt), MoveDot(SplitCompact, CompactDims, n - 2, rt),
                    MoveDot(SplitCompact, CompactDims, n - 3, rt)])
  }

  /** `move_all`: the dots of `all_dimensions[-1]`, `[-2]`, `[-3]` and the
      throat dot of `all_dimensions[3]`, together. */
  function MoveAll(rt: real := 3.0): Anim<Piece>
  {
    var n := |AllDims()|;
    AnimationGroup([MoveDot(TogetherRow, AllDims(), n - 1, rt), MoveDot(TogetherRow, AllDims(), n - 2, rt),
                    MoveDot(TogetherRow, AllDims(), n - 3, rt), MoveDot(TogetherRow, AllDims(), 3, rt)])
  }

  /** `move_compact` moves the dots of the last three compact directions
      round their circles. */
  lemma MoveCompactTargets(rt: real)
    ensures PathMoves(MoveCompact(rt))
            == [(Dim(SplitCompact, 4, RingDot), Dim(SplitCompact, 4, Ring)),
                (Dim(SplitCompact, 3, RingDot), Dim(SplitCompact, 3, Ring)),
                (Dim(SplitCompact, 2, RingDot), Dim(SplitCompact, 2, Ring))]
  {
    var t := Dim(SplitCompact, 0, Ring);
    Steps3(MoveDot(SplitCompact, CompactDims, 4, rt), MoveDot(SplitCompact, CompactDims, 3, rt),
           MoveDot(SplitCompact, CompactDims, 2, rt), t);
  }

  /** `move_all` moves the dots of the last three columns round their
      circles and the throat dot of column 3 along the throat: four moves. */
  lemma MoveAllTargets(rt: real)
    ensures PathMoves(MoveAll(rt))
            == [(Dim(TogetherRow, 8, RingDot), Dim(TogetherRow, 8, Ring)),
                (Dim(TogetherRow, 7, RingDot), Dim(TogetherRow, 7, Ring)),
                (Dim(TogetherRow, 6, RingDot), Dim(TogetherRow, 6, Ring)),
                (Dim(TogetherRow, 3, ThroatDot), Dim(TogetherRow, 3, Throat))]
  {
    var ds := AllDims();
    AllDimsGlyphs();
    var a, b, c, d := MoveDot(TogetherRow, ds, 8, rt), MoveDot(TogetherRow, ds, 7, rt),
                      MoveDot(TogetherRow, ds, 6, rt), MoveDot(TogetherRow, ds, 3, rt);
    assert MoveAll(rt).items == [a, b, c, d];
    PathMovesOfFour(a, b, c, d);
  }

  /** The together row has nine columns: the throat at 3, circles from 4 on. */
  lemma AllDimsGlyphs()
    ensures |AllDims()| == 9
    ensures AllDims()[3] == [Throat, ThroatDot]
    ensures forall k :: 4 <= k < 9 ==> AllDims()[k] == [Ring, RingDot]
  {
  }

  lemma PathMovesOfFour(a: Anim<Piece>, b: Anim<Piece>, c: Anim<Piece>, d: Anim<Piece>)
    ensures PathMovesAll([a, b, c, d]) == PathMoves(a) + (PathMoves(b) + (PathMoves(c) + PathMoves(d)))
  {
    var t := Dim(TogetherRow, 0, Ring);
    StepsCons(a, [b, c, d], t);
    assert [a] + [b, c, d] == [a, b, c, d];
    Steps3(b, c, d, t);
  }

  /** The together column k as the split tables name it. */
  function ToSplit(x: Piece): Piece
  {
    if x.k < 4 then Dim(SplitNonCompact, x.k, x.g) else Dim(SplitCompact, x.k - 4, x.g)
  }

  function ToSplitMoves(ms: seq<(Piece, Piece)>): (r: seq<(Piece, Piece)>)
    ensures |r| == |ms|
    ensures forall i :: 0 <= i < |ms| ==> r[i] == (ToSplit(ms[i].0), ToSplit(ms[i].1))
  {
    if ms == [] then [] else [(ToSplit(ms[0].0), ToSplit(ms[0].1))] + ToSplitMoves(ms[1..])
  }

  /** `move_all` on the together table is `move_compact` followed by
      `move_non_compact` on the split tables, column for column. */
  lemma MoveAllIsSplitMoves(rt: real)
    ensures ToSplitMoves(PathMoves(MoveAll(rt))) == PathMoves(MoveCompact(rt)) + PathMoves(MoveNonCompact(rt))
  {
    MoveAllTargets(rt);
    MoveCompactTargets(rt);
  }

  /** What the embedding table adds to itself. */
  datatype EmbeddingPart = TabAll | BoxAll | TabNonCompact | BoxNonCompact | TabCompact | BoxCompact

  /** The children for a `type`: the together table and its box, or the two
      boxed halves (the compact half is then scaled to the non-compact
      half's width and placed beside it), or nothing for any other type. */
  function Assemble(layoutType: string): seq<Mob<EmbeddingPart>>
  {
    if layoutType == "together" then [Part(TabAll), Part(BoxAll)]
    else if layoutType == "split" then
      [Group([Part(TabNonCompact), Part(BoxNonCompact)]), Group([Part(TabCompact), Part(BoxCompact)])]
    else []
  }

  /** Every piece is shown in exactly one of the two known layouts, and an
      unknown type leaves the table empty. */
  lemma AssembleLayouts(layoutType: string)
    ensures layoutType == "together" ==> LeavesAll(Assemble(layoutType)) == [TabAll, BoxAll]
    ensures layoutType == "split" ==> LeavesAll(Assemble(layoutType)) == [TabNonCompact, BoxNonCompact, TabCompact, BoxCompact]
    ensures layoutType != "together" && layoutType != "split" ==> Assemble(layoutType) == []
  {
    if layoutType == "together" {
      LeavesPair(Part(TabAll), Part(BoxAll));
    } else if layoutType == "split" {
      var g1, g2 := Group([Part(TabNonCompact), Part(BoxNonCompact)]), Group([Part(TabCompact), Part(BoxCompact)]);
      LeavesPair(g1, g2);
      LeavesPair(Part(TabNonCompact), Part(BoxNonCompact));
      LeavesPair(Part(TabCompact), Part(BoxCompact));
    }
  }

  /**
   * `Table_Bh_Embedding` once built: the three decorated tables and the
   * children chosen by `type`. The position of the compact half is
   * geometry and is not kept.
   */
  class TableBhEmbedding {
    const style: TableGeneral
    const layoutType: string
    const nonCompact: MobjectTable
    const compact: MobjectTable
    const together: MobjectTable
    const children: seq<Mob<EmbeddingPart>>

    constructor (style: TableGeneral, p: Palette, layoutType: string := "together")
      requires style.HighlightPalette() == Ok(p)
      ensures this.style == style && this.layoutType == layoutType
      ensures fresh(nonCompact) && fresh(compact) && fresh(together)
      ensures nonCompact.highlights == seq(4, i requires 0 <= i < 4 => Cell(NonCompact, i, p))
      ensures compact.highlights == seq(5, i requires 0 <= i < 5 => Cell(Compact, i, p))
      ensures together.highlights == seq(9, i requires 0 <= i < 9 => Cell(Together, i, p))
      ensures nonCompact.labelTints == seq(4, i requires 0 <= i < 4 => Some(Tint(CellColor(NonCompact, i, p), p.opacity)))
      ensures compact.labelTints == seq(5, i requires 0 <= i < 5 => Some(Tint(CellColor(Compact, i, p), p.opacity)))
      ensures together.labelTints == seq(9, i requires 0 <= i < 9 => Some(Tint(CellColor(Together, i, p), p.opacity)))
      ensures children == Assemble(layoutType)
    {
      var nc := new MobjectTable(2, 4);
      HighlightRow(nc, NonCompact, p);
      var c := new MobjectTable(2, 5);
      HighlightRow(c, Compact, p);
      var all := new MobjectTable(2, 9);
      HighlightRow(all, Together, p);
      this.style := style;
      this.layoutType := layoutType;
      this.nonCompact := nc;
      this.compact := c;
      this.together := all;
      this.children := Assemble(layoutType);
    }
  }

  /** Building the embedding table fails exactly on an empty corner list.
      The list first reaches the framework's rounded rectangles and only
      then `corner_rad[0]`, so which exception comes out is the framework's
      business; the model reports the IndexError of the later read. */
  method NewTableBhEmbedding(style: TableGeneral, layoutType: string := "together")
    returns (r: Result<TableBhEmbedding>)
    ensures r.Ok? <==> 1 <= |style.cornerRad|
    ensures r.Ok? ==> r.value.style == style && r.value.children == Assemble(layoutType)
  {
    var palette := style.HighlightPalette();
    if palette.Err? {
      return Err(palette.error);
    }
    var t := new TableBhEmbedding(style, palette.value, layoutType);
    return Ok(t);
  }

  // ---------------------------------------------------------------------
  // Table_Energy_Scales and Table_Summary_Induce

  /** The cells of the energy-scale table: the header and the rows for L,
      the string length, and the ten- and five-dimensional Planck lengths,
      each a symbol, a length in metres and an energy. */
  const EnergyScalesCells: seq<seq<string>> := [
    ["Scale", "{\\rm Length} (m)", "Energy"],
    ["L", "5.1 \\times10^   {-5} ", "3.8 \\, {\\rm meV}"],
    ["\\sqrt{\\alpha'}", "1.8 \\times 10^{-20} ", "11.2 \\,{\\rm TeV}"],
    ["\\tilde{\\ell}_{10}", "1.4 \\times 10^{-20} ", "13.7 \\,{\\rm TeV}"],
    ["\\tilde{\\ell}_{5}", "3.9 \\times 10^{-45} ", "5.1 \\times10^{28} \\,   {\\rm TeV}"]
  ]

  /** The cells of the summary table: the header, then one row per
      five-dimensional ingredient with its four-dimensional effect and the
      article that discusses it. */
  const SummaryCells: seq<seq<string>> := [
    ["5D", "4D", "Article"],
    ["\\Lambda_{5}^{(\\pm)} <0, \\: r= a(\\tau)", "\\Lambda_{4}>0", "1807.01570"],
    ["M", "Radiation \\propto \\tfrac{1}{a^{4}}", "1907.04268"],
    ["Strings^{*}", "Dust \\propto \\tfrac{1}{a^{3}}", "1907.04268"],
    ["\\delta g_{\\mu \\nu}", "\\delta g_{ab}", "2202.00545"],
    ["H_{\\mu \\nu \\gamma}", "F_{ab}", "2310.15032"]
  ]

  /** Whether every row of a grid has the same number of cells. */
  predicate Rectangular(cells: seq<seq<string>>, cols: nat)
  {
    forall r :: 0 <= r < |cells| ==> |cells[r]| == cols
  }

  /** Both grids are rectangular with three columns, so the header row has
      exactly the three cells its highlights name: 5 × 3 and 6 × 3. */
  lemma GridShapes()
    ensures |EnergyScalesCells| == 5 && Rectangular(EnergyScalesCells, Width(Header))
    ensures |SummaryCells| == 6 && Rectangular(SummaryCells, Width(Header))
    ensures SummaryCells[0] == ["5D", "4D", "Article"]
  {
  }

  /** The parts a header table adds to itself, and the box's depth. */
  datatype HeaderTablePart = Tab | Box

  /**
   * `Table_Energy_Scales` and `Table_Summary_Induce`: a grid whose header
   * row is highlighted, with a frame box. The grid lines are drawn at
   * opacity `2·fill_opa`; the summary's box sits at depth 1.
   */
  class HeaderTable {
    const style: TableGeneral
    const tab: MobjectTable
    const gridStrokeOpacity: real
    const boxZIndex: int
    const boxFillOpacity: real
    const children: seq<HeaderTablePart>

    constructor (style: TableGeneral, p: Palette, cells: seq<seq<string>>, boxZIndex: int)
      requires style.HighlightPalette() == Ok(p)
      requires 1 <= |cells|
      ensures this.style == style && fresh(tab)
      ensures tab.rows == |cells| && tab.cols == |cells[0]|
      ensures tab.highlights == seq(3, i requires 0 <= i < 3 => Cell(Header, i, p))
      ensures gridStrokeOpacity == 2.0 * style.fillOpa
      ensures this.boxZIndex == boxZIndex && boxFillOpacity == 0.0
      ensures children == [Tab, Box]
    {
      var t := new MobjectTable(|cells|, |cells[0]|);
      HighlightHeader(t, p);
      this.style := style;
      this.tab := t;
      this.gridStrokeOpacity := 2.0 * style.fillOpa;
      this.boxZIndex := boxZIndex;
      this.boxFillOpacity := 0.0;
      this.children := [Tab, Box];
    }
  }

  /** `Table_Energy_Scales()` and `Table_Summary_Induce()`: each fails
      exactly on an empty corner list, the energy-scale table with the
      IndexError of `corner_rad[0]`; the summary table hands the list to
      the framework's rounded rectangle first, so its exception is the
      framework's. Otherwise the header is highlighted hlight 1, 2, 3 and
      the children are the grid and box. */
  method NewHeaderTable(style: TableGeneral, summary: bool) returns (r: Result<HeaderTable>)
    ensures r.Ok? <==> 1 <= |style.cornerRad|
    ensures r.Err? && !summary ==> r.error == IndexError
    ensures r.Ok? ==> r.value.children == [Tab, Box] && r.value.tab.rows == (if summary then 6 else 5)
    ensures r.Ok? ==> r.value.boxZIndex == (if summary then 1 else 0)
  {
    var palette := style.HighlightPalette();
    if palette.Err? {
      return Err(palette.error);
    }
    var t;
    if summary {
      t := new HeaderTable(style, palette.value, SummaryCells, 1);
    } else {
      t := new HeaderTable(style, palette.value, EnergyScalesCells, 0);
    }
    return Ok(t);
  }
}
