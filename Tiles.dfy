/**
 * Tile-range expansion of the level loader (createTiles and its inner
 * applyRange, src/views/superMario/loaders.js). A level's backgrounds are
 * expanded into writes on its tile grid: each range of a background names a
 * rectangle (or a row, or a single cell) of cells; a plain background writes
 * its tile to every covered cell, a pattern background places the pattern's
 * own backgrounds with the offset moved to that cell.
 *
 * The specification is the ordered list of writes the expansion performs
 * (`PlaceBackgrounds`), together with how it ends; `Apply` folds the writes
 * into the grid. The methods at the end perform the expansion in place on the
 * level and are proved to do exactly that.
 */
module Tiles {

  datatype Tile = Tile(name: string, tileType: string)

  /** A background spec; an empty `pattern` means the background has none. */
  datatype Background = Background(tile: string, tileType: string, pattern: string, ranges: seq<seq<int>>)

  datatype Pattern = Pattern(backgrounds: seq<Background>)

  type Patterns = map<string, Pattern>

  type Grid = map<(int, int), Tile>

  datatype Write = Write(x: int, y: int, tile: Tile)

  /**
   * How an expansion ends: normally, on a pattern name missing from the
   * pattern table (the source's lookup throws), or when patterns nest deeper
   * than the depth bound allows.
   */
  datatype Status = Completed | UnknownPattern(name: string) | TooDeep

  /** The writes an expansion performs, in order, up to where it stops. */
  datatype Run = Run(writes: seq<Write>, status: Status)

  function TileOf(bg: Background): Tile {
    Tile(bg.tile, bg.tileType)
  }

  /** `a`, then `b` unless `a` stopped early. */
  function Then(a: Run, b: Run): Run {
    if a.status.Completed? then Run(a.writes + b.writes, b.status) else a
  }

  /** The runs one after the other, stopping at the first that does not complete. */
  function Fold(rs: seq<Run>): Run
    decreases |rs|
  {
    if rs == [] then Run([], Completed) else Then(Fold(rs[..|rs| - 1]), rs[|rs| - 1])
  }

  /** The number of loop iterations for an extent: none when it is zero or negative. */
  function Extent(len: int): nat {
    if len <= 0 then 0 else len
  }

  // ---------------------------------------------------------------------------
  // The expansion, level by level. `fuel` bounds how deeply patterns nest.

  /** createTiles: every background in order. */
  function PlaceBackgrounds(fuel: nat, bgs: seq<Background>, patterns: Patterns, ox: int, oy: int): Run
    decreases fuel, 5
  {
    Fold(seq(|bgs|, i requires 0 <= i < |bgs| => PlaceBackground(fuel, bgs[i], patterns, ox, oy)))
  }

  /** One background: every range in order. */
  function PlaceBackground(fuel: nat, bg: Background, patterns: Patterns, ox: int, oy: int): Run
    decreases fuel, 4
  {
    Fold(seq(|bg.ranges|, j requires 0 <= j < |bg.ranges| => PlaceRange(fuel, bg, patterns, bg.ranges[j], ox, oy)))
  }

  /** One range: [xs, xl, ys, yl] a rectangle, [xs, xl, ys] a row, [xs, ys] a cell; others nothing. */
  function PlaceRange(fuel: nat, bg: Background, patterns: Patterns, range: seq<int>, ox: int, oy: int): Run
    decreases fuel, 3
  {
    if |range| == 4 then PlaceArea(fuel, bg, patterns, range[0], range[1], range[2], range[3], ox, oy)
    else if |range| == 3 then PlaceArea(fuel, bg, patterns, range[0], range[1], range[2], 1, ox, oy)
    else if |range| == 2 then PlaceArea(fuel, bg, patterns, range[0], 1, range[1], 1, ox, oy)
    else Run([], Completed)
  }

  /** applyRange: x outer, from xStart up to xStart + xLen. */
  function PlaceArea(fuel: nat, bg: Background, patterns: Patterns, xStart: int, xLen: int, yStart: int, yLen: int,
                     ox: int, oy: int): Run
    decreases fuel, 2
  {
    Fold(seq(Extent(xLen), i requires 0 <= i < Extent(xLen) =>
      PlaceColumn(fuel, bg, patterns, xStart + i, yStart, yLen, ox, oy)))
  }

  /** applyRange's inner loop: y from yStart up to yStart + yLen. */
  function PlaceColumn(fuel: nat, bg: Background, patterns: Patterns, x: int, yStart: int, yLen: int,
                       ox: int, oy: int): Run
    decreases fuel, 1
  {
    Fold(seq(Extent(yLen), j requires 0 <= j < Extent(yLen) =>
      PlaceCell(fuel, bg, patterns, x + ox, yStart + j + oy)))
  }

  /** One covered cell, already shifted by the offset. */
  function PlaceCell(fuel: nat, bg: Background, patterns: Patterns, dx: int, dy: int): Run
    decreases fuel, 0
  {
    if bg.pattern == "" then Run([Write(dx, dy, TileOf(bg))], Completed)
    else if bg.pattern !in patterns then Run([], UnknownPattern(bg.pattern))
    else if fuel == 0 then Run([], TooDeep)
    else PlaceBackgrounds(fuel - 1, patterns[bg.pattern].backgrounds, patterns, dx, dy)
  }

  // ---------------------------------------------------------------------------
  // Writes on the grid

  function CellsOf(ws: seq<Write>): set<(int, int)> {
    set k | 0 <= k < |ws| :: (ws[k].x, ws[k].y)
  }

  /** The grid after the writes, in order. */
  function Apply(t: Grid, ws: seq<Write>): Grid
    decreases |ws|
  {
    if ws == [] then t
    else
      var w := ws[|ws| - 1];
      Apply(t, ws[..|ws| - 1])[(w.x, w.y) := w.tile]
  }

  /** The writes add exactly their cells to the grid's domain. */
  lemma {:induction false} ApplyKeys(t: Grid, ws: seq<Write>)
    ensures Apply(t, ws).Keys == t.Keys + CellsOf(ws)
    decreases |ws|
  {
    if ws != [] {
      var init := ws[..|ws| - 1];
      var w := ws[|ws| - 1];
      assert CellsOf(ws) == CellsOf(init) + {(w.x, w.y)} by {
        assert forall k :: 0 <= k < |init| ==> init[k] == ws[k];
      }
      ApplyKeys(t, init);
    }
  }

  /** Two batches of writes in a row are the concatenated batch. */
  lemma {:induction false} ApplyConcat(t: Grid, a: seq<Write>, b: seq<Write>)
    ensures Apply(t, a + b) == Apply(Apply(t, a), b)
    decreases |b|
  {
    if b == [] {
      assert a + b == a;
    } else {
      var ab := a + b;
      var w := b[|b| - 1];
      assert ab[..|ab| - 1] == a + b[..|b| - 1];
      assert ab[|ab| - 1] == w;
      ApplyConcat(t, a, b[..|b| - 1]);
      calc {
        Apply(t, ab);
        Apply(t, a + b[..|b| - 1])[(w.x, w.y) := w.tile];
        Apply(Apply(t, a), b[..|b| - 1])[(w.x, w.y) := w.tile];
        Apply(Apply(t, a), b);
      }
    }
  }

  /** A cell no write touches keeps its previous value, or stays absent. */
  lemma {:induction false} ApplyUntouched(t: Grid, ws: seq<Write>, c: (int, int))
    requires c !in CellsOf(ws)
    ensures c in Apply(t, ws) <==> c in t
    ensures c in t ==> Apply(t, ws)[c] == t[c]
    decreases |ws|
  {
    if ws != [] {
      var init := ws[..|ws| - 1];
      assert forall k :: 0 <= k < |init| ==> init[k] == ws[k];
      assert CellsOf(init) <= CellsOf(ws);
      ApplyUntouched(t, init, c);
    }
  }

  /** The last write to a cell decides its value. */
  lemma ApplyLastWrite(t: Grid, ws: seq<Write>, k: nat)
    requires k < |ws|
    requires forall j :: k < j < |ws| ==> (ws[j].x, ws[j].y) != (ws[k].x, ws[k].y)
    ensures (ws[k].x, ws[k].y) in Apply(t, ws)
    ensures Apply(t, ws)[(ws[k].x, ws[k].y)] == ws[k].tile
  {
    var c := (ws[k].x, ws[k].y);
    var head, tail := ws[..k + 1], ws[k + 1..];
    assert ws == head + tail;
    ApplyConcat(t, head, tail);
    assert head[..|head| - 1] == ws[..k];
    assert c !in CellsOf(tail) by {
      forall i | 0 <= i < |tail| ensures (tail[i].x, tail[i].y) != c {
        assert tail[i] == ws[k + 1 + i];
      }
    }
    ApplyUntouched(Apply(t, head), tail, c);
  }

  /** Writes all of one tile paint exactly their cells with it; every other cell is untouched. */
  lemma {:induction false} ApplyUniform(t: Grid, ws: seq<Write>, tile: Tile)
    requires forall k :: 0 <= k < |ws| ==> ws[k].tile == tile
    ensures forall c :: c in Apply(t, ws) <==> c in t || c in CellsOf(ws)
    ensures forall c :: c in Apply(t, ws) ==> Apply(t, ws)[c] == if c in CellsOf(ws) then tile else t[c]
    decreases |ws|
  {
    if ws != [] {
      var init := ws[..|ws| - 1];
      assert forall k :: 0 <= k < |init| ==> init[k] == ws[k];
      var w := ws[|ws| - 1];
      assert CellsOf(ws) == CellsOf(init) + {(w.x, w.y)};
      ApplyUniform(t, init, tile);
    }
  }

  // ---------------------------------------------------------------------------
  // Sequencing

  lemma ThenAssoc(a: Run, b: Run, c: Run)
    ensures Then(Then(a, b), c) == Then(a, Then(b, c))
  {
    if a.status.Completed? && b.status.Completed? {
      assert (a.writes + b.writes) + c.writes == a.writes + (b.writes + c.writes);
    }
  }

  /** Folding one more run onto a prefix. */
  lemma FoldStep(rs: seq<Run>, i: nat)
    requires i < |rs|
    ensures Fold(rs[..i + 1]) == Then(Fold(rs[..i]), rs[i])
  {
    assert rs[..i + 1][..i] == rs[..i];
  }

  /** Once a prefix has stopped, nothing after it runs. */
  lemma {:induction false} FoldSticks(rs: seq<Run>, k: nat)
    requires k <= |rs|
    requires !Fold(rs[..k]).status.Completed?
    ensures Fold(rs) == Fold(rs[..k])
    decreases |rs|
  {
    if k < |rs| {
      var init := rs[..|rs| - 1];
      assert init[..k] == rs[..k];
      FoldSticks(init, k);
    } else {
      assert rs[..k] == rs;
    }
  }

  /** Folding a concatenation is running the two halves one after the other. */
  lemma {:induction false} FoldAppend(a: seq<Run>, b: seq<Run>)
    ensures Fold(a + b) == Then(Fold(a), Fold(b))
    decreases |b|
  {
    if b == [] {
      assert a + b == a;
      var f := Fold(a);
      if f.status.Completed? {
        assert f.writes + [] == f.writes;
      }
    } else {
      var ab := a + b;
      assert ab[..|ab| - 1] == a + b[..|b| - 1];
      FoldAppend(a, b[..|b| - 1]);
      ThenAssoc(Fold(a), Fold(b[..|b| - 1]), b[|b| - 1]);
    }
  }

  /**
   * Backgrounds listed after others run after them: on the grid, the later
   * ones are written over what the earlier ones left.
   */
  lemma LaterBackgroundsOverwrite(fuel: nat, a: seq<Background>, b: seq<Background>, patterns: Patterns,
                                  ox: int, oy: int, t: Grid)
    ensures PlaceBackgrounds(fuel, a + b, patterns, ox, oy)
         == Then(PlaceBackgrounds(fuel, a, patterns, ox, oy), PlaceBackgrounds(fuel, b, patterns, ox, oy))
    ensures PlaceBackgrounds(fuel, a, patterns, ox, oy).status.Completed? ==>
      Apply(t, PlaceBackgrounds(fuel, a + b, patterns, ox, oy).writes)
        == Apply(Apply(t, PlaceBackgrounds(fuel, a, patterns, ox, oy).writes), PlaceBackgrounds(fuel, b, patterns, ox, oy).writes)
  {
    var ra := seq(|a|, i requires 0 <= i < |a| => PlaceBackground(fuel, a[i], patterns, ox, oy));
    var rb := seq(|b|, i requires 0 <= i < |b| => PlaceBackground(fuel, b[i], patterns, ox, oy));
    var ab := a + b;
    assert seq(|ab|, i requires 0 <= i < |ab| => PlaceBackground(fuel, ab[i], patterns, ox, oy)) == ra + rb;
    FoldAppend(ra, rb);
    if Fold(ra).status.Completed? {
      ApplyConcat(t, Fold(ra).writes, Fold(rb).writes);
    }
  }

  // ---------------------------------------------------------------------------
  // Rectangles

  /** Whether cell c is covered by the rectangle [xs, xs+xl) x [ys, ys+yl) shifted by (ox, oy). */
  predicate InRect(c: (int, int), xs: int, xl: int, ys: int, yl: int, ox: int, oy: int) {
    xs <= c.0 - ox < xs + xl && ys <= c.1 - oy < ys + yl
  }

  /** The y loop with one more row. */
  lemma ColumnStep(fuel: nat, bg: Background, patterns: Patterns, x: int, ys: int, yl: int, ox: int, oy: int)
    requires 0 < yl
    ensures PlaceColumn(fuel, bg, patterns, x, ys, yl, ox, oy)
         == Then(PlaceColumn(fuel, bg, patterns, x, ys, yl - 1, ox, oy), PlaceCell(fuel, bg, patterns, x + ox, ys + yl - 1 + oy))
  {
    var cells := seq(Extent(yl), j requires 0 <= j < Extent(yl) => PlaceCell(fuel, bg, patterns, x + ox, ys + j + oy));
    assert cells[..yl - 1] == seq(Extent(yl - 1), j requires 0 <= j < Extent(yl - 1) => PlaceCell(fuel, bg, patterns, x + ox, ys + j + oy));
  }

  /** The x loop with one more column. */
  lemma AreaStep(fuel: nat, bg: Background, patterns: Patterns, xs: int, xl: int, ys: int, yl: int, ox: int, oy: int)
    requires 0 < xl
    ensures PlaceArea(fuel, bg, patterns, xs, xl, ys, yl, ox, oy)
         == Then(PlaceArea(fuel, bg, patterns, xs, xl - 1, ys, yl, ox, oy), PlaceColumn(fuel, bg, patterns, xs + xl - 1, ys, yl, ox, oy))
  {
    var cols := seq(Extent(xl), i requires 0 <= i < Extent(xl) => PlaceColumn(fuel, bg, patterns, xs + i, ys, yl, ox, oy));
    assert cols[..xl - 1] == seq(Extent(xl - 1), i requires 0 <= i < Extent(xl - 1) => PlaceColumn(fuel, bg, patterns, xs + i, ys, yl, ox, oy));
  }

  /** The cells of concatenated writes. */
  lemma CellsOfConcat(a: seq<Write>, b: seq<Write>)
    ensures CellsOf(a + b) == CellsOf(a) + CellsOf(b)
  {
    var ab := a + b;
    forall c | c in CellsOf(ab) ensures c in CellsOf(a) + CellsOf(b) {
      var k :| 0 <= k < |ab| && (ab[k].x, ab[k].y) == c;
      if k >= |a| {
        assert b[k - |a|] == ab[k];
      }
    }
    forall c | c in CellsOf(b) ensures c in CellsOf(ab) {
      var k :| 0 <= k < |b| && (b[k].x, b[k].y) == c;
      assert ab[|a| + k] == b[k];
    }
    forall c | c in CellsOf(a) ensures c in CellsOf(ab) {
      var k :| 0 <= k < |a| && (a[k].x, a[k].y) == c;
      assert ab[k] == a[k];
    }
  }

  lemma CellsOfSingleton(w: Write)
    ensures CellsOf([w]) == {(w.x, w.y)}
  {
    assert [w][0] == w;
  }

  /** A plain background's column writes its tile to exactly the column's cells. */
  lemma {:induction false} PlainColumn(fuel: nat, bg: Background, patterns: Patterns, x: int, ys: int, yl: int, ox: int, oy: int)
    requires bg.pattern == ""
    ensures var r := PlaceColumn(fuel, bg, patterns, x, ys, yl, ox, oy);
      && r.status == Completed
      && (forall k :: 0 <= k < |r.writes| ==> r.writes[k].tile == TileOf(bg))
      && (forall c :: c in CellsOf(r.writes) <==> InRect(c, x, 1, ys, yl, ox, oy))
    decreases Extent(yl)
  {
    var r := PlaceColumn(fuel, bg, patterns, x, ys, yl, ox, oy);
    if yl <= 0 {
      assert r == Run([], Completed);
    } else {
      ColumnStep(fuel, bg, patterns, x, ys, yl, ox, oy);
      PlainColumn(fuel, bg, patterns, x, ys, yl - 1, ox, oy);
      var prev := PlaceColumn(fuel, bg, patterns, x, ys, yl - 1, ox, oy);
      var cell := PlaceCell(fuel, bg, patterns, x + ox, ys + yl - 1 + oy);
      assert r.writes == prev.writes + cell.writes;
      CellsOfConcat(prev.writes, cell.writes);
      CellsOfSingleton(Write(x + ox, ys + yl - 1 + oy, TileOf(bg)));
    }
  }

  /** A plain background's rectangle writes its tile to exactly the rectangle's cells. */
  lemma {:induction false} PlainArea(fuel: nat, bg: Background, patterns: Patterns, xs: int, xl: int, ys: int, yl: int,
                                      ox: int, oy: int)
    requires bg.pattern == ""
    ensures var r := PlaceArea(fuel, bg, patterns, xs, xl, ys, yl, ox, oy);
      && r.status == Completed
      && (forall k :: 0 <= k < |r.writes| ==> r.writes[k].tile == TileOf(bg))
      && (forall c :: c in CellsOf(r.writes) <==> InRect(c, xs, xl, ys, yl, ox, oy))
    decreases Extent(xl)
  {
    var r := PlaceArea(fuel, bg, patterns, xs, xl, ys, yl, ox, oy);
    if xl <= 0 {
      assert r == Run([], Completed);
    } else {
      AreaStep(fuel, bg, patterns, xs, xl, ys, yl, ox, oy);
      PlainArea(fuel, bg, patterns, xs, xl - 1, ys, yl, ox, oy);
      PlainColumn(fuel, bg, patterns, xs + xl - 1, ys, yl, ox, oy);
      var prev := PlaceArea(fuel, bg, patterns, xs, xl - 1, ys, yl, ox, oy);
      var col := PlaceColumn(fuel, bg, patterns, xs + xl - 1, ys, yl, ox, oy);
      assert r.writes == prev.writes + col.writes;
      CellsOfConcat(prev.writes, col.writes);
    }
  }

  /** The grid after a plain rectangle: covered cells hold the tile, every other cell is as it was. */
  lemma PaintedRect(t: Grid, fuel: nat, bg: Background, patterns: Patterns, xs: int, xl: int, ys: int, yl: int,
                    ox: int, oy: int)
    requires bg.pattern == ""
    ensures var r := PlaceArea(fuel, bg, patterns, xs, xl, ys, yl, ox, oy);
      var g := Apply(t, r.writes);
      && r.status == Completed
      && (forall c :: c in g <==> c in t || InRect(c, xs, xl, ys, yl, ox, oy))
      && (forall c :: c in g ==> g[c] == if InRect(c, xs, xl, ys, yl, ox, oy) then TileOf(bg) else t[c])
  {
    PlainArea(fuel, bg, patterns, xs, xl, ys, yl, ox, oy);
    ApplyUniform(t, PlaceArea(fuel, bg, patterns, xs, xl, ys, yl, ox, oy).writes, TileOf(bg));
  }

  /** A plain background's four-element range [xs, xl, ys, yl] paints exactly that rectangle. */
  lemma RectangleRange(t: Grid, fuel: nat, bg: Background, patterns: Patterns, range: seq<int>, ox: int, oy: int)
    requires bg.pattern == "" && |range| == 4
    ensures var r := PlaceRange(fuel, bg, patterns, range, ox, oy);
      var g := Apply(t, r.writes);
      && r.status == Completed
      && (forall c :: c in g <==> c in t || InRect(c, range[0], range[1], range[2], range[3], ox, oy))
      && (forall c :: c in g ==> g[c] == if InRect(c, range[0], range[1], range[2], range[3], ox, oy) then TileOf(bg) else t[c])
  {
    PaintedRect(t, fuel, bg, patterns, range[0], range[1], range[2], range[3], ox, oy);
  }

  /** A plain background's three-element range [xs, xl, ys] paints one row of xl cells. */
  lemma RowRange(t: Grid, fuel: nat, bg: Background, patterns: Patterns, range: seq<int>, ox: int, oy: int)
    requires bg.pattern == "" && |range| == 3
    ensures var r := PlaceRange(fuel, bg, patterns, range, ox, oy);
      var g := Apply(t, r.writes);
      && r.status == Completed
      && (forall c :: c in g <==> c in t || (c.1 == range[2] + oy && range[0] <= c.0 - ox < range[0] + range[1]))
      && (forall c :: c in g ==>
            g[c] == if c.1 == range[2] + oy && range[0] <= c.0 - ox < range[0] + range[1] then TileOf(bg) else t[c])
  {
    PaintedRect(t, fuel, bg, patterns, range[0], range[1], range[2], 1, ox, oy);
  }

  /** A plain background's two-element range [xs, ys] paints the single cell (xs, ys). */
  lemma CellRange(t: Grid, fuel: nat, bg: Background, patterns: Patterns, range: seq<int>, ox: int, oy: int)
    requires bg.pattern == "" && |range| == 2
    ensures var r := PlaceRange(fuel, bg, patterns, range, ox, oy);
      r.status == Completed && Apply(t, r.writes) == t[(range[0] + ox, range[1] + oy) := TileOf(bg)]
  {
    PaintedRect(t, fuel, bg, patterns, range[0], 1, range[1], 1, ox, oy);
  }

  /** A range of any other length writes nothing and cannot fail. */
  lemma OtherLengthsIgnored(t: Grid, fuel: nat, bg: Background, patterns: Patterns, range: seq<int>, ox: int, oy: int)
    requires |range| != 2 && |range| != 3 && |range| != 4
    ensures PlaceRange(fuel, bg, patterns, range, ox, oy).status == Completed
    ensures Apply(t, PlaceRange(fuel, bg, patterns, range, ox, oy).writes) == t
  {
  }

  /** A zero or negative extent covers nothing: no write, and not even a pattern lookup. */
  lemma {:induction false} EmptyExtent(fuel: nat, bg: Background, patterns: Patterns, xs: int, xl: int, ys: int, yl: int,
                                        ox: int, oy: int)
    requires xl <= 0 || yl <= 0
    ensures PlaceArea(fuel, bg, patterns, xs, xl, ys, yl, ox, oy) == Run([], Completed)
    decreases Extent(xl)
  {
    if 0 < xl {
      AreaStep(fuel, bg, patterns, xs, xl, ys, yl, ox, oy);
      EmptyExtent(fuel, bg, patterns, xs, xl - 1, ys, yl, ox, oy);
      assert PlaceColumn(fuel, bg, patterns, xs + xl - 1, ys, yl, ox, oy) == Run([], Completed);
    }
  }

  /**
   * A pattern background naming a pattern that does not exist stops at the
   * first covered cell, before writing anything.
   */
  lemma UnknownPatternStops(fuel: nat, bg: Background, patterns: Patterns, xs: int, xl: int, ys: int, yl: int,
                            ox: int, oy: int)
    requires bg.pattern != "" && bg.pattern !in patterns
    requires 0 < xl && 0 < yl
    ensures PlaceArea(fuel, bg, patterns, xs, xl, ys, yl, ox, oy) == Run([], UnknownPattern(bg.pattern))
  {
    var cells := seq(Extent(yl), j requires 0 <= j < Extent(yl) => PlaceCell(fuel, bg, patterns, xs + ox, ys + j + oy));
    assert cells[..0] == [];
    assert Fold(cells[..0]) == Run([], Completed);
    assert cells[0] == PlaceCell(fuel, bg, patterns, xs + ox, ys + oy) == Run([], UnknownPattern(bg.pattern));
    FoldStep(cells, 0);
    FoldSticks(cells, 1);
    assert PlaceColumn(fuel, bg, patterns, xs, ys, yl, ox, oy) == Run([], UnknownPattern(bg.pattern));
    var cols := seq(Extent(xl), i requires 0 <= i < Extent(xl) => PlaceColumn(fuel, bg, patterns, xs + i, ys, yl, ox, oy));
    assert cols[..0] == [];
    assert Fold(cols[..0]) == Run([], Completed);
    assert cols[0] == PlaceColumn(fuel, bg, patterns, xs, ys, yl, ox, oy);
    FoldStep(cols, 0);
    FoldSticks(cols, 1);
  }

  /** A pattern background places the pattern's backgrounds with the offset moved to the covered cell. */
  lemma PatternCell(fuel: nat, bg: Background, patterns: Patterns, xs: int, ys: int, ox: int, oy: int)
    requires bg.pattern != "" && bg.pattern in patterns && 0 < fuel
    ensures PlaceArea(fuel, bg, patterns, xs, 1, ys, 1, ox, oy)
         == PlaceBackgrounds(fuel - 1, patterns[bg.pattern].backgrounds, patterns, xs + ox, ys + oy)
  {
    var cells := seq(Extent(1), j requires 0 <= j < Extent(1) => PlaceCell(fuel, bg, patterns, xs + ox, ys + j + oy));
    assert cells[..0] == [];
    assert Fold(cells[..0]) == Run([], Completed);
    assert cells[0] == PlaceCell(fuel, bg, patterns, xs + ox, ys + oy);
    FoldStep(cells, 0);
    assert cells[..1] == cells;
    var cols := seq(Extent(1), i requires 0 <= i < Extent(1) => PlaceColumn(fuel, bg, patterns, xs + i, ys, 1, ox, oy));
    assert cols[..0] == [];
    assert Fold(cols[..0]) == Run([], Completed);
    assert cols[0] == PlaceColumn(fuel, bg, patterns, xs, ys, 1, ox, oy);
    FoldStep(cols, 0);
    assert cols[..1] == cols;
    var inner := PlaceCell(fuel, bg, patterns, xs + ox, ys + oy);
    if inner.status.Completed? {
      assert [] + inner.writes == inner.writes;
    }
  }

  // ---------------------------------------------------------------------------
  // The level and the in-place expansion

  /** The level's tile matrix, reduced to the cells its `set` writes. */
  class Matrix {
    var cells: Grid

    constructor ()
      ensures cells == map[]
    {
      cells := map[];
    }

    method Set(x: int, y: int, value: Tile)
      modifies this
      ensures cells == old(cells)[(x, y) := value]
    {
      cells := cells[(x, y) := value];
    }
  }

  class Level {
    const tiles: Matrix

    constructor ()
      ensures fresh(tiles) && tiles.cells == map[]
    {
      tiles := new Matrix();
    }
  }

  /**
   * createTiles: expand the backgrounds onto the level, in order, shifted by
   * the offset; returns how the expansion ended.
   */
  method CreateTiles(level: Level, backgrounds: seq<Background>, patterns: Patterns, offsetX: int, offsetY: int,
                     fuel: nat) returns (status: Status)
    modifies level.tiles
    ensures status == PlaceBackgrounds(fuel, backgrounds, patterns, offsetX, offsetY).status
    ensures level.tiles.cells == Apply(old(level.tiles.cells), PlaceBackgrounds(fuel, backgrounds, patterns, offsetX, offsetY).writes)
    decreases fuel, 4
  {
    ghost var t0 := level.tiles.cells;
    ghost var runs := seq(|backgrounds|, i requires 0 <= i < |backgrounds| => PlaceBackground(fuel, backgrounds[i], patterns, offsetX, offsetY));
    assert runs[..0] == [];
    for i := 0 to |backgrounds|
      invariant Fold(runs[..i]).status == Completed
      invariant level.tiles.cells == Apply(t0, Fold(runs[..i]).writes)
    {
      var s := ApplyRanges(level, backgrounds[i], patterns, offsetX, offsetY, fuel);
      ApplyConcat(t0, Fold(runs[..i]).writes, runs[i].writes);
      FoldStep(runs, i);
      if s != Completed {
        FoldSticks(runs, i + 1);
        return s;
      }
    }
    assert runs[..|backgrounds|] == runs;
    status := Completed;
  }

  /** The body of createTiles' loop for one background: each range in order, by its length. */
  method ApplyRanges(level: Level, background: Background, patterns: Patterns, offsetX: int, offsetY: int,
                     fuel: nat) returns (status: Status)
    modifies level.tiles
    ensures status == PlaceBackground(fuel, background, patterns, offsetX, offsetY).status
    ensures level.tiles.cells == Apply(old(level.tiles.cells), PlaceBackground(fuel, background, patterns, offsetX, offsetY).writes)
    decreases fuel, 3
  {
    ghost var t0 := level.tiles.cells;
    ghost var runs := seq(|background.ranges|, j requires 0 <= j < |background.ranges| =>
      PlaceRange(fuel, background, patterns, background.ranges[j], offsetX, offsetY));
    assert runs[..0] == [];
    for j := 0 to |background.ranges|
      invariant Fold(runs[..j]).status == Completed
      invariant level.tiles.cells == Apply(t0, Fold(runs[..j]).writes)
    {
      var range := background.ranges[j];
      var s := Completed;
      if |range| == 4 {
        s := ApplyRange(level, background, patterns, range[0], range[1], range[2], range[3], offsetX, offsetY, fuel);
      } else if |range| == 3 {
        s := ApplyRange(level, background, patterns, range[0], range[1], range[2], 1, offsetX, offsetY, fuel);
      } else if |range| == 2 {
        s := ApplyRange(level, background, patterns, range[0], 1, range[1], 1, offsetX, offsetY, fuel);
      }
      ApplyConcat(t0, Fold(runs[..j]).writes, runs[j].writes);
      FoldStep(runs, j);
      if s != Completed {
        FoldSticks(runs, j + 1);
        return s;
      }
    }
    assert runs[..|background.ranges|] == runs;
    status := Completed;
  }

  /**
   * applyRange: every cell of [xStart, xStart+xLen) x [yStart, yStart+yLen),
   * x outer and y inner, shifted by the offset; a plain background writes
   * its tile there, a pattern background expands the pattern there.
   */
  method ApplyRange(level: Level, background: Background, patterns: Patterns, xStart: int, xLen: int,
                    yStart: int, yLen: int, offsetX: int, offsetY: int, fuel: nat) returns (status: Status)
    modifies level.tiles
    ensures status == PlaceArea(fuel, background, patterns, xStart, xLen, yStart, yLen, offsetX, offsetY).status
    ensures level.tiles.cells == Apply(old(level.tiles.cells),
                                       PlaceArea(fuel, background, patterns, xStart, xLen, yStart, yLen, offsetX, offsetY).writes)
    decreases fuel, 2
  {
    ghost var t0 := level.tiles.cells;
    ghost var cols := seq(Extent(xLen), i requires 0 <= i < Extent(xLen) =>
      PlaceColumn(fuel, background, patterns, xStart + i, yStart, yLen, offsetX, offsetY));
    assert cols[..0] == [];
    var xEnd := xStart + xLen;
    var x := xStart;
    while x < xEnd
      invariant xStart <= x <= xStart + Extent(xLen)
      invariant Fold(cols[..x - xStart]).status == Completed
      invariant level.tiles.cells == Apply(t0, Fold(cols[..x - xStart]).writes)
    {
      ghost var i := x - xStart;
      var s := ApplyColumn(level, background, patterns, x, yStart, yLen, offsetX, offsetY, fuel);
      assert cols[i] == PlaceColumn(fuel, background, patterns, x, yStart, yLen, offsetX, offsetY);
      ApplyConcat(t0, Fold(cols[..i]).writes, cols[i].writes);
      FoldStep(cols, i);
      if s != Completed {
        FoldSticks(cols, i + 1);
        return s;
      }
      x := x + 1;
    }
    assert cols[..Extent(xLen)] == cols;
    status := Completed;
  }

  /** applyRange's inner loop over y, for one x. */
  method ApplyColumn(level: Level, background: Background, patterns: Patterns, x: int,
                     yStart: int, yLen: int, offsetX: int, offsetY: int, fuel: nat) returns (status: Status)
    modifies level.tiles
    ensures status == PlaceColumn(fuel, background, patterns, x, yStart, yLen, offsetX, offsetY).status
    ensures level.tiles.cells == Apply(old(level.tiles.cells),
                                       PlaceColumn(fuel, background, patterns, x, yStart, yLen, offsetX, offsetY).writes)
    decreases fuel, 1
  {
    ghost var t0 := level.tiles.cells;
    ghost var cells := seq(Extent(yLen), j requires 0 <= j < Extent(yLen) =>
      PlaceCell(fuel, background, patterns, x + offsetX, yStart + j + offsetY));
    assert cells[..0] == [];
    var yEnd := yStart + yLen;
    var y := yStart;
    while y < yEnd
      invariant yStart <= y <= yStart + Extent(yLen)
      invariant Fold(cells[..y - yStart]).status == Completed
      invariant level.tiles.cells == Apply(t0, Fold(cells[..y - yStart]).writes)
    {
      ghost var k := y - yStart;
      var derivedX := x + offsetX;
      var derivedY := y + offsetY;
      var s := ApplyCell(level, background, patterns, derivedX, derivedY, fuel);
      assert cells[k] == PlaceCell(fuel, background, patterns, derivedX, derivedY);
      ApplyConcat(t0, Fold(cells[..k]).writes, cells[k].writes);
      FoldStep(cells, k);
      if s != Completed {
        FoldSticks(cells, k + 1);
        return s;
      }
      y := y + 1;
    }
    assert cells[..Extent(yLen)] == cells;
    status := Completed;
  }

  /**
   * The body of applyRange's loops for one cell: a pattern background expands
   * the pattern with the offset moved to the cell, any other writes its tile.
   */
  method ApplyCell(level: Level, background: Background, patterns: Patterns, derivedX: int, derivedY: int,
                   fuel: nat) returns (status: Status)
    modifies level.tiles
    ensures status == PlaceCell(fuel, background, patterns, derivedX, derivedY).status
    ensures level.tiles.cells == Apply(old(level.tiles.cells), PlaceCell(fuel, background, patterns, derivedX, derivedY).writes)
    decreases fuel, 0
  {
    if background.pattern != "" {
      if background.pattern !in patterns {
        status := UnknownPattern(background.pattern);
      } else if fuel == 0 {
        status := TooDeep;
      } else {
        var bgs := patterns[background.pattern].backgrounds;
        status := CreateTiles(level, bgs, patterns, derivedX, derivedY, fuel - 1);
      }
    } else {
      level.tiles.Set(derivedX, derivedY, Tile(background.tile, background.tileType));
      status := Completed;
    }
  }
}
