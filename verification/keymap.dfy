/**
 * The flat keymap table and its index.
 *
 * A keymap cell (layer, row, col) lives at
 *   (layer << layer_shift) + (row << row_shift) + col
 * where row_shift = get_count_order(cols) and
 * layer_shift = get_count_order(rows << row_shift). The table holds
 * layers << layer_shift entries. The current library composes the index
 * with `+`, the older one with `|`; both are modelled here.
 */
module Keymap {
  import opened Bits

  /** The matrix dimensions the keymap was built for. */
  datatype Geometry = Geometry(layers: nat, rows: nat, cols: nat)
  {
    /** The device properties were all present and non-zero. */
    predicate Valid()
    {
      layers >= 1 && rows >= 1 && cols >= 1
    }

    function RowShift(): nat
      requires Valid()
    {
      CountOrder(cols)
    }

    function LayerShift(): nat
      requires Valid()
    {
      CountOrder(rows * Pow2(RowShift()))
    }

    /** The number of table entries: layers << layer_shift. */
    function MaxKeys(): nat
      requires Valid()
    {
      layers * Pow2(LayerShift())
    }

    predicate InBounds(layer: int, row: int, col: int)
    {
      0 <= layer < layers && 0 <= row < rows && 0 <= col < cols
    }
  }

  /** QMK_MATRIX_SCAN_CODE(layer, row, col, layer_shift, row_shift). */
  function ScanCode(layer: nat, row: nat, col: nat, layerShift: nat, rowShift: nat): nat
  {
    layer * Pow2(layerShift) + row * Pow2(rowShift) + col
  }

  /** keycode_from_keymap's index in the current library (`+`-composed, no bounds check). */
  function Index(g: Geometry, layer: nat, row: nat, col: nat): nat
    requires g.Valid()
  {
    ScanCode(layer, row, col, g.LayerShift(), g.RowShift())
  }

  /** keycode_from_keymap's index in the older library (`|`-composed, no bounds check). */
  function OrIndex(g: Geometry, layer: nat, row: nat, col: nat): nat
    requires g.Valid()
  {
    BitOr(BitOr(layer * Pow2(g.LayerShift()), row * Pow2(g.RowShift())), col)
  }

  /** keycode_from_keymap: the cell's keycode, read from a table of the built size. */
  function Lookup(g: Geometry, keymap: seq<int>, layer: nat, row: nat, col: nat): int
    requires g.Valid() && |keymap| == g.MaxKeys() && g.InBounds(layer, row, col)
  {
    var i := Index(g, layer, row, col);
    IndexInBounds(g, layer, row, col);
    keymap[i]
  }

  /** A built keymap: its geometry and its flat table of 16-bit keycodes. */
  datatype Table = Table(g: Geometry, cells: seq<int>)
  {
    predicate Valid()
    {
      g.Valid() && |cells| == g.MaxKeys() && forall i | 0 <= i < |cells| :: 0 <= cells[i] < 0x10000
    }

    /** The keycode of an in-bounds cell, through keycode_from_keymap. */
    function At(layer: nat, row: nat, col: nat): (k: int)
      requires Valid() && g.InBounds(layer, row, col)
      ensures 0 <= k < 0x10000
    {
      IndexInBounds(g, layer, row, col);
      Lookup(g, cells, layer, row, col)
    }
  }

  /** Within a layer, the row-and-column part stays below 2^layer_shift. */
  lemma CellOffsetBound(g: Geometry, row: nat, col: nat)
    requires g.Valid() && row < g.rows && col < g.cols
    ensures col < Pow2(g.RowShift())
    ensures row * Pow2(g.RowShift()) + col < Pow2(g.LayerShift())
  {
    var q := Pow2(g.RowShift());
    assert col < q;
    calc {
      row * q + col;
    <
      row * q + q;
    ==
      (row + 1) * q;
    <=  { assert row + 1 <= g.rows; }
      g.rows * q;
    <=
      Pow2(g.LayerShift());
    }
  }

  /** Every in-bounds cell indexes inside the table of layers << layer_shift entries. */
  lemma IndexInBounds(g: Geometry, layer: nat, row: nat, col: nat)
    requires g.Valid() && g.InBounds(layer, row, col)
    ensures Index(g, layer, row, col) < g.MaxKeys()
  {
    var p := Pow2(g.LayerShift());
    CellOffsetBound(g, row, col);
    calc {
      Index(g, layer, row, col);
    <
      layer * p + p;
    ==
      (layer + 1) * p;
    <=  { assert layer + 1 <= g.layers; }
      g.layers * p;
    }
  }

  /** Distinct in-bounds cells have distinct indices. */
  lemma IndexInjective(g: Geometry, l1: nat, r1: nat, c1: nat, l2: nat, r2: nat, c2: nat)
    requires g.Valid() && g.InBounds(l1, r1, c1) && g.InBounds(l2, r2, c2)
    requires Index(g, l1, r1, c1) == Index(g, l2, r2, c2)
    ensures l1 == l2 && r1 == r2 && c1 == c2
  {
    var p, q := Pow2(g.LayerShift()), Pow2(g.RowShift());
    CellOffsetBound(g, r1, c1);
    CellOffsetBound(g, r2, c2);
    DivModUnique(l1, r1 * q + c1, l2, r2 * q + c2, p);
    DivModUnique(r1, c1, r2, c2, q);
  }

  /** The row shift never exceeds the layer shift, since rows >= 1. */
  lemma RowShiftBelowLayerShift(g: Geometry)
    requires g.Valid()
    ensures g.RowShift() <= g.LayerShift()
  {
    var rs, ls := g.RowShift(), g.LayerShift();
    var q := Pow2(rs);
    var n := g.rows * q;
    MulAtLeast(g.rows, q);
    assert q <= n <= Pow2(ls);
    if ls < rs {
      Pow2Monotone(ls, rs - 1);
    }
  }

  lemma MulAtLeast(x: nat, q: nat)
    requires x >= 1
    ensures x * q >= q
  {
  }

  /** In bounds, the older `|`-composed index is the same as the `+`-composed one. */
  lemma OrIndexAgrees(g: Geometry, layer: nat, row: nat, col: nat)
    requires g.Valid() && g.InBounds(layer, row, col)
    ensures OrIndex(g, layer, row, col) == Index(g, layer, row, col)
  {
    CellOffsetBound(g, row, col);
    RowShiftBelowLayerShift(g);
    OrOfDisjointFields(layer, row, col, g.LayerShift(), g.RowShift());
  }

  lemma OrOfDisjointFields(layer: nat, row: nat, col: nat, ls: nat, rs: nat)
    requires rs <= ls && col < Pow2(rs) && row * Pow2(rs) + col < Pow2(ls)
    ensures BitOr(BitOr(layer * Pow2(ls), row * Pow2(rs)), col)
         == layer * Pow2(ls) + row * Pow2(rs) + col
  {
    var p, q := Pow2(ls), Pow2(rs);
    var lo := row * q;
    assert lo < p;
    BitOrDisjoint(layer, lo, ls);
    var m := ShiftedSum(layer, row, ls, rs);
    BitOrDisjoint(m, col, rs);
  }

  /** Layer bits above the row bits: layer << ls plus row << rs is a multiple of 2^rs. */
  lemma ShiftedSum(layer: nat, row: nat, ls: nat, rs: nat) returns (m: nat)
    requires rs <= ls
    ensures m * Pow2(rs) == layer * Pow2(ls) + row * Pow2(rs)
  {
    var e, q := Pow2(ls - rs), Pow2(rs);
    Pow2Add(ls - rs, rs);
    assert Pow2(ls) == e * q;
    m := layer * e + row;
    Regroup(layer, e, row, q);
  }

  /**
   * Out of bounds the two revisions part ways: on a 4x4 matrix the column
   * 4 of row 1 overlaps the row bits under `|` but carries into them under `+`.
   */
  lemma OrIndexDivergesOutOfBounds()
    ensures var g := Geometry(1, 4, 4);
      g.Valid() && !g.InBounds(0, 1, 4) &&
      OrIndex(g, 0, 1, 4) == 4 && Index(g, 0, 1, 4) == 8
  {
    var g := Geometry(1, 4, 4);
    assert Pow2(2) == 4;
    CountOrderUnique(4, 2);
    assert Pow2(4) == 16;
    CountOrderUnique(16, 4);
  }
}
