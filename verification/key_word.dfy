/**
 * The 32-bit keymap entry word of the device tree: layer in bits 26-29,
 * row in bits 21-25, column in bits 16-20 and the keycode in bits 0-15.
 * LAYER_MATRIX_KEY packs it and KEY_LAYER, KEY_ROW, KEY_COL and KEY_VAL
 * unpack it.
 */
module KeyWord {
  const MATRIX_MAX_LAYERS: int := 16
  const MATRIX_MAX_ROWS: int := 32
  const MATRIX_MAX_COLS: int := 32

  const KEY_PRESSED: int := 1
  const KEY_RELEASED: int := 0

  /** KEY_LAYER(k): bits 26-29. */
  function KeyLayer(k: bv32): (l: bv32)
    ensures l < 16
  {
    (k >> 26) & 0xF
  }

  /** KEY_ROW(k): bits 21-25. */
  function KeyRow(k: bv32): (r: bv32)
    ensures r < 32
  {
    (k >> 21) & 0x1F
  }

  /** KEY_COL(k): bits 16-20. */
  function KeyCol(k: bv32): (c: bv32)
    ensures c < 32
  {
    (k >> 16) & 0x1F
  }

  /** KEY_VAL(k): bits 0-15. */
  function KeyVal(k: bv32): (v: bv32)
    ensures v < 0x10000
  {
    k & 0xFFFF
  }

  /** LAYER_MATRIX_KEY(layer, row, col, code): each field masked to its width, then placed. */
  function LayerMatrixKey(layer: bv32, row: bv32, col: bv32, code: bv32): bv32
  {
    ((layer & 0xF) << 26) | ((row & 0x1F) << 21) | ((col & 0x1F) << 16) | (code & 0xFFFF)
  }

  /** Unpacking a packed word gives back each field reduced modulo its width. */
  lemma DecodeEncode(layer: bv32, row: bv32, col: bv32, code: bv32)
    ensures var k := LayerMatrixKey(layer, row, col, code);
      KeyLayer(k) == layer & 0xF && KeyRow(k) == row & 0x1F &&
      KeyCol(k) == col & 0x1F && KeyVal(k) == code & 0xFFFF
  {
  }

  /** In range, unpacking a packed word gives back exactly the fields. */
  lemma DecodeEncodeInRange(layer: bv32, row: bv32, col: bv32, code: bv32)
    requires layer < 16 && row < 32 && col < 32 && code < 0x10000
    ensures var k := LayerMatrixKey(layer, row, col, code);
      KeyLayer(k) == layer && KeyRow(k) == row && KeyCol(k) == col && KeyVal(k) == code
  {
    DecodeEncode(layer, row, col, code);
    FieldMaskKeeps(layer, row, col, code);
  }

  lemma FieldMaskKeeps(layer: bv32, row: bv32, col: bv32, code: bv32)
    requires layer < 16 && row < 32 && col < 32 && code < 0x10000
    ensures layer & 0xF == layer && row & 0x1F == row && col & 0x1F == col && code & 0xFFFF == code
  {
  }

  /** A packed word is below 2^30. */
  lemma EncodeBelow30Bits(layer: bv32, row: bv32, col: bv32, code: bv32)
    ensures LayerMatrixKey(layer, row, col, code) < 0x4000_0000
  {
  }

  /** Every word below 2^30 is the packing of its own fields. */
  lemma EncodeDecode(k: bv32)
    requires k < 0x4000_0000
    ensures LayerMatrixKey(KeyLayer(k), KeyRow(k), KeyCol(k), KeyVal(k)) == k
  {
  }

  /** The four field masks, in place, are pairwise disjoint and together cover bits 0-29. */
  lemma FieldsDisjoint()
    ensures (0xF << 26) & (0x1F << 21) == 0 as bv32
    ensures (0xF << 26) & (0x1F << 16) == 0 as bv32 && (0xF << 26) & 0xFFFF == 0 as bv32
    ensures (0x1F << 21) & (0x1F << 16) == 0 as bv32 && (0x1F << 21) & 0xFFFF == 0 as bv32
    ensures (0x1F << 16) & 0xFFFF == 0 as bv32
    ensures (0xF << 26) | (0x1F << 21) | (0x1F << 16) | 0xFFFF == 0x3FFF_FFFF as bv32
  {
  }

  /** The four fields of an entry word, as the unsigned values qmk_map_key reads. */
  datatype Entry = Entry(layer: nat, row: nat, col: nat, code: nat)

  /** An entry word's fields, through KEY_LAYER, KEY_ROW, KEY_COL and KEY_VAL. */
  function Decode(key: bv32): (e: Entry)
    ensures e.layer < MATRIX_MAX_LAYERS && e.row < MATRIX_MAX_ROWS && e.col < MATRIX_MAX_COLS
    ensures e.code < 0x10000
  {
    Entry((KeyLayer(key) as bv4) as nat, (KeyRow(key) as bv5) as nat,
          (KeyCol(key) as bv5) as nat, (KeyVal(key) as bv16) as nat)
  }

  /** A word packed from fields of their own widths decodes to those fields. */
  lemma DecodePacked(layer: bv4, row: bv5, col: bv5, code: bv16)
    ensures Decode(LayerMatrixKey(layer as bv32, row as bv32, col as bv32, code as bv32))
         == Entry(layer as nat, row as nat, col as nat, code as nat)
  {
    DecodeEncodeInRange(layer as bv32, row as bv32, col as bv32, code as bv32);
  }
}
