/**
 * Building the kernel module's keymap: qmk_parse_properties reads the matrix
 * dimensions, qmk_map_key stores one entry word into the flat keycode
 * table of the input device, and qmk_parse_keymap / qmk_build_keymap load
 * a whole list of entries, stopping at the first invalid one.
 */
module KeymapBuild {
  import opened Wrappers
  import opened Bits
  import opened Keymap
  import opened KeyWord
  import opened Scancodes

  const EINVAL: int := 22

  /** An entry addresses a cell inside the matrix. */
  predicate ValidEntry(g: Geometry, key: bv32)
  {
    var e := Decode(key);
    g.InBounds(e.layer, e.row, e.col)
  }

  /** The table index an entry is stored at: QMK_MATRIX_SCAN_CODE with the built shifts. */
  function Slot(g: Geometry, key: bv32): (i: nat)
    requires g.Valid() && ValidEntry(g, key)
    ensures i < g.MaxKeys()
  {
    var e := Decode(key);
    IndexInBounds(g, e.layer, e.row, e.col);
    Index(g, e.layer, e.row, e.col)
  }

  /** The scancode bit an entry adds to keybit: only for a basic code below 0xFF. */
  function EntryKeybit(g: Geometry, key: bv32): set<LinuxKey>
  {
    var e := Decode(key);
    if ValidEntry(g, key) && e.code < 0xFF then {KeycodeToScancode(e.code)} else {}
  }

  /** The number of leading entries that are valid: the index of the first invalid one, or all. */
  function FirstInvalid(g: Geometry, keys: seq<bv32>): (n: nat)
    ensures n <= |keys|
  {
    if keys == [] || !ValidEntry(g, keys[0]) then 0
    else 1 + FirstInvalid(g, keys[1..])
  }

  /** Every entry before FirstInvalid is valid, and the one at it (if any) is not. */
  lemma {:induction false} FirstInvalidIsFirst(g: Geometry, keys: seq<bv32>)
    ensures var n := FirstInvalid(g, keys);
      (forall j | 0 <= j < n :: ValidEntry(g, keys[j])) && (n < |keys| ==> !ValidEntry(g, keys[n]))
  {
    if keys != [] && ValidEntry(g, keys[0]) {
      FirstInvalidIsFirst(g, keys[1..]);
      var n := FirstInvalid(g, keys);
      assert forall j | 1 <= j < n :: keys[j] == keys[1..][j - 1];
    }
  }

  /** Below FirstInvalid, the next entry is valid exactly when the count goes on past it. */
  lemma FirstInvalidAt(g: Geometry, keys: seq<bv32>, i: nat)
    requires i < |keys| && i <= FirstInvalid(g, keys)
    ensures (i < FirstInvalid(g, keys)) == ValidEntry(g, keys[i])
  {
    FirstInvalidIsFirst(g, keys);
  }

  /** The table after offering each entry in turn to qmk_map_key: invalid ones write nothing. */
  function WriteAll(g: Geometry, cells: seq<int>, keys: seq<bv32>): (r: seq<int>)
    requires g.Valid() && |cells| == g.MaxKeys()
    ensures |r| == |cells|
  {
    if keys == [] then cells
    else
      var last := keys[|keys| - 1];
      var w := WriteAll(g, cells, keys[..|keys| - 1]);
      if ValidEntry(g, last) then w[Slot(g, last) := Decode(last).code] else w
  }

  /** The scancode bits a list of entries sets. */
  function Keybits(g: Geometry, keys: seq<bv32>): set<LinuxKey>
  {
    if keys == [] then {} else Keybits(g, keys[..|keys| - 1]) + EntryKeybit(g, keys[|keys| - 1])
  }

  /** The code the last entry for a cell stores, or dflt if no entry addresses it. */
  function LastFor(g: Geometry, keys: seq<bv32>, layer: nat, row: nat, col: nat, dflt: int): int
  {
    if keys == [] then dflt
    else
      var e := Decode(keys[|keys| - 1]);
      if e.layer == layer && e.row == row && e.col == col then e.code
      else LastFor(g, keys[..|keys| - 1], layer, row, col, dflt)
  }

  /**
   * Reading a cell back through keycode_from_keymap gives the code of the
   * last entry for that cell, and the old content if there is none.
   */
  lemma {:induction false} WriteAllReadBack(g: Geometry, cells: seq<int>, keys: seq<bv32>, layer: nat, row: nat, col: nat)
    requires g.Valid() && |cells| == g.MaxKeys() && g.InBounds(layer, row, col)
    ensures Lookup(g, WriteAll(g, cells, keys), layer, row, col)
         == LastFor(g, keys, layer, row, col, Lookup(g, cells, layer, row, col))
  {
    if keys != [] {
      var prefix, last := keys[..|keys| - 1], keys[|keys| - 1];
      var e := Decode(last);
      var w := WriteAll(g, cells, prefix);
      var i := Index(g, layer, row, col);
      IndexInBounds(g, layer, row, col);
      WriteAllReadBack(g, cells, prefix, layer, row, col);
      assert Lookup(g, w, layer, row, col) == w[i];
      if ValidEntry(g, last) {
        var s := Slot(g, last);
        assert WriteAll(g, cells, keys) == w[s := e.code];
        assert Lookup(g, WriteAll(g, cells, keys), layer, row, col) == w[s := e.code][i];
        if !(e.layer == layer && e.row == row && e.col == col) {
          if s == i {
            IndexInjective(g, e.layer, e.row, e.col, layer, row, col);
          }
        }
      } else {
        assert WriteAll(g, cells, keys) == w;
      }
    }
  }

  /** Loading one more entry writes its code at its slot and adds its scancode bit. */
  lemma LoadStep(g: Geometry, cells: seq<int>, keys: seq<bv32>, i: nat)
    requires g.Valid() && |cells| == g.MaxKeys() && i < |keys| && ValidEntry(g, keys[i])
    ensures WriteAll(g, cells, keys[..i + 1]) == WriteAll(g, cells, keys[..i])[Slot(g, keys[i]) := Decode(keys[i]).code]
    ensures Keybits(g, keys[..i + 1]) == Keybits(g, keys[..i]) + EntryKeybit(g, keys[i])
  {
    assert keys[..i + 1][..i] == keys[..i];
    assert keys[..i + 1][i] == keys[i];
  }

  /** Stored codes are 16-bit, so a table of zeros stays a table of 16-bit keycodes. */
  lemma {:induction false} WriteAllKeeps16Bit(g: Geometry, cells: seq<int>, keys: seq<bv32>)
    requires g.Valid() && |cells| == g.MaxKeys()
    requires forall i | 0 <= i < |cells| :: 0 <= cells[i] < 0x10000
    ensures Table(g, WriteAll(g, cells, keys)).Valid()
  {
    if keys != [] {
      WriteAllKeeps16Bit(g, cells, keys[..|keys| - 1]);
    }
  }

  /** A single in-bounds entry is accepted and reads back as its code. */
  lemma SingleEntryStored(g: Geometry, cells: seq<int>, key: bv32)
    requires g.Valid() && |cells| == g.MaxKeys()
    requires var e := Decode(key); g.InBounds(e.layer, e.row, e.col)
    ensures ValidEntry(g, key)
    ensures var e := Decode(key); Lookup(g, WriteAll(g, cells, [key]), e.layer, e.row, e.col) == e.code
  {
    var e := Decode(key);
    WriteAllReadBack(g, cells, [key], e.layer, e.row, e.col);
    assert [key][..0] == [];
  }

  /** A word packed by LAYER_MATRIX_KEY for an in-bounds cell is accepted and stores its code there. */
  lemma PackedEntryStored(g: Geometry, cells: seq<int>, layer: bv4, row: bv5, col: bv5, code: bv16)
    requires g.Valid() && |cells| == g.MaxKeys()
    requires g.InBounds(layer as nat, row as nat, col as nat)
    ensures var key := LayerMatrixKey(layer as bv32, row as bv32, col as bv32, code as bv32);
      ValidEntry(g, key) &&
      Lookup(g, WriteAll(g, cells, [key]), layer as nat, row as nat, col as nat) == code as nat
  {
    DecodePacked(layer, row, col, code);
    SingleEntryStored(g, cells, LayerMatrixKey(layer as bv32, row as bv32, col as bv32, code as bv32));
  }

  /**
   * qmk_parse_properties: the three device properties, each read into a
   * zeroed unsigned; a missing property leaves its 0. Any 0 is -EINVAL.
   */
  method ParseProperties(numLayers: Option<nat>, numRows: Option<nat>, numCols: Option<nat>)
    returns (err: int, layers: nat, rows: nat, cols: nat)
    ensures err == 0 || err == -EINVAL
    ensures err == 0 <==> Geometry(layers, rows, cols).Valid()
    ensures layers == (if numLayers.Some? then numLayers.value else 0)
    ensures rows == (if numRows.Some? then numRows.value else 0)
    ensures cols == (if numCols.Some? then numCols.value else 0)
  {
    layers, rows, cols := 0, 0, 0;
    if numLayers.Some? {
      layers := numLayers.value;
    }
    if numRows.Some? {
      rows := numRows.value;
    }
    if numCols.Some? {
      cols := numCols.value;
    }
    if layers == 0 || rows == 0 || cols == 0 {
      return -EINVAL, layers, rows, cols;
    }
    return 0, layers, rows, cols;
  }

  /** The parts of struct input_dev that building the keymap sets. */
  class InputDev {
    /** input_dev->keycode: the flat table of 16-bit keycodes. */
    var keycode: array<int>
    var keycodeSize: nat
    var keycodeMax: nat
    /** Bit EV_KEY of input_dev->evbit. */
    var evKey: bool
    /** The set bits of input_dev->keybit. */
    var keybit: set<LinuxKey>

    constructor ()
      ensures keycode.Length == 0 && keycodeSize == 0 && keycodeMax == 0 && !evKey && keybit == {}
    {
      keycode := new int[0];
      keycodeSize, keycodeMax, evKey, keybit := 0, 0, false, {};
    }

    /**
     * qmk_map_key: an entry outside the matrix is rejected and nothing is
     * written; otherwise its code is stored at its slot, and a basic code
     * also sets its scancode bit.
     */
    method MapKey(g: Geometry, key: bv32) returns (ok: bool)
      requires g.Valid() && keycode.Length == g.MaxKeys()
      modifies this`keybit, keycode
      ensures ok == ValidEntry(g, key)
      ensures keycode[..] == if ok then old(keycode[..])[Slot(g, key) := Decode(key).code] else old(keycode[..])
      ensures keybit == old(keybit) + EntryKeybit(g, key)
    {
      var e := Decode(key);
      if e.layer >= g.layers || e.row >= g.rows || e.col >= g.cols {
        return false;
      }
      var i := Slot(g, key);
      keycode[i] := e.code;
      if e.code < 0xFF {
        keybit := keybit + {KeycodeToScancode(e.code)};
      }
      return true;
    }

    /**
     * The entry loop shared by both load paths: entries are stored in
     * order until the first invalid one, whose index is FirstInvalid.
     */
    method MapKeys(g: Geometry, keys: seq<bv32>) returns (ok: bool)
      requires g.Valid() && keycode.Length == g.MaxKeys()
      modifies this`keybit, keycode
      ensures ok <==> FirstInvalid(g, keys) == |keys|
      ensures var n := FirstInvalid(g, keys);
        keycode[..] == WriteAll(g, old(keycode[..]), keys[..n]) &&
        keybit == old(keybit) + Keybits(g, keys[..n])
    {
      var i := 0;
      while i < |keys|
        invariant 0 <= i <= |keys| && i <= FirstInvalid(g, keys)
        invariant keycode[..] == WriteAll(g, old(keycode[..]), keys[..i])
        invariant keybit == old(keybit) + Keybits(g, keys[..i])
      {
        ok := MapKey(g, keys[i]);
        FirstInvalidAt(g, keys, i);
        if !ok {
          return;
        }
        LoadStep(g, old(keycode[..]), keys, i);
        i := i + 1;
      }
      assert keys[..i] == keys;
      return true;
    }

    /**
     * qmk_parse_keymap on a property of `size` entries: a size of 0 or
     * less is an error (the property's own negative code, else -EINVAL),
     * as is a size above the table; otherwise the entries are mapped.
     */
    method ParseKeymap(g: Geometry, size: int, keys: seq<bv32>) returns (err: int)
      requires g.Valid() && keycode.Length == g.MaxKeys() && (size > 0 ==> |keys| == size)
      modifies this`keybit, keycode
      ensures size <= 0 ==> err == (if size < 0 then size else -EINVAL)
      ensures size > g.MaxKeys() ==> err == -EINVAL
      ensures 0 < size <= g.MaxKeys() ==>
        (err == 0 <==> FirstInvalid(g, keys) == |keys|) && (err == 0 || err == -EINVAL)
      ensures var loaded := if 0 < size <= g.MaxKeys() then keys[..FirstInvalid(g, keys)] else [];
        keycode[..] == WriteAll(g, old(keycode[..]), loaded) &&
        keybit == old(keybit) + Keybits(g, loaded)
    {
      if size <= 0 {
        return if size < 0 then size else -EINVAL;
      }
      if size > g.MaxKeys() {
        return -EINVAL;
      }
      var ok := MapKeys(g, keys);
      return if ok then 0 else -EINVAL;
    }

    /**
     * qmk_build_keymap with no caller buffer: a zeroed table of
     * layers << layer_shift keycodes is installed, then the entries are
     * loaded from the platform data if given, else from the property. On
     * success KEY_RESERVED is cleared from keybit.
     */
    method BuildKeymap(g: Geometry, data: Option<seq<bv32>>, size: int, keys: seq<bv32>) returns (err: int)
      requires g.Valid() && (size > 0 ==> |keys| == size)
      modifies this
      ensures fresh(keycode) && keycode.Length == g.MaxKeys()
      ensures keycodeMax == g.MaxKeys() && keycodeSize == 2 && evKey
      ensures var attempted := Attempted(g, data, size, keys);
        var loaded := attempted[..FirstInvalid(g, attempted)];
        err == BuildError(g, data, size, keys) &&
        keycode[..] == WriteAll(g, Zeros(g.MaxKeys()), loaded) &&
        keybit == if err == 0 then old(keybit) + Keybits(g, loaded) - {KEY_RESERVED}
                  else old(keybit) + Keybits(g, loaded)
    {
      keycode := new int[g.MaxKeys()](_ => 0);
      assert keycode[..] == Zeros(g.MaxKeys());
      keycodeSize := 2;
      keycodeMax := g.MaxKeys();
      evKey := true;
      if data.Some? {
        var ok := MapKeys(g, data.value);
        if !ok {
          return -EINVAL;
        }
      } else {
        err := ParseKeymap(g, size, keys);
        if err != 0 {
          return;
        }
      }
      keybit := keybit - {KEY_RESERVED};
      return 0;
    }
  }

  /** A table of n zeros, as devm_kcalloc returns. */
  function Zeros(n: nat): (r: seq<int>)
    ensures |r| == n && forall i | 0 <= i < n :: r[i] == 0
  {
    seq(n, _ => 0)
  }

  /** The entries qmk_build_keymap tries to map: the platform data's, else the property's when its size is acceptable. */
  function Attempted(g: Geometry, data: Option<seq<bv32>>, size: int, keys: seq<bv32>): seq<bv32>
    requires g.Valid()
  {
    if data.Some? then data.value
    else if 0 < size <= g.MaxKeys() then keys
    else []
  }

  /** qmk_build_keymap's return value. */
  function BuildError(g: Geometry, data: Option<seq<bv32>>, size: int, keys: seq<bv32>): int
    requires g.Valid()
  {
    if data.Some? then (if FirstInvalid(g, data.value) == |data.value| then 0 else -EINVAL)
    else if size < 0 then size
    else if size == 0 || size > g.MaxKeys() then -EINVAL
    else if FirstInvalid(g, keys) == |keys| then 0
    else -EINVAL
  }

  /**
   * A successful build yields a table the dispatcher can read: 16-bit
   * keycodes where every cell holds the code of its last entry, or 0.
   */
  lemma BuiltTableReadsBack(g: Geometry, data: Option<seq<bv32>>, size: int, keys: seq<bv32>,
                            layer: nat, row: nat, col: nat)
    requires g.Valid() && BuildError(g, data, size, keys) == 0 && g.InBounds(layer, row, col)
    ensures var attempted := Attempted(g, data, size, keys);
      FirstInvalid(g, attempted) == |attempted| &&
      var t := Table(g, WriteAll(g, Zeros(g.MaxKeys()), attempted));
      t.Valid() && t.At(layer, row, col) == LastFor(g, attempted, layer, row, col, 0)
  {
    var attempted := Attempted(g, data, size, keys);
    var z := Zeros(g.MaxKeys());
    WriteAllKeeps16Bit(g, z, attempted);
    WriteAllReadBack(g, z, attempted, layer, row, col);
    IndexInBounds(g, layer, row, col);
  }

  /** A failed build returns -EINVAL or the property's own negative code, never 0. */
  lemma BuildErrorIsNegative(g: Geometry, data: Option<seq<bv32>>, size: int, keys: seq<bv32>)
    requires g.Valid() && BuildError(g, data, size, keys) != 0
    ensures BuildError(g, data, size, keys) < 0
    ensures BuildError(g, data, size, keys) != -EINVAL ==> data.None? && BuildError(g, data, size, keys) == size
  {
  }
}
