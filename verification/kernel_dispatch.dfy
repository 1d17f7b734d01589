/**
 * The kernel module's own dispatcher. Its layer state is an `unsigned
 * long` (64 bits here), its layer handler knows only goto and momentary
 * codes, its basic handler turns a keycode into a Linux scancode, and
 * qmk_process_keycode reports that scancode to the input device whether
 * or not the keycode was handled. Its layer scan runs i from 16 down to 1
 * and tests the layer-0 cell each time, since `layer` is still 0 there.
 */
module KernelDispatch {
  import opened Keycodes
  import opened Keymap
  import opened Quantum
  import opened Scancodes
  import Dispatch

  /** The width of the kernel's layer state, an `unsigned long`. */
  const LONG_BITS: nat := 64

  /**
   * layer_state as the set of its set bits, as in the library's
   * dispatcher; a bit past bit 63 cannot be set.
   */
  type LayerWord = set<nat>

  /** Every set bit lies inside the unsigned long. */
  predicate WithinLong(ls: LayerWord)
  {
    forall i | i in ls :: i < LONG_BITS
  }

  /** `(layer_state >> i) & 0b1`. */
  predicate Bit(ls: LayerWord, i: nat)
  {
    i in ls
  }

  /** `*layer_state |= 1UL << layer`: exactly bit `layer` turns on, if the long has it. */
  function SetBit(ls: LayerWord, layer: nat): (r: LayerWord)
    ensures forall i: nat | i < LONG_BITS :: Bit(r, i) == (Bit(ls, i) || i == layer)
    ensures layer >= LONG_BITS ==> r == ls
    ensures WithinLong(ls) ==> WithinLong(r)
  {
    if layer < LONG_BITS then ls + {layer} else ls
  }

  /** `*layer_state &= ~(1UL << layer)`: exactly bit `layer` turns off. */
  function ClearBit(ls: LayerWord, layer: nat): (r: LayerWord)
    ensures forall i: nat :: Bit(r, i) == (Bit(ls, i) && i != layer)
    ensures WithinLong(ls) ==> WithinLong(r)
  {
    ls - {layer}
  }

  /** qmk_process_layer: (handled, new layer state). */
  function LayerEffect(q: Layout, k: int, pressed: bool, ls: LayerWord): (bool, LayerWord)
  {
    if q.to.Contains(k) then
      (true, ls)
    else if q.momentary.Contains(k) then
      var layer := k % 0x100;
      (true, if pressed then SetBit(ls, layer) else ClearBit(ls, layer))
    else
      (false, ls)
  }

  /** A goto code is handled and leaves the layer state alone. */
  lemma GotoIsNoOp(q: Layout, k: int, pressed: bool, ls: LayerWord)
    requires q.Valid() && q.to.Contains(k)
    ensures LayerEffect(q, k, pressed, ls) == (true, ls)
  {
  }

  /** A momentary press turns exactly its low-byte layer on; a release turns exactly it off. */
  lemma MomentaryToggles(q: Layout, k: int, ls: LayerWord)
    requires q.Valid() && q.momentary.Contains(k)
    ensures var (h1, on) := LayerEffect(q, k, true, ls);
      h1 && forall i: nat | i < 64 :: Bit(on, i) == (Bit(ls, i) || i == k % 0x100)
    ensures var (h0, off) := LayerEffect(q, k, false, ls);
      h0 && forall i: nat | i < 64 :: Bit(off, i) == (Bit(ls, i) && i != k % 0x100)
  {
  }

  /** The kernel handler has no layer-tap case: a layer-tap code is left to the basic handler, which refuses it. */
  lemma LayerTapUnhandled(q: Layout, k: int, pressed: bool, ls: LayerWord)
    requires q.Valid() && q.layerTap.Contains(k)
    ensures LayerEffect(q, k, pressed, ls) == (false, ls)
    ensures !Chain(q, k, pressed, ls).handled
  {
  }

  /** qmk_process_basic: (handled, the scancode out-parameter afterwards). */
  function Basic(k: int, scancode: LinuxKey): (r: (bool, LinuxKey))
    requires 0 <= k
    ensures r.0 <==> k < 0xFF
    ensures !r.0 ==> r.1 == scancode
  {
    if k < 0xFF then (true, KeycodeToScancode(k)) else (false, scancode)
  }

  /** What the handlers leave behind: handled, the new layer state and the scancode to report. */
  datatype Outcome = Outcome(handled: bool, layerState: LayerWord, scancode: LinuxKey)

  /** `qmk_process_layer(...) || qmk_process_basic(...)`, with the scancode starting as KEY_RESERVED. */
  function Chain(q: Layout, k: int, pressed: bool, ls: LayerWord): (r: Outcome)
    requires q.Valid() && 0 <= k
    ensures r.scancode != KEY_RESERVED ==> r.handled && k < 0xFF
    ensures r.handled <==> q.to.Contains(k) || q.momentary.Contains(k) || k < 0xFF
  {
    var (byLayer, ls') := LayerEffect(q, k, pressed, ls);
    if byLayer then Outcome(true, ls', KEY_RESERVED)
    else
      var (byBasic, sc) := Basic(k, KEY_RESERVED);
      Outcome(byBasic, ls', sc)
  }

  /** A reported scancode other than KEY_RESERVED always comes from a key, system, consumer or modifier code. */
  lemma ReportedScancodeIsKnown(q: Layout, k: int, pressed: bool, ls: LayerWord)
    requires q.Valid() && 0 <= k && Chain(q, k, pressed, ls).scancode != KEY_RESERVED
    ensures IsKey(k) || IsSystem(k) || IsConsumer(k) || IsMod(k)
  {
    MappedOnlyFromKnownRanges(k);
  }

  /** The highest bit among 1..n of the layer state, or 0 if none is set. */
  function HighestBit(ls: LayerWord, n: nat): (r: nat)
    requires n <= 16
    ensures r <= n
    ensures r != 0 ==> Bit(ls, r) && forall j | r < j <= n :: !Bit(ls, j)
    ensures r == 0 ==> forall j | 1 <= j <= n :: !Bit(ls, j)
  {
    if n == 0 then 0
    else if Bit(ls, n) then n
    else HighestBit(ls, n - 1)
  }

  /**
   * The layer qmk_process_keycode settles on: 0 when the layer-0 cell is
   * transparent, else the highest set bit among 1..16.
   */
  function ScanLayer(t: Table, ls: LayerWord, row: nat, col: nat): (layer: nat)
    requires t.Valid() && row < t.g.rows && col < t.g.cols
    ensures layer <= 16
  {
    if t.At(0, row, col) == KC_TRNS then 0 else HighestBit(ls, 16)
  }

  /**
   * The scan never looks at the cells of the layers it tests: whatever the
   * other layers hold, a transparent layer-0 cell selects layer 0 and any
   * other layer-0 cell selects the highest active layer among 1..16.
   */
  lemma ScanIgnoresUpperCells(t: Table, u: Table, ls: LayerWord, row: nat, col: nat)
    requires t.Valid() && u.Valid() && t.g == u.g && row < t.g.rows && col < t.g.cols
    requires t.At(0, row, col) == u.At(0, row, col)
    ensures ScanLayer(t, ls, row, col) == ScanLayer(u, ls, row, col)
  {
  }

  /**
   * With layers 0 and 1 on and a transparent layer-0 cell, the kernel scan
   * stays on layer 0 (and reads KC_TRNS) where the current library picks
   * layer 1's code.
   */
  lemma TransparentBaseHidesLayerOne(t: Table, row: nat, col: nat)
    requires Dispatch.LayersFit(t) && t.g.layers >= 2 && row < t.g.rows && col < t.g.cols
    requires t.At(0, row, col) == KC_TRNS && t.At(1, row, col) != KC_TRNS
    ensures ScanLayer(t, {0, 1}, row, col) == 0
    ensures Dispatch.ResolveLayer(t, {0, 1}, row, col) == 1
  {
    Dispatch.ResolveLayerIsHighest(t, {0, 1}, row, col);
    assert Dispatch.Selectable(t, {0, 1}, 1, row, col);
  }

  /**
   * A layer turned on from the start-up state on a one-layer keymap points
   * the scan past the table: with bits 0 and 1 set and a non-transparent
   * layer-0 cell, the scan selects layer 1, which the keymap does not have.
   */
  lemma ScanLeavesTable(t: Table, row: nat, col: nat)
    requires t.Valid() && t.g.layers == 1 && row < t.g.rows && col < t.g.cols
    requires t.At(0, row, col) != KC_TRNS
    ensures ScanLayer(t, {0, 1}, row, col) == 1 >= t.g.layers
  {
    assert Bit({0, 1}, 1);
  }

  /**
   * The kernel keyboard: the keymap the input device holds, the quantum
   * layout, the unsigned long layer state, and what went to the input
   * device: each (scancode, pressed) report, and each keycode warned about.
   */
  class Keyboard {
    const table: Table
    const q: Layout
    var layerState: LayerWord
    ghost var reported: seq<(LinuxKey, bool)>
    ghost var warned: seq<int>

    /**
     * The keyboard after probe: the structure is zero-allocated and probe
     * does not set layer_state, so every layer bit starts clear; nothing
     * has been reported.
     */
    constructor (table: Table, q: Layout)
      requires table.Valid() && q.Valid()
      ensures this.table == table && this.q == q
      ensures layerState == {} && reported == [] && warned == []
    {
      this.table := table;
      this.q := q;
      layerState := {};
      reported := [];
      warned := [];
    }

    /** qmk_process_layer. */
    method ProcessLayer(keycode: int, pressed: bool) returns (handled: bool)
      modifies this`layerState
      ensures (handled, layerState) == LayerEffect(q, keycode, pressed, old(layerState))
    {
      if q.to.Contains(keycode) {
        return true;
      } else if q.momentary.Contains(keycode) {
        var layer := keycode % 0x100;
        if pressed {
          layerState := SetBit(layerState, layer);
        } else {
          layerState := ClearBit(layerState, layer);
        }
        return true;
      }
      return false;
    }

    /**
     * qmk_process_keycode for a cell inside the matrix. The keycode is read
     * at the scanned layer; when that layer lies past the keymap the read
     * is outside the table, and the model stops there (`inTable` false).
     */
    method ProcessKeycode(row: nat, col: nat, pressed: bool) returns (inTable: bool)
      requires table.Valid() && q.Valid() && row < table.g.rows && col < table.g.cols
      modifies this`layerState, this`reported, this`warned
      ensures inTable == (ScanLayer(table, old(layerState), row, col) < table.g.layers)
      ensures !inTable ==> layerState == old(layerState) && reported == old(reported) && warned == old(warned)
      ensures inTable ==>
          var k := table.At(ScanLayer(table, old(layerState), row, col), row, col);
          var r := Chain(q, k, pressed, old(layerState));
          layerState == r.layerState &&
          reported == old(reported) + [(r.scancode, pressed)] &&
          warned == old(warned) + if r.handled then [] else [k]
    {
      var layer := FindLayer(row, col);
      if layer >= table.g.layers {
        // keymap[KEY_INDEX(layer)] lies past the table
        return false;
      }
      var keycode := table.At(layer, row, col);
      ghost var r := Chain(q, keycode, pressed, layerState);
      var handled, scancode := RunHandlers(keycode, pressed);
      assert handled == r.handled && scancode == r.scancode && layerState == r.layerState;
      if !handled {
        warned := warned + [keycode];
      }
      reported := reported + [(scancode, pressed)];
      return true;
    }

    /** `qmk_process_layer(...) || qmk_process_basic(...)`, the scancode starting as KEY_RESERVED. */
    method RunHandlers(keycode: int, pressed: bool) returns (handled: bool, scancode: LinuxKey)
      requires q.Valid() && 0 <= keycode
      modifies this`layerState
      ensures var r := Chain(q, keycode, pressed, old(layerState));
        handled == r.handled && layerState == r.layerState && scancode == r.scancode
    {
      scancode := KEY_RESERVED;
      handled := ProcessLayer(keycode, pressed);
      if !handled {
        var basic := Basic(keycode, scancode);
        handled, scancode := basic.0, basic.1;
      }
    }

    /**
     * The layer scan, from bit 16 down to bit 1: the first set bit wins,
     * but every test reads the layer-0 cell, since `layer` is still 0.
     */
    method FindLayer(row: nat, col: nat) returns (layer: nat)
      requires table.Valid() && row < table.g.rows && col < table.g.cols
      ensures layer == ScanLayer(table, layerState, row, col)
    {
      layer := 0;
      var i: nat := 16;
      while i > 0
        invariant i <= 16 && layer == 0
        invariant ScanLayer(table, layerState, row, col)
               == if table.At(0, row, col) == KC_TRNS then 0 else HighestBit(layerState, i)
      {
        if Bit(layerState, i) && table.At(layer, row, col) != KC_TRNS {
          layer := i;
          break;
        }
        i := i - 1;
      }
    }
  }
}
