/**
 * The older library's dispatcher: keycode_from_keymap composes its index
 * with `|`, process_basic only classifies (it sends nothing), there is no
 * modifier-bundle handler and no press-time layer capture, and
 * process_keycode returns an int status. Its layer scan counts down a
 * `uint8_t`, whose `i >= 0` test never fails: when no layer matches, the
 * counter wraps from 0 to 255 and the scan runs on past the keymap.
 */
module LegacyDispatch {
  import opened Wrappers
  import opened Keycodes
  import opened Keymap
  import opened Quantum
  import opened Dispatch

  /** keycode_from_keymap with the `|`-composed index: in bounds, the same cell as the `+`-composed one. */
  function OrKeycode(t: Table, layer: nat, row: nat, col: nat): (k: int)
    requires t.Valid() && t.g.InBounds(layer, row, col)
    ensures k == t.At(layer, row, col)
  {
    OrIndexAgrees(t.g, layer, row, col);
    IndexInBounds(t.g, layer, row, col);
    t.cells[OrIndex(t.g, layer, row, col)]
  }

  /**
   * The scan over layers n-1 down to 0: the first selectable layer, or
   * None once the counter has passed layer 0 without a match.
   */
  function LegacyScanFrom(t: Table, ls: LayerState, row: nat, col: nat, n: nat): (r: Option<nat>)
    requires LayersFit(t) && n <= t.g.layers && row < t.g.rows && col < t.g.cols
    ensures r.None? <==> forall j | 0 <= j < n :: !Selectable(t, ls, j, row, col)
    ensures r.Some? ==> r.value == HighestSelectable(t, ls, row, col, n)
  {
    if n == 0 then None
    else if Selectable(t, ls, n - 1, row, col) then Some(n - 1)
    else LegacyScanFrom(t, ls, row, col, n - 1)
  }

  /** The older process_keycode's scan from layers-1 down. */
  function LegacyScan(t: Table, ls: LayerState, row: nat, col: nat): Option<nat>
    requires LayersFit(t) && row < t.g.rows && col < t.g.cols
  {
    LegacyScanFrom(t, ls, row, col, t.g.layers)
  }

  /** Where the older scan finds a layer it is the one the current library resolves. */
  lemma LegacyScanAgreesWhenFound(t: Table, ls: LayerState, row: nat, col: nat)
    requires LayersFit(t) && row < t.g.rows && col < t.g.cols
    ensures LegacyScan(t, ls, row, col).Some? ==> LegacyScan(t, ls, row, col).value == ResolveLayer(t, ls, row, col)
    ensures LegacyScan(t, ls, row, col).None? <==>
      forall j | 0 <= j < t.g.layers :: !Selectable(t, ls, j, row, col)
  {
  }

  /** With every layer off, every in-bounds event sends the older scan past layer 0. */
  lemma LegacyScanOverrunsOnEmptyState(t: Table, row: nat, col: nat)
    requires LayersFit(t) && row < t.g.rows && col < t.g.cols
    ensures LegacyScan(t, {}, row, col) == None
  {
  }

  /**
   * In the start-up state (only layer 0 on), a key whose layer-0 cell is
   * transparent finds no layer: the older scan runs past layer 0, where the
   * current library falls back to layer 0.
   */
  lemma LegacyScanOverrunsOnTransparentBase(t: Table, row: nat, col: nat)
    requires LayersFit(t) && row < t.g.rows && col < t.g.cols
    requires t.At(0, row, col) == KC_TRNS
    ensures LegacyScan(t, {0}, row, col) == None
    ensures ResolveLayer(t, {0}, row, col) == 0
  {
    ResolveLayerIsHighest(t, {0}, row, col);
  }

  /**
   * Without press-time capture a release resolves against the layer state
   * of its own moment: a key with codes on layers 0 and 1, pressed while
   * layers 0 and 1 are on, goes down as layer 1's code; released after
   * layer 1 is turned off, it goes up as layer 0's code.
   */
  lemma {:induction false} LegacyReleaseFollowsCurrentState(t: Table, row: nat, col: nat)
    requires LayersFit(t) && t.g.layers >= 2 && row < t.g.rows && col < t.g.cols
    requires t.At(0, row, col) != KC_TRNS && t.At(1, row, col) != KC_TRNS
    ensures LegacyScan(t, {0, 1}, row, col) == Some(1)
    ensures LegacyScan(t, {0}, row, col) == Some(0)
  {
    var n := t.g.layers;
    HighestSelectableIsHighest(t, {0, 1}, row, col, n);
    HighestSelectableIsHighest(t, {0}, row, col, n);
    assert Selectable(t, {0, 1}, 1, row, col) && Selectable(t, {0}, 0, row, col);
  }

  /**
   * The older handler chain, `process_layer || process_basic`, as the
   * status process_keycode returns and the new layer state.
   */
  function LegacyChain(q: Layout, k: int, pressed: bool, ls: LayerState): (r: (int, LayerState))
    requires 0 <= k < 0x10000
    ensures r.0 == 0 || r.0 == QMK_UNHANDLED_KEYCODE
  {
    var (handled, ls') := LayerEffect(q, k, pressed, ls);
    (if handled || k < 0xFF then 0 else QMK_UNHANDLED_KEYCODE, ls')
  }

  /**
   * Outside the modifier-bundle range the older chain handles exactly the
   * codes the current one does and leaves the same layer state.
   */
  lemma LegacyChainAgreesOutsideMods(q: Layout, k: int, pressed: bool, ls: LayerState)
    requires q.Valid() && 0 <= k < 0x10000 && !q.mods.Contains(k)
    ensures (LegacyChain(q, k, pressed, ls).0 == 0) <==> HandlerChain(q, k, pressed, ls).handled
    ensures LegacyChain(q, k, pressed, ls).1 == HandlerChain(q, k, pressed, ls).layerState
  {
  }

  /** With no modifier handler, a modifier bundle is an unhandled keycode and changes nothing. */
  lemma LegacyModsBundleUnhandled(q: Layout, k: int, pressed: bool, ls: LayerState)
    requires q.Valid() && 0 <= k < 0x10000 && q.mods.Contains(k)
    ensures LegacyChain(q, k, pressed, ls) == (QMK_UNHANDLED_KEYCODE, ls)
  {
  }

  /** The older keyboard: the keymap, the quantum layout and the 16-bit layer state. */
  class LegacyKeyboard {
    const table: Table
    const q: Layout
    var layerState: LayerState

    constructor (table: Table, q: Layout, layerState: LayerState)
      requires LayersFit(table) && q.Valid()
      ensures this.table == table && this.q == q && this.layerState == layerState
    {
      this.table := table;
      this.q := q;
      this.layerState := layerState;
    }

    /**
     * process_keycode. Its status is Some(code), or None when no layer
     * matches and the `uint8_t` counter wraps past 0: the scan then reads
     * beyond the keymap and is not modelled further.
     */
    method ProcessKeycode(ev: MatrixEvent) returns (status: Option<int>, keycode: int)
      requires LayersFit(table) && q.Valid()
      modifies this`layerState
      ensures ev.row >= table.g.rows ==>
        status == Some(QMK_ROW_OUT_OF_BOUNDS) && keycode == KC_NO && layerState == old(layerState)
      ensures ev.row < table.g.rows && ev.col >= table.g.cols ==>
        status == Some(QMK_COL_OUT_OF_BOUNDS) && keycode == KC_NO && layerState == old(layerState)
      ensures ev.row < table.g.rows && ev.col < table.g.cols ==>
        match LegacyScan(table, old(layerState), ev.row, ev.col)
        case None => status == None && keycode == KC_NO && layerState == old(layerState)
        case Some(layer) =>
          var r := LegacyChain(q, table.At(layer, ev.row, ev.col), ev.pressed, old(layerState));
          keycode == table.At(layer, ev.row, ev.col) && status == Some(r.0) && layerState == r.1
    {
      keycode := KC_NO;
      if ev.row >= table.g.rows {
        return Some(QMK_ROW_OUT_OF_BOUNDS), keycode;
      }
      if ev.col >= table.g.cols {
        return Some(QMK_COL_OUT_OF_BOUNDS), keycode;
      }
      var layer: nat := 0;
      var i: int := table.g.layers - 1;
      while i >= 0
        invariant -1 <= i < table.g.layers
        invariant LegacyScan(table, layerState, ev.row, ev.col)
               == LegacyScanFrom(table, layerState, ev.row, ev.col, i + 1)
      {
        if LayerOn(layerState, i) && OrKeycode(table, i, ev.row, ev.col) != KC_TRNS {
          layer := i;
          break;
        }
        i := i - 1;
      }
      if i < 0 {
        // the uint8_t counter wraps to 255 here and the scan goes on
        return None, keycode;
      }
      keycode := OrKeycode(table, layer, ev.row, ev.col);
      var (byLayer, ls') := LayerEffect(q, keycode, ev.pressed, layerState);
      layerState := ls';
      var handled := byLayer || keycode < 0xFF;
      status := Some(if handled then 0 else QMK_UNHANDLED_KEYCODE);
    }
  }
}
