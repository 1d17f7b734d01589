/**
 * The keycode dispatcher of the current library: process_keycode resolves
 * a matrix event to a keycode through the active layers, then offers it to
 * process_layer, process_mods and process_basic in turn. Handlers change
 * the layer state and emit (keycode, pressed) pairs to the protocol's
 * send_keycode, recorded here in the ghost sequence `sent`.
 */
module Dispatch {
  import opened Keycodes
  import opened Quantum
  import opened Keymap

  const QMK_UNHANDLED_KEYCODE: int := 1
  const QMK_ROW_OUT_OF_BOUNDS: int := 2
  const QMK_COL_OUT_OF_BOUNDS: int := 3

  /** struct qmk_matrix_event. */
  datatype MatrixEvent = MatrixEvent(row: nat, col: nat, pressed: bool)

  /** One call of protocol.send_keycode: the one-byte keycode and the press flag. */
  type Emission = (int, bool)

  /** The width of layer_state, a uint16_t. */
  const LAYER_STATE_BITS: nat := 16

  /**
   * layer_state as the set of its set bits. The dispatcher only tests,
   * sets and clears single bits, so nothing else about the word matters;
   * a bit past the 16-bit field cannot be set.
   */
  type LayerState = set<nat>

  /** Every set bit lies inside the 16-bit field. */
  predicate WithinField(ls: LayerState)
  {
    forall i | i in ls :: i < LAYER_STATE_BITS
  }

  /** `(layer_state >> layer) & 1`. */
  predicate LayerOn(ls: LayerState, layer: nat)
  {
    layer in ls
  }

  /**
   * `layer_state |= 1UL << layer` on the 16-bit field: bit `layer` turns
   * on and no other bit changes; a layer past bit 15 falls outside the
   * field and changes nothing.
   */
  function SetLayerBit(ls: LayerState, layer: nat): (r: LayerState)
    ensures layer < LAYER_STATE_BITS ==> LayerOn(r, layer)
    ensures layer >= LAYER_STATE_BITS ==> r == ls
    ensures forall i | i != layer :: LayerOn(r, i) == LayerOn(ls, i)
    ensures WithinField(ls) ==> WithinField(r)
  {
    if layer < LAYER_STATE_BITS then ls + {layer} else ls
  }

  /** `layer_state &= ~(1UL << layer)`: bit `layer` turns off and no other bit changes. */
  function ClearLayerBit(ls: LayerState, layer: nat): (r: LayerState)
    ensures !LayerOn(r, layer)
    ensures forall i | i != layer :: LayerOn(r, i) == LayerOn(ls, i)
    ensures WithinField(ls) ==> WithinField(r)
  {
    ls - {layer}
  }

  /** What process_layer does to the layer state: (handled, new layer state). */
  function LayerEffect(q: Layout, k: int, pressed: bool, ls: LayerState): (bool, LayerState)
    requires 0 <= k < 0x10000
  {
    if q.layerTap.Contains(k) then
      var layer := (k / 0x100) % 0x10;
      (true, if pressed then SetLayerBit(ls, layer) else ClearLayerBit(ls, layer))
    else if q.to.Contains(k) then
      (true, ls)
    else if q.momentary.Contains(k) then
      var layer := k % 0x100;
      (true, if pressed then SetLayerBit(ls, layer) else ClearLayerBit(ls, layer))
    else
      (false, ls)
  }

  /** One flag test of process_mods: [(code, pressed)] if k carries the flag, else nothing. */
  function ModEmission(k: int, flag: int, code: int, pressed: bool): seq<Emission>
    requires 0 <= k < 0x10000 && 0 <= flag < 0x10000
  {
    if HasBits(k, flag) then [(code, pressed)] else []
  }

  /**
   * The modifiers a bundle sends, in the order ctrl, shift, alt, gui:
   * right-hand ones when the QK_RMODS_MIN bit is set, else left-hand ones.
   */
  function ModifierEmissions(q: Layout, k: int, pressed: bool): seq<Emission>
    requires q.FlagsAre16Bit() && 0 <= k < 0x10000
  {
    if HasBits(k, q.rmodsMin) then
      ModEmission(k, q.rctl, KC_RCTRL, pressed) + ModEmission(k, q.rsft, KC_RSHIFT, pressed) +
      ModEmission(k, q.ralt, KC_RALT, pressed) + ModEmission(k, q.rgui, KC_RGUI, pressed)
    else
      ModEmission(k, q.lctl, KC_LCTRL, pressed) + ModEmission(k, q.lsft, KC_LSHIFT, pressed) +
      ModEmission(k, q.lalt, KC_LALT, pressed) + ModEmission(k, q.lgui, KC_LGUI, pressed)
  }

  /** What process_mods sends for a bundle: modifiers then base key on press, base key first on release. */
  function ModsEmissions(q: Layout, k: int, pressed: bool): seq<Emission>
    requires q.FlagsAre16Bit() && 0 <= k < 0x10000
  {
    var base := (k % 0x100, pressed);
    if pressed then ModifierEmissions(q, k, pressed) + [base]
    else [base] + ModifierEmissions(q, k, pressed)
  }

  lemma Assoc4<T>(s: seq<T>, a: seq<T>, b: seq<T>, c: seq<T>, d: seq<T>)
    ensures s + a + b + c + d == s + (a + b + c + d)
  {
  }

  /** The result of the handler chain: handled, the new layer state and what was sent. */
  datatype Handling = Handling(handled: bool, layerState: LayerState, emitted: seq<Emission>)

  /** `process_layer || process_mods || process_basic` on one keycode. */
  function HandlerChain(q: Layout, k: int, pressed: bool, ls: LayerState): Handling
    requires q.Valid() && 0 <= k < 0x10000
  {
    var (layerHandled, ls') := LayerEffect(q, k, pressed, ls);
    if layerHandled then Handling(true, ls', [])
    else if q.mods.Contains(k) then Handling(true, ls, ModsEmissions(q, k, pressed))
    else if k < 0xFF then Handling(true, ls, [(k, pressed)])
    else Handling(false, ls, [])
  }

  /**
   * The scan tests `(layer_state >> i) & 1` on the promoted int, a shift
   * that is defined for i below 32: so at most 32 layers. Layers 16..31
   * are scanned but never on, since the uint16_t state has no such bits.
   */
  predicate LayersFit(t: Table)
  {
    t.Valid() && t.g.layers <= 32
  }

  /** The rows and columns of the function-static `layer_when_pressed[16][16]`. */
  const CAPTURE_ROWS: nat := 16
  const CAPTURE_COLS: nat := 16

  /** The element of the static array that `layer_when_pressed[row][col]` addresses, counted from its start. */
  function StaticCaptureOffset(row: nat, col: nat): (o: nat)
    ensures row < CAPTURE_ROWS && col < CAPTURE_COLS ==> o < CAPTURE_ROWS * CAPTURE_COLS
  {
    row * CAPTURE_COLS + col
  }

  /**
   * The bounds checks only compare against the keyboard's own rows and
   * columns (uint8_t each), so an event the checks let through can address
   * past the 16 x 16 array: on a 17-row matrix, cell (16, 0) is element
   * 256 of 256; on an 18-column matrix, cell (0, 17) is the element of
   * cell (1, 1), so pressing one overwrites the other's record.
   */
  lemma StaticCaptureOverruns()
    ensures var g := Geometry(1, 17, 1);
      g.Valid() && g.InBounds(0, 16, 0) && StaticCaptureOffset(16, 0) == CAPTURE_ROWS * CAPTURE_COLS
    ensures var g := Geometry(1, 2, 18);
      g.Valid() && g.InBounds(0, 0, 17) && g.InBounds(0, 1, 1) &&
      StaticCaptureOffset(0, 17) == StaticCaptureOffset(1, 1)
  {
  }

  /** The layer scan's test: the layer is on and the cell there is not transparent. */
  predicate Selectable(t: Table, ls: LayerState, layer: nat, row: nat, col: nat)
    requires LayersFit(t) && t.g.InBounds(layer, row, col)
  {
    LayerOn(ls, layer) && t.At(layer, row, col) != KC_TRNS
  }

  /** The highest selectable layer below n, or 0 if there is none. */
  function HighestSelectable(t: Table, ls: LayerState, row: nat, col: nat, n: nat): (r: nat)
    requires LayersFit(t) && n <= t.g.layers && row < t.g.rows && col < t.g.cols
    ensures r < t.g.layers
  {
    if n == 0 then 0
    else if Selectable(t, ls, n - 1, row, col) then n - 1
    else HighestSelectable(t, ls, row, col, n - 1)
  }

  /** The layer process_keycode's scan settles on for a cell. */
  function ResolveLayer(t: Table, ls: LayerState, row: nat, col: nat): nat
    requires LayersFit(t) && row < t.g.rows && col < t.g.cols
  {
    HighestSelectable(t, ls, row, col, t.g.layers)
  }

  /** The scan picks the largest layer that is on and not transparent at the cell, else layer 0. */
  lemma {:induction false} HighestSelectableIsHighest(t: Table, ls: LayerState, row: nat, col: nat, n: nat)
    requires LayersFit(t) && n <= t.g.layers && row < t.g.rows && col < t.g.cols
    ensures var r := HighestSelectable(t, ls, row, col, n);
      (r < n && Selectable(t, ls, r, row, col) && forall j | r < j < n :: !Selectable(t, ls, j, row, col)) ||
      (r == 0 && forall j | 0 <= j < n :: !Selectable(t, ls, j, row, col))
  {
    if n > 0 && !Selectable(t, ls, n - 1, row, col) {
      HighestSelectableIsHighest(t, ls, row, col, n - 1);
    }
  }

  lemma ResolveLayerIsHighest(t: Table, ls: LayerState, row: nat, col: nat)
    requires LayersFit(t) && row < t.g.rows && col < t.g.cols
    ensures var r := ResolveLayer(t, ls, row, col);
      r < t.g.layers &&
      ((Selectable(t, ls, r, row, col) && forall j | r < j < t.g.layers :: !Selectable(t, ls, j, row, col)) ||
       (r == 0 && forall j | 0 <= j < t.g.layers :: !Selectable(t, ls, j, row, col)))
  {
    HighestSelectableIsHighest(t, ls, row, col, t.g.layers);
  }

  /** A basic keycode (below 0xFF) goes through process_basic: handled, sent once as it is, layers untouched. */
  lemma BasicKeycodeSentOnce(q: Layout, k: int, pressed: bool, ls: LayerState)
    requires q.Valid() && 0 <= k < 0xFF
    ensures HandlerChain(q, k, pressed, ls) == Handling(true, ls, [(k, pressed)])
  {
  }

  /** A code in no quantum range and not below 0xFF (0xFF itself included) is unhandled and has no effect. */
  lemma UnknownKeycodeUnhandled(q: Layout, k: int, pressed: bool, ls: LayerState)
    requires q.Valid() && 0xFF <= k < 0x10000
    requires !q.IsLayerCode(k) && !q.mods.Contains(k)
    ensures HandlerChain(q, k, pressed, ls) == Handling(false, ls, [])
  {
  }

  /** process_layer never sends anything: layer codes are handled with no emission. */
  lemma LayerCodesSendNothing(q: Layout, k: int, pressed: bool, ls: LayerState)
    requires q.Valid() && 0 <= k < 0x10000 && q.IsLayerCode(k)
    ensures HandlerChain(q, k, pressed, ls).handled
    ensures HandlerChain(q, k, pressed, ls).emitted == []
  {
  }

  /** A modifier bundle skips process_layer and process_basic: only process_mods acts. */
  lemma ModsBundleOnlyMods(q: Layout, k: int, pressed: bool, ls: LayerState)
    requires q.Valid() && 0 <= k < 0x10000 && q.mods.Contains(k)
    ensures HandlerChain(q, k, pressed, ls) == Handling(true, ls, ModsEmissions(q, k, pressed))
  {
  }

  /**
   * Layer-tap: the target layer is bits 8-11; a press turns exactly that
   * layer on, a release turns exactly it off, and both are handled. The tap
   * key (the low byte) is never sent.
   */
  lemma LayerTapToggles(q: Layout, k: int, ls: LayerState)
    requires q.Valid() && 0 <= k < 0x10000 && q.layerTap.Contains(k)
    ensures var layer := (k / 0x100) % 0x10;
      LayerEffect(q, k, true, ls) == (true, SetLayerBit(ls, layer)) &&
      LayerEffect(q, k, false, ls) == (true, ClearLayerBit(ls, layer)) &&
      HandlerChain(q, k, false, ls).emitted == []
  {
  }

  /** A goto code is handled and leaves the layer state alone. */
  lemma GotoIsNoOp(q: Layout, k: int, pressed: bool, ls: LayerState)
    requires q.Valid() && 0 <= k < 0x10000 && q.to.Contains(k)
    ensures LayerEffect(q, k, pressed, ls) == (true, ls)
  {
  }

  /** Momentary: the low byte is the layer; a press turns it on, a release turns it off. */
  lemma MomentaryToggles(q: Layout, k: int, ls: LayerState)
    requires q.Valid() && 0 <= k < 0x10000 && q.momentary.Contains(k)
    ensures LayerEffect(q, k, true, ls) == (true, SetLayerBit(ls, k % 0x100))
    ensures LayerEffect(q, k, false, ls) == (true, ClearLayerBit(ls, k % 0x100))
  {
  }

  /**
   * A press then a release of the same layer key leaves the layer turned
   * off, whatever it was before: there is no guard for layer 0.
   */
  lemma PressThenReleaseClearsLayer(ls: LayerState, layer: nat)
    ensures ClearLayerBit(SetLayerBit(ls, layer), layer) == ClearLayerBit(ls, layer)
  {
    var l, r := ClearLayerBit(SetLayerBit(ls, layer), layer), ClearLayerBit(ls, layer);
    assert forall i :: i in l <==> i in r;
  }

  /** Releasing a momentary layer-0 key from the start-up state turns every layer off. */
  lemma LayerZeroReleaseEmptiesState()
    ensures ClearLayerBit({0}, 0) == {}
  {
    assert !LayerOn(ClearLayerBit({0}, 0), 0);
  }

  /** Every emission of a bundle carries the caller's press flag; there is one per set flag plus the base key. */
  lemma ModsEmissionsShape(q: Layout, k: int, pressed: bool)
    requires q.Valid() && 0 <= k < 0x10000
    ensures |ModifierEmissions(q, k, pressed)| <= 4
    ensures |ModsEmissions(q, k, pressed)| == |ModifierEmissions(q, k, pressed)| + 1
    ensures forall e | e in ModsEmissions(q, k, pressed) :: e.1 == pressed
  {
  }

  /**
   * Right-hand modifiers only when the QK_RMODS_MIN bit is set, left-hand
   * ones only otherwise; each is sent exactly when its flag is set.
   */
  lemma ModifierEmissionsMembership(q: Layout, k: int, pressed: bool)
    requires q.Valid() && 0 <= k < 0x10000
    ensures HasBits(k, q.rmodsMin) ==>
      (forall e | e in ModifierEmissions(q, k, pressed) :: KC_RCTRL <= e.0 <= KC_RGUI) &&
      ((KC_RCTRL, pressed) in ModifierEmissions(q, k, pressed) <==> HasBits(k, q.rctl)) &&
      ((KC_RSHIFT, pressed) in ModifierEmissions(q, k, pressed) <==> HasBits(k, q.rsft)) &&
      ((KC_RALT, pressed) in ModifierEmissions(q, k, pressed) <==> HasBits(k, q.ralt)) &&
      ((KC_RGUI, pressed) in ModifierEmissions(q, k, pressed) <==> HasBits(k, q.rgui))
    ensures !HasBits(k, q.rmodsMin) ==>
      (forall e | e in ModifierEmissions(q, k, pressed) :: KC_LCTRL <= e.0 <= KC_LGUI) &&
      ((KC_LCTRL, pressed) in ModifierEmissions(q, k, pressed) <==> HasBits(k, q.lctl)) &&
      ((KC_LSHIFT, pressed) in ModifierEmissions(q, k, pressed) <==> HasBits(k, q.lsft)) &&
      ((KC_LALT, pressed) in ModifierEmissions(q, k, pressed) <==> HasBits(k, q.lalt)) &&
      ((KC_LGUI, pressed) in ModifierEmissions(q, k, pressed) <==> HasBits(k, q.lgui))
  {
    if HasBits(k, q.rmodsMin) {
      OneSideMembership(k, q.rctl, q.rsft, q.ralt, q.rgui, KC_RCTRL, pressed);
    } else {
      OneSideMembership(k, q.lctl, q.lsft, q.lalt, q.lgui, KC_LCTRL, pressed);
    }
  }

  /** One hand's four optional emissions, codes c .. c + 3: each is present exactly when its flag is set. */
  lemma OneSideMembership(k: int, f0: int, f1: int, f2: int, f3: int, c: int, pressed: bool)
    requires 0 <= k < 0x10000 && 0 <= f0 < 0x10000 && 0 <= f1 < 0x10000 && 0 <= f2 < 0x10000 && 0 <= f3 < 0x10000
    ensures var m := ModEmission(k, f0, c, pressed) + ModEmission(k, f1, c + 1, pressed) +
                     ModEmission(k, f2, c + 2, pressed) + ModEmission(k, f3, c + 3, pressed);
      (forall e | e in m :: c <= e.0 <= c + 3) &&
      ((c, pressed) in m <==> HasBits(k, f0)) && ((c + 1, pressed) in m <==> HasBits(k, f1)) &&
      ((c + 2, pressed) in m <==> HasBits(k, f2)) && ((c + 3, pressed) in m <==> HasBits(k, f3))
  {
  }

  /** The modifiers go out in the order ctrl, shift, alt, gui: their codes strictly increase. */
  lemma ModifierEmissionsOrdered(q: Layout, k: int, pressed: bool)
    requires q.Valid() && 0 <= k < 0x10000
    ensures var m := ModifierEmissions(q, k, pressed);
      forall i, j | 0 <= i < j < |m| :: m[i].0 < m[j].0
  {
  }

  /** The same emissions with the press flag cleared. */
  function Released(s: seq<Emission>): (r: seq<Emission>)
    ensures |r| == |s| && forall i | 0 <= i < |s| :: r[i] == (s[i].0, false)
  {
    if s == [] then [] else [(s[0].0, false)] + Released(s[1..])
  }

  lemma {:induction false} ReleasedConcat(a: seq<Emission>, b: seq<Emission>)
    ensures Released(a + b) == Released(a) + Released(b)
  {
    var r, ra, rb := Released(a + b), Released(a), Released(b);
    assert |r| == |ra + rb|;
    forall i | 0 <= i < |r|
      ensures r[i] == (ra + rb)[i]
    {
      if i < |a| {
        assert (a + b)[i] == a[i];
      } else {
        assert (a + b)[i] == b[i - |a|];
      }
    }
  }

  /** A modifier's release mirrors its press. */
  lemma ModEmissionReleased(k: int, flag: int, code: int)
    requires 0 <= k < 0x10000 && 0 <= flag < 0x10000
    ensures ModEmission(k, flag, code, false) == Released(ModEmission(k, flag, code, true))
  {
  }

  /** A bundle's release sends the modifiers its press sent, in the same order. */
  lemma ModifierEmissionsReleased(q: Layout, k: int)
    requires q.Valid() && 0 <= k < 0x10000
    ensures ModifierEmissions(q, k, false) == Released(ModifierEmissions(q, k, true))
  {
    var right := HasBits(k, q.rmodsMin);
    var f1, f2, f3, f4 := if right then q.rctl else q.lctl, if right then q.rsft else q.lsft,
      if right then q.ralt else q.lalt, if right then q.rgui else q.lgui;
    var c1, c2, c3, c4 := if right then KC_RCTRL else KC_LCTRL, if right then KC_RSHIFT else KC_LSHIFT,
      if right then KC_RALT else KC_LALT, if right then KC_RGUI else KC_LGUI;
    var a1, a2, a3, a4 := ModEmission(k, f1, c1, true), ModEmission(k, f2, c2, true),
      ModEmission(k, f3, c3, true), ModEmission(k, f4, c4, true);
    assert ModifierEmissions(q, k, true) == a1 + a2 + a3 + a4;
    ModEmissionReleased(k, f1, c1);
    ModEmissionReleased(k, f2, c2);
    ModEmissionReleased(k, f3, c3);
    ModEmissionReleased(k, f4, c4);
    ReleasedConcat(a1 + a2 + a3, a4);
    ReleasedConcat(a1 + a2, a3);
    ReleasedConcat(a1, a2);
  }

  /**
   * The release sends the base key first and then the same modifiers in the
   * same order as the press, not in reverse.
   */
  lemma ReleaseOrderNotReversed(q: Layout, k: int)
    requires q.Valid() && 0 <= k < 0x10000
    ensures var down, up := ModsEmissions(q, k, true), ModsEmissions(q, k, false);
      |down| == |up| &&
      up[0] == (down[|down| - 1].0, false) &&
      forall i | 0 <= i < |down| - 1 :: up[i + 1] == (down[i].0, false)
  {
    var m := ModifierEmissions(q, k, true);
    ModifierEmissionsReleased(q, k);
    var down, up := ModsEmissions(q, k, true), ModsEmissions(q, k, false);
    assert down == m + [(k % 0x100, true)];
    assert up == [(k % 0x100, false)] + Released(m);
    forall i | 0 <= i < |down| - 1
      ensures up[i + 1] == (down[i].0, false)
    {
      assert up[i + 1] == Released(m)[i];
      assert down[i] == m[i];
    }
  }

  /** With QMK's values, LCTL(LSFT(c)) carries left ctrl and left shift, for any basic keycode c. */
  lemma UpstreamCtrlShiftModifiers(c: int, pressed: bool)
    requires 0 <= c < 0x100
    ensures Upstream.FlagsAre16Bit()
    ensures ModifierEmissions(Upstream, 0x0300 + c, pressed) == [(KC_LCTRL, pressed), (KC_LSHIFT, pressed)]
  {
    UpstreamFlagsCtrlShift(c);
    var q, k := Upstream, 0x0300 + c;
    assert ModEmission(k, q.lctl, KC_LCTRL, pressed) == [(KC_LCTRL, pressed)];
    assert ModEmission(k, q.lsft, KC_LSHIFT, pressed) == [(KC_LSHIFT, pressed)];
    assert ModEmission(k, q.lalt, KC_LALT, pressed) == [];
    assert ModEmission(k, q.lgui, KC_LGUI, pressed) == [];
  }

  /**
   * With QMK's values, LCTL(LSFT(c)) sends ctrl, shift, c down and c, ctrl,
   * shift up: the release order is not the reverse of the press order.
   */
  lemma UpstreamCtrlShift(c: int)
    requires 0 <= c < 0x100
    ensures Upstream.FlagsAre16Bit()
    ensures ModsEmissions(Upstream, 0x0300 + c, true) == [(KC_LCTRL, true), (KC_LSHIFT, true), (c, true)]
    ensures ModsEmissions(Upstream, 0x0300 + c, false) == [(c, false), (KC_LCTRL, false), (KC_LSHIFT, false)]
  {
    UpstreamCtrlShiftModifiers(c, true);
    UpstreamCtrlShiftModifiers(c, false);
    assert (0x0300 + c) % 0x100 == c;
  }

  /** A right-hand bundle that carries every right-hand flag sends all four right modifiers in order. */
  lemma AllRightFlagsSendAllRightMods(q: Layout, k: int, pressed: bool)
    requires q.FlagsAre16Bit() && 0 <= k < 0x10000 && HasBits(k, q.rmodsMin)
    requires HasBits(k, q.rctl) && HasBits(k, q.rsft) && HasBits(k, q.ralt) && HasBits(k, q.rgui)
    ensures ModifierEmissions(q, k, pressed)
         == [(KC_RCTRL, pressed), (KC_RSHIFT, pressed), (KC_RALT, pressed), (KC_RGUI, pressed)]
  {
  }

  /**
   * With QMK's values QK_RCTL is 0x1100, which shares the QK_RMODS_MIN bit
   * with every right-hand flag: RCTL(c) sends all four right modifiers.
   */
  lemma UpstreamRightBundleSendsAllRightMods(c: int, pressed: bool)
    requires 0 <= c < 0x100
    ensures Upstream.FlagsAre16Bit()
    ensures ModifierEmissions(Upstream, 0x1100 + c, pressed)
         == [(KC_RCTRL, pressed), (KC_RSHIFT, pressed), (KC_RALT, pressed), (KC_RGUI, pressed)]
  {
    UpstreamFlagsRightCtrl(c);
    AllRightFlagsSendAllRightMods(Upstream, 0x1100 + c, pressed);
  }

  /**
   * The keyboard as process_keycode sees it. `layerWhenPressed` holds the
   * layer each cell was last pressed on, one slot per cell of the matrix
   * (the source's function-static 16 x 16 array, sized to the matrix so
   * that no in-bounds event addresses past it); `activeLayer` is the
   * field process_keycode writes on every in-bounds event.
   */
  class Keyboard {
    const table: Table
    const q: Layout
    var layerState: LayerState
    var activeLayer: nat
    const layerWhenPressed: array2<nat>
    ghost var sent: seq<Emission>

    ghost predicate Valid()
      reads this, layerWhenPressed
    {
      LayersFit(table) && q.Valid() && WithinField(layerState) &&
      layerWhenPressed.Length0 == table.g.rows && layerWhenPressed.Length1 == table.g.cols &&
      forall r, c | 0 <= r < table.g.rows && 0 <= c < table.g.cols :: layerWhenPressed[r, c] < table.g.layers
    }

    /** The keyboard after probe: only layer 0 on (layer_state = 1), nothing recorded, nothing sent. */
    constructor (table: Table, q: Layout)
      requires LayersFit(table) && q.Valid()
      ensures Valid() && fresh(layerWhenPressed)
      ensures this.table == table && this.q == q
      ensures layerState == {0} && activeLayer == 0 && sent == []
      ensures forall r, c | 0 <= r < table.g.rows && 0 <= c < table.g.cols :: layerWhenPressed[r, c] == 0
    {
      this.table := table;
      this.q := q;
      layerState := {0};
      activeLayer := 0;
      layerWhenPressed := new nat[table.g.rows, table.g.cols]((r, c) => 0);
      sent := [];
    }

    /** protocol.send_keycode: the keycode is passed as a hid_keycode_t byte. */
    method SendKeycode(code: int, pressed: bool)
      modifies this`sent
      ensures sent == old(sent) + [(code % 0x100, pressed)]
    {
      sent := sent + [(code % 0x100, pressed)];
    }

    /** process_basic: send a basic keycode as it is. */
    method ProcessBasic(keycode: int, pressed: bool) returns (handled: bool)
      requires 0 <= keycode < 0x10000
      modifies this`sent
      ensures handled <==> keycode < 0xFF
      ensures sent == old(sent) + if handled then [(keycode, pressed)] else []
    {
      if keycode < 0xFF {
        SendKeycode(keycode, pressed);
        return true;
      }
      return false;
    }

    /** process_layer: layer-tap, goto and momentary codes act on the layer state. */
    method ProcessLayer(keycode: int, pressed: bool) returns (handled: bool)
      requires 0 <= keycode < 0x10000
      modifies this`layerState
      ensures (handled, layerState) == LayerEffect(q, keycode, pressed, old(layerState))
    {
      if q.layerTap.Contains(keycode) {
        var layer := (keycode / 0x100) % 0x10;
        if pressed {
          // the tap timer is started here; see README on the timer stubs
          layerState := SetLayerBit(layerState, layer);
        } else {
          layerState := ClearLayerBit(layerState, layer);
        }
        return true;
      } else if q.to.Contains(keycode) {
        return true;
      } else if q.momentary.Contains(keycode) {
        var layer := keycode % 0x100;
        if pressed {
          layerState := SetLayerBit(layerState, layer);
        } else {
          layerState := ClearLayerBit(layerState, layer);
        }
        return true;
      }
      return false;
    }

    /** process_mods: a modifier bundle sends its modifiers and its base key. */
    method ProcessMods(keycode: int, pressed: bool) returns (handled: bool)
      requires q.FlagsAre16Bit() && 0 <= keycode < 0x10000
      modifies this`sent
      ensures handled <==> q.mods.Contains(keycode)
      ensures sent == old(sent) + if handled then ModsEmissions(q, keycode, pressed) else []
    {
      if !q.mods.Contains(keycode) {
        return false;
      }
      ghost var base := [(keycode % 0x100, pressed)];
      ghost var m := ModifierEmissions(q, keycode, pressed);
      if !pressed {
        SendKeycode(keycode % 0x100, pressed);
      }
      SendModifiers(keycode, pressed);
      if pressed {
        SendKeycode(keycode % 0x100, pressed);
        assert sent == old(sent) + (m + base);
      } else {
        assert sent == old(sent) + (base + m);
      }
      return true;
    }

    /** The flag tests of process_mods, right-hand or left-hand. */
    method SendModifiers(k: int, pressed: bool)
      requires q.FlagsAre16Bit() && 0 <= k < 0x10000
      modifies this`sent
      ensures sent == old(sent) + ModifierEmissions(q, k, pressed)
    {
      ghost var s0 := sent;
      if HasBits(k, q.rmodsMin) {
        SendModifier(k, q.rctl, KC_RCTRL, pressed);
        SendModifier(k, q.rsft, KC_RSHIFT, pressed);
        SendModifier(k, q.ralt, KC_RALT, pressed);
        SendModifier(k, q.rgui, KC_RGUI, pressed);
        Assoc4(s0, ModEmission(k, q.rctl, KC_RCTRL, pressed), ModEmission(k, q.rsft, KC_RSHIFT, pressed),
               ModEmission(k, q.ralt, KC_RALT, pressed), ModEmission(k, q.rgui, KC_RGUI, pressed));
      } else {
        SendModifier(k, q.lctl, KC_LCTRL, pressed);
        SendModifier(k, q.lsft, KC_LSHIFT, pressed);
        SendModifier(k, q.lalt, KC_LALT, pressed);
        SendModifier(k, q.lgui, KC_LGUI, pressed);
        Assoc4(s0, ModEmission(k, q.lctl, KC_LCTRL, pressed), ModEmission(k, q.lsft, KC_LSHIFT, pressed),
               ModEmission(k, q.lalt, KC_LALT, pressed), ModEmission(k, q.lgui, KC_LGUI, pressed));
      }
    }

    /** One line of the bundle: the modifier is sent iff the bundle carries its flag. */
    method SendModifier(k: int, flag: int, code: int, pressed: bool)
      requires 0 <= k < 0x10000 && 0 <= flag < 0x10000 && 0 <= code < 0x100
      modifies this`sent
      ensures sent == old(sent) + ModEmission(k, flag, code, pressed)
    {
      if HasBits(k, flag) {
        SendKeycode(code, pressed);
      }
    }

    /**
     * process_keycode. Out-of-bounds events return QMK_ROW_OUT_OF_BOUNDS or
     * QMK_COL_OUT_OF_BOUNDS through a bool, so `handled` is true for them.
     */
    method ProcessKeycode(ev: MatrixEvent) returns (handled: bool, keycode: int)
      requires Valid()
      modifies this, layerWhenPressed
      ensures Valid()
      ensures !(ev.row < table.g.rows && ev.col < table.g.cols) ==>
        handled && keycode == KC_NO &&
        layerState == old(layerState) && activeLayer == old(activeLayer) && sent == old(sent) &&
        unchanged(layerWhenPressed)
      ensures ev.row < table.g.rows && ev.col < table.g.cols ==>
        var scanned := ResolveLayer(table, old(layerState), ev.row, ev.col);
        var used := if ev.pressed then scanned else old(layerWhenPressed[ev.row, ev.col]);
        var h := HandlerChain(q, table.At(used, ev.row, ev.col), ev.pressed, old(layerState));
        activeLayer == scanned &&
        keycode == table.At(used, ev.row, ev.col) &&
        handled == h.handled && layerState == h.layerState && sent == old(sent) + h.emitted &&
        forall r, c | 0 <= r < table.g.rows && 0 <= c < table.g.cols ::
          layerWhenPressed[r, c] ==
            if ev.pressed && r == ev.row && c == ev.col then scanned else old(layerWhenPressed[r, c])
    {
      keycode := KC_NO;
      if ev.row >= table.g.rows {
        return true, keycode;
      }
      if ev.col >= table.g.cols {
        return true, keycode;
      }
      var layer := FindLayer(ev.row, ev.col);
      activeLayer := layer;
      if ev.pressed {
        layerWhenPressed[ev.row, ev.col] := layer;
      } else {
        layer := layerWhenPressed[ev.row, ev.col];
      }
      keycode := table.At(layer, ev.row, ev.col);
      handled := RunHandlers(keycode, ev.pressed);
    }

    /**
     * A press at a cell, any events that do not press that cell again,
     * then its release: the release reads the keycode the press read, from
     * the layer the press resolved, whatever the events in between did to
     * the layer state.
     */
    method PressHoldRelease(row: nat, col: nat, between: seq<MatrixEvent>) returns (down: int, up: int)
      requires Valid() && row < table.g.rows && col < table.g.cols
      requires forall i | 0 <= i < |between| :: !(between[i].pressed && between[i].row == row && between[i].col == col)
      modifies this, layerWhenPressed
      ensures Valid()
      ensures down == table.At(ResolveLayer(table, old(layerState), row, col), row, col)
      ensures up == down
    {
      var handled;
      handled, down := ProcessKeycode(MatrixEvent(row, col, true));
      ghost var pressLayer := layerWhenPressed[row, col];
      for i := 0 to |between|
        invariant Valid()
        invariant layerWhenPressed[row, col] == pressLayer
      {
        var code;
        handled, code := ProcessKeycode(between[i]);
      }
      handled, up := ProcessKeycode(MatrixEvent(row, col, false));
    }

    /** The layer scan: from the highest layer down, the first one that is on and not transparent here, else 0. */
    method FindLayer(row: nat, col: nat) returns (layer: nat)
      requires Valid() && row < table.g.rows && col < table.g.cols
      ensures layer == ResolveLayer(table, layerState, row, col)
    {
      layer := 0;
      var i: int := table.g.layers - 1;
      while i >= 0
        invariant -1 <= i < table.g.layers
        invariant layer == 0
        invariant ResolveLayer(table, layerState, row, col)
               == HighestSelectable(table, layerState, row, col, i + 1)
      {
        if LayerOn(layerState, i) && table.At(i, row, col) != KC_TRNS {
          layer := i;
          break;
        }
        i := i - 1;
      }
    }

    /** The handler chain: process_layer, then process_mods, then process_basic, each only if the previous did not handle the keycode. */
    method RunHandlers(keycode: int, pressed: bool) returns (handled: bool)
      requires q.Valid() && 0 <= keycode < 0x10000
      modifies this`layerState, this`sent
      ensures var h := HandlerChain(q, keycode, pressed, old(layerState));
        handled == h.handled && layerState == h.layerState && sent == old(sent) + h.emitted
    {
      handled := ProcessLayer(keycode, pressed);
      if !handled {
        handled := ProcessMods(keycode, pressed);
      }
      if !handled {
        handled := ProcessBasic(keycode, pressed);
      }
    }
  }
}
