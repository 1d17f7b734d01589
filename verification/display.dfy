/**
 * The graphical helper's display state and its message handler
 * handle_message: the pressed flag of each key of the on-screen Planck
 * layout, the active layer, the 16-bit layer state with its row of layer
 * indicators, the USB passthrough flag and the redraw request. Also the
 * two selection rules of do_drawing: which legend a key shows, in which
 * ink, and which layer indicators are lit.
 */
module Display {
  import opened Wrappers
  import opened Wire
  import opened Bits

  const KEYBOARD_ROWS: nat := 8
  const KEYBOARD_COLS: nat := 6
  /** Each key has a legend per layer, `legend[16][8]`. */
  const LEGENDS: nat := 16
  const LEGEND_BYTES: nat := 8

  /**
   * A key of the on-screen layout: its width and position in quarter-key
   * units (KEY_U(i) is 4i) and its initialised legends; legends past the
   * initialised ones are zero-filled, that is empty.
   */
  datatype KeyFace = KeyFace(width: nat, x: nat, y: nat, legends: seq<string>)

  /** `legend[l]` of a key. */
  function Legend(face: KeyFace, l: nat): string
  {
    if l < |face.legends| then face.legends[l] else ""
  }

  /**
   * planck_keys, row by row. The last row has five initialisers, so its
   * sixth key is all zeros: width 0, never drawn.
   */
  const PLANCK_KEYS: seq<seq<KeyFace>> := [
    [
      KeyFace(4, 0, 0, ["Tab", "", ""]),
      KeyFace(4, 4, 0, ["Q", "!", "1"]),
      KeyFace(4, 8, 0, ["W", "@", "2"]),
      KeyFace(4, 12, 0, ["F", "#", "3"]),
      KeyFace(4, 16, 0, ["P", "$", "4"]),
      KeyFace(4, 20, 0, ["G", "%", "5"])
    ],
    [
      KeyFace(4, 0, 4, ["Esc", "", ""]),
      KeyFace(4, 4, 4, ["A", "F1", "F1"]),
      KeyFace(4, 8, 4, ["R", "F2", "F2"]),
      KeyFace(4, 12, 4, ["S", "F3", "F3"]),
      KeyFace(4, 16, 4, ["T", "F4", "F4"]),
      KeyFace(4, 20, 4, ["D", "F5", "F5"])
    ],
    [
      KeyFace(4, 0, 8, ["Shift", "", ""]),
      KeyFace(4, 4, 8, ["Z", "F7", "F7"]),
      KeyFace(4, 8, 8, ["X", "F8", "F8"]),
      KeyFace(4, 12, 8, ["C", "F9", "F9"]),
      KeyFace(4, 16, 8, ["V", "F10", "F10"]),
      KeyFace(4, 20, 8, ["B", "F11", "F11"])
    ],
    [
      KeyFace(4, 0, 12, ["Fn", "", ""]),
      KeyFace(4, 4, 12, ["Gui", "", ""]),
      KeyFace(4, 8, 12, ["Alt", "", ""]),
      KeyFace(4, 36, 12, ["Down", "", ""]),
      KeyFace(4, 40, 12, ["Up", "", ""]),
      KeyFace(4, 44, 12, ["Right", "", ""])
    ],
    [
      KeyFace(4, 24, 0, ["J", "^", "6"]),
      KeyFace(4, 28, 0, ["L", "&", "7"]),
      KeyFace(4, 32, 0, ["U", "*", "8"]),
      KeyFace(4, 36, 0, ["Y", "(", "9"]),
      KeyFace(4, 40, 0, [";", ")", "0"]),
      KeyFace(4, 44, 0, ["Bksp", "", ""])
    ],
    [
      KeyFace(4, 24, 4, ["H", "F6", "F6"]),
      KeyFace(4, 28, 4, ["N", "_", "-"]),
      KeyFace(4, 32, 4, ["E", "+", "="]),
      KeyFace(4, 36, 4, ["I", "{", "["]),
      KeyFace(4, 40, 4, ["O", "}", "]"]),
      KeyFace(4, 44, 4, ["'", "|", "\\"])
    ],
    [
      KeyFace(4, 24, 8, ["K", "F12", "F12"]),
      KeyFace(4, 28, 8, ["M", "", "USB"]),
      KeyFace(4, 32, 8, [",", "", ""]),
      KeyFace(4, 36, 8, [".", "", ""]),
      KeyFace(4, 40, 8, ["/", "", ""]),
      KeyFace(4, 44, 8, ["Enter", "", ""])
    ],
    [
      KeyFace(8, 20, 12, ["Space", "Space", "Space"]),
      KeyFace(4, 28, 12, ["Raise", "Raise", "Raise"]),
      KeyFace(4, 32, 12, ["Left", "", ""]),
      KeyFace(4, 12, 12, ["Ctrl", "", ""]),
      KeyFace(4, 16, 12, ["Lower", "Lower", "Lower"]),
      KeyFace(0, 0, 0, [])
    ]
  ]

  /** The ink of a legend: white on a pressed key, light grey for a fallback legend, dark grey for the layer's own. */
  datatype Ink = White | Grey | Dark

  /** What do_drawing puts on a drawn key: the key-down fill when pressed, the legend text and its ink. */
  datatype KeyDrawing = KeyDrawing(down: bool, text: string, ink: Ink)

  /**
   * The drawing of one key on layer `activeLayer`: the layer's legend, or
   * the base legend when the layer's is empty. Reading `legend[active_layer]`
   * needs the layer below 16.
   */
  function Draw(face: KeyFace, pressed: bool, activeLayer: nat): (d: KeyDrawing)
    requires activeLayer < LEGENDS
    ensures d.down == pressed
    ensures Legend(face, activeLayer) != "" ==> d.text == Legend(face, activeLayer)
    ensures Legend(face, activeLayer) == "" ==> d.text == Legend(face, 0)
    ensures d.ink == White <==> pressed
    ensures !pressed ==> (d.ink == Dark <==> Legend(face, activeLayer) != "")
  {
    if Legend(face, activeLayer) == "" then
      KeyDrawing(pressed, Legend(face, 0), if pressed then White else Grey)
    else
      KeyDrawing(pressed, Legend(face, activeLayer), if pressed then White else Dark)
  }

  /** A key whose base legend is set never shows a blank: on every layer it shows that layer's legend or the base one. */
  lemma DrawNeverBlank(face: KeyFace, pressed: bool, activeLayer: nat)
    requires activeLayer < LEGENDS && Legend(face, 0) != ""
    ensures Draw(face, pressed, activeLayer).text != ""
    ensures Draw(face, pressed, activeLayer).text in {Legend(face, activeLayer), Legend(face, 0)}
  {
  }

  /** On layer 0 every key shows its base legend, in dark ink while released. */
  lemma BaseLayerShowsBase(face: KeyFace, pressed: bool)
    requires Legend(face, 0) != ""
    ensures Draw(face, pressed, 0) == KeyDrawing(pressed, Legend(face, 0), if pressed then White else Dark)
  {
  }

  /** A key drawn on screen: non-zero width. */
  predicate Drawn(face: KeyFace)
  {
    face.width != 0
  }

  /** What the key loop does with one slot: draw it, or skip it (None) when its width is zero. */
  function Cell(face: KeyFace, pressed: bool, activeLayer: nat): (d: Option<KeyDrawing>)
    requires activeLayer < LEGENDS
    ensures d.Some? <==> Drawn(face)
  {
    if Drawn(face) then Some(Draw(face, pressed, activeLayer)) else None
  }

  /** Row r of the layout holds six keys, at most three legends each, every legend short enough for `char[8]`. */
  predicate RowWellFormed(r: nat)
    requires r < |PLANCK_KEYS|
  {
    |PLANCK_KEYS[r]| == KEYBOARD_COLS &&
    forall c | 0 <= c < KEYBOARD_COLS ::
      var face := PLANCK_KEYS[r][c];
      |face.legends| <= 3 &&
      (forall l | 0 <= l < |face.legends| :: |face.legends[l]| < LEGEND_BYTES) &&
      (Drawn(face) <==> Legend(face, 0) != "")
  }

  lemma Row0WellFormed()
    ensures RowWellFormed(0)
  {
  }

  lemma Row1WellFormed()
    ensures RowWellFormed(1)
  {
  }

  lemma Row2WellFormed()
    ensures RowWellFormed(2)
  {
  }

  lemma Row3WellFormed()
    ensures RowWellFormed(3)
  {
  }

  lemma Row4WellFormed()
    ensures RowWellFormed(4)
  {
  }

  lemma Row5WellFormed()
    ensures RowWellFormed(5)
  {
  }

  lemma Row6WellFormed()
    ensures RowWellFormed(6)
  {
  }

  lemma Row7WellFormed()
    ensures RowWellFormed(7)
  {
  }

  /** The layout has 8 rows of 6 slots. */
  lemma PlanckKeysDimensions()
    ensures |PLANCK_KEYS| == KEYBOARD_ROWS
    ensures forall r | 0 <= r < KEYBOARD_ROWS :: |PLANCK_KEYS[r]| == KEYBOARD_COLS
  {
  }

  /** Every row of the layout is well formed. */
  lemma RowsWellFormed(r: nat)
    requires r < KEYBOARD_ROWS
    ensures RowWellFormed(r)
  {
    match r
    case 0 => Row0WellFormed();
    case 1 => Row1WellFormed();
    case 2 => Row2WellFormed();
    case 3 => Row3WellFormed();
    case 4 => Row4WellFormed();
    case 5 => Row5WellFormed();
    case 6 => Row6WellFormed();
    case 7 => Row7WellFormed();
  }

  /**
   * The layout's shape: 8 rows of 6 keys; every legend fits `char[8]` with
   * its terminator; a key is drawn exactly when it has a base legend, and
   * every slot but the zero-filled sixth of the last row is drawn.
   */
  lemma {:induction false} PlanckKeysShape(r: nat, c: nat)
    requires r < KEYBOARD_ROWS && c < KEYBOARD_COLS
    ensures |PLANCK_KEYS| == KEYBOARD_ROWS && |PLANCK_KEYS[r]| == KEYBOARD_COLS
    ensures forall l: nat :: |Legend(PLANCK_KEYS[r][c], l)| < LEGEND_BYTES
    ensures Drawn(PLANCK_KEYS[r][c]) <==> Legend(PLANCK_KEYS[r][c], 0) != ""
    ensures Drawn(PLANCK_KEYS[r][c]) <==> !(r == 7 && c == 5)
  {
    RowsWellFormed(r);
    if r == 7 {
      assert PLANCK_KEYS[7][5] == KeyFace(0, 0, 0, []);
    }
  }

  /**
   * The layout sets legends for layers 0..2 only, so on any layer from 3
   * up every key falls back to its base legend, in light grey while
   * released.
   */
  lemma UpperLayersShowBase(r: nat, c: nat, pressed: bool, activeLayer: nat)
    requires r < KEYBOARD_ROWS && c < KEYBOARD_COLS
    requires 3 <= activeLayer < LEGENDS
    ensures var face := PLANCK_KEYS[r][c];
      Draw(face, pressed, activeLayer) == KeyDrawing(pressed, Legend(face, 0), if pressed then White else Grey)
  {
    RowsWellFormed(r);
  }

  /** `((uint16_t)hi << 8) | lo`: the big-endian layer state of a LAYER_STATE message. */
  function LayerStateOf(hi: Byte, lo: Byte): (v: nat)
    ensures v == hi * 0x100 + lo && v < 0x10000
  {
    assert Pow2(8) == 0x100;
    BitOrDisjoint(hi, lo, 8);
    BitOr(hi * Pow2(8), lo)
  }

  /** The two bytes a 16-bit layer state is sent as, high byte first. */
  function Split(v: nat): (b: (Byte, Byte))
    requires v < 0x10000
  {
    (v / 0x100, v % 0x100)
  }

  /** Decoding the two halves of a 16-bit value gives it back. */
  lemma DecodeSplit(v: nat)
    requires v < 0x10000
    ensures LayerStateOf(Split(v).0, Split(v).1) == v
  {
  }

  /** Splitting a decoded layer state gives back the message's bytes. */
  lemma SplitDecode(hi: Byte, lo: Byte)
    ensures Split(LayerStateOf(hi, lo)) == (hi, lo)
  {
    DivPlus(0x100, hi, lo);
  }

  /** Bit l of v. */
  predicate BitSet(v: nat, l: nat)
  {
    v / Pow2(l) % 2 == 1
  }

  /** `layer_state & (1UL << l)`: indicator l is lit. */
  predicate IndicatorLit(layerState: nat, l: nat)
  {
    BitAnd(layerState, Pow2(l)) != 0
  }

  /** Indicator l is lit iff bit l of the layer state is set. */
  lemma IndicatorIsBit(layerState: nat, l: nat)
    ensures IndicatorLit(layerState, l) == BitSet(layerState, l)
  {
    BitAndPow2(layerState, l);
  }

  /** Dividing by p*q is dividing by p, then by q. */
  lemma DivDiv(a: nat, p: nat, q: nat)
    requires p >= 1 && q >= 1
    ensures a / (p * q) == a / p / q
  {
    var q1, r1 := a / p, a % p;
    var q2, r2 := q1 / q, q1 % q;
    Distribute(p, q, q2, r2);
    assert a == (p * q) * q2 + (p * r2 + r1);
    MulLeMono(r2 + 1, q, p);
    DivPlus(p * q, q2, p * r2 + r1);
  }

  lemma Swap(a: nat, b: nat, c: nat)
    ensures a * (b * c) == b * (a * c)
  {
  }

  /** Adding a multiple of p moves the quotient by p and leaves the remainder. */
  lemma DivAddMultiple(p: nat, k: nat, x: nat)
    requires p >= 1
    ensures (p * k + x) / p == k + x / p
  {
    Distribute(p, 1, k, x / p);
    assert p * k + x == p * (k + x / p) + x % p;
    DivPlus(p, k + x / p, x % p);
  }

  /** 2^8 splits as 2^l times an even 2 * 2^(7 - l). */
  lemma ByteSplitsAt(l: nat)
    requires l < 8
    ensures Pow2(l) * (2 * Pow2(7 - l)) == 0x100
  {
    Pow2Add(l, 8 - l);
    assert Pow2(8 - l) == 2 * Pow2(7 - l);
    assert Pow2(8) == 0x100;
  }

  /** When p times an even number is 256, bit p of hi * 256 + lo is bit p of lo. */
  lemma LowBitOf(hi: nat, lo: nat, p: nat, m: nat)
    requires p >= 1 && p * (2 * m) == 0x100
    ensures (hi * 0x100 + lo) / p % 2 == lo / p % 2
  {
    var k := hi * (2 * m);
    calc {
      hi * 0x100;
      hi * (p * (2 * m));
      { Swap(hi, p, 2 * m); }
      p * k;
    }
    DivAddMultiple(p, k, lo);
    Swap(hi, 2, m);
    EvenPlusParity(hi * m, lo / p);
  }

  /** Indicators 1..8 (l < 8) show the bits of the message's second byte. */
  lemma IndicatorsOfLowByte(hi: Byte, lo: Byte, l: nat)
    requires l < 8
    ensures IndicatorLit(LayerStateOf(hi, lo), l) == BitSet(lo, l)
  {
    IndicatorIsBit(LayerStateOf(hi, lo), l);
    ByteSplitsAt(l);
    LowBitOf(hi, lo, Pow2(l), Pow2(7 - l));
  }

  lemma EvenPlusParity(j: nat, x: nat)
    ensures (2 * j + x) % 2 == x % 2
  {
  }

  /** Indicators 9..16 (8 <= l < 16) show the bits of the message's first byte. */
  lemma IndicatorsOfHighByte(hi: Byte, lo: Byte, l: nat)
    requires 8 <= l < LEGENDS
    ensures IndicatorLit(LayerStateOf(hi, lo), l) == BitSet(hi, l - 8)
  {
    var v := LayerStateOf(hi, lo);
    IndicatorIsBit(v, l);
    assert Pow2(8) == 0x100;
    Pow2Add(8, l - 8);
    DivDiv(v, 0x100, Pow2(l - 8));
    DivPlus(0x100, hi, lo);
  }

  /** At start-up the layer state is 1: only the first indicator is lit. */
  lemma StartupIndicators(l: nat)
    ensures IndicatorLit(1, l) <==> l == 0
  {
    IndicatorIsBit(1, l);
    if l > 0 {
      assert Pow2(l) == 2 * Pow2(l - 1);
    }
  }

  /**
   * The helper's display state: the static globals handle_message updates
   * and the pressed flags of planck_keys, the only part of that table that
   * changes.
   */
  class Screen {
    var needsUpdate: bool
    var activeLayer: Byte
    var layerState: nat
    var usbPassthrough: bool
    const pressed: array2<bool>

    ghost predicate Valid()
      reads this
    {
      pressed.Length0 == KEYBOARD_ROWS && pressed.Length1 == KEYBOARD_COLS && layerState < 0x10000
    }

    /** Start-up: a redraw pending, layer 0 active, layer state 1, passthrough off, no key pressed. */
    constructor ()
      ensures Valid() && fresh(pressed)
      ensures needsUpdate && activeLayer == 0 && layerState == 1 && !usbPassthrough
      ensures forall r, c | 0 <= r < KEYBOARD_ROWS && 0 <= c < KEYBOARD_COLS :: !pressed[r, c]
    {
      needsUpdate := true;
      activeLayer := 0;
      layerState := 1;
      usbPassthrough := false;
      pressed := new bool[KEYBOARD_ROWS, KEYBOARD_COLS]((_, _) => false);
    }

    /**
     * handle_message on a received message `msg` (the buffer always extends
     * past the four bytes read here). A matrix event sets one key's pressed
     * flag and asks for a redraw; an active-layer message sets the layer and
     * asks for a redraw; a layer-state message decodes the big-endian layer
     * state and a passthrough message sets the flag, neither asking for a
     * redraw; the text and keycode messages only print and any other tag is
     * ignored. A matrix event's row and column are used unchecked, so they
     * must lie inside the 8 x 6 layout.
     */
    method HandleMessage(msg: seq<Byte>)
      requires Valid() && |msg| >= 4
      requires msg[0] == MATRIX_EVENT ==> msg[1] < KEYBOARD_ROWS && msg[2] < KEYBOARD_COLS
      modifies this, pressed
      ensures Valid()
      ensures forall r, c | 0 <= r < KEYBOARD_ROWS && 0 <= c < KEYBOARD_COLS ::
        pressed[r, c] == if msg[0] == MATRIX_EVENT && r == msg[1] && c == msg[2] then AsBool(msg[3]) else old(pressed[r, c])
      ensures activeLayer == if msg[0] == ACTIVE_LAYER then msg[1] else old(activeLayer)
      ensures layerState == if msg[0] == LAYER_STATE then LayerStateOf(msg[1], msg[2]) else old(layerState)
      ensures usbPassthrough == if msg[0] == USB_PASSTHROUGH then AsBool(msg[1]) else old(usbPassthrough)
      ensures needsUpdate == (old(needsUpdate) || msg[0] == MATRIX_EVENT || msg[0] == ACTIVE_LAYER)
    {
      if msg[0] == HANDSHAKE {
      } else if msg[0] == MSG_GENERIC {
      } else if msg[0] == KEYCODE_HID {
      } else if msg[0] == MATRIX_EVENT {
        var row, col, down := msg[1], msg[2], msg[3] != 0;
        pressed[row, col] := down;
        needsUpdate := true;
      } else if msg[0] == ACTIVE_LAYER {
        activeLayer := msg[1];
        needsUpdate := true;
      } else if msg[0] == LAYER_STATE {
        layerState := LayerStateOf(msg[1], msg[2]);
      } else if msg[0] == USB_PASSTHROUGH {
        usbPassthrough := msg[1] != 0;
      }
    }

    /** The indicator loop of do_drawing: indicator l is lit iff bit l of the layer state is set. */
    method DrawIndicators() returns (lit: seq<bool>)
      requires Valid()
      ensures |lit| == LEGENDS
      ensures forall l | 0 <= l < LEGENDS :: lit[l] == BitSet(layerState, l)
    {
      lit := [];
      for l := 0 to LEGENDS
        invariant |lit| == l
        invariant forall j | 0 <= j < l :: lit[j] == BitSet(layerState, j)
      {
        IndicatorIsBit(layerState, l);
        lit := lit + [IndicatorLit(layerState, l)];
      }
    }

    /**
     * The key loop of do_drawing, row by row: each key of non-zero width is
     * drawn with its fill and legend; the others are skipped (None).
     * Reading `legend[active_layer]` needs the active layer below 16.
     */
    method DrawKeys() returns (drawing: seq<seq<Option<KeyDrawing>>>)
      requires Valid() && activeLayer < LEGENDS
      ensures |drawing| == KEYBOARD_ROWS
      ensures forall r | 0 <= r < KEYBOARD_ROWS :: |drawing[r]| == KEYBOARD_COLS
      ensures forall r, c | 0 <= r < KEYBOARD_ROWS && 0 <= c < KEYBOARD_COLS ::
        drawing[r][c] == Cell(PLANCK_KEYS[r][c], pressed[r, c], activeLayer)
    {
      PlanckKeysDimensions();
      drawing := [];
      for r := 0 to KEYBOARD_ROWS
        invariant |drawing| == r
        invariant forall i | 0 <= i < r :: |drawing[i]| == KEYBOARD_COLS
        invariant forall i, c | 0 <= i < r && 0 <= c < KEYBOARD_COLS ::
          drawing[i][c] == Cell(PLANCK_KEYS[i][c], pressed[i, c], activeLayer)
      {
        var row := DrawRow(r);
        drawing := drawing + [row];
      }
    }

    /** One row of the key loop. */
    method DrawRow(r: nat) returns (row: seq<Option<KeyDrawing>>)
      requires Valid() && activeLayer < LEGENDS && r < KEYBOARD_ROWS
      ensures |row| == KEYBOARD_COLS
      ensures forall c | 0 <= c < KEYBOARD_COLS ::
        row[c] == Cell(PLANCK_KEYS[r][c], pressed[r, c], activeLayer)
    {
      PlanckKeysDimensions();
      row := [];
      for c := 0 to KEYBOARD_COLS
        invariant |row| == c
        invariant forall j | 0 <= j < c ::
          row[j] == Cell(PLANCK_KEYS[r][j], pressed[r, j], activeLayer)
      {
        var face := PLANCK_KEYS[r][c];
        if face.width != 0 {
          row := row + [Some(Draw(face, pressed[r, c], activeLayer))];
        } else {
          row := row + [None];
        }
      }
    }
  }
}
