/**
 * The basic (one-byte) keycode space: the HID Keyboard/Keypad usages QMK
 * reuses, its internal media, Fn and mouse ranges, the range predicates
 * over them and the modifier bit macros.
 */
module Keycodes {

  const KC_NO: int := 0
  const KC_ROLL_OVER: int := 1
  const KC_POST_FAIL: int := 2
  const KC_UNDEFINED: int := 3
  /** The transparent keycode: "look at the layer below". */
  const KC_TRNS: int := 0x01
  const KC_A: int := 4
  const KC_Z: int := 29
  const KC_NONUS_HASH: int := 50
  const KC_PSCREEN: int := 70
  const KC_EXSEL: int := 164

  const KC_SYSTEM_POWER: int := 0xA5
  const KC_SYSTEM_WAKE: int := 0xA7
  const KC_AUDIO_MUTE: int := 0xA8
  const KC_CALCULATOR: int := 0xB2
  const KC_BRIGHTNESS_DOWN: int := 0xBE
  const KC_FN0: int := 0xC0
  const KC_FN31: int := 0xDF

  const KC_LCTRL: int := 0xE0
  const KC_LSHIFT: int := 0xE1
  const KC_LALT: int := 0xE2
  const KC_LGUI: int := 0xE3
  const KC_RCTRL: int := 0xE4
  const KC_RSHIFT: int := 0xE5
  const KC_RALT: int := 0xE6
  const KC_RGUI: int := 0xE7

  const KC_MS_UP: int := 0xF0
  const KC_MS_RIGHT: int := 0xF3
  const KC_MS_BTN1: int := 0xF4
  const KC_MS_BTN5: int := 0xF8
  const KC_MS_WH_UP: int := 0xF9
  const KC_MS_WH_RIGHT: int := 0xFC
  const KC_MS_ACCEL0: int := 0xFD
  const KC_MS_ACCEL2: int := 0xFF

  predicate IsError(c: int) { KC_ROLL_OVER <= c <= KC_UNDEFINED }
  predicate IsAny(c: int) { KC_A <= c <= 0xFF }
  predicate IsKey(c: int) { KC_A <= c <= KC_EXSEL }
  predicate IsMod(c: int) { KC_LCTRL <= c <= KC_RGUI }
  predicate IsSpecial(c: int) { (0xA5 <= c <= 0xDF) || (0xE8 <= c <= 0xFF) }
  predicate IsSystem(c: int) { KC_SYSTEM_POWER <= c <= KC_SYSTEM_WAKE }
  predicate IsConsumer(c: int) { KC_AUDIO_MUTE <= c <= KC_BRIGHTNESS_DOWN }
  predicate IsFn(c: int) { KC_FN0 <= c <= KC_FN31 }
  predicate IsMousekey(c: int) { KC_MS_UP <= c <= KC_MS_ACCEL2 }
  predicate IsMousekeyMove(c: int) { KC_MS_UP <= c <= KC_MS_RIGHT }
  predicate IsMousekeyButton(c: int) { KC_MS_BTN1 <= c <= KC_MS_BTN5 }
  predicate IsMousekeyWheel(c: int) { KC_MS_WH_UP <= c <= KC_MS_WH_RIGHT }
  predicate IsMousekeyAccel(c: int) { KC_MS_ACCEL0 <= c <= KC_MS_ACCEL2 }

  /** MOD_INDEX: the low three bits of a keycode. */
  function ModIndex(c: nat): (i: nat)
    ensures i < 8
  {
    c % 8
  }

  /** MOD_BIT: a one-byte mask with exactly one bit set, the bit MOD_INDEX(c). */
  function ModBit(c: nat): (b: bv8)
    ensures b != 0 && b & (b - 1) == 0
    ensures (b >> ModIndex(c)) == 1
  {
    (1 as bv8) << ModIndex(c)
  }

  const MOD_MASK_CTRL: bv8 := ModBit(KC_LCTRL) | ModBit(KC_RCTRL)
  const MOD_MASK_SHIFT: bv8 := ModBit(KC_LSHIFT) | ModBit(KC_RSHIFT)
  const MOD_MASK_ALT: bv8 := ModBit(KC_LALT) | ModBit(KC_RALT)
  const MOD_MASK_GUI: bv8 := ModBit(KC_LGUI) | ModBit(KC_RGUI)

  /** FN_INDEX: the position of a Fn key among KC_FN0..KC_FN31. */
  function FnIndex(c: int): int
  {
    c - KC_FN0
  }

  /** KC_FN0 + i, the Fn key whose FN_INDEX is i. */
  function FnKey(i: int): int
  {
    KC_FN0 + i
  }

  /** The keyboard keys and the modifiers are separate ranges. */
  lemma KeyAndModDisjoint(c: int)
    ensures !(IsKey(c) && IsMod(c))
    ensures IsKey(c) <==> 4 <= c <= 0xA4
    ensures IsMod(c) <==> 0xE0 <= c <= 0xE7
  {
  }

  /** The one-byte mask with only bit i set. */
  function BitAt(i: nat): bv8
    requires i < 8
  {
    (1 as bv8) << i
  }

  /** MOD_BIT sends the eight modifiers, in order, onto the eight bits of a byte. */
  lemma ModBitOrdered()
    ensures forall c | IsMod(c) :: ModBit(c) == BitAt(c - KC_LCTRL)
  {
    forall c | IsMod(c)
      ensures ModBit(c) == BitAt(c - KC_LCTRL)
    {
      assert ModIndex(c) == c - KC_LCTRL;
    }
  }

  /** Distinct modifiers get distinct bits, and every bit belongs to some modifier. */
  lemma ModBitBijective()
    ensures forall c1, c2 | IsMod(c1) && IsMod(c2) && c1 != c2 :: ModBit(c1) != ModBit(c2)
    ensures forall i: nat | i < 8 :: IsMod(KC_LCTRL + i) && ModBit(KC_LCTRL + i) == BitAt(i)
  {
    ModBitOrdered();
    forall c1, c2 | IsMod(c1) && IsMod(c2) && c1 != c2
      ensures ModBit(c1) != ModBit(c2)
    {
      BitAtInjective(c1 - KC_LCTRL, c2 - KC_LCTRL);
    }
  }

  lemma BitAtInjective(i: nat, j: nat)
    requires i < 8 && j < 8 && i != j
    ensures BitAt(i) != BitAt(j)
  {
    assert (BitAt(i) >> i) == 1;
  }

  /** Each modifier mask pairs the left and right bit of one modifier. */
  lemma ModMasks()
    ensures MOD_MASK_CTRL == 0x11 && MOD_MASK_SHIFT == 0x22
    ensures MOD_MASK_ALT == 0x44 && MOD_MASK_GUI == 0x88
  {
  }

  /** KC_TRNS shares its value with KC_ROLL_OVER, so the predicates class it as an error code. */
  lemma TransparentIsErrorCode()
    ensures KC_TRNS == KC_ROLL_OVER
    ensures IsError(KC_TRNS) && !IsAny(KC_TRNS)
  {
  }

  /** FN_INDEX numbers KC_FN0..KC_FN31 as 0..31, and IS_FN is exactly that range. */
  lemma FnIndexBijective()
    ensures forall c | IsFn(c) :: 0 <= FnIndex(c) < 32
    ensures forall i | 0 <= i < 32 :: IsFn(FnKey(i)) && FnIndex(FnKey(i)) == i
    ensures forall c :: IsFn(c) <==> 0xC0 <= c <= 0xDF
  {
  }

  /** The system, consumer and mouse ranges do not overlap. */
  lemma SpecialRangesDisjoint(c: int)
    ensures IsSystem(c) <==> 0xA5 <= c <= 0xA7
    ensures IsConsumer(c) <==> 0xA8 <= c <= 0xBE
    ensures IsMousekey(c) <==> 0xF0 <= c <= 0xFF
    ensures !(IsSystem(c) && IsConsumer(c))
    ensures !(IsSystem(c) && IsMousekey(c))
    ensures !(IsConsumer(c) && IsMousekey(c))
  {
  }

  /** The four mouse sub-ranges split the mouse range with no overlap and no gap. */
  lemma MousekeyPartition(c: int)
    ensures IsMousekey(c) <==>
      (IsMousekeyMove(c) || IsMousekeyButton(c) || IsMousekeyWheel(c) || IsMousekeyAccel(c))
    ensures !(IsMousekeyMove(c) && IsMousekeyButton(c))
    ensures !(IsMousekeyMove(c) && IsMousekeyWheel(c))
    ensures !(IsMousekeyMove(c) && IsMousekeyAccel(c))
    ensures !(IsMousekeyButton(c) && IsMousekeyWheel(c))
    ensures !(IsMousekeyButton(c) && IsMousekeyAccel(c))
    ensures !(IsMousekeyWheel(c) && IsMousekeyAccel(c))
  {
  }
}
