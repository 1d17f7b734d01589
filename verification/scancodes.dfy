/**
 * keycode_to_scancode: the 256-entry table from HID keycodes to Linux input
 * key codes. The Linux KEY_* values are opaque here: each is a constructor
 * of LinuxKey, and a 0 entry of the table is KEY_RESERVED.
 */
module Scancodes {
  import opened Keycodes

  /** The Linux input key codes the table uses; KEY_RESERVED is the code 0. */
  datatype LinuxKey =
    | KEY_RESERVED
    | KEY_0
    | KEY_1
    | KEY_2
    | KEY_3
    | KEY_4
    | KEY_5
    | KEY_6
    | KEY_7
    | KEY_8
    | KEY_9
    | KEY_A
    | KEY_AGAIN
    | KEY_ALTERASE
    | KEY_APOSTROPHE
    | KEY_B
    | KEY_BACK
    | KEY_BACKSLASH
    | KEY_BACKSPACE
    | KEY_BRIGHTNESSDOWN
    | KEY_BRIGHTNESSUP
    | KEY_C
    | KEY_CALENDAR
    | KEY_CANCEL
    | KEY_CAPSLOCK
    | KEY_CLEAR
    | KEY_COMMA
    | KEY_COMPUTER
    | KEY_COPY
    | KEY_CUT
    | KEY_D
    | KEY_DELETE
    | KEY_DOT
    | KEY_DOWN
    | KEY_E
    | KEY_EJECTCD
    | KEY_EMAIL
    | KEY_END
    | KEY_ENTER
    | KEY_EQUAL
    | KEY_ESC
    | KEY_EXIT
    | KEY_F
    | KEY_F1
    | KEY_F10
    | KEY_F11
    | KEY_F12
    | KEY_F13
    | KEY_F14
    | KEY_F15
    | KEY_F16
    | KEY_F17
    | KEY_F18
    | KEY_F19
    | KEY_F2
    | KEY_F20
    | KEY_F21
    | KEY_F22
    | KEY_F23
    | KEY_F24
    | KEY_F3
    | KEY_F4
    | KEY_F5
    | KEY_F6
    | KEY_F7
    | KEY_F8
    | KEY_F9
    | KEY_FASTFORWARD
    | KEY_FAVORITES
    | KEY_FIND
    | KEY_FORWARD
    | KEY_G
    | KEY_GRAVE
    | KEY_H
    | KEY_HELP
    | KEY_HOME
    | KEY_HOMEPAGE
    | KEY_I
    | KEY_INSERT
    | KEY_J
    | KEY_K
    | KEY_KP0
    | KEY_KP1
    | KEY_KP2
    | KEY_KP3
    | KEY_KP4
    | KEY_KP5
    | KEY_KP6
    | KEY_KP7
    | KEY_KP8
    | KEY_KP9
    | KEY_KPASTERISK
    | KEY_KPCOMMA
    | KEY_KPDOT
    | KEY_KPENTER
    | KEY_KPEQUAL
    | KEY_KPMINUS
    | KEY_KPPLUS
    | KEY_KPSLASH
    | KEY_L
    | KEY_LEFT
    | KEY_LEFTALT
    | KEY_LEFTBRACE
    | KEY_LEFTCTRL
    | KEY_LEFTMETA
    | KEY_LEFTSHIFT
    | KEY_M
    | KEY_MEDIA
    | KEY_MENU
    | KEY_MINUS
    | KEY_MUTE
    | KEY_N
    | KEY_NEXTSONG
    | KEY_NUMLOCK
    | KEY_O
    | KEY_P
    | KEY_PAGEDOWN
    | KEY_PAGEUP
    | KEY_PASTE
    | KEY_PAUSE
    | KEY_PLAYPAUSE
    | KEY_POWER
    | KEY_PREVIOUSSONG
    | KEY_Q
    | KEY_R
    | KEY_REFRESH
    | KEY_REWIND
    | KEY_RIGHT
    | KEY_RIGHTALT
    | KEY_RIGHTBRACE
    | KEY_RIGHTCTRL
    | KEY_RIGHTMETA
    | KEY_RIGHTSHIFT
    | KEY_S
    | KEY_SCROLLLOCK
    | KEY_SEARCH
    | KEY_SELECT
    | KEY_SEMICOLON
    | KEY_SLASH
    | KEY_SLEEP
    | KEY_SPACE
    | KEY_STOP
    | KEY_STOPCD
    | KEY_SYSRQ
    | KEY_T
    | KEY_TAB
    | KEY_U
    | KEY_UNDO
    | KEY_UP
    | KEY_V
    | KEY_VOLUMEDOWN
    | KEY_VOLUMEUP
    | KEY_W
    | KEY_WAKEUP
    | KEY_X
    | KEY_Y
    | KEY_Z

  /** Entry 16*hi + lo of keycode_to_scancode; a 0 entry is KEY_RESERVED. */
  function Entry(hi: int, lo: int): LinuxKey
    requires 0 <= hi < 16 && 0 <= lo < 16
  {
    match hi
      case 0 =>
        (match lo
          case 4 => KEY_A
          case 5 => KEY_B
          case 6 => KEY_C
          case 7 => KEY_D
          case 8 => KEY_E
          case 9 => KEY_F
          case 10 => KEY_G
          case 11 => KEY_H
          case 12 => KEY_I
          case 13 => KEY_J
          case 14 => KEY_K
          case 15 => KEY_L
          case _ => KEY_RESERVED)
      case 1 =>
        (match lo
          case 0 => KEY_M
          case 1 => KEY_N
          case 2 => KEY_O
          case 3 => KEY_P
          case 4 => KEY_Q
          case 5 => KEY_R
          case 6 => KEY_S
          case 7 => KEY_T
          case 8 => KEY_U
          case 9 => KEY_V
          case 10 => KEY_W
          case 11 => KEY_X
          case 12 => KEY_Y
          case 13 => KEY_Z
          case 14 => KEY_1
          case 15 => KEY_2)
      case 2 =>
        (match lo
          case 0 => KEY_3
          case 1 => KEY_4
          case 2 => KEY_5
          case 3 => KEY_6
          case 4 => KEY_7
          case 5 => KEY_8
          case 6 => KEY_9
          case 7 => KEY_0
          case 8 => KEY_ENTER
          case 9 => KEY_ESC
          case 10 => KEY_BACKSPACE
          case 11 => KEY_TAB
          case 12 => KEY_SPACE
          case 13 => KEY_MINUS
          case 14 => KEY_EQUAL
          case 15 => KEY_LEFTBRACE)
      case 3 =>
        (match lo
          case 0 => KEY_RIGHTBRACE
          case 1 => KEY_BACKSLASH
          case 3 => KEY_SEMICOLON
          case 4 => KEY_APOSTROPHE
          case 5 => KEY_GRAVE
          case 6 => KEY_COMMA
          case 7 => KEY_DOT
          case 8 => KEY_SLASH
          case 9 => KEY_CAPSLOCK
          case 10 => KEY_F1
          case 11 => KEY_F2
          case 12 => KEY_F3
          case 13 => KEY_F4
          case 14 => KEY_F5
          case 15 => KEY_F6
          case _ => KEY_RESERVED)
      case 4 =>
        (match lo
          case 0 => KEY_F7
          case 1 => KEY_F8
          case 2 => KEY_F9
          case 3 => KEY_F10
          case 4 => KEY_F11
          case 5 => KEY_F12
          case 7 => KEY_SCROLLLOCK
          case 8 => KEY_PAUSE
          case 9 => KEY_INSERT
          case 10 => KEY_HOME
          case 11 => KEY_PAGEUP
          case 12 => KEY_DELETE
          case 13 => KEY_END
          case 14 => KEY_PAGEDOWN
          case 15 => KEY_RIGHT
          case _ => KEY_RESERVED)
      case 5 =>
        (match lo
          case 0 => KEY_LEFT
          case 1 => KEY_DOWN
          case 2 => KEY_UP
          case 3 => KEY_NUMLOCK
          case 4 => KEY_KPSLASH
          case 5 => KEY_KPASTERISK
          case 6 => KEY_KPMINUS
          case 7 => KEY_KPPLUS
          case 8 => KEY_KPENTER
          case 9 => KEY_KP1
          case 10 => KEY_KP2
          case 11 => KEY_KP3
          case 12 => KEY_KP4
          case 13 => KEY_KP5
          case 14 => KEY_KP6
          case 15 => KEY_KP7)
      case 6 =>
        (match lo
          case 0 => KEY_KP8
          case 1 => KEY_KP9
          case 2 => KEY_KP0
          case 3 => KEY_KPDOT
          case 6 => KEY_POWER
          case 7 => KEY_KPEQUAL
          case 8 => KEY_F13
          case 9 => KEY_F14
          case 10 => KEY_F15
          case 11 => KEY_F16
          case 12 => KEY_F17
          case 13 => KEY_F18
          case 14 => KEY_F19
          case 15 => KEY_F20
          case _ => KEY_RESERVED)
      case 7 =>
        (match lo
          case 0 => KEY_F21
          case 1 => KEY_F22
          case 2 => KEY_F23
          case 3 => KEY_F24
          case 5 => KEY_HELP
          case 6 => KEY_MENU
          case 7 => KEY_SELECT
          case 8 => KEY_STOP
          case 9 => KEY_AGAIN
          case 10 => KEY_UNDO
          case 11 => KEY_CUT
          case 12 => KEY_COPY
          case 13 => KEY_PASTE
          case 14 => KEY_FIND
          case 15 => KEY_MUTE
          case _ => KEY_RESERVED)
      case 8 =>
        (match lo
          case 0 => KEY_VOLUMEUP
          case 1 => KEY_VOLUMEDOWN
          case 5 => KEY_KPCOMMA
          case _ => KEY_RESERVED)
      case 9 =>
        (match lo
          case 9 => KEY_ALTERASE
          case 10 => KEY_SYSRQ
          case 11 => KEY_CANCEL
          case 12 => KEY_CLEAR
          case _ => KEY_RESERVED)
      case 10 =>
        (match lo
          case 5 => KEY_POWER
          case 6 => KEY_SLEEP
          case 7 => KEY_WAKEUP
          case 8 => KEY_MUTE
          case 9 => KEY_VOLUMEUP
          case 10 => KEY_VOLUMEDOWN
          case 11 => KEY_NEXTSONG
          case 12 => KEY_PREVIOUSSONG
          case 13 => KEY_STOPCD
          case 14 => KEY_PLAYPAUSE
          case 15 => KEY_MEDIA
          case _ => KEY_RESERVED)
      case 11 =>
        (match lo
          case 0 => KEY_EJECTCD
          case 1 => KEY_EMAIL
          case 2 => KEY_CALENDAR
          case 3 => KEY_COMPUTER
          case 4 => KEY_SEARCH
          case 5 => KEY_HOMEPAGE
          case 6 => KEY_BACK
          case 7 => KEY_FORWARD
          case 8 => KEY_EXIT
          case 9 => KEY_REFRESH
          case 10 => KEY_FAVORITES
          case 11 => KEY_FASTFORWARD
          case 12 => KEY_REWIND
          case 13 => KEY_BRIGHTNESSUP
          case 14 => KEY_BRIGHTNESSDOWN
          case _ => KEY_RESERVED)
      case 14 =>
        (match lo
          case 0 => KEY_LEFTCTRL
          case 1 => KEY_LEFTSHIFT
          case 2 => KEY_LEFTALT
          case 3 => KEY_LEFTMETA
          case 4 => KEY_RIGHTCTRL
          case 5 => KEY_RIGHTSHIFT
          case 6 => KEY_RIGHTALT
          case 7 => KEY_RIGHTMETA
          case _ => KEY_RESERVED)
      case _ => KEY_RESERVED
  }

  /** keycode_to_scancode[k] for a one-byte keycode. */
  function KeycodeToScancode(k: int): LinuxKey
    requires 0 <= k < 256
  {
    Entry(k / 16, k % 16)
  }

  /** The four error codes, KC_NO to KC_UNDEFINED, have no scancode. */
  lemma ErrorCodesUnmapped()
    ensures forall k | KC_NO <= k <= KC_UNDEFINED :: KeycodeToScancode(k) == KEY_RESERVED
  {
  }

  /** KC_A .. KC_Z map to KEY_A .. KEY_Z in order. */
  lemma LettersInOrder()
    ensures KeycodeToScancode(KC_A + 0) == KEY_A
    ensures KeycodeToScancode(KC_A + 1) == KEY_B
    ensures KeycodeToScancode(KC_A + 2) == KEY_C
    ensures KeycodeToScancode(KC_A + 3) == KEY_D
    ensures KeycodeToScancode(KC_A + 4) == KEY_E
    ensures KeycodeToScancode(KC_A + 5) == KEY_F
    ensures KeycodeToScancode(KC_A + 6) == KEY_G
    ensures KeycodeToScancode(KC_A + 7) == KEY_H
    ensures KeycodeToScancode(KC_A + 8) == KEY_I
    ensures KeycodeToScancode(KC_A + 9) == KEY_J
    ensures KeycodeToScancode(KC_A + 10) == KEY_K
    ensures KeycodeToScancode(KC_A + 11) == KEY_L
    ensures KeycodeToScancode(KC_A + 12) == KEY_M
    ensures KeycodeToScancode(KC_A + 13) == KEY_N
    ensures KeycodeToScancode(KC_A + 14) == KEY_O
    ensures KeycodeToScancode(KC_A + 15) == KEY_P
    ensures KeycodeToScancode(KC_A + 16) == KEY_Q
    ensures KeycodeToScancode(KC_A + 17) == KEY_R
    ensures KeycodeToScancode(KC_A + 18) == KEY_S
    ensures KeycodeToScancode(KC_A + 19) == KEY_T
    ensures KeycodeToScancode(KC_A + 20) == KEY_U
    ensures KeycodeToScancode(KC_A + 21) == KEY_V
    ensures KeycodeToScancode(KC_A + 22) == KEY_W
    ensures KeycodeToScancode(KC_A + 23) == KEY_X
    ensures KeycodeToScancode(KC_A + 24) == KEY_Y
    ensures KeycodeToScancode(KC_A + 25) == KEY_Z
  {
    LettersAToD();
    LettersEToH();
    LettersIToL();
    LettersMToP();
    LettersQToT();
    LettersUToX();
    LettersYToZ();
  }

  lemma LettersAToD()
    ensures KeycodeToScancode(KC_A + 0) == KEY_A
    ensures KeycodeToScancode(KC_A + 1) == KEY_B
    ensures KeycodeToScancode(KC_A + 2) == KEY_C
    ensures KeycodeToScancode(KC_A + 3) == KEY_D
  {
  }

  lemma LettersEToH()
    ensures KeycodeToScancode(KC_A + 4) == KEY_E
    ensures KeycodeToScancode(KC_A + 5) == KEY_F
    ensures KeycodeToScancode(KC_A + 6) == KEY_G
    ensures KeycodeToScancode(KC_A + 7) == KEY_H
  {
  }

  lemma LettersIToL()
    ensures KeycodeToScancode(KC_A + 8) == KEY_I
    ensures KeycodeToScancode(KC_A + 9) == KEY_J
    ensures KeycodeToScancode(KC_A + 10) == KEY_K
    ensures KeycodeToScancode(KC_A + 11) == KEY_L
  {
  }

  lemma LettersMToP()
    ensures KeycodeToScancode(KC_A + 12) == KEY_M
    ensures KeycodeToScancode(KC_A + 13) == KEY_N
    ensures KeycodeToScancode(KC_A + 14) == KEY_O
    ensures KeycodeToScancode(KC_A + 15) == KEY_P
  {
  }

  lemma LettersQToT()
    ensures KeycodeToScancode(KC_A + 16) == KEY_Q
    ensures KeycodeToScancode(KC_A + 17) == KEY_R
    ensures KeycodeToScancode(KC_A + 18) == KEY_S
    ensures KeycodeToScancode(KC_A + 19) == KEY_T
  {
  }

  lemma LettersUToX()
    ensures KeycodeToScancode(KC_A + 20) == KEY_U
    ensures KeycodeToScancode(KC_A + 21) == KEY_V
    ensures KeycodeToScancode(KC_A + 22) == KEY_W
    ensures KeycodeToScancode(KC_A + 23) == KEY_X
  {
  }

  lemma LettersYToZ()
    ensures KeycodeToScancode(KC_A + 24) == KEY_Y
    ensures KeycodeToScancode(KC_A + 25) == KEY_Z
  {
  }

  /** KC_NONUS_HASH and KC_PSCREEN are unsupported: they map to 0. */
  lemma UnsupportedKeys()
    ensures KeycodeToScancode(KC_NONUS_HASH) == KEY_RESERVED
    ensures KeycodeToScancode(KC_PSCREEN) == KEY_RESERVED
  {
  }

  /** The system keys map to power, sleep and wake; KC_CALCULATOR maps to KEY_CALENDAR as written. */
  lemma SystemKeysAndCalculator()
    ensures KeycodeToScancode(KC_SYSTEM_POWER) == KEY_POWER
    ensures KeycodeToScancode(KC_SYSTEM_POWER + 1) == KEY_SLEEP
    ensures KeycodeToScancode(KC_SYSTEM_WAKE) == KEY_WAKEUP
    ensures KeycodeToScancode(KC_CALCULATOR) == KEY_CALENDAR
  {
  }

  /** The whole Fn range maps to 0. */
  lemma FnUnmapped()
    ensures forall k | IsFn(k) :: KeycodeToScancode(k) == KEY_RESERVED
  {
  }

  /** The eight modifiers map to the Linux modifier keys in order. */
  lemma ModifiersInOrder()
    ensures KeycodeToScancode(KC_LCTRL) == KEY_LEFTCTRL
    ensures KeycodeToScancode(KC_LSHIFT) == KEY_LEFTSHIFT
    ensures KeycodeToScancode(KC_LALT) == KEY_LEFTALT
    ensures KeycodeToScancode(KC_LGUI) == KEY_LEFTMETA
    ensures KeycodeToScancode(KC_RCTRL) == KEY_RIGHTCTRL
    ensures KeycodeToScancode(KC_RSHIFT) == KEY_RIGHTSHIFT
    ensures KeycodeToScancode(KC_RALT) == KEY_RIGHTALT
    ensures KeycodeToScancode(KC_RGUI) == KEY_RIGHTMETA
  {
    LeftModifiers();
    RightModifiers();
  }

  lemma LeftModifiers()
    ensures KeycodeToScancode(KC_LCTRL) == KEY_LEFTCTRL
    ensures KeycodeToScancode(KC_LSHIFT) == KEY_LEFTSHIFT
    ensures KeycodeToScancode(KC_LALT) == KEY_LEFTALT
    ensures KeycodeToScancode(KC_LGUI) == KEY_LEFTMETA
  {
  }

  lemma RightModifiers()
    ensures KeycodeToScancode(KC_RCTRL) == KEY_RIGHTCTRL
    ensures KeycodeToScancode(KC_RSHIFT) == KEY_RIGHTSHIFT
    ensures KeycodeToScancode(KC_RALT) == KEY_RIGHTALT
    ensures KeycodeToScancode(KC_RGUI) == KEY_RIGHTMETA
  {
  }

  /** The entries past KC_RGUI are left implicit, so they are 0. */
  lemma TailUnmapped()
    ensures forall k | KC_RGUI < k < 256 :: KeycodeToScancode(k) == KEY_RESERVED
  {
  }

  /** Only keys, system keys, consumer keys and modifiers have a scancode. */
  lemma MappedOnlyFromKnownRanges(k: int)
    requires 0 <= k < 256 && KeycodeToScancode(k) != KEY_RESERVED
    ensures IsKey(k) || IsSystem(k) || IsConsumer(k) || IsMod(k)
  {
  }
}
