/**
 * The HID helper's keycode_to_string table: the name printed for each HID
 * keycode. Entries 0..164 name the HID usages, 165..223 (the system,
 * consumer and Fn keycodes, which never reach a helper as HID keycodes)
 * read "IDK", 224..231 name the modifiers and 232..255 are left
 * zero-filled, that is the empty string. Every entry must fit a `char[18]`
 * together with its terminating NUL.
 */
module KeyNames {
  import opened Keycodes

  /** The row width of the table, terminator included. */
  const NAME_SIZE: nat := 18

  /** The 165 HID usage names, keycode k at [k / 20][k % 20]. */
  const HID_NAMES: seq<seq<string>> := [
    [
      "KC_NO", "KC_ROLL_OVER", "KC_POST_FAIL", "KC_UNDEFINED", "KC_A", "KC_B", "KC_C", "KC_D",
      "KC_E", "KC_F", "KC_G", "KC_H", "KC_I", "KC_J", "KC_K", "KC_L", "KC_M", "KC_N", "KC_O",
      "KC_P"
    ],
    [
      "KC_Q", "KC_R", "KC_S", "KC_T", "KC_U", "KC_V", "KC_W", "KC_X", "KC_Y", "KC_Z", "KC_1",
      "KC_2", "KC_3", "KC_4", "KC_5", "KC_6", "KC_7", "KC_8", "KC_9", "KC_0"
    ],
    [
      "KC_ENTER", "KC_ESCAPE", "KC_BSPACE", "KC_TAB", "KC_SPACE", "KC_MINUS", "KC_EQUAL",
      "KC_LBRACKET", "KC_RBRACKET", "KC_BSLASH", "KC_NONUS_HASH", "KC_SCOLON", "KC_QUOTE",
      "KC_GRAVE", "KC_COMMA", "KC_DOT", "KC_SLASH", "KC_CAPSLOCK", "KC_F1", "KC_F2"
    ],
    [
      "KC_F3", "KC_F4", "KC_F5", "KC_F6", "KC_F7", "KC_F8", "KC_F9", "KC_F10", "KC_F11",
      "KC_F12", "KC_PSCREEN", "KC_SCROLLLOCK", "KC_PAUSE", "KC_INSERT", "KC_HOME", "KC_PGUP",
      "KC_DELETE", "KC_END", "KC_PGDOWN", "KC_RIGHT"
    ],
    [
      "KC_LEFT", "KC_DOWN", "KC_UP", "KC_NUMLOCK", "KC_KP_SLASH", "KC_KP_ASTERISK",
      "KC_KP_MINUS", "KC_KP_PLUS", "KC_KP_ENTER", "KC_KP_1", "KC_KP_2", "KC_KP_3", "KC_KP_4",
      "KC_KP_5", "KC_KP_6", "KC_KP_7", "KC_KP_8", "KC_KP_9", "KC_KP_0", "KC_KP_DOT"
    ],
    [
      "KC_NONUS_BSLASH", "KC_APPLICATION", "KC_POWER", "KC_KP_EQUAL", "KC_F13", "KC_F14",
      "KC_F15", "KC_F16", "KC_F17", "KC_F18", "KC_F19", "KC_F20", "KC_F21", "KC_F22", "KC_F23",
      "KC_F24", "KC_EXECUTE", "KC_HELP", "KC_MENU", "KC_SELECT"
    ],
    [
      "KC_STOP", "KC_AGAIN", "KC_UNDO", "KC_CUT", "KC_COPY", "KC_PASTE", "KC_FIND", "KC__MUTE",
      "KC__VOLUP", "KC__VOLDOWN", "KC_LOCKING_CAPS", "KC_LOCKING_NUM", "KC_LOCKING_SCROLL",
      "KC_KP_COMMA", "KC_KP_EQUAL_AS400", "KC_INT1", "KC_INT2", "KC_INT3", "KC_INT4", "KC_INT5"
    ],
    [
      "KC_INT6", "KC_INT7", "KC_INT8", "KC_INT9", "KC_LANG1", "KC_LANG2", "KC_LANG3", "KC_LANG4",
      "KC_LANG5", "KC_LANG6", "KC_LANG7", "KC_LANG8", "KC_LANG9", "KC_ALT_ERASE", "KC_SYSREQ",
      "KC_CANCEL", "KC_CLEAR", "KC_PRIOR", "KC_RETURN", "KC_SEPARATOR"
    ],
    [
      "KC_OUT", "KC_OPER", "KC_CLEAR_AGAIN", "KC_CRSEL", "KC_EXSEL"
    ]
  ]

  /** The modifier names, from KC_LCTRL on. */
  const MOD_NAMES: seq<string> := [
    "KC_LCTRL", "KC_LSHIFT", "KC_LALT", "KC_LGUI", "KC_RCTRL", "KC_RSHIFT", "KC_RALT", "KC_RGUI"
  ]

  /** keycode_to_string[k]. */
  function KeycodeName(k: nat): string
    requires k < 0x100
  {
    if k <= KC_EXSEL then HID_NAMES[k / 20][k % 20]
    else if k < KC_LCTRL then "IDK"
    else if k <= KC_RGUI then MOD_NAMES[k - KC_LCTRL]
    else ""
  }

  /** A HID usage name: "KC_" and more, short enough for its row. */
  predicate HidNameShape(s: string)
  {
    3 < |s| < NAME_SIZE && s[0] == 'K' && s[1] == 'C' && s[2] == '_'
  }

  predicate RowShaped(r: nat)
    requires r < |HID_NAMES|
  {
    forall i | 0 <= i < |HID_NAMES[r]| :: HidNameShape(HID_NAMES[r][i])
  }

  lemma LowRowsShaped(r: nat)
    requires r < 3
    ensures RowShaped(r)
  {
    if r == 0 {} else if r == 1 {} else {}
  }

  lemma MiddleRowsShaped(r: nat)
    requires 3 <= r < 6
    ensures RowShaped(r)
  {
    if r == 3 {} else if r == 4 {} else {}
  }

  lemma HighRowsShaped(r: nat)
    requires 6 <= r < |HID_NAMES|
    ensures RowShaped(r)
  {
    if r == 6 {} else if r == 7 {} else {}
  }

  /** Every HID entry from KC_NO to KC_EXSEL is a "KC_" name that fits its row. */
  lemma HidNamesShaped(k: nat)
    requires k <= KC_EXSEL
    ensures HidNameShape(KeycodeName(k))
  {
    var r := k / 20;
    if r < 3 {
      LowRowsShaped(r);
    } else if r < 6 {
      MiddleRowsShaped(r);
    } else {
      HighRowsShaped(r);
    }
  }

  /**
   * The table's layout against the keycode ranges: the error codes and the
   * HID keys have "KC_" names, the system, consumer and Fn keycodes and the
   * gap between them read "IDK", each modifier keycode has its modifier's
   * name, and exactly the keycodes above KC_RGUI (the mouse keys among
   * them) have an empty name. Every entry fits its 18-byte row.
   */
  lemma NamesFollowRanges(k: nat)
    requires k < 0x100
    ensures k == KC_NO || IsError(k) || IsKey(k) ==> HidNameShape(KeycodeName(k))
    ensures KC_SYSTEM_POWER <= k <= KC_FN31 ==> KeycodeName(k) == "IDK"
    ensures IsMod(k) ==> KeycodeName(k) == MOD_NAMES[ModIndex(k)]
    ensures KeycodeName(k) == "" <==> k > KC_RGUI
    ensures |KeycodeName(k)| < NAME_SIZE
  {
    if k <= KC_EXSEL {
      HidNamesShaped(k);
    }
  }

  /** The names agree with the keycode constants they spell. */
  lemma NamesOfKnownKeycodes()
    ensures KeycodeName(KC_NO) == "KC_NO" && KeycodeName(KC_ROLL_OVER) == "KC_ROLL_OVER"
    ensures KeycodeName(KC_A) == "KC_A" && KeycodeName(KC_Z) == "KC_Z"
    ensures KeycodeName(KC_NONUS_HASH) == "KC_NONUS_HASH" && KeycodeName(KC_PSCREEN) == "KC_PSCREEN"
    ensures KeycodeName(KC_EXSEL) == "KC_EXSEL"
    ensures KeycodeName(KC_LCTRL) == "KC_LCTRL" && KeycodeName(KC_LSHIFT) == "KC_LSHIFT"
    ensures KeycodeName(KC_LALT) == "KC_LALT" && KeycodeName(KC_LGUI) == "KC_LGUI"
    ensures KeycodeName(KC_RCTRL) == "KC_RCTRL" && KeycodeName(KC_RSHIFT) == "KC_RSHIFT"
    ensures KeycodeName(KC_RALT) == "KC_RALT" && KeycodeName(KC_RGUI) == "KC_RGUI"
  {
  }

  /** Distinct modifier keycodes print distinct names. */
  lemma ModifierNamesDistinct(a: nat, b: nat)
    requires IsMod(a) && IsMod(b) && a != b
    ensures KeycodeName(a) != KeycodeName(b)
  {
    assert KeycodeName(a) == MOD_NAMES[a - KC_LCTRL] && KeycodeName(b) == MOD_NAMES[b - KC_LCTRL];
    assert forall x, y | 0 <= x < y < |MOD_NAMES| :: MOD_NAMES[x] != MOD_NAMES[y];
  }
}
