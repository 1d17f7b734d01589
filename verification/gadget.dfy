/**
 * The USB gadget's usage tables: KEYCODE2SYSTEM turns the three system
 * keycodes into Generic Desktop usages and KEYCODE2CONSUMER the consumer
 * keycodes into Consumer page usages; 0 means "no usage". Also the report
 * IDs of the composite HID device.
 */
module Gadget {
  import opened Keycodes

  const REPORT_ID_KEYBOARD: int := 0x01
  const REPORT_ID_SYSTEM: int := 0x03
  const REPORT_ID_CONSUMER: int := 0x04
  const REPORT_ID_MAX: int := 0x04

  /** The consumer report's logical maximum. */
  const CONSUMER_LOGICAL_MAX: int := 0x029C

  const KC_SYSTEM_SLEEP: int := 0xA6
  const KC_AUDIO_VOL_UP: int := 0xA9
  const KC_AUDIO_VOL_DOWN: int := 0xAA
  const KC_MEDIA_NEXT_TRACK: int := 0xAB
  const KC_MEDIA_PREV_TRACK: int := 0xAC
  const KC_MEDIA_STOP: int := 0xAD
  const KC_MEDIA_PLAY_PAUSE: int := 0xAE
  const KC_MEDIA_SELECT: int := 0xAF
  const KC_MEDIA_EJECT: int := 0xB0
  const KC_MAIL: int := 0xB1
  const KC_MY_COMPUTER: int := 0xB3
  const KC_WWW_SEARCH: int := 0xB4
  const KC_WWW_HOME: int := 0xB5
  const KC_WWW_BACK: int := 0xB6
  const KC_WWW_FORWARD: int := 0xB7
  const KC_WWW_STOP: int := 0xB8
  const KC_WWW_REFRESH: int := 0xB9
  const KC_WWW_FAVORITES: int := 0xBA
  const KC_MEDIA_FAST_FORWARD: int := 0xBB
  const KC_MEDIA_REWIND: int := 0xBC
  const KC_BRIGHTNESS_UP: int := 0xBD

  const SYSTEM_POWER_DOWN: int := 0x0081
  const SYSTEM_SLEEP: int := 0x0082
  const SYSTEM_WAKE_UP: int := 0x0083

  const AUDIO_MUTE: int := 0x00E2
  const AUDIO_VOL_UP: int := 0x00E9
  const AUDIO_VOL_DOWN: int := 0x00EA
  const TRANSPORT_NEXT_TRACK: int := 0x00B5
  const TRANSPORT_PREV_TRACK: int := 0x00B6
  const TRANSPORT_STOP: int := 0x00B7
  const TRANSPORT_STOP_EJECT: int := 0x00CC
  const TRANSPORT_PLAY_PAUSE: int := 0x00CD
  const BRIGHTNESS_UP: int := 0x006F
  const BRIGHTNESS_DOWN: int := 0x0070
  const AL_CC_CONFIG: int := 0x0183
  const AL_EMAIL: int := 0x018A
  const AL_CALCULATOR: int := 0x0192
  const AL_LOCAL_BROWSER: int := 0x0194
  const AC_SEARCH: int := 0x0221
  const AC_HOME: int := 0x0223
  const AC_BACK: int := 0x0224
  const AC_FORWARD: int := 0x0225
  const AC_STOP: int := 0x0226
  const AC_REFRESH: int := 0x0227
  const AC_BOOKMARKS: int := 0x022A
  const TRANSPORT_FAST_FORWARD: int := 0x00B3
  const TRANSPORT_REWIND: int := 0x00B4

  /** KEYCODE2SYSTEM. */
  function SystemUsage(key: int): (u: int)
    ensures u != 0 <==> IsSystem(key)
  {
    if key == KC_SYSTEM_POWER then SYSTEM_POWER_DOWN
    else if key == KC_SYSTEM_SLEEP then SYSTEM_SLEEP
    else if key == KC_SYSTEM_WAKE then SYSTEM_WAKE_UP
    else 0
  }

  /** The three system keycodes map, in order, onto the consecutive usages 0x81..0x83. */
  lemma SystemUsagesInOrder(key: int)
    requires IsSystem(key)
    ensures SystemUsage(key) == key - KC_SYSTEM_POWER + SYSTEM_POWER_DOWN
  {
  }

  /** KEYCODE2CONSUMER, the macro's conditional chain in its own order. */
  function ConsumerUsage(key: int): int
  {
    if key == KC_AUDIO_MUTE then AUDIO_MUTE
    else if key == KC_AUDIO_VOL_UP then AUDIO_VOL_UP
    else if key == KC_AUDIO_VOL_DOWN then AUDIO_VOL_DOWN
    else if key == KC_MEDIA_NEXT_TRACK then TRANSPORT_NEXT_TRACK
    else if key == KC_MEDIA_PREV_TRACK then TRANSPORT_PREV_TRACK
    else if key == KC_MEDIA_FAST_FORWARD then TRANSPORT_FAST_FORWARD
    else if key == KC_MEDIA_REWIND then TRANSPORT_REWIND
    else if key == KC_MEDIA_STOP then TRANSPORT_STOP
    else if key == KC_MEDIA_EJECT then TRANSPORT_STOP_EJECT
    else if key == KC_MEDIA_PLAY_PAUSE then TRANSPORT_PLAY_PAUSE
    else if key == KC_MEDIA_SELECT then AL_CC_CONFIG
    else if key == KC_MAIL then AL_EMAIL
    else if key == KC_CALCULATOR then AL_CALCULATOR
    else if key == KC_MY_COMPUTER then AL_LOCAL_BROWSER
    else if key == KC_WWW_SEARCH then AC_SEARCH
    else if key == KC_WWW_HOME then AC_HOME
    else if key == KC_WWW_BACK then AC_BACK
    else if key == KC_WWW_FORWARD then AC_FORWARD
    else if key == KC_WWW_STOP then AC_STOP
    else if key == KC_WWW_REFRESH then AC_REFRESH
    else if key == KC_BRIGHTNESS_UP then BRIGHTNESS_UP
    else if key == KC_BRIGHTNESS_DOWN then BRIGHTNESS_DOWN
    else if key == KC_WWW_FAVORITES then AC_BOOKMARKS
    else 0
  }

  /** The keycode a consumer usage came from: the reverse reading of the table. */
  function ConsumerKey(usage: int): int
  {
    if usage == AUDIO_MUTE then KC_AUDIO_MUTE
    else if usage == AUDIO_VOL_UP then KC_AUDIO_VOL_UP
    else if usage == AUDIO_VOL_DOWN then KC_AUDIO_VOL_DOWN
    else if usage == TRANSPORT_NEXT_TRACK then KC_MEDIA_NEXT_TRACK
    else if usage == TRANSPORT_PREV_TRACK then KC_MEDIA_PREV_TRACK
    else if usage == TRANSPORT_FAST_FORWARD then KC_MEDIA_FAST_FORWARD
    else if usage == TRANSPORT_REWIND then KC_MEDIA_REWIND
    else if usage == TRANSPORT_STOP then KC_MEDIA_STOP
    else if usage == TRANSPORT_STOP_EJECT then KC_MEDIA_EJECT
    else if usage == TRANSPORT_PLAY_PAUSE then KC_MEDIA_PLAY_PAUSE
    else if usage == AL_CC_CONFIG then KC_MEDIA_SELECT
    else if usage == AL_EMAIL then KC_MAIL
    else if usage == AL_CALCULATOR then KC_CALCULATOR
    else if usage == AL_LOCAL_BROWSER then KC_MY_COMPUTER
    else if usage == AC_SEARCH then KC_WWW_SEARCH
    else if usage == AC_HOME then KC_WWW_HOME
    else if usage == AC_BACK then KC_WWW_BACK
    else if usage == AC_FORWARD then KC_WWW_FORWARD
    else if usage == AC_STOP then KC_WWW_STOP
    else if usage == AC_REFRESH then KC_WWW_REFRESH
    else if usage == BRIGHTNESS_UP then KC_BRIGHTNESS_UP
    else if usage == BRIGHTNESS_DOWN then KC_BRIGHTNESS_DOWN
    else if usage == AC_BOOKMARKS then KC_WWW_FAVORITES
    else 0
  }

  /** Exactly the consumer keycodes 0xA8..0xBE have a usage. */
  lemma ConsumerUsageDefinedOnConsumerRange(key: int)
    ensures ConsumerUsage(key) != 0 <==> IsConsumer(key)
  {
  }

  /** Every consumer usage lies in 1..0x029C, the consumer report's logical range. */
  lemma ConsumerUsageInReportRange(key: int)
    ensures 0 <= ConsumerUsage(key) <= CONSUMER_LOGICAL_MAX
  {
  }

  /** Reading the table backwards recovers each consumer keycode. */
  lemma ConsumerKeyInverts(key: int)
    requires IsConsumer(key)
    ensures ConsumerKey(ConsumerUsage(key)) == key
  {
  }

  /** No two keycodes share a non-zero consumer usage. */
  lemma ConsumerUsageInjective(a: int, b: int)
    requires ConsumerUsage(a) != 0 && ConsumerUsage(a) == ConsumerUsage(b)
    ensures a == b
  {
    ConsumerUsageDefinedOnConsumerRange(a);
    ConsumerUsageDefinedOnConsumerRange(b);
    ConsumerKeyInverts(a);
    ConsumerKeyInverts(b);
  }

  /** The report IDs are distinct and REPORT_ID_MAX is the largest of them. */
  lemma ReportIds()
    ensures REPORT_ID_KEYBOARD < REPORT_ID_SYSTEM < REPORT_ID_CONSUMER
    ensures REPORT_ID_MAX == REPORT_ID_CONSUMER
  {
  }
}
