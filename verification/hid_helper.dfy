/**
 * The userspace HID helper: read_event decodes one netlink message, keeps
 * the table of held keys `keys_down[256]` and, for each keycode message,
 * writes a 16-byte keyboard report holding the lowest 13 held keycodes.
 * This helper uses its own tag values, MSG_GENERIC = 0x01 and
 * KEYCODE_HID = 0x02.
 */
module HidHelper {
  import opened Wrappers
  import opened Wire
  import opened Keycodes
  import Gadget

  const HELPER_MSG_GENERIC: Byte := 0x01
  const HELPER_KEYCODE_HID: Byte := 0x02

  const HID_REPORT_SIZE: nat := 16
  /** The report's key slots: bytes 3..15. */
  const REPORT_KEYS: nat := 13

  /** The helper's tags are shifted by one against the socket header's: its keycode tag is the header's MSG_GENERIC. */
  lemma HelperTagsDisagree()
    ensures HELPER_MSG_GENERIC == HANDSHAKE && HELPER_KEYCODE_HID == MSG_GENERIC
    ensures HELPER_KEYCODE_HID != KEYCODE_HID
  {
  }

  /**
   * The key event a received message carries, as (keycode, pressed). A
   * generic message's text is skipped by one byte and then the tag test is
   * repeated on the byte after it, so a generic message whose text starts
   * with 0x02 is also taken as a key event. `payload` is the receive buffer
   * from NLMSG_DATA on; the buffer always extends past the bytes read here.
   */
  function KeyEvent(ret: int, payload: seq<Byte>): (e: Option<(Byte, bool)>)
    requires |payload| >= 4
    ensures e.Some? ==> ret >= 0
    ensures payload[0] == HELPER_KEYCODE_HID && ret >= 0 ==> e == Some((payload[1], AsBool(payload[2])))
  {
    if ret < 0 then None
    else
      var at := if payload[0] == HELPER_MSG_GENERIC then 1 else 0;
      if payload[at] == HELPER_KEYCODE_HID then Some((payload[at + 1], AsBool(payload[at + 2])))
      else None
  }

  /** A generic message whose first text byte is 0x02 is also handled as a key event, keyed by the next two bytes. */
  lemma GenericThenKeycode(ret: int, payload: seq<Byte>)
    requires |payload| >= 4 && ret >= 0
    requires payload[0] == HELPER_MSG_GENERIC && payload[1] == HELPER_KEYCODE_HID
    ensures KeyEvent(ret, payload) == Some((payload[2], AsBool(payload[3])))
  {
  }

  /** A message that is neither tag at its start, and a failed receive, change nothing. */
  lemma OtherMessagesIgnored(ret: int, payload: seq<Byte>)
    requires |payload| >= 4
    requires ret < 0 || (payload[0] != HELPER_MSG_GENERIC && payload[0] != HELPER_KEYCODE_HID)
    ensures KeyEvent(ret, payload) == None
  {
  }

  /** The held keycodes below n, in ascending order: `key_list` after the counting loop has seen n entries. */
  function HeldBelow(keysDown: seq<bool>, n: nat): seq<Byte>
    requires n <= |keysDown| <= 0x100
  {
    if n == 0 then []
    else HeldBelow(keysDown, n - 1) + (if keysDown[n - 1] then [n - 1] else [])
  }

  /** key_list for the whole table. */
  function KeyList(keysDown: seq<bool>): seq<Byte>
    requires |keysDown| == 0x100
  {
    HeldBelow(keysDown, 0x100)
  }

  /** A keycode is listed iff it is held (and below n). */
  lemma {:induction false} HeldBelowMembership(keysDown: seq<bool>, n: nat)
    requires n <= |keysDown| <= 0x100
    ensures |HeldBelow(keysDown, n)| <= n
    ensures forall k: Byte :: k in HeldBelow(keysDown, n) <==> k < n && keysDown[k]
  {
    if n > 0 {
      HeldBelowMembership(keysDown, n - 1);
    }
  }

  /** Strictly ascending byte sequence. */
  predicate Ascending(s: seq<Byte>)
  {
    forall i, j | 0 <= i < j < |s| :: s[i] < s[j]
  }

  /** The list is strictly ascending, so it holds no keycode twice. */
  lemma {:induction false} HeldBelowAscending(keysDown: seq<bool>, n: nat)
    requires n <= |keysDown| <= 0x100
    ensures Ascending(HeldBelow(keysDown, n))
  {
    if n > 0 {
      HeldBelowAscending(keysDown, n - 1);
      HeldBelowMembership(keysDown, n - 1);
      var s, t := HeldBelow(keysDown, n - 1), HeldBelow(keysDown, n);
      forall i, j | 0 <= i < j < |t|
        ensures t[i] < t[j]
      {
        assert t[i] == s[i];
        if j < |s| {
          assert t[j] == s[j];
        } else {
          assert s[i] in s && t[j] == n - 1;
        }
      }
    }
  }

  /** The 16-byte report: ID 1, no modifiers, padding, then the first 13 listed keys, zero-padded. */
  function Report(keys: seq<Byte>): (r: seq<Byte>)
    ensures |r| == HID_REPORT_SIZE
  {
    [Gadget.REPORT_ID_KEYBOARD, 0, 0] + seq(REPORT_KEYS, i requires 0 <= i < REPORT_KEYS => if i < |keys| then keys[i] else 0)
  }

  /**
   * The report always carries the keyboard report ID and a zero modifier
   * byte, even while modifier keycodes are held; those go in the key slots
   * like any other keycode.
   */
  lemma ReportHeader(keysDown: seq<bool>)
    requires |keysDown| == 0x100
    ensures var r := Report(KeyList(keysDown));
      r[0] == Gadget.REPORT_ID_KEYBOARD && r[1] == 0 && r[2] == 0
  {
  }

  /** Every non-zero key slot holds a held keycode. */
  lemma ReportSlotsHeld(keysDown: seq<bool>)
    requires |keysDown| == 0x100
    ensures var r := Report(KeyList(keysDown));
      forall i | 3 <= i < HID_REPORT_SIZE && r[i] != 0 :: keysDown[r[i]]
  {
    HeldBelowMembership(keysDown, 0x100);
    var l := KeyList(keysDown);
    var r := Report(l);
    forall i | 3 <= i < HID_REPORT_SIZE && r[i] != 0
      ensures keysDown[r[i]]
    {
      assert r[i] == l[i - 3] && l[i - 3] in l;
    }
  }

  /**
   * Every held keycode among the 13 lowest appears in the report; a held
   * keycode that does not appear is above every reported one (it was
   * dropped because 13 lower ones are held).
   */
  lemma {:induction false} ReportKeepsLowest13(keysDown: seq<bool>, k: Byte)
    requires |keysDown| == 0x100 && keysDown[k]
    ensures var l, r := KeyList(keysDown), Report(KeyList(keysDown));
      k in r[3..] || (|l| > REPORT_KEYS && forall i | 3 <= i < HID_REPORT_SIZE :: r[i] < k)
  {
    HeldBelowMembership(keysDown, 0x100);
    HeldBelowAscending(keysDown, 0x100);
    var l, r := KeyList(keysDown), Report(KeyList(keysDown));
    assert k in l;
    var p :| 0 <= p < |l| && l[p] == k;
    if p < REPORT_KEYS {
      assert r[3 + p] == k;
      assert r[3..][p] == k;
    } else {
      forall i | 3 <= i < HID_REPORT_SIZE
        ensures r[i] < k
      {
        assert r[i] == l[i - 3];
      }
    }
  }

  /**
   * The helper's state: the held-key table and, as a ghost log, each
   * report written to the keyboard gadget.
   */
  class Helper {
    const keysDown: array<bool>
    ghost var reports: seq<seq<Byte>>

    ghost predicate Valid()
      reads this
    {
      keysDown.Length == 0x100
    }

    /** `keys_down` starts all false and nothing has been written. */
    constructor ()
      ensures Valid() && fresh(keysDown) && reports == []
      ensures forall k | 0 <= k < 0x100 :: !keysDown[k]
    {
      keysDown := new bool[0x100](_ => false);
      reports := [];
    }

    /**
     * read_event after recvmsg returned `ret`: a key event sets its key's
     * entry in `keys_down`, leaves every other entry alone and writes the
     * report built from the new table; any other message changes nothing.
     */
    method ReadEvent(ret: int, payload: seq<Byte>)
      requires Valid() && |payload| >= 4
      modifies keysDown, this`reports
      ensures Valid()
      ensures match KeyEvent(ret, payload)
        case None => keysDown[..] == old(keysDown[..]) && reports == old(reports)
        case Some(ev) =>
          keysDown[..] == old(keysDown[..])[ev.0 := ev.1] &&
          reports == old(reports) + [Report(KeyList(keysDown[..]))]
    {
      if ret < 0 {
        return;
      }
      var at := 0;
      if payload[0] == HELPER_MSG_GENERIC {
        at := 1;
      }
      if payload[at] == HELPER_KEYCODE_HID {
        var ch := payload[at + 1];
        var pressed := payload[at + 2] != 0;
        keysDown[ch] := pressed;
        var keyList, keyCount := ListKeys();
        var buf := FillReport(keyList, keyCount);
        reports := reports + [buf];
      }
    }
  
    /** The counting loop: `key_list` holds the held keycodes in ascending order, then zeros. */
    method ListKeys() returns (keyList: seq<Byte>, keyCount: nat)
      requires Valid()
      ensures |keyList| == 0x100 && keyCount <= 0x100
      ensures keyList[..keyCount] == KeyList(keysDown[..])
      ensures forall j | keyCount <= j < 0x100 :: keyList[j] == 0
    {
      var list := new Byte[0x100](_ => 0);
      keyCount := 0;
      for i := 0 to 0x100
        invariant keyCount <= i
        invariant list[..keyCount] == HeldBelow(keysDown[..], i)
        invariant forall j | keyCount <= j < 0x100 :: list[j] == 0
      {
        if keysDown[i] {
          list[keyCount] := i;
          keyCount := keyCount + 1;
        }
      }
      keyList := list[..];
    }
  }

  /** The report loop: bytes 3..15 copy `key_list[0..12]` after the three header bytes. */
  method FillReport(keyList: seq<Byte>, keyCount: nat) returns (report: seq<Byte>)
    requires |keyList| == 0x100 && keyCount <= 0x100
    requires forall j | keyCount <= j < 0x100 :: keyList[j] == 0
    ensures report == Report(keyList[..keyCount])
  {
    var buf := new Byte[HID_REPORT_SIZE](_ => 0);
    buf[0] := Gadget.REPORT_ID_KEYBOARD;
    buf[1] := 0;
    buf[2] := 0;
    for x := 3 to HID_REPORT_SIZE
      invariant buf[0] == Gadget.REPORT_ID_KEYBOARD && buf[1] == 0 && buf[2] == 0
      invariant forall y | 3 <= y < x :: buf[y] == keyList[y - 3]
    {
      buf[x] := keyList[x - 3];
    }
    report := buf[..];
    assert report == Report(keyList[..keyCount]) by {
      var r := Report(keyList[..keyCount]);
      forall y | 0 <= y < HID_REPORT_SIZE
        ensures report[y] == r[y]
      {
      }
    }
  }
}
