/**
 * The kernel module's matrix scan (qmk_scan): each column word of the new
 * state is compared with the one kept from the previous scan, every row
 * whose bit changed becomes a matrix event for the dispatcher, and the new
 * state then replaces the old one. The GPIO reads that build the new state
 * are a parameter: `asserted[col][row]` is what row_asserted reported while
 * that column was driven.
 */
module Scan {
  import opened Keymap
  import opened Dispatch

  const MATRIX_MAX_COLS: nat := 32
  const MATRIX_MAX_ROWS: nat := 32

  /** A `uint32_t` column word as the set of its set bits; bit `row` is that row's key. */
  type ColumnWord = set<nat>

  /** `last ^ new`: the rows whose bit differs. */
  function Changed(last: ColumnWord, next: ColumnWord): (d: ColumnWord)
    ensures forall r :: r in d <==> (r in last) != (r in next)
  {
    (last - next) + (next - last)
  }

  /** The events of one column for the rows below n, in ascending row order. */
  function ColumnEvents(last: ColumnWord, next: ColumnWord, col: nat, n: nat): seq<MatrixEvent>
  {
    if n == 0 then []
    else
      ColumnEvents(last, next, col, n - 1) +
      (if n - 1 in Changed(last, next) then [MatrixEvent(n - 1, col, n - 1 in next)] else [])
  }

  /** The events of the columns below n, column by column. */
  function Events(last: seq<ColumnWord>, next: seq<ColumnWord>, rows: nat, n: nat): seq<MatrixEvent>
    requires n <= |last| && n <= |next|
  {
    if n == 0 then []
    else Events(last, next, rows, n - 1) + ColumnEvents(last[n - 1], next[n - 1], n - 1, rows)
  }

  /** The event a cell produces when its bit changed: its row, its column and its new bit. */
  predicate IsChange(last: ColumnWord, next: ColumnWord, col: nat, rows: nat, ev: MatrixEvent)
  {
    ev.col == col && ev.row < rows && (ev.row in last) != (ev.row in next) && ev.pressed == (ev.row in next)
  }

  /** A column yields exactly one event per changed row below n, carrying the new bit. */
  lemma {:induction false} ColumnEventsMembership(last: ColumnWord, next: ColumnWord, col: nat, n: nat)
    ensures forall ev :: ev in ColumnEvents(last, next, col, n) <==> IsChange(last, next, col, n, ev)
  {
    if n > 0 {
      ColumnEventsMembership(last, next, col, n - 1);
    }
  }

  /** Rows strictly increase along the sequence. */
  predicate RowsAscending(s: seq<MatrixEvent>)
  {
    forall i, j | 0 <= i < j < |s| :: s[i].row < s[j].row
  }

  /** Within a column the rows strictly increase. */
  lemma {:induction false} ColumnEventsAscending(last: ColumnWord, next: ColumnWord, col: nat, n: nat)
    ensures RowsAscending(ColumnEvents(last, next, col, n))
  {
    if n > 0 {
      ColumnEventsAscending(last, next, col, n - 1);
      ColumnEventsMembership(last, next, col, n - 1);
      var s, t := ColumnEvents(last, next, col, n - 1), ColumnEvents(last, next, col, n);
      forall i, j | 0 <= i < j < |t|
        ensures t[i].row < t[j].row
      {
        assert t[i] == s[i];
        if j < |s| {
          assert t[j] == s[j];
        } else {
          assert s[i] in s && t[j].row == n - 1;
        }
      }
    }
  }

  /** Cell (row, col) yields an event iff its bit changed; the event's press flag is the new bit. */
  lemma {:induction false} EventsMembership(last: seq<ColumnWord>, next: seq<ColumnWord>, rows: nat, n: nat)
    requires n <= |last| && n <= |next|
    ensures forall ev :: ev in Events(last, next, rows, n) <==>
      ev.col < n && IsChange(last[ev.col], next[ev.col], ev.col, rows, ev)
  {
    if n > 0 {
      EventsMembership(last, next, rows, n - 1);
      ColumnEventsMembership(last[n - 1], next[n - 1], n - 1, rows);
      var a, b := Events(last, next, rows, n - 1), ColumnEvents(last[n - 1], next[n - 1], n - 1, rows);
      forall ev: MatrixEvent
        ensures ev in a + b <==> ev.col < n && IsChange(last[ev.col], next[ev.col], ev.col, rows, ev)
      {
        assert ev in a + b <==> ev in a || ev in b;
      }
    }
  }

  /** `a` comes before `b` in a scan: an earlier column, or the same column and an earlier row. */
  predicate Before(a: MatrixEvent, b: MatrixEvent)
  {
    a.col < b.col || (a.col == b.col && a.row < b.row)
  }

  /** Each event comes before every later one. */
  predicate InScanOrder(s: seq<MatrixEvent>)
  {
    forall i, j | 0 <= i < j < |s| :: Before(s[i], s[j])
  }

  /** Events come in ascending column order and, within a column, ascending row order. */
  lemma {:induction false} EventsOrdered(last: seq<ColumnWord>, next: seq<ColumnWord>, rows: nat, n: nat)
    requires n <= |last| && n <= |next|
    ensures InScanOrder(Events(last, next, rows, n))
  {
    if n > 0 {
      EventsOrdered(last, next, rows, n - 1);
      EventsMembership(last, next, rows, n - 1);
      ColumnEventsMembership(last[n - 1], next[n - 1], n - 1, rows);
      ColumnEventsAscending(last[n - 1], next[n - 1], n - 1, rows);
      var a, b := Events(last, next, rows, n - 1), ColumnEvents(last[n - 1], next[n - 1], n - 1, rows);
      var s := a + b;
      forall i, j | 0 <= i < j < |s|
        ensures Before(s[i], s[j])
      {
        if j < |a| {
          assert s[i] == a[i] && s[j] == a[j];
        } else if i < |a| {
          assert s[i] == a[i] && a[i] in a;
          assert s[i].col < n - 1;
          assert s[j] == b[j - |a|] && b[j - |a|] in b;
          assert s[j].col == n - 1;
        } else {
          assert s[i] == b[i - |a|] && s[j] == b[j - |a|];
          assert s[i] in b && s[j] in b;
        }
      }
    }
  }

  /** A scan whose new state equals the kept one produces no events. */
  lemma {:induction false} UnchangedStateNoEvents(s: seq<ColumnWord>, rows: nat, n: nat)
    requires n <= |s|
    ensures Events(s, s, rows, n) == []
  {
    if n > 0 {
      UnchangedStateNoEvents(s, rows, n - 1);
      var w := s[n - 1];
      assert Changed(w, w) == {} by {
        assert forall r :: r !in Changed(w, w);
      }
      NoChangeNoColumnEvents(w, w, n - 1, rows);
    }
  }

  /** A column whose word did not change yields no events. */
  lemma NoChangeNoColumnEvents(last: ColumnWord, next: ColumnWord, col: nat, n: nat)
    requires Changed(last, next) == {}
    ensures ColumnEvents(last, next, col, n) == []
  {
    ColumnEventsMembership(last, next, col, n);
  }

  /** After a scan stores the new state, feeding the same state again produces no events. */
  lemma RescanIsQuiet(stored: seq<ColumnWord>, rows: nat)
    requires |stored| == MATRIX_MAX_COLS
    ensures Events(stored, stored, rows, MATRIX_MAX_COLS) == []
  {
    UnchangedStateNoEvents(stored, rows, MATRIX_MAX_COLS);
  }

  /**
   * A basic keycode is sent twice per event: once by process_basic and once
   * more by the scan's own send_keycode call.
   */
  lemma BasicKeySentTwice(q: Quantum.Layout, k: int, pressed: bool, ls: LayerState)
    requires q.Valid() && 0 <= k < 0xFF
    ensures HandlerChain(q, k, pressed, ls).emitted + [(k % 0x100, pressed)] == [(k, pressed), (k, pressed)]
  {
    BasicKeycodeSentOnce(q, k, pressed, ls);
  }

  /**
   * The read loop: `new_state` starts zeroed and each driven column ORs in
   * the bit of every asserted row below `rows`.
   */
  method ReadMatrix(asserted: seq<seq<bool>>, rows: nat, cols: nat) returns (state: seq<ColumnWord>)
    requires rows <= MATRIX_MAX_ROWS && cols <= MATRIX_MAX_COLS
    requires |asserted| >= cols && forall c | 0 <= c < cols :: |asserted[c]| >= rows
    ensures |state| == MATRIX_MAX_COLS
    ensures forall c, r: nat | 0 <= c < MATRIX_MAX_COLS :: r in state[c] <==> c < cols && r < rows && asserted[c][r]
  {
    var newState := new ColumnWord[MATRIX_MAX_COLS](_ => {});
    var col := 0;
    while col < cols
      invariant col <= cols
      invariant forall c, r: nat | 0 <= c < MATRIX_MAX_COLS :: r in newState[c] <==> c < col && r < rows && asserted[c][r]
    {
      var row := 0;
      while row < rows
        invariant row <= rows
        invariant forall c, r: nat | 0 <= c < MATRIX_MAX_COLS && c != col ::
          r in newState[c] <==> c < col && r < rows && asserted[c][r]
        invariant forall r: nat :: r in newState[col] <==> r < row && asserted[col][r]
      {
        if asserted[col][row] {
          newState[col] := newState[col] + {row};
        }
        row := row + 1;
      }
      col := col + 1;
    }
    state := newState[..];
  }

  /**
   * The polled device's scan state: the dispatcher's keyboard, the column
   * words kept from the previous scan (`last_key_state`), each matrix event
   * handed to process_keycode, and each keycode the scan warned about.
   */
  class Scanner {
    const kb: Keyboard
    const lastKeyState: array<ColumnWord>
    ghost var events: seq<MatrixEvent>
    ghost var warned: seq<int>

    ghost predicate Valid()
      reads this, kb, kb.layerWhenPressed, lastKeyState
    {
      kb.Valid() && lastKeyState.Length == MATRIX_MAX_COLS &&
      kb.table.g.rows <= MATRIX_MAX_ROWS && kb.table.g.cols <= MATRIX_MAX_COLS
    }

    /**
     * The module is zero-allocated: every kept column word starts empty.
     * The matrix fits the scan's `new_state[MATRIX_MAX_COLS]` of 32-bit
     * column words.
     */
    constructor (kb: Keyboard)
      requires kb.Valid() && kb.table.g.rows <= MATRIX_MAX_ROWS && kb.table.g.cols <= MATRIX_MAX_COLS
      ensures Valid() && this.kb == kb && fresh(lastKeyState)
      ensures lastKeyState[..] == seq(MATRIX_MAX_COLS, _ => {})
      ensures events == [] && warned == []
    {
      this.kb := kb;
      lastKeyState := new ColumnWord[MATRIX_MAX_COLS](_ => {});
      events := [];
      warned := [];
    }

    /**
     * One changed cell: process_keycode, the warning when its result equals
     * QMK_UNHANDLED_KEYCODE, then send_keycode with the keycode it left.
     * The bool result converts to 1 exactly when the keycode was handled, so
     * the warning fires for handled keycodes.
     */
    method ScanEvent(ev: MatrixEvent) returns (keycode: int)
      requires Valid() && ev.row < kb.table.g.rows && ev.col < kb.table.g.cols
      modifies this`events, this`warned, kb, kb.layerWhenPressed
      ensures Valid() && events == old(events) + [ev]
      ensures var scanned := ResolveLayer(kb.table, old(kb.layerState), ev.row, ev.col);
        var used := if ev.pressed then scanned else old(kb.layerWhenPressed[ev.row, ev.col]);
        var h := HandlerChain(kb.q, kb.table.At(used, ev.row, ev.col), ev.pressed, old(kb.layerState));
        keycode == kb.table.At(used, ev.row, ev.col) &&
        kb.activeLayer == scanned && kb.layerState == h.layerState &&
        kb.sent == old(kb.sent) + h.emitted + [(keycode % 0x100, ev.pressed)] &&
        warned == old(warned) + (if h.handled then [keycode] else []) &&
        forall r, c | 0 <= r < kb.table.g.rows && 0 <= c < kb.table.g.cols ::
          kb.layerWhenPressed[r, c] ==
            if ev.pressed && r == ev.row && c == ev.col then scanned else old(kb.layerWhenPressed[r, c])
    {
      var handled;
      handled, keycode := kb.ProcessKeycode(ev);
      var status := if handled then 1 else 0;
      if status == QMK_UNHANDLED_KEYCODE {
        warned := warned + [keycode];
      }
      kb.SendKeycode(keycode, ev.pressed);
      events := events + [ev];
    }

    /**
     * The change-detection pass over a new state: every changed cell in
     * column-then-row order goes through ScanEvent, and the new state then
     * replaces the kept one. Each event reaches the sink at least once.
     */
    method Scan(newState: seq<ColumnWord>)
      requires Valid() && |newState| == MATRIX_MAX_COLS
      modifies this`events, this`warned, kb, kb.layerWhenPressed, lastKeyState
      ensures Valid()
      ensures events == old(events) + Events(old(lastKeyState[..]), newState, kb.table.g.rows, kb.table.g.cols)
      ensures |kb.sent| - |old(kb.sent)| >= |events| - |old(events)|
      ensures lastKeyState[..] == newState
    {
      ghost var last := lastKeyState[..];
      var rows, cols := kb.table.g.rows, kb.table.g.cols;
      var col := 0;
      while col < cols
        invariant col <= cols && Valid()
        invariant forall i | 0 <= i < MATRIX_MAX_COLS :: lastKeyState[i] == last[i]
        invariant events == old(events) + Events(last, newState, rows, col)
        invariant |kb.sent| - |old(kb.sent)| >= |events| - |old(events)|
      {
        var lastWord := lastKeyState[col];
        var changed := Changed(lastWord, newState[col]);
        ghost var before := events;
        if changed != {} {
          ScanColumn(col, lastWord, newState[col], changed);
        } else {
          NoChangeNoColumnEvents(last[col], newState[col], col, rows);
        }
        assert events == before + ColumnEvents(last[col], newState[col], col, rows);
        assert Events(last, newState, rows, col + 1) == Events(last, newState, rows, col) + ColumnEvents(last[col], newState[col], col, rows);
        col := col + 1;
      }
      StoreState(newState);
    }

    /** `memcpy(last_key_state, new_state, ...)`: the new state is kept for the next scan. */
    method StoreState(newState: seq<ColumnWord>)
      requires lastKeyState.Length == |newState|
      modifies lastKeyState
      ensures lastKeyState[..] == newState
    {
      forall i | 0 <= i < lastKeyState.Length {
        lastKeyState[i] := newState[i];
      }
    }

    /** The row loop over one changed column: each row whose bit differs goes through ScanEvent. */
    method ScanColumn(col: nat, last: ColumnWord, next: ColumnWord, changed: ColumnWord)
      requires Valid() && col < kb.table.g.cols
      requires changed == Changed(last, next)
      modifies this`events, this`warned, kb, kb.layerWhenPressed
      ensures Valid()
      ensures events == old(events) + ColumnEvents(last, next, col, kb.table.g.rows)
      ensures |kb.sent| - |old(kb.sent)| >= |events| - |old(events)|
    {
      var rows := kb.table.g.rows;
      var row := 0;
      while row < rows
        invariant row <= rows && Valid()
        invariant events == old(events) + ColumnEvents(last, next, col, row)
        invariant |kb.sent| - |old(kb.sent)| >= |events| - |old(events)|
      {
        if row in changed {
          var pressed := row in next;
          var _ := ScanEvent(MatrixEvent(row, col, pressed));
        }
        row := row + 1;
      }
    }
  }
}
