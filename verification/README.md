# qmk_kernel_module, modelled in Dafny

This project models the keyboard core of qmk_kernel_module, a Linux
port of the QMK keyboard firmware. The model covers these parts:

- **Keycode vocabulary** (`Keycodes`, `Scancodes`). The 8-bit HID
  keycodes with their range predicates and modifier bits, and the table
  from HID keycodes to Linux input scancodes.
- **Keymap entry word** (`KeyWord`). The 32-bit device-tree word that
  packs layer, row, column and keycode.
- **Flat keymap table** (`Keymap`). Its shift-based index, in both the
  `+`-composed form of the current library and the `|`-composed form of
  the older one.
- **Keymap loading** (`KeymapBuild`). `qmk_parse_properties`,
  `qmk_map_key`, `qmk_parse_keymap` and `qmk_build_keymap` fill the
  input device's keycode table and its `keybit` set.
- **Current library dispatcher** (`Dispatch`). `process_keycode` runs
  the transparent-aware layer scan and records the layer at press time
  (`layer_when_pressed`). It then runs the handler chain
  `process_layer || process_mods || process_basic` over a 16-bit layer
  state and sends (keycode, pressed) pairs to the protocol sink.
- **Older library dispatcher** (`LegacyDispatch`). It has a
  `uint8_t`-counted scan, a `|`-composed index and no modifier handler.
- **Kernel module dispatcher** (`KernelDispatch`). `qmk_process_keycode`
  uses an `unsigned long` layer state, a scan from bit 16 down to bit 1,
  and scancode reporting.
- **Matrix scan** (`Scan`). `qmk_scan` reads the matrix into column
  words, turns each changed bit into a matrix event for the dispatcher,
  and keeps the new state for the next scan.
- **Userspace helpers** (`HidHelper`, `KeyNames`, `Gadget`, `Display`).
  These cover:
  - the HID helper's `read_event`, with its held-key table and 16-byte
    keyboard report;
  - the `keycode_to_string` name table;
  - the gadget's system and consumer usage tables and report IDs;
  - the graphical helper's `handle_message` and the selection rules of
    its drawing code.
- **Wire tags** (`Wire`). The message tags of the netlink socket.

State that the C code updates in place is modelled as classes:

| class | what it holds |
|---|---|
| `Dispatch.Keyboard` | layer state, active layer, `layer_when_pressed` as an `array2`, and a ghost log of sent keycodes |
| `KernelDispatch.Keyboard` | layer word, and ghost logs of reported scancodes and warnings |
| `Scan.Scanner` | `last_key_state` as an `array` |
| `KeymapBuild.InputDev` | the keycode table as an `array`, and `keybit` |
| `HidHelper.Helper` | `keys_down` as an `array` |
| `Display.Screen` | the helper's globals and the pressed flags of the on-screen layout |

Each method is proved against a specification function of the inputs
and the old state. The properties are lemmas about those functions, and
one method that chains several dispatcher calls:

- the layer scan picks the highest active non-transparent layer;
- a key is released with the code of the layer it was pressed on, whatever
  other events come between (`Dispatch.Keyboard.PressHoldRelease`);
- modifier bundles send exactly their flagged modifiers;
- loading a keymap stores the last entry for each cell;
- the entry word round-trips;
- scan events come out exactly for changed cells, in column-then-row
  order;
- the HID report keeps the 13 lowest held keys;
- the display decodes the 16-bit layer state byte-exactly.

Three behaviours of the code are worth knowing:

- **A basic key reaches the sink twice per event.** `qmk_scan` calls
  `send_keycode` itself after `process_keycode`, whose `process_basic`
  has already sent the key (`Scan.BasicKeySentTwice`).
- **The "unhandled keycode" warning fires for handled keycodes.**
  `process_keycode` returns a `bool`, and `true` converts to 1, which is
  `QMK_UNHANDLED_KEYCODE` (`Scan.Scanner.ScanEvent`).
- **RCTL(c) sends all four right-hand modifiers.** With QMK's published
  quantum values, `QK_RCTL` (0x1100) shares the `QK_RMODS_MIN` bit with
  every right-hand flag (`Dispatch.UpstreamRightBundleSendsAllRightMods`).

Where the code and the written design differ, the model follows the
code:

- A modifier bundle's release sends the base key first, then the same
  modifiers in the same order as the press. The design describes a
  reversed order (`Dispatch.ReleaseOrderNotReversed`).
- Momentary and layer-tap keys clear their bit on release even for
  layer 0. The design says bit 0 is never cleared
  (`Dispatch.LayerZeroReleaseEmptiesState`).
- A layer-tap release never sends its base key. The timer pointer is a
  local variable that is only set on the press path, so the tap branch
  is dead (`Dispatch.LayerTapToggles`).
- `active_layer` is the result of the transparent-aware scan, not the
  highest set bit of the layer state.

Design notes:

- **Layer state as a set.** `layer_state` is modelled as the set of its
  set bits. The code only tests, sets and clears single bits, so the set
  is exact for it. The word's width is explicit:
  - a bit at or past 16 cannot be set in the library (`uint16_t`);
  - a bit at or past 64 cannot be set in the kernel (`unsigned long`);
  - in both cases the set is unchanged.
- **Quantum keycode ranges.** `QK_MODS`, `QK_LAYER_TAP`, `QK_TO`,
  `QK_MOMENTARY` and the modifier flags come from a header that is not
  part of this model. They are a parameter (`Quantum.Layout`) with the
  properties the dispatcher relies on. QMK's published values appear as
  the constant `Quantum.Upstream`.

## Model

| member | source | states |
|---|---|---|
| Bits.CountOrder | module/qmk_keymap.c:93-94 | get_count_order(n) is the least k with n ≤ 2^k |
| Keycodes.ModIndex | lib/qmk/keycodes/basic.h:47 | MOD_INDEX is one of the eight bit positions of a byte |
| Keycodes.ModBit | lib/qmk/keycodes/basic.h:46-47 | MOD_BIT is a one-byte mask with exactly one bit set, at position MOD_INDEX |
| Keycodes.KeyAndModDisjoint | lib/qmk/keycodes/basic.h:31-32 | IS_KEY is exactly 0x04..0xA4, IS_MOD exactly 0xE0..0xE7, and no code is both |
| Keycodes.ModBitOrdered | lib/qmk/keycodes/basic.h:46-47 | the modifiers KC_LCTRL..KC_RGUI map in order onto bits 0..7 |
| Keycodes.ModBitBijective | lib/qmk/keycodes/basic.h:46-47 | distinct modifiers get distinct bits and every bit belongs to a modifier |
| Keycodes.ModMasks | lib/qmk/keycodes/basic.h:49-52 | MOD_MASK_CTRL, _SHIFT, _ALT, _GUI are 0x11, 0x22, 0x44, 0x88 |
| Keycodes.TransparentIsErrorCode | lib/qmk/keycodes/basic.h:74-75 | KC_TRNS is KC_ROLL_OVER: an error code, outside IS_ANY |
| Keycodes.FnIndexBijective | lib/qmk/keycodes/basic.h:65-68 | FN_INDEX is a bijection from KC_FN0..KC_FN31 (0xC0..0xDF) onto 0..31 |
| Keycodes.SpecialRangesDisjoint | lib/qmk/keycodes/basic.h:34-40 | system, consumer and mouse-key ranges are 0xA5..0xA7, 0xA8..0xBE, 0xF0..0xFF and pairwise disjoint |
| Keycodes.MousekeyPartition | lib/qmk/keycodes/basic.h:40-44 | move, button, wheel and accel ranges partition the mouse-key range |
| Scancodes.ErrorCodesUnmapped | src/qmk_scancodes.h:6-10 | KC_NO and the three error codes map to KEY_RESERVED |
| Scancodes.LettersInOrder | src/qmk_scancodes.h:11-36 | KC_A..KC_Z map to KEY_A..KEY_Z in order |
| Scancodes.UnsupportedKeys | src/qmk_scancodes.h:57-77 | KC_NONUS_HASH and KC_PSCREEN have no scancode |
| Scancodes.SystemKeysAndCalculator | src/qmk_scancodes.h:174-189 | the system keys map to power, sleep, wakeup; KC_CALCULATOR maps to KEY_CALENDAR |
| Scancodes.FnUnmapped | src/qmk_scancodes.h:203-204 | every Fn keycode maps to KEY_RESERVED |
| Scancodes.ModifiersInOrder | src/qmk_scancodes.h:207-214 | the eight modifier keycodes map to the left then right ctrl, shift, alt, meta keys |
| Scancodes.TailUnmapped | src/qmk_scancodes.h:214-216 | every keycode above KC_RGUI (the mouse keys) maps to KEY_RESERVED |
| Scancodes.MappedOnlyFromKnownRanges | src/qmk_scancodes.h:6-216 | a keycode with a real scancode is a key, system, consumer or modifier code |
| KeyWord.KeyLayer | include/qmk.h:20 | KEY_LAYER is below 16 |
| KeyWord.KeyRow | include/qmk.h:21 | KEY_ROW is below 32 |
| KeyWord.KeyCol | include/qmk.h:22 | KEY_COL is below 32 |
| KeyWord.KeyVal | include/qmk.h:23 | KEY_VAL is below 2^16 |
| KeyWord.DecodeEncode | include/dt-bindings_input.h:16-18 | unpacking LAYER_MATRIX_KEY gives back every field reduced to its width |
| KeyWord.DecodeEncodeInRange | include/dt-bindings_input.h:16-18 | in range, unpacking a packed word gives back exactly its fields |
| KeyWord.EncodeBelow30Bits | include/dt-bindings_input.h:16-18 | a packed word is below 2^30 |
| KeyWord.EncodeDecode | include/qmk.h:20-23 | every word below 2^30 is the packing of its own four fields |
| KeyWord.FieldsDisjoint | include/qmk.h:20-23 | the four field masks are pairwise disjoint and cover bits 0-29 |
| KeyWord.Decode | include/qmk.h:20-23 | an entry word's fields lie within MATRIX_MAX_LAYERS, _ROWS, _COLS and 16 bits |
| KeyWord.DecodePacked | include/dt-bindings_input.h:16-18 | a word packed from in-width fields decodes to exactly those fields |
| Keymap.Table.At | lib/libqmk/keymap.c:5-11 | keycode_from_keymap on a valid table yields a 16-bit keycode |
| Keymap.CellOffsetBound | module/qmk_keymap.c:93-95 | the column lies below 2^row_shift and the row-and-column offset below 2^layer_shift |
| Keymap.IndexInBounds | lib/libqmk/keymap.c:8-11 | an in-bounds cell's index lies inside the layers << layer_shift table |
| Keymap.IndexInjective | lib/libqmk/keymap.c:8-11 | distinct in-bounds cells have distinct indices |
| Keymap.RowShiftBelowLayerShift | module/qmk_keymap.c:93-94 | row_shift never exceeds layer_shift |
| Keymap.OrIndexAgrees | lib/qmk/keymap.c:8-11 | in bounds, the `|`-composed index equals the `+`-composed one |
| Keymap.OrIndexDivergesOutOfBounds | lib/qmk/keymap.c:8-11 | out of bounds the two differ: column 4 of row 1 on a 4x4 matrix is 4 under `|`, 8 under `+` |
| KeymapBuild.Slot | module/qmk_keymap.c:52-53 | a valid entry is stored at an index inside the table |
| KeymapBuild.FirstInvalid | module/qmk_keymap.c:128-134 | the number of leading valid entries is at most the list's length |
| KeymapBuild.FirstInvalidIsFirst | module/qmk_keymap.c:128-134 | every entry before FirstInvalid is valid and the one at it is not |
| KeymapBuild.FirstInvalidAt | module/qmk_keymap.c:128-134 | up to FirstInvalid, the loop goes on past entry i exactly when that entry is valid |
| KeymapBuild.WriteAllReadBack | module/qmk_keymap.c:201-208 | after loading, each cell reads back the code of the last entry for it, or its old content |
| KeymapBuild.LoadStep | module/qmk_keymap.c:52-56 | one more valid entry writes its code at its slot and adds its scancode bit |
| KeymapBuild.WriteAllKeeps16Bit | module/qmk_keymap.c:52-53 | loading into a 16-bit table keeps it a valid 16-bit table |
| KeymapBuild.SingleEntryStored | module/qmk_keymap.c:40-53 | an entry addressing an in-bounds cell is accepted and reads back at that cell |
| KeymapBuild.PackedEntryStored | include/dt-bindings_input.h:16-18 | a LAYER_MATRIX_KEY word for an in-bounds cell is accepted and stores its code there |
| KeymapBuild.ParseProperties | module/qmk_keymap.c:70-86 | missing properties read as 0; the result is 0 iff all three are non-zero, else -EINVAL |
| KeymapBuild.InputDev.MapKey | module/qmk_keymap.c:34-59 | out-of-matrix entries are rejected with nothing written; otherwise the code is stored at its slot and a basic code's scancode bit is set |
| KeymapBuild.InputDev.MapKeys | module/qmk_keymap.c:128-134 | entries are stored in order up to the first invalid one; success iff there is none |
| KeymapBuild.InputDev.ParseKeymap | module/qmk_keymap.c:88-141 | size ≤ 0 returns the size's own error or -EINVAL, size above the table -EINVAL, else the entries are loaded up to the first invalid one |
| KeymapBuild.InputDev.BuildKeymap | module/qmk_keymap.c:171-219 | a zeroed table of layers << layer_shift cells is installed and loaded from platform data or the property; KEY_RESERVED is cleared from keybit only on success |
| KeymapBuild.Zeros | module/qmk_keymap.c:185-187 | devm_kcalloc's table: n zero cells |
| KeymapBuild.BuiltTableReadsBack | module/qmk_keymap.c:171-219 | after a successful build every entry was valid and each cell holds its last entry's code, or 0 |
| KeymapBuild.BuildErrorIsNegative | module/qmk_keymap.c:171-219 | a failed build returns a negative value: -EINVAL or the property's own error |
| Dispatch.SetLayerBit | lib/libqmk/keycodes/process/layer.c:40-41 | `|= 1UL << layer` sets exactly bit layer within the 16-bit field and no other |
| Dispatch.ClearLayerBit | lib/libqmk/keycodes/process/layer.c:42-43 | `&= ~(1UL << layer)` clears exactly bit layer |
| Dispatch.HighestSelectable | lib/libqmk/keycodes/process.c:49-56 | the scan's result is a layer of the table |
| Dispatch.HighestSelectableIsHighest | lib/libqmk/keycodes/process.c:49-56 | the scan picks the highest layer that is on and not transparent at the cell, else 0 |
| Dispatch.ResolveLayerIsHighest | lib/libqmk/keycodes/process.c:49-56 | over all the keymap's layers: highest active non-transparent layer, or 0 when none |
| Dispatch.BasicKeycodeSentOnce | lib/libqmk/keycodes/process.c:22-30 | a keycode below 0xFF is handled, sent once unchanged, and leaves the layer state alone |
| Dispatch.UnknownKeycodeUnhandled | lib/libqmk/keycodes/process.c:68-70 | a code ≥ 0xFF in no quantum range is unhandled, sends nothing, changes nothing |
| Dispatch.LayerCodesSendNothing | lib/libqmk/keycodes/process/layer.c:5-50 | layer-tap, goto and momentary codes are handled and send nothing |
| Dispatch.ModsBundleOnlyMods | lib/libqmk/keycodes/process.c:68-70 | a modifier bundle is handled by process_mods alone, layers untouched |
| Dispatch.LayerTapToggles | lib/libqmk/keycodes/process/layer.c:13-28 | layer-tap turns layer bits 8-11 on at press, off at release, and never sends the tap key |
| Dispatch.GotoIsNoOp | lib/libqmk/keycodes/process/layer.c:30-36 | a goto code is handled and leaves the layer state unchanged |
| Dispatch.MomentaryToggles | lib/libqmk/keycodes/process/layer.c:37-45 | momentary turns the low-byte layer on at press and off at release |
| Dispatch.PressThenReleaseClearsLayer | lib/libqmk/keycodes/process/layer.c:37-45 | press then release leaves the layer off whatever it was before |
| Dispatch.LayerZeroReleaseEmptiesState | lib/libqmk/keycodes/process/layer.c:37-45 | releasing a layer-0 key from the start-up state turns every layer off |
| Dispatch.ModsEmissionsShape | lib/libqmk/keycodes/process/mods.c:6-48 | a bundle sends at most four modifiers plus its base key, all with the event's press flag |
| Dispatch.ModifierEmissionsMembership | lib/libqmk/keycodes/process/mods.c:13-39 | with the QK_RMODS_MIN bit only right-hand modifiers are sent, else only left-hand ones, each exactly when its flag is set |
| Dispatch.ModifierEmissionsOrdered | lib/libqmk/keycodes/process/mods.c:13-39 | the modifiers are sent in ctrl, shift, alt, gui order |
| Dispatch.ModifierEmissionsReleased | lib/libqmk/keycodes/process/mods.c:13-39 | a release sends the same modifiers as the press, in the same order |
| Dispatch.ReleaseOrderNotReversed | lib/libqmk/keycodes/process/mods.c:11-41 | release sends the base key first, then the press's modifiers in the press's order |
| Dispatch.UpstreamCtrlShiftModifiers | lib/libqmk/keycodes/process/mods.c:26-39 | with QMK's values, LCTL(LSFT(c)) sends left ctrl and left shift only |
| Dispatch.UpstreamCtrlShift | lib/libqmk/keycodes/process/mods.c:10-42 | LCTL(LSFT(c)) sends ctrl, shift, c down and c, ctrl, shift up |
| Dispatch.AllRightFlagsSendAllRightMods | lib/libqmk/keycodes/process/mods.c:13-25 | a right-hand bundle carrying every right flag sends all four right modifiers in order |
| Dispatch.UpstreamRightBundleSendsAllRightMods | lib/libqmk/keycodes/process/mods.c:13-25 | with QMK's values, RCTL(c) sends all four right modifiers |
| Dispatch.StaticCaptureOffset | lib/libqmk/keycodes/process.c:39 | a cell inside 16 x 16 addresses an element of the static `layer_when_pressed` array |
| Dispatch.StaticCaptureOverruns | lib/libqmk/keycodes/process.c:39-64 | an event the row and column checks let through can address past the 16 x 16 array, or share another cell's element |
| Dispatch.Keyboard.constructor | module/qmk_main.c:264 | the keyboard starts with only layer 0 on, nothing captured, nothing sent |
| Dispatch.Keyboard.SendKeycode | lib/libqmk/keycodes/process.c:26 | send_keycode passes the keycode as a one-byte hid_keycode_t |
| Dispatch.Keyboard.ProcessBasic | lib/libqmk/keycodes/process.c:22-30 | handled iff the keycode is below 0xFF, and then the keycode is sent once |
| Dispatch.Keyboard.ProcessLayer | lib/libqmk/keycodes/process/layer.c:5-50 | the handled flag and new layer state are LayerEffect's |
| Dispatch.Keyboard.ProcessMods | lib/libqmk/keycodes/process/mods.c:6-48 | handled iff the code is a bundle; then exactly ModsEmissions is sent |
| Dispatch.Keyboard.SendModifiers | lib/libqmk/keycodes/process/mods.c:13-39 | the flag tests send exactly ModifierEmissions |
| Dispatch.Keyboard.SendModifier | lib/libqmk/keycodes/process/mods.c:14-16 | a modifier is sent iff the bundle carries its flag |
| Dispatch.Keyboard.ProcessKeycode | lib/libqmk/keycodes/process.c:32-71 | out-of-bounds events return a true status with KC_NO and no effect; otherwise the scanned layer becomes active, a press records it for the cell, a release uses the recorded one, and the handler chain's result is the new state and output |
| Dispatch.Keyboard.PressHoldRelease | lib/libqmk/keycodes/process.c:58-66 | a press, any events that do not press the same cell, then its release: the release reads the keycode the press read, from the layer the press resolved |
| Dispatch.Keyboard.FindLayer | lib/libqmk/keycodes/process.c:49-56 | the loop computes ResolveLayer |
| Dispatch.Keyboard.RunHandlers | lib/libqmk/keycodes/process.c:68-70 | the short-circuit chain's handled flag, layer state and output are HandlerChain's |
| LegacyDispatch.OrKeycode | lib/qmk/keymap.c:5-11 | the older keycode_from_keymap reads the same cell as the current one |
| LegacyDispatch.LegacyScanFrom | lib/qmk/keycodes/process.c:44-50 | the older scan finds nothing exactly when no layer is selectable, else the highest selectable one |
| LegacyDispatch.LegacyScanAgreesWhenFound | lib/qmk/keycodes/process.c:44-50 | when the older scan finds a layer, it is the one the current library resolves |
| LegacyDispatch.LegacyScanOverrunsOnEmptyState | lib/qmk/keycodes/process.c:44-50 | with every layer off, the `uint8_t` loop runs past layer 0 |
| LegacyDispatch.LegacyScanOverrunsOnTransparentBase | lib/qmk/keycodes/process.c:44-50 | at start-up a transparent layer-0 cell sends the loop past layer 0, where the current library picks 0 |
| LegacyDispatch.LegacyReleaseFollowsCurrentState | lib/qmk/keycodes/process.c:44-52 | with no press-time capture, a release resolves against the layer state of its own moment |
| LegacyDispatch.LegacyChain | lib/qmk/keycodes/process.c:54-61 | the older status is 0 or QMK_UNHANDLED_KEYCODE |
| LegacyDispatch.LegacyChainAgreesOutsideMods | lib/qmk/keycodes/process.c:54-61 | outside the bundle range the older chain handles what the current one does, with the same layer state |
| LegacyDispatch.LegacyModsBundleUnhandled | lib/qmk/keycodes/process.c:54-61 | with no modifier handler a bundle is QMK_UNHANDLED_KEYCODE and changes nothing |
| LegacyDispatch.LegacyKeyboard.ProcessKeycode | lib/qmk/keycodes/process.c:31-63 | row then column bounds errors; otherwise the scan's layer and LegacyChain's status and layer state, or no result when the loop overruns |
| KernelDispatch.SetBit | module/qmk_process.c:42 | exactly bit layer turns on, if the unsigned long has it |
| KernelDispatch.ClearBit | module/qmk_process.c:44 | exactly bit layer turns off |
| KernelDispatch.GotoIsNoOp | module/qmk_process.c:31-37 | a goto code is handled with no effect |
| KernelDispatch.MomentaryToggles | module/qmk_process.c:38-46 | momentary press sets exactly the low-byte bit, release clears exactly it |
| KernelDispatch.LayerTapUnhandled | module/qmk_process.c:26-51 | the kernel chain leaves a layer-tap code unhandled |
| KernelDispatch.Basic | module/qmk_process.c:53-62 | handled iff below 0xFF; otherwise the scancode is untouched |
| KernelDispatch.Chain | module/qmk_process.c:84-85 | handled iff goto, momentary or below 0xFF; a real scancode only comes from a basic code |
| KernelDispatch.ReportedScancodeIsKnown | module/qmk_process.c:53-62 | a reported scancode other than KEY_RESERVED comes from a key, system, consumer or modifier code |
| KernelDispatch.HighestBit | module/qmk_process.c:75-81 | the highest set bit among 1..n, or 0 when none |
| KernelDispatch.ScanLayer | module/qmk_process.c:75-82 | the kernel scan's layer is at most 16 |
| KernelDispatch.ScanIgnoresUpperCells | module/qmk_process.c:75-82 | the scan's choice depends only on the layer-0 cell and the layer bits |
| KernelDispatch.TransparentBaseHidesLayerOne | module/qmk_process.c:75-82 | layers 0 and 1 on with a transparent layer-0 cell: the kernel picks 0 where the library picks 1 |
| KernelDispatch.ScanLeavesTable | module/qmk_process.c:75-82 | on a one-layer keymap with bit 1 set the scan selects layer 1, outside the table |
| KernelDispatch.Keyboard.constructor | src/qmk_main.c:580 | the kernel keyboard is zero-allocated, so every layer bit starts clear; nothing reported |
| KernelDispatch.Keyboard.ProcessLayer | module/qmk_process.c:26-51 | the handled flag and new layer word are LayerEffect's |
| KernelDispatch.Keyboard.ProcessKeycode | module/qmk_process.c:64-94 | the scanned layer's code goes through Chain; its scancode is reported, whether handled or not, and unhandled codes are warned about; a scan past the table is flagged |
| KernelDispatch.Keyboard.RunHandlers | module/qmk_process.c:84-85 | the handler chain computes Chain, the scancode starting as KEY_RESERVED |
| KernelDispatch.Keyboard.FindLayer | module/qmk_process.c:75-81 | the loop computes ScanLayer |
| Scan.Changed | module/qmk_scan.c:131 | `last ^ new`: the rows whose bit differs |
| Scan.ColumnEventsMembership | module/qmk_scan.c:133-151 | a column yields exactly one event per changed row, carrying the new bit |
| Scan.ColumnEventsAscending | module/qmk_scan.c:133-151 | within a column, events come in ascending row order |
| Scan.EventsMembership | module/qmk_scan.c:128-153 | the scan yields an event for a cell iff its bit changed, pressed iff the new bit is set |
| Scan.EventsOrdered | module/qmk_scan.c:128-153 | events come column by column, rows ascending within each |
| Scan.UnchangedStateNoEvents | module/qmk_scan.c:131-132 | an unchanged state yields no events |
| Scan.NoChangeNoColumnEvents | module/qmk_scan.c:132 | a column with no changed bit yields no events |
| Scan.RescanIsQuiet | module/qmk_scan.c:156 | after the new state is stored, scanning the same state again yields no events |
| Scan.BasicKeySentTwice | module/qmk_scan.c:139-149 | a basic keycode reaches the sink twice per event |
| Scan.ReadMatrix | module/qmk_scan.c:114-126 | row r of column c is set iff c and r are inside the matrix and the row was asserted |
| Scan.Scanner.constructor | module/qmk_main.c:216-218 | the module is zero-allocated, so every kept column word starts empty |
| Scan.Scanner.ScanEvent | module/qmk_scan.c:139-149 | process_keycode runs, handled codes are warned about, and the keycode is sent once more |
| Scan.Scanner.Scan | module/qmk_scan.c:128-156 | the events processed are exactly Events(old state, new state), each reaches the sink at least once, and the new state is kept |
| Scan.Scanner.StoreState | module/qmk_scan.c:156 | the kept state becomes the new state |
| Scan.Scanner.ScanColumn | module/qmk_scan.c:133-151 | the row loop processes exactly ColumnEvents |
| Display.Draw | helper/qmk_ghelper.c:332-361 | a key shows its active layer's legend, or the base legend when that one is empty; white ink iff pressed, dark for a layer legend, grey for a fallback |
| Display.DrawNeverBlank | helper/qmk_ghelper.c:338-361 | a key with a base legend never shows a blank |
| Display.BaseLayerShowsBase | helper/qmk_ghelper.c:338-361 | on layer 0 a key shows its base legend in dark ink while released |
| Display.Cell | helper/qmk_ghelper.c:321 | a slot is drawn iff its width is non-zero |
| Display.PlanckKeysDimensions | helper/qmk_ghelper.c:41-42 | the layout has 8 rows of 6 slots |
| Display.RowsWellFormed | helper/qmk_ghelper.c:46-122 | every row of the layout holds six keys with short enough legends |
| Display.PlanckKeysShape | helper/qmk_ghelper.c:46-122 | every legend fits `char[8]`; a key is drawn iff it has a base legend; only the last slot of the last row is blank |
| Display.UpperLayersShowBase | helper/qmk_ghelper.c:46-122 | on layers 3..15 every key falls back to its base legend |
| Display.LayerStateOf | helper/qmk_ghelper.c:180 | the layer-state message's two bytes decode big-endian into a 16-bit value |
| Display.DecodeSplit | helper/qmk_ghelper.c:180 | decoding the two bytes of a 16-bit value gives it back |
| Display.SplitDecode | helper/qmk_ghelper.c:180 | splitting a decoded value gives back the message's bytes |
| Display.IndicatorIsBit | helper/qmk_ghelper.c:293 | indicator l is lit iff bit l of the layer state is set |
| Display.IndicatorsOfLowByte | helper/qmk_ghelper.c:287-299 | indicators 1..8 show the bits of the message's second byte |
| Display.IndicatorsOfHighByte | helper/qmk_ghelper.c:287-299 | indicators 9..16 show the bits of the message's first byte |
| Display.StartupIndicators | helper/qmk_ghelper.c:30 | at start-up only the first indicator is lit |
| Display.Screen.constructor | helper/qmk_ghelper.c:26-31 | start-up: redraw pending, layer 0, layer state 1, passthrough off, no key pressed |
| Display.Screen.HandleMessage | helper/qmk_ghelper.c:133-185 | each tag updates exactly its field; matrix and active-layer messages ask for a redraw, the others do not |
| Display.Screen.DrawIndicators | helper/qmk_ghelper.c:287-299 | the 16 indicators are the 16 bits of the layer state |
| Display.Screen.DrawKeys | helper/qmk_ghelper.c:319-361 | every slot is Cell of its key, pressed flag and active layer |
| Display.Screen.DrawRow | helper/qmk_ghelper.c:320-361 | every slot of one row is Cell of its key |
| HidHelper.HelperTagsDisagree | helper/qmk_helper.c:37-38 | the helper's tags are one below the socket header's |
| HidHelper.KeyEvent | helper/qmk_helper.c:429-439 | a successful receive starting with the keycode tag yields its (keycode, pressed) |
| HidHelper.GenericThenKeycode | helper/qmk_helper.c:432-439 | a generic message whose text starts with 0x02 is also taken as a key event |
| HidHelper.OtherMessagesIgnored | helper/qmk_helper.c:430-436 | a failed receive or any other tag yields no key event |
| HidHelper.HeldBelowMembership | helper/qmk_helper.c:454-458 | key_list holds a keycode iff it is held |
| HidHelper.HeldBelowAscending | helper/qmk_helper.c:454-458 | key_list is strictly ascending, so no keycode repeats |
| HidHelper.Report | helper/qmk_helper.c:460-468 | the report is 16 bytes |
| HidHelper.ReportHeader | helper/qmk_helper.c:462-464 | the report carries report ID 1 and a zero modifier byte even while modifiers are held |
| HidHelper.ReportSlotsHeld | helper/qmk_helper.c:451-468 | every non-zero key slot holds a held keycode |
| HidHelper.ReportKeepsLowest13 | helper/qmk_helper.c:451-468 | a held keycode is in the report unless 13 lower ones fill it |
| HidHelper.Helper.constructor | helper/qmk_helper.c:285 | keys_down starts all false, no report written |
| HidHelper.Helper.ReadEvent | helper/qmk_helper.c:414-475 | a key event sets exactly its key's entry and writes the report of the new table; anything else changes nothing |
| HidHelper.Helper.ListKeys | helper/qmk_helper.c:451-458 | the counting loop yields KeyList followed by zeros |
| HidHelper.FillReport | helper/qmk_helper.c:460-468 | the report loop yields Report of the listed keys |
| KeyNames.HidNamesShaped | helper/qmk_helper.c:49-214 | every entry KC_NO..KC_EXSEL is a "KC_" name that fits `char[18]` |
| KeyNames.NamesFollowRanges | helper/qmk_helper.c:49-282 | error and key codes have "KC_" names, system to Fn codes "IDK", modifiers their names, exactly codes above KC_RGUI the empty name |
| KeyNames.NamesOfKnownKeycodes | helper/qmk_helper.c:49-282 | names agree with the constants they spell |
| KeyNames.ModifierNamesDistinct | helper/qmk_helper.c:274-281 | distinct modifiers print distinct names |
| Gadget.SystemUsage | helper/qmk_gadget.h:70 | KEYCODE2SYSTEM is non-zero exactly on the system keycodes |
| Gadget.SystemUsagesInOrder | helper/qmk_gadget.h:65-70 | the system keycodes map in order onto the usages 0x81..0x83 |
| Gadget.ConsumerUsageDefinedOnConsumerRange | helper/qmk_gadget.h:73-74 | KEYCODE2CONSUMER is non-zero exactly on the consumer keycodes |
| Gadget.ConsumerUsageInReportRange | helper/qmk_helper.c:360-362 | every consumer usage lies within the consumer report's logical range 0..0x029C |
| Gadget.ConsumerKeyInverts | helper/qmk_gadget.h:73-74 | reading the table backwards recovers each consumer keycode |
| Gadget.ConsumerUsageInjective | helper/qmk_gadget.h:73-74 | no two keycodes share a non-zero consumer usage |
| Gadget.ReportIds | helper/qmk_gadget.h:6-9 | the report IDs are distinct and REPORT_ID_MAX is the largest |

## Left out

- GPIO access, printing, `dev_warn`, `/dev/hidg0`, cairo and GTK drawing, the netlink socket loop and the polling timer. These are I/O. The GPIO reads enter `Scan.ReadMatrix` as the `asserted` parameter. The sinks are ghost logs: `sent`, `reported`, `warned`, `reports`.
- Memory allocation failures (`-ENOMEM`) and device-property read failures other than a missing property or a bad size. These are kernel services outside the model.
- `WARN_ON(!input_dev->dev.parent)` in `qmk_build_keymap`. The model assumes a parent device.
- A caller-supplied keymap buffer in `qmk_build_keymap`. The model always takes the allocated one.
- The layer-tap timer (`timer_init`, `timer_elapsed`, `mod_tap_timeout`). On the release path the timer is always NULL, so the model has no tap branch.
- The older library's `process_layer`. Its source is not part of this model, so `LegacyDispatch.LegacyChain` uses the current `process_layer`.
- `include/qmk.h`'s `KEY()` macro. It does not compile (`MATRIX_MAX_LAYERS 1` lacks an operator), so the entry word is packed with `LAYER_MATRIX_KEY`.
- The display helper's tags `ACTIVE_LAYER`, `LAYER_STATE` and `USB_PASSTHROUGH`. Their defining header is not part of this model. The values 0x05, 0x06 and 0x07 follow the socket framing's documented tag order.
- Display.Screen.HandleMessage: requires a matrix event's row and column to lie inside the 8 x 6 layout. The C code indexes `planck_keys` unchecked, and an out-of-range write is undefined.
- Display.Screen.DrawKeys: requires the active layer below 16. `legend[active_layer]` is read unchecked.
- KeyNames.NamesOfKnownKeycodes: checks the spelling of a sample of names (letters, error codes, modifiers) rather than all 165 HID names.
- LegacyDispatch.LegacyKeyboard.ProcessKeycode: when the `uint8_t` loop wraps past 0, the model returns no status instead of following the reads past the keymap.
- KernelDispatch.Keyboard.ProcessKeycode: when the scan selects a layer past the keymap, the model stops with `inTable` false instead of reading outside the table.
- Dispatch.SetLayerBit: a shift of 16 or more on the 16-bit state is modelled as no change. In C, `1UL << layer` then sets a bit that is truncated away. A shift of 64 or more is undefined.
- `key_count` in the HID helper is a `uint8_t` and would wrap at 256 held keys. The model counts with a `nat`, and the two agree for every table with fewer than 256 held keys.
- Dispatch.Keyboard.ProcessKeycode: `layer_when_pressed` is a per-keyboard array. In C it is function-static, so every keyboard the library drives shares it, and one keyboard's presses can overwrite another's records. The model does not capture that sharing.
- Dispatch.Keyboard.ProcessKeycode: the press-time array has one slot per cell of the matrix, where C has a fixed 16 x 16 array. The two agree on matrices of at most 16 rows and 16 columns. Wider matrices overrun the C array (see Findings), and the model follows the corrected sizing.
- Dispatch.Keyboard.ProcessKeycode: requires at most 32 layers. The scan shifts the promoted `layer_state` by each layer index, and a shift of 32 or more is undefined in C.
- Scan.Scanner.Scan: requires at most 32 rows and 32 columns. These are the length of `new_state` and the width of its words; a wider matrix overruns them.
- KeymapBuild.InputDev.ParseKeymap: `max_keys` is not reduced modulo 2^32. In C, `layers << layer_shift` is an `unsigned int` and wraps once it reaches 2^32 (for example 2^31 layers of a 1 x 2 matrix give 0). The model compares the property's size against the unwrapped count, and its entries never address outside the table.
- KeymapBuild.InputDev.BuildKeymap: the table size is the unwrapped `layers << layer_shift` for the same reason. A wrapped C allocation would be smaller than the slots the entries address, and that out-of-bounds write is not modelled.
- Scan.Scanner.Scan: states that each event reaches the sink at least once. What is sent per event is stated exactly by Scan.Scanner.ScanEvent.
- The kernel's `input_event(EV_MSC, MSC_SCAN, ...)` and `input_sync`. They carry no state the model uses.

## Findings

| source | as written | input that shows it | evidently intended | confidence | as-written member | corrected member |
|---|---|---|---|---|---|---|
| lib/qmk/keycodes/process.c:44-50 | the layer loop counts down a `uint8_t i` with `i >= 0`, which never fails, so after layer 0 it wraps to 255 and reads past the keymap | start-up state (layer_state = 1) and a key whose layer-0 cell is KC_TRNS; or every layer bit clear | stop at layer 0 and fall back to layer 0 | high (not executed) | LegacyDispatch.LegacyScanOverrunsOnTransparentBase | Dispatch.ResolveLayerIsHighest |
| lib/libqmk/keycodes/process.c:39-64 | `layer_when_pressed` is a static 16 x 16 array, but the row and column are checked only against the keyboard's own row and column counts | a 17-row matrix and an event at (16, 0): element 256 of 256. Or an 18-column matrix, where (0, 17) shares the element of (1, 1), so pressing one overwrites the other's record | one slot per cell of the matrix | high (not executed) | Dispatch.StaticCaptureOverruns | Dispatch.Keyboard.PressHoldRelease |
| module/qmk_process.c:75-82 | the scan tests `keymap[KEY_INDEX(layer)]` with `layer` still 0, runs i from 16 down to 1, and never considers layer 0's bit | layers 0 and 1 on, layer-0 cell KC_TRNS, layer-1 cell KC_A: the kernel picks layer 0 and reads KC_TRNS | test the cell of layer i, over layers-1 down to 0, picking layer 1's KC_A | high (not executed) | KernelDispatch.TransparentBaseHidesLayerOne | Dispatch.ResolveLayerIsHighest |
