# bdac — a verified model of the Bafang BBS02 configuration codec

bdac reads and writes the flash configuration of a Bafang BBS02 mid-drive
motor controller over its serial protocol. The configuration lives in
three sections:

- BASIC: 24 fields, read and write opcode 0x52;
- PAS, the pedal-assist settings: 11 fields, opcode 0x53;
- THROTTLE: 6 fields, opcode 0x54.

There is also a read-only INFO block and a one-byte STATUS answer. The
program keeps each section as an ordered table `name -> [value,
description]`. It decodes read responses into those tables and encodes a
table back into a write frame:

    0x16, opcode, length, one byte per field, checksum

The checksum is `(opcode + length + Σ payload) mod 256`. A controller
answer echoing the length means success; otherwise byte 2 is an error code.

The model has three modules, one per Python file:

- `Bdac` (`bdac.dfy`, for `bdac.py`). Section layouts and the decoders
  (`Decode`, with the class `FlashTables` for the three module-level tables
  the decoders fill in place). The frame encoder (`EncodeFrame`, a loop
  accumulating the sum and proved against `WriteFrame`). The write-response
  check and error tables, INFO and STATUS decoding, and the three-key
  configuration record.
- `BdacHelp` (`bdac_help.dfy`, for `bdac_help.py`). The key set of the help
  catalogue.
- `BdacGui` (`bdac_gui.dfy`, for `bdac_gui.py`). The terminal front end's
  state logic:
  - the function menu, the field editor and the report scroller, each a
    loop proved against a function of the keys it reads;
  - help-key resolution;
  - the class `BdacTerm`, whose write path sends only the sections whose
    copy differs from a fresh controller read.

Bytes are the subset type `byte` (0..255). Sums are unbounded naturals
reduced modulo 256 exactly where bdac.py reduces them. Strings are
`seq<char>`.

Facts about bdac.py that the model follows:

- BASIC has 24 fields: 2 limits, 10 assist-level currents, 10 assist-level
  speed limits, WD and SM.
- INFO decoding needs at least 19 bytes. The copy loop
  `range(2, len(resp)-3)` stops before byte `len(resp) - 3`, and the
  firmware version reads the character copied from byte 15.
- `get_status` tests the codes 1, 3 and 21, although the comment above it
  lists 0, 1 and 2.
- No response checksum is ever verified.

## Model

| member | source | states |
|---|---|---|
| Bdac.FieldNamesLayout | bdac.py:164-190 | Each section layout has one name per declared payload byte (24, 11, 6), no repeated name, and the shortest decodable response is 2 + n bytes (BASIC one less, as SM's byte is never read) |
| Bdac.BasicNamesDistinct | bdac.py:164-190 | No BASIC key is assigned twice: the 24 names are pairwise distinct |
| Bdac.DecodeLayout | bdac.py:158-253 | Decoding produces exactly the layout's keys in order; the i-th key receives `resp[2+i]`, except BASIC's SM, which is always the entry (SM, 1, speed-meter description) |
| Bdac.Decode | bdac.py:158-253 | (function, no contract) The table a read response yields: one entry per layout name in layout order, value `resp[2+i]` except SM's constant 1, and the field's description, WD's quoting half the raw byte; the checksum is not checked |
| Bdac.DecodedPayload | bdac.py:158-253 | The first MinResponse - 2 values of a decoded table are the payload bytes the decoder reads, in order |
| Bdac.DecodeIgnoresUnreadBytes | bdac.py:158-253 | Two responses decode to the same table exactly when they agree on the payload bytes the decoder reads (2 .. MinResponse - 1): the opcode, length, checksum and BASIC's byte 25 are never consulted, and every other byte shows in the table |
| Bdac.BasicTestScenario | bdac.py:160-167 | The built-in BASIC test response decodes to LBP = 41, LC = 15, ALC0 = 0 |
| Bdac.BasicTestWheelScenario | bdac.py:160-190 | The built-in BASIC test response decodes to WD = 56 with the description quoting 28.0, and SM = 1 |
| Bdac.PasTestScenario | bdac.py:211-226 | The built-in PAS test response decodes to the PAS names with values 3, 255, 255, 50, 4, 4, 255, 25, 8, 0, 60 |
| Bdac.HalfTextScenario | bdac.py:189 | The WD description prints half the raw byte as Python prints the float: 56 as 28.0, 57 as 28.5 |
| Bdac.NatText | bdac.py:189 | Decimal text of a natural: non-empty, all digits, last digit is n mod 10, more than one digit exactly when n >= 10 |
| Bdac.SumConcat | bdac.py:263-267 | The unreduced payload sum is additive over concatenation |
| Bdac.Checksum | bdac.py:263-267 | (function, no contract) The checksum byte: opcode plus length plus the payload's unreduced sum, modulo 256 |
| Bdac.WriteFrame | bdac.py:258-269 | (function, no contract) The frame a write sends: 0x16, the opcode, the length byte, one value per table entry in table order, and the checksum |
| Bdac.EncodeFrame | bdac.py:258-269 | The byte-appending loop with its running sum `c` builds exactly `WriteFrame`: 0x16, opcode, length, the values in table order, `c mod 256` |
| Bdac.WriteFrameLaw | bdac.py:258-269 | A frame is 3 + n + 1 bytes with header 0x16, opcode, length, value i at offset 3+i, and its last byte is the sum of all bytes after the leading 0x16, modulo 256 |
| Bdac.ThrottleChecksumScenario | bdac.py:341-351 | Payload 0b 24 01 ff 28 0a gives THROTTLE checksum 0xBB |
| Bdac.ThrottleTestValues | bdac.py:242-252 | The built-in THROTTLE test response decodes to the values 0b 24 01 ff 28 0a |
| Bdac.ThrottleFrameScenario | bdac.py:367 | Re-encoding the decoded THROTTLE test response gives 16 54 06 0b 24 01 ff 28 0a bb, the frame whose tail bdac.py:367 records |
| Bdac.RoundTrip | bdac.py:264-266 | A response carrying an encoded frame's bytes decodes to the same names and, field by field, the same values, except BASIC's SM, which decodes to 1 |
| Bdac.DecodeEncodeDecode | bdac.py:158-269 | Decoding, re-encoding and decoding again gives exactly the first decoded table |
| Bdac.WriteResult | bdac.py:273-301 | (function, no contract) The outcome of a write: `Written` when `resp[1]` is the section's length byte, else `Rejected(resp[2])` |
| Bdac.ErrorMessage | bdac.py:276-299 | (function, no contract) The printed message for an error code of a section, present for the codes the section's list numbers |
| Bdac.WriteResultCases | bdac.py:273-301 | A write is reported successful exactly when `resp[1]` equals the section's length byte; otherwise the reported code is `resp[2]` |
| Bdac.ErrorTableSizes | bdac.py:276-299 | The error tables hold 24, 11 and 6 messages, one per payload byte; a code has a message exactly when it is below the length byte |
| Bdac.BasicRejectScenario | bdac.py:273-277 | A BASIC answer `52 05 02` is rejected with code 2, "Current Limit for PAS0 out of range" |
| Bdac.DecodeInfo | bdac.py:122-137 | (function, no contract) INFO: manufacturer, model, hardware and firmware text from bytes 2-15, the voltage from the four-entry list at byte 16 (an out-of-range index is the `IndexError` the lookup raises), the current from byte 17 |
| Bdac.GetInfoConfig | bdac.py:122-137 | The character-copy loop yields `DecodeInfo`: bytes 2-5, 6-9, 10-11, 12-15 as manufacturer, model, hardware and firmware text; the voltage lookup succeeds exactly when byte 16 < 4 and then gives one of 24/36/48/60; the current is byte 17 |
| Bdac.InfoTestScenario | bdac.py:125-137 | The built-in INFO test response reads HZXT, SZZ9, V1.1, V2.0.1.1, 48 V, 25 A |
| Bdac.StatusOf | bdac.py:405-415 | (function, no contract) The status the first byte reports: 1 normal, 3 braking, 21 brake-sensor error, anything else nothing |
| Bdac.StatusCodes | bdac.py:405-415 | Status byte 1 is Normal, 3 Braking, 21 sensor error, each exactly when the byte is that code; every other byte reports nothing |
| Bdac.Pack | bdac.py:470-484 | (function, no contract) The record `write_config_file` saves: keys basic, pas, throttle mapped to the three tables |
| Bdac.Unpack | bdac.py:448-467 | (function, no contract) The tables `read_config_file` loads: present exactly when the record has all three keys |
| Bdac.PackRoundTrip | bdac.py:448-484 | The configuration record has exactly the keys basic, pas, throttle; unpacking a packed record gives the tables back; a record lacking a key does not load |
| Bdac.Put | bdac.py:164-190 | Assigning into an ordered table keeps an existing key in place with the new entry and appends a new key at the end; no other entry changes |
| Bdac.PutAppends | bdac.py:164-190 | Assigning the next layout entry into a table holding exactly the entries before it appends it |
| Bdac.PutOverwrites | bdac.py:164-190 | Assigning the next layout entry into a table already holding the layout's keys overwrites that key in place, leaving the other entries |
| Bdac.PutNext | bdac.py:164-190 | Assigning the layout's entries in order into an empty table, or into one holding the same keys, has after i steps written the first i entries and left the rest |
| Bdac.FlashTables.constructor | bdac.py:164-253 | The three module-level tables start empty |
| Bdac.FlashTables.GetConfig | bdac.py:158-253 | Reading a section assigns the decoded entries one by one into its table, which then equals `Decode(resp)` and is returned; the other two tables are unchanged |
| Bdac.FlashTables.SetConfig | bdac.py:258-367 | Writing a section sends `WriteFrame` of its current table; success exactly when `resp[1]` is the length byte, else the code is `resp[2]` |
| Bdac.FlashTables.ReadFlash | bdac.py:489-495 | INFO is read first. When its voltage index is 4 or more, the lookup at bdac.py:136 raises, the read stops, and the three tables keep their contents. Otherwise BASIC, PAS and THROTTLE are read (bdac.py:489-495) and the tables become the decoded responses |
| Bdac.FlashTables.ReadTables | bdac.py:493-495 | The three section reads of `read_flash`, in order, leave each table equal to its decoded response |
| Bdac.FlashTables.WriteFlash | bdac.py:500-503 | BASIC, PAS and THROTTLE are written in that order whatever each outcome |
| Bdac.FlashTables.WriteConfigFile | bdac.py:470-484 | The saved record has keys basic, pas, throttle and loads back to the three tables |
| BdacHelp.NoAssistLevelPrefix | bdac_help.py:18 | A string with no "A" directly followed by "L" contains neither "ALC" nor "ALS" |
| BdacHelp.SharedAssistLevelEntry | bdac_help.py:18 | `HelpKeys`, the key set of the help dictionary built in bdac_help.py, has "ALC0-9" as a key and as the only one mentioning ALC or ALS |
| BdacHelp.ReusedNamesQualified | bdac_help.py:54-187 | DA, SL and SC are not keys; each is a key with "-PAS" and with "-THR" |
| BdacGui.HelpKey | bdac_gui.py:520-538 | A name containing ALC or ALS resolves to "ALC0-9"; DA, SL, SC take "-PAS" in PAS and "-THR" in THROTTLE; any other name resolves to itself |
| BdacGui.SharedEntryNotSpeed | bdac_gui.py:521-524 | The second rewrite never touches "ALC0-9", so the two rewrites do not interfere |
| BdacGui.BasicHelpCoverage | bdac_help.py:5-50 | Every BASIC field name resolves to a catalogue key |
| BdacGui.PasHelpCoverage | bdac_help.py:54-130 | Every PAS field name resolves to a catalogue key |
| BdacGui.ThrottleHelpCoverage | bdac_help.py:134-195 | Every THROTTLE field name resolves to a catalogue key |
| BdacGui.HelpCoverage | bdac_gui.py:539 | For every section, the help lookup of any of its field names finds a catalogue entry |
| BdacGui.SetValue | bdac_gui.py:507 | Setting a key's value keeps every name and description; entries with that key take the value, others keep theirs |
| BdacGui.EditLocality | bdac_gui.py:506-510 | With distinct names, an accepted edit changes only the highlighted row's value: not its name or description, not any other row |
| BdacGui.EditStep | bdac_gui.py:471-539 | One editor key keeps the cursor in range and all names and descriptions; Enter sets the changed flag, whatever was typed; the table changes only on Enter with a number in 0..255, which becomes the highlighted row's value; 'h'/'H' records the resolved help key |
| BdacGui.EditKey | bdac_gui.py:492-539 | The branch of the editor loop for one key updates cursor, table, changed flag and help list exactly as `EditStep` |
| BdacGui.EditRun | bdac_gui.py:468-544 | Over a key script up to 'q'/'Q': the cursor stays in range, names and descriptions are kept, the changed flag never goes back to false, and a changed table implies the flag is set |
| BdacGui.EditRunHelpCovered | bdac_gui.py:520-539 | On a table with its section's layout, every help key the editor looks up is in the catalogue |
| BdacGui.EditRunWithoutEnter | bdac_gui.py:492-518 | A key script without Enter leaves the table and the changed flag as they were |
| BdacGui.UpDownSelect | bdac_gui.py:450-544 | The editor loop, with its cursor and in-place edits, yields `EditRun` from the first row; it keeps names and descriptions, sets the flag when the table changed, and looks up only catalogue keys |
| BdacGui.EditFromFirstRow | bdac_gui.py:450-544 | The editor run from the first row keeps names and descriptions, sets the flag when the table changed, and on a layout-shaped table looks up only catalogue keys |
| BdacGui.MenuCursor | bdac_gui.py:181-190 | The menu cursor stays in [0, 8); Down and Up move it by one when that stays in range, other keys leave it |
| BdacGui.MenuRun | bdac_gui.py:176-203 | The menu returns an item of the eight on Enter, nothing on 'q', or is still open with the cursor in [0, 8) |
| BdacGui.PopupConfigSelect | bdac_gui.py:147-203 | The menu loop yields `MenuRun` from the first item; a chosen item is one of the eight, an open menu's cursor is in [0, 8) |
| BdacGui.ScrollMax | bdac_gui.py:624-628 | `max_y` is zero exactly when the report plus three lines fits in the window, and otherwise the overflow |
| BdacGui.ScrollStep | bdac_gui.py:648-651 | UP and DOWN move by one within [0, max_y], HOME goes to 0, END to max_y, other keys leave the position |
| BdacGui.ScrollRun | bdac_gui.py:644-651 | Over a key script up to 'q' the scroll position stays in [0, max_y] |
| BdacGui.ShowReport | bdac_gui.py:605-651 | The scroll loop yields `ScrollRun` from the top, within [0, max_y] |
| BdacGui.FreshRead | bdac_gui.py:318-320 | (function, no contract) The three tables the write path reads back from the controller, each the decoding of its answer |
| BdacGui.ChangedAmong | bdac_gui.py:327-388 | The changed sections among a list are exactly those whose copy differs from the read |
| BdacGui.ChangedSections | bdac_gui.py:327-388 | A section is written exactly when its copy differs, by full key, value and description equality, from the fresh read |
| BdacGui.NothingChanged | bdac_gui.py:327-388 | No section is written exactly when the copy equals the fresh read in all three sections |
| BdacGui.PlanAmongLaw | bdac_gui.py:327-388 | The frames for a list of sections are, in order, one `WriteFrame` of the copy per changed section |
| BdacGui.WritePlan | bdac_gui.py:327-388 | (function, no contract) The frames the write path sends: for BASIC, PAS and THROTTLE in turn, `WriteFrame` of the copy when it differs from the read |
| BdacGui.WritePlanLaw | bdac_gui.py:327-388 | The write path sends one frame per changed section, in BASIC, PAS, THROTTLE order, built from the copy taken before the read, and no frame when nothing changed |
| BdacGui.OutcomesAmongLaw | bdac_gui.py:340-345 | The outcomes for a list of sections are, in order, the response check of each changed section's answer |
| BdacGui.OutcomePlan | bdac_gui.py:340-387 | (function, no contract) The outcomes the write path reports: the response check of each sent section's answer, in order |
| BdacGui.OutcomePlanLaw | bdac_gui.py:340-387 | The i-th outcome is for the i-th changed section: written exactly when its answer echoes the length byte, else rejected with `resp[2]` |
| BdacGui.PlanBySection | bdac_gui.py:327-388 | The plans are the BASIC, PAS and THROTTLE blocks run one after another |
| BdacGui.WriteIfChanged | bdac_gui.py:327-345 | One section block sends the frame of the copy and reports its outcome exactly when the copy differs from the read |
| BdacGui.WriteChanged | bdac_gui.py:327-388 | The three section blocks together send `WritePlan` and report `OutcomePlan` |
| BdacGui.RereadSection | bdac_gui.py:308-345 | One section of `RewriteAfterWrite`: the re-read differs from the earlier read exactly when the section was written with values the decoder reads differently |
| BdacGui.RewriteAfterWrite | bdac_gui.py:308-345 | After a write the store holds the read taken before it. A second write at once, once the controller has taken every frame, sends a frame for a section exactly when the first write sent one and changed a value a read decodes (an SM-only change is not resent, as SM always reads back as 1), and each such frame carries the values of the read before the first write |
| BdacGui.BdacTerm.constructor | bdac_gui.py:42-62 | The session starts on the bdac tables, before any read, with no change pending |
| BdacGui.BdacTerm.ReadController | bdac_gui.py:318-321 | The three reads through bdac's readers make the session's tables the decoded responses and mark the flash as read |
| BdacGui.BdacTerm.ReadFlashOnce | bdac_gui.py:215-230 | The controller is read only the first time; afterwards the tables are left as they are |
| BdacGui.BdacTerm.EditSection | bdac_gui.py:240-245 | Editing a section runs `EditRun` on its table from the first row; the table and the changed flag become the run's result; the other sections are unchanged; every help key shown is in the catalogue |
| BdacGui.BdacTerm.WriteControllerFlash | bdac_gui.py:301-409 | With test data nothing changes and nothing is sent. Otherwise the store becomes the fresh read (not the values written), the changed flag is cleared, and the frames and outcomes are `WritePlan` and `OutcomePlan` of the pre-read copy against that read |
| BdacGui.BdacTerm.ReadAndWrite | bdac_gui.py:308-409 | Copy the tables, read the controller: the store ends as the fresh read, the frames and outcomes are `WritePlan` and `OutcomePlan` of the copy against that read, and the changed flag is cleared |
| BdacGui.BdacTerm.WriteFromCopy | bdac_gui.py:327-388 | The write half: sends `WritePlan` of the copy against the tables just read, reports `OutcomePlan`, leaves the tables as read and clears the changed flag |

## Left out

- Serial transport: `read_config`, opening and closing the port, the raw
  reads of `get_speed`, `get_status`, `get_battery` and `get_power`, and
  logging and `sleep`. Response bytes and the controller's answers are
  parameters of the model.
- Floating-point arithmetic: the speed formula and the power figure are
  not modelled. The speed line multiplies a `[value, description]` list by
  a float and could not run as written.
- The battery query, the CLI argument dispatch and the help banner are not
  part of this model.
- JSON text and file handling: `read_config_file`, `write_config_file`,
  the front end's Read File and Save File branches, and the timestamped
  file written after a flash write. Only the three-key record is modelled
  (`Pack`, `Unpack`). A table loaded from a file is a plain dict compared
  without regard to order, and its values need not be bytes. Tables here
  are always ordered and byte-valued.
- Drawing, popups, cursor shapes and window geometry. The window height is
  a parameter of `ShowReport`, and so is the report's line count: the
  report text itself is not modelled.
- The display tables `wd_dict`, `pst_dict` and `dat_dict`: nothing reads
  them.
- Aliasing between the front end's tables and bdac's module-level tables.
  Every read overwrites all of a table's keys, so the aliasing has no
  visible effect on table contents. The front end's tables are modelled as
  values that the session reassigns.
- The `show_control` loop as a whole. Its menu branches are separate
  methods of `BdacTerm`. `config_changed` and `flash_read` are fields of
  `BdacTerm`. Quitting the program is not modelled.
- BdacGui.UpDownSelect: a key script that ends before 'q' or 'Q' stops
  there with the editor still open; bdac_gui.py would keep waiting for keys.
- BdacGui.PopupConfigSelect: a key script that ends before Enter or 'q'
  leaves the menu open (`Pending`); bdac_gui.py would keep waiting for keys.
- BdacGui.ShowReport: a key script that ends before 'q' stops there with
  the report still shown; bdac_gui.py would keep waiting for keys.
- BdacGui.EditStep: the typed text is modelled already parsed, as the
  integer `int()` gives or as none when parsing fails. The three-character
  input limit is not modelled.
- Bdac.HalfTextScenario: the WD description is modelled exactly for every
  byte, because half a byte always prints as an integer followed by ".0"
  or ".5". Python's float text is not modelled in general.
