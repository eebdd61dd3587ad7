/** The state logic of the curses front end (bdac_gui.py): the function menu,
    the field editor, the report scroller and the "write only changed
    sections" path. Drawing is not modelled; a screen loop is a function of
    the keys it reads, and a finite key script that ends before the quit key
    leaves the screen open in the state reached so far. */
module BdacGui {
  import opened Bdac
  import opened BdacHelp

  /** A key as the screen loops see it. `Enter` carries the number the field
      editor parses from the typed text, None when the text is not a number;
      the other screens ignore it. */
  datatype Key = Up | Down | Home | End | Enter(typed: Option<int>) | Char(c: char)

  // ---------------------------------------------------------------------------
  // Help-key resolution
  // ---------------------------------------------------------------------------

  /** The field names PAS and THROTTLE have in common. */
  const ReusedNames: set<string> := {"DA", "SL", "SC"}

  /** The help key for field `name` of section `sec`: the assist-level fields
      share "ALC0-9", and the reused names take the edited section's suffix. */
  function HelpKey(name: string, sec: Section): (k: string)
    ensures HasSubstring(name, "ALC") || HasSubstring(name, "ALS") ==> k == "ALC0-9"
    ensures name in ReusedNames && sec == Pas ==> k == name + "-PAS"
    ensures name in ReusedNames && sec == Throttle ==> k == name + "-THR"
    ensures !HasSubstring(name, "ALC") && !HasSubstring(name, "ALS") && (name !in ReusedNames || sec == Basic)
            ==> k == name
  {
    var k1 := if HasSubstring(name, "ALC") then "ALC0-9" else name;
    SharedEntryNotSpeed();
    var k2 := if HasSubstring(k1, "ALS") then "ALC0-9" else k1;
    if k2 in ReusedNames && sec == Pas then k2 + "-PAS"
    else if k2 in ReusedNames && sec == Throttle then k2 + "-THR"
    else k2
  }

  lemma PlainHelpKey(name: string, sec: Section)
    requires forall i | 0 <= i < |name| - 1 :: !(name[i] == 'A' && name[i + 1] == 'L')
    requires name !in ReusedNames || sec == Basic
    ensures HelpKey(name, sec) == name
  {
    NoAssistLevelPrefix(name);
  }

  lemma AssistLevelHelpKey(name: string, sec: Section)
    requires |name| >= 3 && name[0] == 'A' && name[1] == 'L' && (name[2] == 'C' || name[2] == 'S')
    ensures HelpKey(name, sec) == "ALC0-9"
  {
    if name[2] == 'C' {
      assert name[..3] == "ALC";
      assert HasSubstring(name, "ALC");
    } else {
      assert name[..3] == "ALS";
      assert HasSubstring(name, "ALS");
    }
  }

  /** "ALC0-9" itself does not contain "ALS", so the second rewrite keeps it. */
  lemma SharedEntryNotSpeed()
    ensures !HasSubstring("ALC0-9", "ALS")
  {
    var s := "ALC0-9";
    assert s[..3] != "ALS" by { assert s[..3][2] == 'C'; }
    assert s[1..] == "LC0-9";
    NoAssistLevelPrefix(s[1..]);
  }

  /** The help lookup never fails on a BASIC field: the assist-level names
      resolve to the shared entry, the others to themselves. */
  lemma BasicHelpCoverage()
    ensures forall n | n in BasicNames :: HelpKey(n, Basic) in HelpKeys
  {
    forall n | n in BasicNames ensures HelpKey(n, Basic) in HelpKeys {
      if n[0] == 'A' {
        AssistLevelHelpKey(n, Basic);
      } else {
        PlainHelpKey(n, Basic);
      }
    }
  }

  /** The help lookup never fails on a PAS field: DA, SL, SC take "-PAS". */
  lemma PasHelpCoverage()
    ensures forall n | n in PasNames :: HelpKey(n, Pas) in HelpKeys
  {
    forall n | n in PasNames ensures HelpKey(n, Pas) in HelpKeys {
      if n in ReusedNames {
        assert !HasSubstring(n, "ALC") && !HasSubstring(n, "ALS");
        ReusedNamesQualified();
        assert n in ["DA", "SL", "SC"];
      } else {
        PlainHelpKey(n, Pas);
      }
    }
  }

  /** The help lookup never fails on a THROTTLE field: DA, SL, SC take "-THR". */
  lemma ThrottleHelpCoverage()
    ensures forall n | n in ThrottleNames :: HelpKey(n, Throttle) in HelpKeys
  {
    forall n | n in ThrottleNames ensures HelpKey(n, Throttle) in HelpKeys {
      if n in ReusedNames {
        assert !HasSubstring(n, "ALC") && !HasSubstring(n, "ALS");
        ReusedNamesQualified();
        assert n in ["DA", "SL", "SC"];
      } else {
        PlainHelpKey(n, Throttle);
      }
    }
  }

  lemma HelpCoverage(sec: Section)
    ensures forall n | n in FieldNames(sec) :: HelpKey(n, sec) in HelpKeys
  {
    match sec
    case Basic => BasicHelpCoverage();
    case Pas => PasHelpCoverage();
    case Throttle => ThrottleHelpCoverage();
  }

  // ---------------------------------------------------------------------------
  // The field editor, `up_down_select`
  // ---------------------------------------------------------------------------

  /** The editor's state: the edited table, the highlighted row, the
      changed flag it returns, and the help keys looked up so far. */
  datatype EditState = EditState(table: Table, idx: nat, changed: bool, helps: seq<string>)

  /** The typed number is a byte the table can take. */
  predicate InRange(typed: Option<int>)
  {
    typed.Some? && 0 <= typed.value <= 255
  }

  /** `dic[key][0] = v`: every entry called `name` takes value `v`. */
  function SetValue(t: Table, name: string, v: byte): (r: Table)
    ensures Names(r) == Names(t) && Descs(r) == Descs(t)
    ensures forall i | 0 <= i < |t| :: r[i].value == if t[i].name == name then v else t[i].value
  {
    seq(|t|, i requires 0 <= i < |t| => if t[i].name == name then t[i].(value := v) else t[i])
  }

  /** With distinct names an edit of the highlighted row changes that row's
      value and nothing else: not its name or description, not another row. */
  lemma EditLocality(t: Table, idx: nat, v: byte)
    requires idx < |t| && Distinct(Names(t))
    ensures |SetValue(t, t[idx].name, v)| == |t|
    ensures SetValue(t, t[idx].name, v)[idx] == t[idx].(value := v)
    ensures forall j | 0 <= j < |t| && j != idx :: SetValue(t, t[idx].name, v)[j] == t[j]
  {
    var r := SetValue(t, t[idx].name, v);
    forall j | 0 <= j < |t| && j != idx ensures r[j] == t[j] {
      assert Names(t)[j] != Names(t)[idx];
    }
  }

  predicate IsEditQuit(k: Key)
  {
    k == Char('q') || k == Char('Q')
  }

  /** One key of the editor, other than the quit keys. */
  function EditStep(sec: Section, s: EditState, k: Key): (r: EditState)
    requires s.idx < |s.table|
    ensures r.idx < |r.table|
    ensures Names(r.table) == Names(s.table) && Descs(r.table) == Descs(s.table)
    ensures r.changed == (s.changed || k.Enter?)
    ensures r.table != s.table ==> k.Enter? && InRange(k.typed) && r.idx == s.idx
    ensures k.Enter? && InRange(k.typed) ==> r.table[s.idx].value == k.typed.value
    ensures r.helps == if k == Char('h') || k == Char('H') then s.helps + [HelpKey(s.table[s.idx].name, sec)] else s.helps
  {
    match k
    case Down => s.(idx := if s.idx + 1 < |s.table| then s.idx + 1 else s.idx)
    case Up => s.(idx := if s.idx >= 1 then s.idx - 1 else s.idx)
    case Enter(typed) =>
      s.(table := if InRange(typed) then SetValue(s.table, s.table[s.idx].name, typed.value) else s.table,
         changed := true)
    case Char(c) =>
      if c == 'h' || c == 'H' then s.(helps := s.helps + [HelpKey(s.table[s.idx].name, sec)]) else s
    case Home => s
    case End => s
  }

  /** The editor over a key script, up to the first quit key. */
  function EditRun(sec: Section, s: EditState, keys: seq<Key>): (r: EditState)
    requires s.idx < |s.table|
    ensures r.idx < |r.table|
    ensures Names(r.table) == Names(s.table) && Descs(r.table) == Descs(s.table)
    ensures s.changed ==> r.changed
    ensures r.table != s.table ==> r.changed
    decreases |keys|
  {
    if keys == [] || IsEditQuit(keys[0]) then s
    else EditRun(sec, EditStep(sec, s, keys[0]), keys[1..])
  }

  /** Every help key the editor looks up, on a table with its section's layout,
      is in the catalogue. */
  lemma {:induction false} EditRunHelpCovered(sec: Section, s: EditState, keys: seq<Key>)
    requires s.idx < |s.table| && Names(s.table) == FieldNames(sec)
    requires forall h | h in s.helps :: h in HelpKeys
    ensures forall h | h in EditRun(sec, s, keys).helps :: h in HelpKeys
    decreases |keys|
  {
    if keys != [] && !IsEditQuit(keys[0]) {
      var s' := EditStep(sec, s, keys[0]);
      HelpCoverage(sec);
      assert Names(s.table)[s.idx] == s.table[s.idx].name;
      EditRunHelpCovered(sec, s', keys[1..]);
    }
  }

  /** A script without an Enter key leaves the table and the changed flag as
      they were. */
  lemma {:induction false} EditRunWithoutEnter(sec: Section, s: EditState, keys: seq<Key>)
    requires s.idx < |s.table|
    requires forall i | 0 <= i < |keys| :: !keys[i].Enter?
    ensures EditRun(sec, s, keys).table == s.table
    ensures EditRun(sec, s, keys).changed == s.changed
    decreases |keys|
  {
    if keys != [] && !IsEditQuit(keys[0]) {
      EditRunWithoutEnter(sec, EditStep(sec, s, keys[0]), keys[1..]);
    }
  }

  /** The editor from key i on, when key i is not a quit key, is one step then
      the editor from key i + 1 on. */
  lemma EditRunUnfold(sec: Section, s: EditState, keys: seq<Key>, i: nat)
    requires s.idx < |s.table| && i < |keys| && !IsEditQuit(keys[i])
    ensures EditRun(sec, s, keys[i..]) == EditRun(sec, EditStep(sec, s, keys[i]), keys[i + 1..])
  {
    assert keys[i..][0] == keys[i] && keys[i..][1..] == keys[i + 1..];
  }

  /** The editor stops at the end of the script or at a quit key. */
  lemma EditRunStops(sec: Section, s: EditState, keys: seq<Key>, i: nat)
    requires s.idx < |s.table| && i <= |keys| && (i == |keys| || IsEditQuit(keys[i]))
    ensures EditRun(sec, s, keys[i..]) == s
  {
    if i < |keys| {
      assert keys[i..][0] == keys[i];
    }
  }

  /** The editor started on the first row keeps the table's names and
      descriptions, sets the flag when the table changed and, on a table with
      its section's layout, looks up only catalogue keys. */
  lemma EditFromFirstRow(sec: Section, dic: Table, changed: bool, keys: seq<Key>)
    requires |dic| > 0
    ensures var r := EditRun(sec, EditState(dic, 0, changed, []), keys);
      && Names(r.table) == Names(dic) && Descs(r.table) == Descs(dic)
      && (r.table != dic ==> r.changed)
      && (Names(dic) == FieldNames(sec) ==> forall h | h in r.helps :: h in HelpKeys)
  {
    if Names(dic) == FieldNames(sec) {
      EditRunHelpCovered(sec, EditState(dic, 0, changed, []), keys);
    }
  }

  /** The branch of the editor loop for one key other than a quit key. */
  method EditKey(sec: Section, t: Table, idx: nat, changed: bool, helps: seq<string>, k: Key)
    returns (t': Table, idx': nat, changed': bool, helps': seq<string>)
    requires idx < |t|
    ensures EditState(t', idx', changed', helps') == EditStep(sec, EditState(t, idx, changed, helps), k)
  {
    t', idx', changed', helps' := t, idx, changed, helps;
    match k {
      case Down =>
        if idx + 1 < |t| { idx' := idx + 1; }
      case Up =>
        if idx >= 1 { idx' := idx - 1; }
      case Enter(typed) =>
        if InRange(typed) { t' := SetValue(t, t[idx].name, typed.value); }
        changed' := true;
      case Char(c) =>
        if c == 'h' || c == 'H' { helps' := helps + [HelpKey(t[idx].name, sec)]; }
      case Home =>
      case End =>
    }
  }

  /** `up_down_select`: edit table `dic` from the first row until a quit key,
      returning the edited table, the changed flag and the help keys shown. */
  method UpDownSelect(sec: Section, dic: Table, changed: bool, keys: seq<Key>)
    returns (t: Table, changedOut: bool, helps: seq<string>)
    requires |dic| > 0
    ensures var r := EditRun(sec, EditState(dic, 0, changed, []), keys);
      t == r.table && changedOut == r.changed && helps == r.helps
    ensures Names(t) == Names(dic) && Descs(t) == Descs(dic)
    ensures t != dic ==> changedOut
    ensures Names(dic) == FieldNames(sec) ==> forall h | h in helps :: h in HelpKeys
  {
    t, changedOut, helps := dic, changed, [];
    var idx := 0;
    var i := 0;
    while i < |keys| && !IsEditQuit(keys[i])
      invariant 0 <= i <= |keys| && 0 <= idx < |t|
      invariant EditRun(sec, EditState(t, idx, changedOut, helps), keys[i..])
             == EditRun(sec, EditState(dic, 0, changed, []), keys)
      decreases |keys| - i
    {
      EditRunUnfold(sec, EditState(t, idx, changedOut, helps), keys, i);
      t, idx, changedOut, helps := EditKey(sec, t, idx, changedOut, helps, keys[i]);
      i := i + 1;
    }
    EditRunStops(sec, EditState(t, idx, changedOut, helps), keys, i);
    EditFromFirstRow(sec, dic, changed, keys);
  }

  // ---------------------------------------------------------------------------
  // The function menu, `popup_config_select`
  // ---------------------------------------------------------------------------

  const MenuItems: seq<string> :=
    ["Edit Basic Configuration",
     "Edit Pedal Assist Configuration",
     "Edit Throttle Configuration",
     "Write Controller Flash",
     "Read File",
     "Save File",
     "View Report",
     "Quit"]

  /** The menu returns the highlighted item on Enter, nothing on 'q', or is
      still open with the cursor on row `cursor`. */
  datatype MenuOutcome = Chosen(item: string) | Cancelled | Pending(cursor: nat)

  /** The menu cursor after an arrow key; any other key leaves it. */
  function MenuCursor(idx: nat, k: Key): (r: nat)
    requires idx < |MenuItems|
    ensures r < |MenuItems|
    ensures k.Down? && idx + 1 < |MenuItems| ==> r == idx + 1
    ensures k.Up? && idx > 0 ==> r == idx - 1
    ensures !k.Down? && !k.Up? ==> r == idx
  {
    match k
    case Down => if idx + 1 < |MenuItems| then idx + 1 else idx
    case Up => if idx - 1 >= 0 then idx - 1 else idx
    case _ => idx
  }

  function MenuRun(idx: nat, keys: seq<Key>): (r: MenuOutcome)
    requires idx < |MenuItems|
    ensures r.Chosen? ==> r.item in MenuItems
    ensures r.Pending? ==> r.cursor < |MenuItems|
    ensures r.Cancelled? ==> Char('q') in keys
    decreases |keys|
  {
    if keys == [] then Pending(idx)
    else if keys[0].Enter? then Chosen(MenuItems[idx])
    else if keys[0] == Char('q') then Cancelled
    else
      var r := MenuRun(MenuCursor(idx, keys[0]), keys[1..]);
      assert r.Cancelled? ==> keys[1..][0 ..] == keys[1..] && Char('q') in keys[1..];
      r
  }

  /** `popup_config_select`, starting on the first item. */
  method PopupConfigSelect(keys: seq<Key>) returns (r: MenuOutcome)
    ensures r == MenuRun(0, keys)
    ensures r.Chosen? ==> r.item in MenuItems
    ensures r.Pending? ==> r.cursor < |MenuItems|
  {
    var idx := 0;
    var i := 0;
    while i < |keys|
      invariant 0 <= i <= |keys| && 0 <= idx < |MenuItems|
      invariant MenuRun(idx, keys[i..]) == MenuRun(0, keys)
    {
      assert keys[i..][0] == keys[i] && keys[i..][1..] == keys[i + 1..];
      var k := keys[i];
      if k == Down {
        if idx + 1 < |MenuItems| { idx := idx + 1; }
      } else if k == Up {
        if idx - 1 >= 0 { idx := idx - 1; }
      } else if k.Enter? {
        return Chosen(MenuItems[idx]);
      } else if k == Char('q') {
        return Cancelled;
      }
      i := i + 1;
    }
    return Pending(idx);
  }

  // ---------------------------------------------------------------------------
  // The report scroller, `show_report`
  // ---------------------------------------------------------------------------

  /** The last scroll position of a report of `lines` lines in a window of
      `wy` rows: the pad is max(lines + 3, wy) rows high. */
  function ScrollMax(lines: nat, wy: nat): (m: nat)
    ensures m == 0 <==> lines + 3 <= wy
    ensures m > 0 ==> wy + m == lines + 3
  {
    (if lines + 3 > wy then lines + 3 else wy) - wy
  }

  function ScrollStep(y: nat, maxY: nat, k: Key): (r: nat)
    requires y <= maxY
    ensures r <= maxY
    ensures k.Home? ==> r == 0
    ensures k.End? ==> r == maxY
    ensures k.Up? ==> r == if y > 0 then y - 1 else 0
    ensures k.Down? ==> r == if y < maxY then y + 1 else maxY
    ensures !k.Up? && !k.Down? && !k.Home? && !k.End? ==> r == y
  {
    match k
    case Up => if y - 1 > 0 then y - 1 else 0
    case Down => if y + 1 < maxY then y + 1 else maxY
    case Home => 0
    case End => maxY
    case _ => y
  }

  /** The scroll position after a key script, up to the first 'q'. */
  function ScrollRun(y: nat, maxY: nat, keys: seq<Key>): (r: nat)
    requires y <= maxY
    ensures r <= maxY
    decreases |keys|
  {
    if keys == [] || keys[0] == Char('q') then y
    else ScrollRun(ScrollStep(y, maxY, keys[0]), maxY, keys[1..])
  }

  /** The scroll loop of `show_report` for a report of `lines` lines in a
      window of `wy` rows, starting at the top. */
  method ShowReport(lines: nat, wy: nat, keys: seq<Key>) returns (y: nat)
    ensures y == ScrollRun(0, ScrollMax(lines, wy), keys)
    ensures y <= ScrollMax(lines, wy)
  {
    var maxY := (if lines + 3 > wy then lines + 3 else wy) - wy;
    y := 0;
    var i := 0;
    while i < |keys| && keys[i] != Char('q')
      invariant 0 <= i <= |keys| && y <= maxY
      invariant ScrollRun(y, maxY, keys[i..]) == ScrollRun(0, maxY, keys)
      decreases |keys| - i
    {
      assert keys[i..][0] == keys[i] && keys[i..][1..] == keys[i + 1..];
      var k := keys[i];
      if k == Up {
        y := if y - 1 > 0 then y - 1 else 0;
      } else if k == Down {
        y := if y + 1 < maxY then y + 1 else maxY;
      } else if k == Home {
        y := 0;
      } else if k == End {
        y := maxY;
      }
      i := i + 1;
    }
  }

  // ---------------------------------------------------------------------------
  // Writing only the changed sections
  // ---------------------------------------------------------------------------

  /** The controller's answers for the three sections. */
  datatype Replies = Replies(basic: seq<byte>, pas: seq<byte>, throttle: seq<byte>)
  {
    function Get(sec: Section): seq<byte>
    {
      match sec
      case Basic => basic
      case Pas => pas
      case Throttle => throttle
    }
  }

  /** Every read answer is long enough for its decoder. */
  predicate Readable(answers: Replies)
  {
    |answers.basic| >= MinResponse(Basic) && |answers.pas| >= MinResponse(Pas)
    && |answers.throttle| >= MinResponse(Throttle)
  }

  /** The store a fresh read of the controller gives. */
  function FreshRead(answers: Replies): Config
    requires Readable(answers)
  {
    Config(Decode(Basic, answers.basic), Decode(Pas, answers.pas), Decode(Throttle, answers.throttle))
  }

  /** The sections in the order the write path visits them. */
  const AllSections: seq<Section> := [Basic, Pas, Throttle]

  /** The sections of `secs`, in order, whose copy taken before the read
      differs from what the controller holds. */
  function ChangedAmong(before: Config, current: Config, secs: seq<Section>): (r: seq<Section>)
    ensures forall s :: s in r <==> s in secs && before.Get(s) != current.Get(s)
    decreases |secs|
  {
    if secs == [] then []
    else
      assert secs == [secs[0]] + secs[1..];
      (if before.Get(secs[0]) != current.Get(secs[0]) then [secs[0]] else [])
      + ChangedAmong(before, current, secs[1..])
  }

  /** The sections the write path sends a frame for; none exactly when the
      copy and the read are identical in every section. */
  function ChangedSections(before: Config, current: Config): (r: seq<Section>)
    ensures forall s :: s in r <==> before.Get(s) != current.Get(s)
  {
    assert Basic in AllSections && Pas in AllSections && Throttle in AllSections;
    ChangedAmong(before, current, AllSections)
  }

  /** No section is written exactly when the copy and the read are identical. */
  lemma NothingChanged(before: Config, current: Config)
    ensures ChangedSections(before, current) == [] <==> before == current
  {
    var r := ChangedSections(before, current);
    if before != current {
      if before.basic != current.basic {
        assert before.Get(Basic) != current.Get(Basic);
        assert Basic in r;
      } else if before.pas != current.pas {
        assert before.Get(Pas) != current.Get(Pas);
        assert Pas in r;
      } else {
        assert before.Get(Throttle) != current.Get(Throttle);
        assert Throttle in r;
      }
    } else {
      assert forall s :: s !in r;
    }
  }

  function SectionPlan(sec: Section, before: Config, current: Config): seq<seq<byte>>
  {
    if before.Get(sec) != current.Get(sec) then [WriteFrame(sec, before.Get(sec))] else []
  }

  function PlanAmong(before: Config, current: Config, secs: seq<Section>): seq<seq<byte>>
    decreases |secs|
  {
    if secs == [] then [] else SectionPlan(secs[0], before, current) + PlanAmong(before, current, secs[1..])
  }

  /** The frames the write path sends, in order. */
  function WritePlan(before: Config, current: Config): seq<seq<byte>>
  {
    PlanAmong(before, current, AllSections)
  }

  lemma {:induction false} PlanAmongLaw(before: Config, current: Config, secs: seq<Section>)
    ensures var cs := ChangedAmong(before, current, secs);
      && |PlanAmong(before, current, secs)| == |cs|
      && forall i | 0 <= i < |cs| :: PlanAmong(before, current, secs)[i] == WriteFrame(cs[i], before.Get(cs[i]))
    decreases |secs|
  {
    if secs != [] {
      PlanAmongLaw(before, current, secs[1..]);
    }
  }

  /** The write path sends one frame per changed section, in section order,
      built from the copy taken before the read, and nothing when no section
      changed. */
  lemma WritePlanLaw(before: Config, current: Config)
    ensures var cs := ChangedSections(before, current);
      && |WritePlan(before, current)| == |cs|
      && forall i | 0 <= i < |cs| :: WritePlan(before, current)[i] == WriteFrame(cs[i], before.Get(cs[i]))
    ensures WritePlan(before, current) == [] <==> before == current
  {
    PlanAmongLaw(before, current, AllSections);
    NothingChanged(before, current);
  }

  /** The controller answered every frame the write path sends readably. */
  predicate AcksReadable(before: Config, current: Config, acks: Replies)
  {
    forall s | s in ChangedSections(before, current) :: AckReadable(s, acks.Get(s))
  }

  function SectionOutcome(sec: Section, before: Config, current: Config, acks: Replies): seq<WriteOutcome>
    requires before.Get(sec) != current.Get(sec) ==> AckReadable(sec, acks.Get(sec))
  {
    if before.Get(sec) != current.Get(sec) then [WriteResult(sec, acks.Get(sec))] else []
  }

  function OutcomesAmong(before: Config, current: Config, acks: Replies, secs: seq<Section>): seq<WriteOutcome>
    requires forall s | s in ChangedAmong(before, current, secs) :: AckReadable(s, acks.Get(s))
    decreases |secs|
  {
    if secs == [] then []
    else
      assert secs == [secs[0]] + secs[1..];
      SectionOutcome(secs[0], before, current, acks) + OutcomesAmong(before, current, acks, secs[1..])
  }

  /** The outcomes the write path reports, one per frame sent. */
  function OutcomePlan(before: Config, current: Config, acks: Replies): seq<WriteOutcome>
    requires AcksReadable(before, current, acks)
  {
    OutcomesAmong(before, current, acks, AllSections)
  }

  lemma {:induction false} OutcomesAmongLaw(before: Config, current: Config, acks: Replies, secs: seq<Section>)
    requires forall s | s in ChangedAmong(before, current, secs) :: AckReadable(s, acks.Get(s))
    ensures var cs := ChangedAmong(before, current, secs);
      && |OutcomesAmong(before, current, acks, secs)| == |cs|
      && forall i | 0 <= i < |cs| :: OutcomesAmong(before, current, acks, secs)[i] == WriteResult(cs[i], acks.Get(cs[i]))
    decreases |secs|
  {
    if secs != [] {
      assert secs == [secs[0]] + secs[1..];
      OutcomesAmongLaw(before, current, acks, secs[1..]);
      var cs, cs' := ChangedAmong(before, current, secs), ChangedAmong(before, current, secs[1..]);
      var o, o' := OutcomesAmong(before, current, acks, secs), OutcomesAmong(before, current, acks, secs[1..]);
      if before.Get(secs[0]) != current.Get(secs[0]) {
        assert cs == [secs[0]] + cs';
        assert o == [WriteResult(secs[0], acks.Get(secs[0]))] + o';
      } else {
        assert cs == cs' && o == o';
      }
    }
  }

  /** The i-th outcome belongs to the i-th changed section: written exactly
      when the controller echoed that section's length, else rejected with the
      answer's error code. */
  lemma OutcomePlanLaw(before: Config, current: Config, acks: Replies)
    requires AcksReadable(before, current, acks)
    ensures var cs := ChangedSections(before, current);
      && |OutcomePlan(before, current, acks)| == |cs|
      && forall i | 0 <= i < |cs| ::
           && AckReadable(cs[i], acks.Get(cs[i]))
           && (OutcomePlan(before, current, acks)[i] == Written <==> acks.Get(cs[i])[1] == PayloadLength(cs[i]))
           && (OutcomePlan(before, current, acks)[i].Rejected? ==>
                 OutcomePlan(before, current, acks)[i].code == acks.Get(cs[i])[2])
  {
    OutcomesAmongLaw(before, current, acks, AllSections);
  }

  /** The plans section by section, as the write path runs them. */
  lemma PlanBySection(before: Config, current: Config, acks: Replies)
    requires AcksReadable(before, current, acks)
    ensures WritePlan(before, current)
         == SectionPlan(Basic, before, current) + SectionPlan(Pas, before, current)
            + SectionPlan(Throttle, before, current)
    ensures OutcomePlan(before, current, acks)
         == SectionOutcome(Basic, before, current, acks) + SectionOutcome(Pas, before, current, acks)
            + SectionOutcome(Throttle, before, current, acks)
  {
    assert AllSections[1..] == [Pas, Throttle] && AllSections[1..][1..] == [Throttle];
    assert AllSections[1..][1..][1..] == [];
  }

  /** One section of the write path: when the copy taken before the read
      differs from what was read, the frame for the copy and the outcome of the
      controller's answer to it. */
  method WriteIfChanged(sec: Section, before: Config, current: Config, acks: Replies)
    returns (frames: seq<seq<byte>>, outcomes: seq<WriteOutcome>)
    requires AcksReadable(before, current, acks)
    ensures frames == SectionPlan(sec, before, current)
    ensures outcomes == SectionOutcome(sec, before, current, acks)
  {
    frames, outcomes := [], [];
    if before.Get(sec) != current.Get(sec) {
      var f := EncodeFrame(sec, before.Get(sec));
      frames, outcomes := [f], [WriteResult(sec, acks.Get(sec))];
    }
  }

  /** The three section blocks of the write path, BASIC, PAS, THROTTLE. */
  method WriteChanged(before: Config, current: Config, acks: Replies)
    returns (frames: seq<seq<byte>>, outcomes: seq<WriteOutcome>)
    requires AcksReadable(before, current, acks)
    ensures frames == WritePlan(before, current)
    ensures outcomes == OutcomePlan(before, current, acks)
  {
    var f1, o1 := WriteIfChanged(Basic, before, current, acks);
    var f2, o2 := WriteIfChanged(Pas, before, current, acks);
    var f3, o3 := WriteIfChanged(Throttle, before, current, acks);
    PlanBySection(before, current, acks);
    frames, outcomes := f1 + f2 + f3, o1 + o2 + o3;
  }

  /** A later read `again` after the controller took every frame of the write
      path: the payload bytes it decodes are the copy's values for each section
      written and what `answers` held for the others. */
  predicate TookEveryFrame(before: Config, answers: Replies, again: Replies)
  {
    && Readable(answers) && Readable(again)
    && forall s ::
         && |answers.Get(s)| >= MinResponse(s) && |again.Get(s)| >= MinResponse(s)
         && |before.Get(s)| >= MinResponse(s) - 2
         && again.Get(s)[2..MinResponse(s)]
            == if s in ChangedSections(before, FreshRead(answers)) then Values(before.Get(s))[..MinResponse(s) - 2]
               else answers.Get(s)[2..MinResponse(s)]
  }

  /** One section of `RewriteAfterWrite`: the re-read differs from the read
      before the write exactly when the section was written with values the
      read decodes differently. */
  lemma RereadSection(before: Config, answers: Replies, again: Replies, s: Section)
    requires TookEveryFrame(before, answers, again)
    ensures var current, next := FreshRead(answers), FreshRead(again);
      current.Get(s) != next.Get(s)
      <==> before.Get(s) != current.Get(s)
           && Values(before.Get(s))[..MinResponse(s) - 2] != Values(current.Get(s))[..MinResponse(s) - 2]
  {
    var current, next := FreshRead(answers), FreshRead(again);
    var m, a, b, t := MinResponse(s), answers.Get(s), again.Get(s), before.Get(s);
    assert current.Get(s) == Decode(s, a) && next.Get(s) == Decode(s, b);
    assert b[2..m] == if s in ChangedSections(before, current) then Values(t)[..m - 2] else a[2..m];
    DecodeIgnoresUnreadBytes(s, a, b);
    DecodedPayload(s, a);
  }

  /** The store after a write holds the controller's state as read before the
      write, and the controller holds the copy. Writing again at once, with no
      edit in between, re-reads the controller and sends a frame for a section
      exactly when the first write sent one and changed one of the values a
      read decodes; BASIC's SM, which every read decodes as 1, does not count.
      Each such frame carries the values of the read before the first write. */
  lemma RewriteAfterWrite(before: Config, answers: Replies, again: Replies)
    requires TookEveryFrame(before, answers, again)
    ensures var current, next := FreshRead(answers), FreshRead(again);
      forall s :: s in ChangedSections(current, next)
                  <==> s in ChangedSections(before, current)
                       && Values(before.Get(s))[..MinResponse(s) - 2] != Values(current.Get(s))[..MinResponse(s) - 2]
    ensures var current, next := FreshRead(answers), FreshRead(again);
      var cs := ChangedSections(current, next);
      && |WritePlan(current, next)| == |cs|
      && forall i | 0 <= i < |cs| :: WritePlan(current, next)[i] == WriteFrame(cs[i], current.Get(cs[i]))
  {
    var current, next := FreshRead(answers), FreshRead(again);
    forall s
      ensures s in ChangedSections(current, next)
              <==> s in ChangedSections(before, current)
                   && Values(before.Get(s))[..MinResponse(s) - 2] != Values(current.Get(s))[..MinResponse(s) - 2]
    {
      RereadSection(before, answers, again, s);
    }
    WritePlanLaw(current, next);
  }

  // ---------------------------------------------------------------------------
  // The terminal session, `BdacTerm` and the state of `show_control`
  // ---------------------------------------------------------------------------

  /** A section table is still empty or holds its layout's names. */
  predicate Shaped(t: Table, sec: Section)
  {
    t == [] || Names(t) == FieldNames(sec)
  }

  /** The front end: its three tables, the bdac tables its readers fill, the
      test-data switch, and the `config_changed` and `flash_read` flags of the
      `show_control` loop. */
  class BdacTerm {
    const flash: FlashTables
    const testData: bool
    var basic: Table
    var pas: Table
    var throttle: Table
    var configChanged: bool
    var flashRead: bool

    ghost predicate Valid()
      reads this, flash
    {
      && flash.Valid()
      && Shaped(basic, Basic) && Shaped(pas, Pas) && Shaped(throttle, Throttle)
      && (flashRead ==> basic != [] && pas != [] && throttle != [])
    }

    function Get(sec: Section): Table
      reads this
    {
      match sec
      case Basic => basic
      case Pas => pas
      case Throttle => throttle
    }

    function Store(): Config
      reads this
    {
      Config(basic, pas, throttle)
    }

    /** The session starts on the bdac tables, before any read. */
    constructor (flash: FlashTables, testData: bool)
      requires flash.Valid()
      ensures Valid()
      ensures this.flash == flash && this.testData == testData
      ensures Store() == Config(flash.basic, flash.pas, flash.throttle)
      ensures !configChanged && !flashRead
    {
      this.flash := flash;
      this.testData := testData;
      basic, pas, throttle := flash.basic, flash.pas, flash.throttle;
      configChanged, flashRead := false, false;
    }

    /** The three section reads `show_control` does through bdac's readers. */
    method ReadController(answers: Replies)
      requires Valid() && Readable(answers)
      modifies this, flash
      ensures Valid() && flashRead && configChanged == old(configChanged)
      ensures Store() == FreshRead(answers)
    {
      basic := flash.GetConfig(Basic, answers.basic);
      pas := flash.GetConfig(Pas, answers.pas);
      throttle := flash.GetConfig(Throttle, answers.throttle);
      DecodeLayout(Basic, answers.basic);
      DecodeLayout(Pas, answers.pas);
      DecodeLayout(Throttle, answers.throttle);
      flashRead := true;
    }

    /** The read at the top of the `show_control` loop, done only once. */
    method ReadFlashOnce(answers: Replies)
      requires Valid() && (!flashRead ==> Readable(answers))
      modifies this, flash
      ensures Valid() && flashRead && configChanged == old(configChanged)
      ensures old(flashRead) ==> Store() == old(Store())
      ensures !old(flashRead) ==> Store() == FreshRead(answers)
    {
      if !flashRead {
        ReadController(answers);
      }
    }

    /** An "Edit ... Configuration" menu choice: the field editor on the
        section's table, which it edits in place. */
    method EditSection(sec: Section, keys: seq<Key>) returns (helps: seq<string>)
      requires Valid() && flashRead
      modifies this
      ensures Valid() && flashRead
      ensures var r := EditRun(sec, EditState(old(Get(sec)), 0, old(configChanged), []), keys);
        Get(sec) == r.table && configChanged == r.changed && helps == r.helps
      ensures forall s | s != sec :: Get(s) == old(Get(s))
      ensures forall h | h in helps :: h in HelpKeys
    {
      var t, changed, hs := UpDownSelect(sec, Get(sec), configChanged, keys);
      configChanged, helps := changed, hs;
      if configChanged {
        match sec {
          case Basic => basic := t;
          case Pas => pas := t;
          case Throttle => throttle := t;
        }
      }
    }

    /** The "Write Controller Flash" menu choice. With test data nothing
        happens; otherwise `ReadAndWrite`. */
    method WriteControllerFlash(answers: Replies, acks: Replies)
      returns (frames: seq<seq<byte>>, outcomes: seq<WriteOutcome>)
      requires Valid()
      requires !testData ==> Readable(answers) && AcksReadable(Store(), FreshRead(answers), acks)
      modifies this, flash
      ensures Valid()
      ensures testData ==> && Store() == old(Store()) && frames == [] && outcomes == []
                           && configChanged == old(configChanged) && flashRead == old(flashRead)
      ensures !testData ==> && Store() == FreshRead(answers) && flashRead && !configChanged
                            && frames == WritePlan(old(Store()), FreshRead(answers))
                            && outcomes == OutcomePlan(old(Store()), FreshRead(answers), acks)
    {
      if testData {
        frames, outcomes := [], [];
      } else {
        frames, outcomes := ReadAndWrite(answers, acks);
      }
    }

    /** The write path proper: copy the tables, read the controller into the
        tables, and send a frame built from the copy for each section whose
        copy differs from what was read; `acks` are the controller's answers
        to those frames. */
    method ReadAndWrite(answers: Replies, acks: Replies)
      returns (frames: seq<seq<byte>>, outcomes: seq<WriteOutcome>)
      requires Valid() && Readable(answers) && AcksReadable(Store(), FreshRead(answers), acks)
      modifies this, flash
      ensures Valid() && flashRead && !configChanged
      ensures Store() == FreshRead(answers)
      ensures frames == WritePlan(old(Store()), FreshRead(answers))
      ensures outcomes == OutcomePlan(old(Store()), FreshRead(answers), acks)
    {
      var before := Store();
      ReadController(answers);
      frames, outcomes := WriteFromCopy(before, acks);
    }

    /** The write half of the write path: send a frame built from the copy
        `before` for each section that differs from the tables just read,
        then clear the changed flag. */
    method WriteFromCopy(before: Config, acks: Replies)
      returns (frames: seq<seq<byte>>, outcomes: seq<WriteOutcome>)
      requires Valid() && flashRead && AcksReadable(before, Store(), acks)
      modifies this
      ensures Valid() && flashRead && !configChanged && Store() == old(Store())
      ensures frames == WritePlan(before, Store())
      ensures outcomes == OutcomePlan(before, Store(), acks)
    {
      frames, outcomes := WriteChanged(before, Store(), acks);
      configChanged := false;
    }
  }
}
