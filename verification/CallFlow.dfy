/**
  Compiler correctness of the dialplan generator: what the loaded dialplan does with a call is what the configuration
  says, for every called number and every key press.
*/
module CallFlow {
  import opened Common
  import opened Text
  import opened Config
  import opened Dialplan
  import opened Generate

  /** The configuration was accepted by the loader and the generator did not raise. */
  predicate Accepted(lines: seq<Line>) {
    LinesOk(lines) && forall l | l in lines :: Writable(l)
  }

  /** The line's number was called, with or without a plus sign. */
  predicate Calls(number: string, l: Line) {
    number == l.did || number == "+" + l.did
  }

  /** The menu entry a key stands for: key k in 1 .. number of languages. */
  function Entry(l: Line, key: Key): Option<nat> {
    if key.Silent? || !('1' <= key.c <= '9') || DigitValue(key.c) > |l.menu| then None
    else Some(DigitValue(key.c) - 1)
  }

  /** The language of the call. */
  function Chosen(l: Line, key: Key): string
    requires l.menu != []
  {
    if !l.HasMenu() then l.menu[0]
    else
      var e := Entry(l, key);
      if e.Some? && e.value < |l.menu| then l.menu[e.value] else l.defaultLanguage
  }

  /** What the caller hears before the recording. */
  function Heard(l: Line, key: Key): seq<string>
    requires l.menu != []
  {
    (if l.HasMenu() then [MenuName(l.id)] else []) + [NoticeName(l.id, Chosen(l, key))]
  }

  /** The caller's number as it is handed on. */
  function CallerOf(call: Incoming): string {
    KeepOnly(call.caller, InNumber)
  }

  /** How a call that reaches a line ends: it was answered and recorded once, and vm-finalize was run once, with the line,
      the language, both numbers, the start, the name of the recording, and that there is one. */
  predicate RecordedOn(e: Ending, call: Incoming, l: Line, key: Key)
    requires l.menu != []
  {
    && e.Ended? && e.ch.answered
    && e.ch.takes == [Take(l.id, l.did, Chosen(l, key), Heard(l, key), call.unique)]
    && e.ch.played == Heard(l, key) + [ThanksName(l.id, Chosen(l, key))]
    && e.ch.handed == [[l.id, Chosen(l, key), CallerOf(call), l.did, call.epoch, call.unique, "1"]]
  }

  /** How any other call ends: with nothing heard, nothing recorded and nothing run. */
  predicate RejectedCall(e: Ending) {
    e.Ended? && e.ch.takes == [] && e.ch.played == [] && e.ch.handed == []
  }

  // ---- every extension is defined once ----

  lemma {:induction false} LineBlocksOf(lines: seq<Line>, b: Block)
    requires (forall l | l in lines :: l.menu != []) && b in AllLineBlocks(lines)
    ensures exists l | l in lines :: b in LineBlocks(l)
    decreases |lines|
  {
    if lines != [] {
      var n := |lines| - 1;
      if b in LineBlocks(lines[n]) {
        assert lines[n] in lines;
      } else {
        LineBlocksOf(lines[..n], b);
        var l :| l in lines[..n] && b in LineBlocks(l);
        assert l in lines;
      }
    }
  }

  lemma {:induction false} LineBlocksIn(lines: seq<Line>, l: Line)
    requires (forall l | l in lines :: l.menu != []) && l in lines
    ensures forall b | b in LineBlocks(l) :: b in AllLineBlocks(lines)
    decreases |lines|
  {
    var n := |lines| - 1;
    if l != lines[n] {
      var i :| 0 <= i < |lines| && lines[i] == l;
      assert lines[..n][i] == l;
      LineBlocksIn(lines[..n], l);
    }
  }

  lemma InLineCtx(l: Line, b: Block)
    requires l.menu != [] && b in LineBlocks(l)
    ensures b.ctx == LineCtx(l.id) && b.apps != []
    ensures b.exten in {"s", "t", "i"} || exists k | 1 <= k <= |l.menu| :: b.exten == Str(k)
  {
  }

  /** Key extensions are single digits. */
  lemma KeyName(k: nat)
    requires 1 <= k <= 9
    ensures Str(k) == [Digit(k)] && Digit(k) as int == 48 + k && Str(k) != "s" && Str(k) != "t" && Str(k) != "i"
  {
  }

  lemma LineUnique(l: Line)
    requires 1 <= |l.menu| <= 9
    ensures UniqueKeys(LineBlocks(l))
  {
  }

  lemma {:induction false} LinesUnique(lines: seq<Line>)
    requires (forall l | l in lines :: 1 <= |l.menu| <= 9 && l.id != "") && NoClash(lines)
    ensures UniqueKeys(AllLineBlocks(lines))
    decreases |lines|
  {
    if lines != [] {
      var n := |lines| - 1;
      var last := lines[n];
      LinesUnique(lines[..n]);
      LineUnique(last);
      forall x, y | x in AllLineBlocks(lines[..n]) && y in LineBlocks(last) ensures x.ctx != y.ctx {
        OtherLine(lines[..n], last, x, y);
      }
      UniqueAppend(AllLineBlocks(lines[..n]), LineBlocks(last));
    }
  }

  lemma OtherLine(lines: seq<Line>, last: Line, x: Block, y: Block)
    requires (forall l | l in lines :: l.menu != [] && l.id != last.id) && last.menu != []
    requires x in AllLineBlocks(lines) && y in LineBlocks(last)
    ensures x.ctx != y.ctx
  {
    LineBlocksOf(lines, x);
    var l :| l in lines && x in LineBlocks(l);
    InLineCtx(l, x);
    InLineCtx(last, y);
    assert LineCtx(l.id)[5..] == l.id && LineCtx(last.id)[5..] == last.id;
  }

  function Initial(s: string): char {
    if s == "" then ' ' else s[0]
  }

  lemma BaseUnique()
    ensures UniqueKeys(BaseBlocks())
    ensures forall b | b in BaseBlocks() :: Initial(b.ctx) == 'f' || b.ctx == "vm-finalize"
  {
  }

  lemma LineCtxInitial(lines: seq<Line>)
    requires forall l | l in lines :: l.menu != []
    ensures forall b | b in AllLineBlocks(lines) :: Initial(b.ctx) == 'l'
  {
  }

  lemma GeneratedUnique(lines: seq<Line>)
    requires Accepted(lines)
    ensures UniqueKeys(GeneratedBlocks(lines))
    ensures forall b | b in GeneratedBlocks(lines) :: Initial(b.ctx) == 'l' || b.ctx == "did-lookup" || b.ctx == "vm-record"
  {
    var lookup := [Block("did-lookup", "s", Lookups(lines) + [Hangup])];
    var record := [Block("vm-record", "s", RECORD_APPS)];
    var all := AllLineBlocks(lines);
    LinesUnique(lines);
    LineCtxInitial(lines);
    assert Initial("vm-record") == 'v' && Initial("did-lookup") == 'd';
    UniqueAppend(lookup, all);
    UniqueAppend(lookup + all, record);
  }

  /** No extension of the dialplan is defined twice. */
  lemma PlanUnique(lines: seq<Line>)
    requires Accepted(lines)
    ensures UniqueKeys(Plan(lines))
  {
    BaseUnique();
    GeneratedUnique(lines);
    UniqueTogether(BaseBlocks(), GeneratedBlocks(lines));
  }

  lemma UniqueTogether(base: seq<Block>, generated: seq<Block>)
    requires UniqueKeys(base) && forall b | b in base :: Initial(b.ctx) == 'f' || b.ctx == "vm-finalize"
    requires UniqueKeys(generated)
    requires forall b | b in generated :: Initial(b.ctx) == 'l' || b.ctx == "did-lookup" || b.ctx == "vm-record"
    ensures UniqueKeys(base + generated)
  {
    assert Initial("vm-record") == 'v' && Initial("did-lookup") == 'd' && "vm-record"[3] == 'r' && "vm-finalize"[3] == 'f';
    UniqueAppend(base, generated);
  }

  // ---- finding extensions ----

  /** The extensions of a line are found, and no digit outside the menu is one. */
  ghost predicate HasLine(plan: seq<Block>, l: Line)
    requires l.menu != []
  {
    && (forall b | b in LineBlocks(l) :: Find(plan, b.ctx, b.exten) == Some(b.apps))
    && (forall c | IsDtmf(c) && Entry(l, AfterMenu(c)).None? :: Find(plan, LineCtx(l.id), [c]) == None)
  }

  ghost predicate HasRecord(plan: seq<Block>) {
    Find(plan, "vm-record", "s") == Some(RECORD_APPS)
  }

  ghost predicate HasLookup(plan: seq<Block>, lines: seq<Line>) {
    Find(plan, "did-lookup", "s") == Some(Lookups(lines) + [Hangup])
  }

  ghost predicate HasTrunk(plan: seq<Block>) {
    && Find(plan, "from-trunk", PLUS_NUMBER) == Some([SetRaw(1), Goto("from-trunk-check", "s")])
    && Find(plan, "from-trunk", NUMBER) == Some([SetRaw(0), Goto("from-trunk-check", "s")])
    && Find(plan, "from-trunk", ANYTHING) == Some([Hangup])
    && Find(plan, "from-trunk-check", "s") == Some(CHECK_APPS)
    && Find(plan, "vm-finalize", "s") == Some(FINALIZE_APPS)
  }

  lemma FixedParts(lines: seq<Line>)
    requires Accepted(lines)
    ensures HasRecord(Plan(lines)) && HasLookup(Plan(lines), lines) && HasTrunk(Plan(lines))
  {
    var plan := Plan(lines);
    PlanUnique(lines);
    FindMember(plan, Block("did-lookup", "s", Lookups(lines) + [Hangup]));
    FindMember(plan, Block("vm-record", "s", RECORD_APPS));
    forall b | b in BaseBlocks() ensures Find(plan, b.ctx, b.exten) == Some(b.apps) {
      FindMember(plan, b);
    }
    assert FROM_TRUNK[0] in BaseBlocks() && FROM_TRUNK[1] in BaseBlocks() && FROM_TRUNK[2] in BaseBlocks();
    assert CHECK[0] in BaseBlocks() && FINALIZE[0] in BaseBlocks();
  }

  lemma LineParts(lines: seq<Line>, l: Line)
    requires Accepted(lines) && l in lines
    ensures HasLine(Plan(lines), l)
  {
    PlanUnique(lines);
    LineBlocksIn(lines, l);
    forall b | b in LineBlocks(l) ensures Find(Plan(lines), b.ctx, b.exten) == Some(b.apps) {
      assert b in Plan(lines);
      FindMember(Plan(lines), b);
    }
    forall c | IsDtmf(c) && Entry(l, AfterMenu(c)).None? ensures Find(Plan(lines), LineCtx(l.id), [c]) == None {
      NoSuchKey(lines, l, c);
    }
  }

  /** A key that is not a menu entry selects no extension. */
  lemma NoSuchKey(lines: seq<Line>, l: Line, c: char)
    requires Accepted(lines) && l in lines && IsDtmf(c) && Entry(l, AfterMenu(c)).None?
    ensures Find(Plan(lines), LineCtx(l.id), [c]) == None
  {
    forall b | b in Plan(lines) ensures b.ctx != LineCtx(l.id) || b.exten != [c] {
      if b in AllLineBlocks(lines) {
        NotThisKey(lines, l, b, c);
      } else {
        NotALine(lines, l, b);
      }
    }
    FindNothing(Plan(lines), LineCtx(l.id), [c]);
  }

  lemma NotALine(lines: seq<Line>, l: Line, b: Block)
    requires Accepted(lines) && b in Plan(lines) && b !in AllLineBlocks(lines)
    ensures b.ctx != LineCtx(l.id)
  {
    BaseUnique();
    assert Initial(LineCtx(l.id)) == 'l' && Initial("did-lookup") == 'd' && Initial("vm-record") == 'v';
    assert Initial("vm-finalize") == 'v';
    assert b in BaseBlocks() || b.ctx == "did-lookup" || b.ctx == "vm-record";
  }

  lemma NotThisKey(lines: seq<Line>, l: Line, b: Block, c: char)
    requires Accepted(lines) && l in lines && IsDtmf(c) && Entry(l, AfterMenu(c)).None? && b in AllLineBlocks(lines)
    ensures b.ctx != LineCtx(l.id) || b.exten != [c]
  {
    LineBlocksOf(lines, b);
    var m :| m in lines && b in LineBlocks(m);
    InLineCtx(m, b);
    if b.ctx == LineCtx(l.id) {
      assert LineCtx(l.id)[5..] == l.id && LineCtx(m.id)[5..] == m.id;
      SameLine(lines, l, m);
      OtherExten(l, b, c);
    }
  }

  lemma SameLine(lines: seq<Line>, l: Line, m: Line)
    requires Accepted(lines) && l in lines && m in lines && l.id == m.id
    ensures l == m
  {
  }

  lemma OtherExten(l: Line, b: Block, c: char)
    requires 1 <= |l.menu| <= 9 && b in LineBlocks(l) && IsDtmf(c) && Entry(l, AfterMenu(c)).None?
    ensures b.exten != [c]
  {
  }

  // ---- running ----

  const ENOUGH := 40

  lemma Effects1(a: App, ch: Channel)
    requires Plain(a)
    ensures Effects([a], ch) == Effect(a, ch)
  {
  }

  lemma Effects2(a: App, b: App, ch: Channel)
    requires Plain(a) && Plain(b)
    ensures Effects([a, b], ch) == Effect(b, Effect(a, ch))
  {
    assert [a, b][1..] == [b];
    Effects1(b, Effect(a, ch));
  }

  lemma Effects3(a: App, b: App, c: App, ch: Channel)
    requires Plain(a) && Plain(b) && Plain(c)
    ensures Effects([a, b, c], ch) == Effect(c, Effect(b, Effect(a, ch)))
  {
    assert [a, b, c][1..] == [b, c];
    Effects2(b, c, Effect(a, ch));
  }

  lemma RunGoto(plan: seq<Block>, key: Key, ctx: string, exten: string, prio: nat, ch: Channel, fuel: nat)
    requires var f := Find(plan, ctx, exten); f.Some? && prio < |f.value| && f.value[prio].Goto? && fuel > 0
    ensures var g := Find(plan, ctx, exten).value[prio];
      Run(plan, key, ctx, exten, prio, ch, fuel) == Run(plan, key, g.ctx, g.exten, 0, ch, fuel - 1)
  {
  }

  /** The end of every recording. */
  function Recorded(ch: Channel): Ending {
    Ended(ch.(recorded := true, takes := ch.takes + [Take(ch.line, ch.did, ch.lang, ch.played, ch.from.unique)],
              played := ch.played + [ThanksName(ch.line, ch.lang)]))
  }

  lemma RecordRuns(plan: seq<Block>, key: Key, ch: Channel, fuel: nat)
    requires HasRecord(plan) && fuel >= 4
    ensures Run(plan, key, "vm-record", "s", 0, ch, fuel) == Recorded(ch)
  {
    assert RECORD_APPS[0..3] == [SetRecorded, Record, PlaybackThanks];
    RunPlain(plan, key, "vm-record", "s", 0, 3, ch, fuel);
    Effects3(SetRecorded, Record, PlaybackThanks, ch);
  }

  /** From an extension that sets the language and says its notice. */
  lemma ChoiceRuns(plan: seq<Block>, key: Key, ctx: string, exten: string, id: string, lang: string, ch: Channel, fuel: nat)
    requires HasRecord(plan) && fuel >= 7 && Find(plan, ctx, exten) == Some(Choice(id, lang))
    ensures Run(plan, key, ctx, exten, 0, ch, fuel) ==
            Recorded(ch.(lang := lang, played := ch.played + [NoticeName(id, lang)]))
  {
    var apps := Choice(id, lang);
    assert apps[0..2] == [SetVar(VmLang, lang), Playback(NoticeName(id, lang))];
    RunPlain(plan, key, ctx, exten, 0, 2, ch, fuel);
    Effects2(SetVar(VmLang, lang), Playback(NoticeName(id, lang)), ch);
    var next := ch.(lang := lang, played := ch.played + [NoticeName(id, lang)]);
    RunGoto(plan, key, ctx, exten, 2, next, fuel - 2);
    RecordRuns(plan, key, next, fuel - 3);
  }

  /** From an extension that only says a notice. */
  lemma NoticeRuns(plan: seq<Block>, key: Key, ctx: string, exten: string, prio: nat, notice: string, ch: Channel, fuel: nat)
    requires HasRecord(plan) && fuel >= 7
    requires var f := Find(plan, ctx, exten);
      f.Some? && prio + 2 == |f.value| && f.value[prio] == Playback(notice) && f.value[prio + 1] == TO_RECORD
    ensures Run(plan, key, ctx, exten, prio, ch, fuel) == Recorded(ch.(played := ch.played + [notice]))
  {
    var next := ch.(played := ch.played + [notice]);
    assert Run(plan, key, ctx, exten, prio, ch, fuel) == Run(plan, key, ctx, exten, prio + 1, next, fuel - 1);
    RunGoto(plan, key, ctx, exten, prio + 1, next, fuel - 1);
    RecordRuns(plan, key, next, fuel - 2);
  }

  /** The channel at the end of a line's opening. */
  function Opened(l: Line, lang: string, ch: Channel): Channel {
    ch.(line := l.id, did := l.did, lang := lang, start := ch.from.epoch, handlers := ch.handlers + ["vm-finalize"],
        answered := true)
  }

  lemma OpeningEffects(l: Line, lang: string, ch: Channel)
    ensures forall a | a in Opening(l, lang) :: Plain(a)
    ensures Effects(Opening(l, lang), ch) == Opened(l, lang, ch)
  {
    var sets := [SetVar(VmLine, l.id), SetVar(VmDid, l.did), SetVar(VmLang, lang)];
    var rest := [SetStart, PushHandler("vm-finalize"), Answer] + [Pause];
    assert Opening(l, lang) == sets + rest;
    EffectsAppend(sets, rest, ch);
    Effects3(sets[0], sets[1], sets[2], ch);
    RestEffects(ch.(line := l.id, did := l.did, lang := lang));
  }

  lemma RestEffects(ch: Channel)
    ensures forall a | a in [SetStart, PushHandler("vm-finalize"), Answer] + [Pause] :: Plain(a)
    ensures Effects([SetStart, PushHandler("vm-finalize"), Answer] + [Pause], ch)
      == ch.(start := ch.from.epoch, handlers := ch.handlers + ["vm-finalize"], answered := true)
  {
    EffectsAppend([SetStart, PushHandler("vm-finalize"), Answer], [Pause], ch);
    Effects3(SetStart, PushHandler("vm-finalize"), Answer, ch);
    Effects1(Pause, ch.(start := ch.from.epoch, handlers := ch.handlers + ["vm-finalize"], answered := true));
  }

  lemma {:induction false} EffectsAppend(a: seq<App>, b: seq<App>, ch: Channel)
    requires (forall x | x in a :: Plain(x)) && forall x | x in b :: Plain(x)
    ensures (forall x | x in a + b :: Plain(x)) && Effects(a + b, ch) == Effects(b, Effects(a, ch))
    decreases |a|
  {
    if a == [] {
      assert a + b == b;
    } else {
      assert (a + b)[1..] == a[1..] + b;
      EffectsAppend(a[1..], b, Effect(a[0], ch));
    }
  }

  /** The extension `t`, whether it names a language or leaves "auto". */
  lemma TimeoutRuns(plan: seq<Block>, key: Key, l: Line, ch: Channel, fuel: nat)
    requires l.HasMenu() && HasLine(plan, l) && HasRecord(plan) && fuel >= 7 && ch.lang == "auto"
    ensures Run(plan, key, LineCtx(l.id), "t", 0, ch, fuel) ==
            Recorded(ch.(lang := l.defaultLanguage, played := ch.played + [NoticeName(l.id, l.defaultLanguage)]))
  {
    var b := Block(LineCtx(l.id), "t", TimeoutApps(l));
    assert LineBlocks(l)[1 + |l.menu|] == b;
    if l.defaultLanguage == "auto" {
      NoticeRuns(plan, key, LineCtx(l.id), "t", 0, NoticeName(l.id, "auto"), ch, fuel);
    } else {
      ChoiceRuns(plan, key, LineCtx(l.id), "t", l.id, l.defaultLanguage, ch, fuel);
    }
  }

  /** A pressed key: its menu entry, or by way of `i` the default. */
  lemma PressedRuns(plan: seq<Block>, key: Key, l: Line, ch: Channel, fuel: nat)
    requires l.HasMenu() && |l.menu| <= 9 && HasLine(plan, l) && HasRecord(plan) && fuel >= 8 && ch.lang == "auto"
    requires !key.Silent? && IsDtmf(key.c)
    ensures Run(plan, key, LineCtx(l.id), Pressed(plan, LineCtx(l.id), key.c), 0, ch, fuel) ==
            Recorded(ch.(lang := Chosen(l, key), played := ch.played + [NoticeName(l.id, Chosen(l, key))]))
  {
    var ctx := LineCtx(l.id);
    var entry := Entry(l, key);
    if entry.Some? {
      EntryFound(plan, l, key);
      ChoiceRuns(plan, key, ctx, [key.c], l.id, l.menu[entry.value], ch, fuel);
    } else {
      InvalidFound(plan, l, key);
      RunGoto(plan, key, ctx, "i", 0, ch, fuel);
      TimeoutRuns(plan, key, l, ch, fuel - 1);
    }
  }

  lemma EntryFound(plan: seq<Block>, l: Line, key: Key)
    requires l.HasMenu() && |l.menu| <= 9 && HasLine(plan, l) && Entry(l, key).Some?
    ensures var k := Entry(l, key).value;
      k < |l.menu| && Find(plan, LineCtx(l.id), [key.c]) == Some(Choice(l.id, l.menu[k]))
  {
    var k := Entry(l, key).value;
    KeyName(k + 1);
    assert [key.c] == Str(k + 1);
    KeyBlockIn(l, k);
  }

  lemma KeyBlockIn(l: Line, k: nat)
    requires l.HasMenu() && k < |l.menu|
    ensures Block(LineCtx(l.id), Str(k + 1), Choice(l.id, l.menu[k])) in LineBlocks(l)
  {
  }

  lemma InvalidFound(plan: seq<Block>, l: Line, key: Key)
    requires l.HasMenu() && HasLine(plan, l) && !key.Silent? && IsDtmf(key.c) && Entry(l, key).None?
    ensures Find(plan, LineCtx(l.id), [key.c]) == None
    ensures Find(plan, LineCtx(l.id), "i") == Some([Goto(LineCtx(l.id), "t")])
  {
    var ctx := LineCtx(l.id);
    assert Entry(l, AfterMenu(key.c)).None?;
    assert LineBlocks(l)[2 + |l.menu|] == Block(ctx, "i", [Goto(ctx, "t")]);
  }

  lemma StartFound(plan: seq<Block>, l: Line)
    requires l.menu != [] && HasLine(plan, l)
    ensures Find(plan, LineCtx(l.id), "s") == Some(StartApps(l)) && |StartApps(l)| == 9
    ensures StartApps(l)[0..7] == Opening(l, if l.HasMenu() then "auto" else l.menu[0])
    ensures if l.HasMenu() then StartApps(l)[7] == Background(MenuName(l.id)) && StartApps(l)[8] == WaitExten
            else StartApps(l)[7] == Playback(NoticeName(l.id, l.menu[0])) && StartApps(l)[8] == TO_RECORD
  {
    assert LineBlocks(l)[0] == Block(LineCtx(l.id), "s", StartApps(l));
  }

  /** Background followed by WaitExten: where the call goes on, the menu prompt heard. */
  lemma RunMenu(plan: seq<Block>, key: Key, ctx: string, apps: seq<App>, ch: Channel, fuel: nat)
    requires Find(plan, ctx, "s") == Some(apps) && |apps| == 9 && apps[7].Background? && apps[8] == WaitExten && fuel >= 2
    ensures var heard := ch.(played := ch.played + [apps[7].prompt]);
      Run(plan, key, ctx, "s", 7, ch, fuel) ==
      Run(plan, key, ctx, if key.Silent? then "t" else Pressed(plan, ctx, key.c), 0, heard,
          if key.During? then fuel - 1 else fuel - 2)
  {
  }

  /** The key, or the timeout. */
  lemma KeyRuns(plan: seq<Block>, key: Key, l: Line, ch: Channel, fuel: nat)
    requires l.HasMenu() && |l.menu| <= 9 && HasLine(plan, l) && HasRecord(plan) && fuel >= 8 && ch.lang == "auto"
    requires ValidKey(key)
    ensures Run(plan, key, LineCtx(l.id), if key.Silent? then "t" else Pressed(plan, LineCtx(l.id), key.c), 0, ch, fuel)
            == Recorded(ch.(lang := Chosen(l, key), played := ch.played + [NoticeName(l.id, Chosen(l, key))]))
  {
    if key.Silent? {
      TimeoutRuns(plan, key, l, ch, fuel);
    } else {
      PressedRuns(plan, key, l, ch, fuel);
    }
  }

  /** The menu. */
  lemma MenuRuns(plan: seq<Block>, key: Key, l: Line, ch: Channel, fuel: nat)
    requires l.HasMenu() && |l.menu| <= 9 && HasLine(plan, l) && HasRecord(plan) && fuel >= 11 && ch.lang == "auto"
    requires ValidKey(key)
    ensures Run(plan, key, LineCtx(l.id), "s", 7, ch, fuel) ==
            Recorded(ch.(lang := Chosen(l, key), played := ch.played + Heard(l, key)))
  {
    var notice := NoticeName(l.id, Chosen(l, key));
    assert ch.played + Heard(l, key) == ch.played + [MenuName(l.id)] + [notice];
    StartFound(plan, l);
    RunMenu(plan, key, LineCtx(l.id), StartApps(l), ch, fuel);
    KeyRuns(plan, key, l, ch.(played := ch.played + [MenuName(l.id)]), if key.During? then fuel - 1 else fuel - 2);
  }

  /** The statements before the menu or the notice. */
  lemma OpeningRuns(plan: seq<Block>, key: Key, l: Line, ch: Channel, fuel: nat)
    requires l.menu != [] && HasLine(plan, l) && fuel >= 7
    ensures var lang := if l.HasMenu() then "auto" else l.menu[0];
      Run(plan, key, LineCtx(l.id), "s", 0, ch, fuel)
      == Run(plan, key, LineCtx(l.id), "s", 7, Opened(l, lang, ch), fuel - 7)
  {
    var lang := if l.HasMenu() then "auto" else l.menu[0];
    StartFound(plan, l);
    OpeningEffects(l, lang, ch);
    SevenRun(plan, key, LineCtx(l.id), StartApps(l), Opening(l, lang), ch, fuel);
  }

  lemma SevenRun(plan: seq<Block>, key: Key, ctx: string, apps: seq<App>, first: seq<App>, ch: Channel, fuel: nat)
    requires Find(plan, ctx, "s") == Some(apps) && |apps| == 9 && apps[0..7] == first && fuel >= 7
    requires forall a | a in first :: Plain(a)
    ensures Run(plan, key, ctx, "s", 0, ch, fuel) == Run(plan, key, ctx, "s", 7, Effects(first, ch), fuel - 7)
  {
    RunPlain(plan, key, ctx, "s", 0, 7, ch, fuel);
  }

  /** Where the context of a line leads. */
  function EndOfLine(l: Line, key: Key, ch: Channel): Ending
    requires l.menu != []
  {
    Recorded(Opened(l, Chosen(l, key), ch).(played := ch.played + Heard(l, key)))
  }

  /** The context of a line, from its start. */
  lemma LineRuns(plan: seq<Block>, key: Key, l: Line, ch: Channel, fuel: nat)
    requires LineOk(l) && HasLine(plan, l) && HasRecord(plan) && ValidKey(key) && fuel >= 20
    ensures Run(plan, key, LineCtx(l.id), "s", 0, ch, fuel) == EndOfLine(l, key, ch)
  {
    OpeningRuns(plan, key, l, ch, fuel);
    var open := Opened(l, if l.HasMenu() then "auto" else l.menu[0], ch);
    if l.HasMenu() {
      MenuRuns(plan, key, l, open, fuel - 7);
    } else {
      PlainRuns(plan, key, l, open, fuel - 7);
    }
  }

  /** A line without a menu says its one notice. */
  lemma PlainRuns(plan: seq<Block>, key: Key, l: Line, ch: Channel, fuel: nat)
    requires l.menu != [] && !l.HasMenu() && HasLine(plan, l) && HasRecord(plan) && fuel >= 7 && ch.lang == l.menu[0]
    ensures Run(plan, key, LineCtx(l.id), "s", 7, ch, fuel) ==
            Recorded(ch.(lang := Chosen(l, key), played := ch.played + Heard(l, key)))
  {
    StartFound(plan, l);
    NoticeRuns(plan, key, LineCtx(l.id), "s", 7, NoticeName(l.id, l.menu[0]), ch, fuel);
    assert [NoticeName(l.id, l.menu[0])] == Heard(l, key);
  }

  /** No two lines share a number. */
  predicate DidsDiffer(lines: seq<Line>) {
    forall i, j | 0 <= i < j < |lines| :: lines[i].did != lines[j].did
  }

  lemma AllDidsDiffer(lines: seq<Line>)
    requires Accepted(lines)
    ensures DidsDiffer(lines)
  {
    assert forall i | 0 <= i < |lines| :: lines[i] in lines;
  }

  lemma {:induction false} LookupFinds(plan: seq<Block>, lines: seq<Line>, key: Key, k: nat, prio: nat, ch: Channel, fuel: nat)
    requires HasLookup(plan, lines) && DidsDiffer(lines) && prio <= k < |lines| && ch.digits == lines[k].did
    requires fuel > k - prio
    ensures Run(plan, key, "did-lookup", "s", prio, ch, fuel) ==
            Run(plan, key, LineCtx(lines[k].id), "s", 0, ch, fuel - (k - prio) - 1)
    decreases k - prio
  {
    if prio < k {
      LookupFinds(plan, lines, key, k, prio + 1, ch, fuel - 1);
    }
  }

  lemma {:induction false} LookupFails(plan: seq<Block>, lines: seq<Line>, key: Key, prio: nat, ch: Channel, fuel: nat)
    requires HasLookup(plan, lines) && prio <= |lines| && (forall l | l in lines :: ch.digits != l.did)
    requires fuel > |lines| - prio
    ensures Run(plan, key, "did-lookup", "s", prio, ch, fuel) == Ended(ch)
    decreases |lines| - prio
  {
    if prio < |lines| {
      assert lines[prio] in lines;
      LookupFails(plan, lines, key, prio + 1, ch, fuel - 1);
    }
  }

  predicate OnlyDigits(s: string) {
    s != "" && forall c | c in s :: IsDigit(c)
  }

  /** The channel when the number has passed the check. */
  function Checked(ch: Channel): Channel {
    ch.(digits := ch.raw, account := ch.raw, caller := CallerOf(ch.from))
  }

  /** The digit filter and the length test: only a number of digits alone goes on to the lookup. */
  lemma CheckRuns(plan: seq<Block>, key: Key, ch: Channel, fuel: nat)
    requires HasTrunk(plan) && fuel >= 5
    ensures var r := Run(plan, key, "from-trunk-check", "s", 0, ch, fuel);
      if OnlyDigits(ch.raw)
      then r == Run(plan, key, "did-lookup", "s", 0, Checked(ch), fuel - 5)
      else r == Ended(ch.(digits := DigitsOf(ch.raw)))
  {
    var next := ch.(digits := DigitsOf(ch.raw));
    CheckCompares(plan, key, ch, fuel);
    if OnlyDigits(ch.raw) {
      CheckPasses(plan, key, next, fuel - 2);
    }
  }

  lemma CheckCompares(plan: seq<Block>, key: Key, ch: Channel, fuel: nat)
    requires HasTrunk(plan) && fuel >= 5
    ensures var next := ch.(digits := DigitsOf(ch.raw));
      Run(plan, key, "from-trunk-check", "s", 0, ch, fuel)
      == (if OnlyDigits(ch.raw) then Run(plan, key, "from-trunk-check", "s", 2, next, fuel - 2) else Ended(next))
  {
    var next := ch.(digits := DigitsOf(ch.raw));
    assert Run(plan, key, "from-trunk-check", "s", 0, ch, fuel)
        == Run(plan, key, "from-trunk-check", "s", 1, next, fuel - 1);
    var target := if next.digits == "" || |next.digits| != |next.raw| then 5 else 2;
    assert Run(plan, key, "from-trunk-check", "s", 1, next, fuel - 1)
        == Run(plan, key, "from-trunk-check", "s", target, next, fuel - 2);
  }

  lemma CheckPasses(plan: seq<Block>, key: Key, ch: Channel, fuel: nat)
    requires HasTrunk(plan) && fuel >= 3
    ensures Run(plan, key, "from-trunk-check", "s", 2, ch, fuel)
      == Run(plan, key, "did-lookup", "s", 0, ch.(account := ch.digits, caller := CallerOf(ch.from)), fuel - 3)
  {
    assert CHECK_APPS[2..4] == [CHECK_APPS[2], CHECK_APPS[3]];
    RunPlain(plan, key, "from-trunk-check", "s", 2, 4, ch, fuel);
    Effects2(CHECK_APPS[2], CHECK_APPS[3], ch);
    RunGoto(plan, key, "from-trunk-check", "s", 4, ch.(account := ch.digits, caller := CallerOf(ch.from)), fuel - 2);
  }

  /** The digits that the trunk patterns leave of a called number. */
  function RawOf(number: string): string {
    if Pattern(number) == Some(PLUS_NUMBER) then number[1..] else number
  }

  lemma TrunkRuns(plan: seq<Block>, key: Key, call: Incoming, fuel: nat)
    requires HasTrunk(plan) && fuel >= 2 && Pattern(call.number).Some?
    ensures var ch := Ring(call).(raw := RawOf(call.number));
      if Pattern(call.number).value == ANYTHING then Dial(plan, call, key, fuel) == Ended(Ring(call))
      else Dial(plan, call, key, fuel) == Run(plan, key, "from-trunk-check", "s", 0, ch, fuel - 2)
  {
    var p := Pattern(call.number).value;
    assert PLUS_NUMBER[1] == '+' && NUMBER[1] == 'X' && ANYTHING[1] == '[';
    if p != ANYTHING {
      var ch := Ring(call).(raw := RawOf(call.number));
      RawRuns(plan, key, call, p, fuel);
      RunGoto(plan, key, "from-trunk", p, 1, ch, fuel - 1);
    }
  }

  lemma RawRuns(plan: seq<Block>, key: Key, call: Incoming, p: string, fuel: nat)
    requires HasTrunk(plan) && fuel >= 2 && Pattern(call.number) == Some(p) && p in {PLUS_NUMBER, NUMBER}
    ensures Run(plan, key, "from-trunk", p, 0, Ring(call), fuel)
      == Run(plan, key, "from-trunk", p, 1, Ring(call).(raw := RawOf(call.number)), fuel - 1)
  {
    assert PLUS_NUMBER[1] == '+' && NUMBER[1] == 'X';
    assert call.number[0..] == call.number;
  }

  // ---- the theorem ----

  /** The number of a line, with or without a plus sign, comes through the trunk patterns as the line's DID. */
  lemma NumberPatterns(number: string, l: Line)
    requires DidOk(l.did) && Calls(number, l)
    ensures Pattern(number).Some? && Pattern(number).value != ANYTHING && RawOf(number) == l.did
  {
  }

  lemma RawIsNotDid(number: string, l: Line)
    requires !Calls(number, l)
    ensures RawOf(number) != l.did
  {
  }

  /** The channel at the lookup, and at the end of a call to a line. */
  function AtLookup(call: Incoming, l: Line): Channel {
    Checked(Ring(call).(raw := l.did))
  }

  /** A call to a line of the configuration is recorded there, once, with the line's variables and the chosen language,
      whatever key is or is not pressed, and handed to vm-finalize once. */
  lemma CallReachesItsLine(lines: seq<Line>, call: Incoming, key: Key, l: Line, fuel: nat)
    requires Accepted(lines) && l in lines && Calls(call.number, l) && ValidKey(key) && fuel >= |lines| + ENOUGH
    ensures RecordedOn(Call(Plan(lines), call, key, fuel), call, l, key)
  {
    FixedParts(lines);
    DialReaches(lines, call, key, l, fuel);
    HandlerRuns(Plan(lines), EndOfLine(l, key, AtLookup(call, l)).ch, fuel);
    HandedIsRecorded(call, l, key);
  }

  lemma DialReaches(lines: seq<Line>, call: Incoming, key: Key, l: Line, fuel: nat)
    requires Accepted(lines) && l in lines && Calls(call.number, l) && ValidKey(key) && fuel >= |lines| + ENOUGH
    ensures Dial(Plan(lines), call, key, fuel) == EndOfLine(l, key, AtLookup(call, l))
  {
    FixedParts(lines);
    LineParts(lines, l);
    AllDidsDiffer(lines);
    DialInPlan(Plan(lines), lines, call, key, l, fuel);
  }

  lemma DialInPlan(plan: seq<Block>, lines: seq<Line>, call: Incoming, key: Key, l: Line, fuel: nat)
    requires HasTrunk(plan) && HasLookup(plan, lines) && HasRecord(plan) && LineOk(l) && HasLine(plan, l)
    requires DidsDiffer(lines) && DidOk(l.did) && l in lines && Calls(call.number, l) && ValidKey(key)
    requires fuel >= |lines| + ENOUGH
    ensures Dial(plan, call, key, fuel) == EndOfLine(l, key, AtLookup(call, l))
  {
    ReachesLookup(plan, call, key, l, fuel);
    FromLookup(plan, lines, key, l, AtLookup(call, l), fuel - 7, Dial(plan, call, key, fuel));
  }

  lemma FromLookup(plan: seq<Block>, lines: seq<Line>, key: Key, l: Line, ch: Channel, fuel: nat, e: Ending)
    requires HasLookup(plan, lines) && HasRecord(plan) && LineOk(l) && HasLine(plan, l) && DidsDiffer(lines) && l in lines
    requires ch.digits == l.did && ValidKey(key) && fuel >= |lines| + 20
    requires e == Run(plan, key, "did-lookup", "s", 0, ch, fuel)
    ensures e == EndOfLine(l, key, ch)
  {
    LookupToEnd(plan, lines, key, l, ch, fuel);
  }

  /** The channel after the run of vm-finalize. */
  function Handed(ch: Channel): Channel {
    ch.(handed := ch.handed + [[ch.line, ch.lang, ch.caller, ch.did, ch.start, ch.from.unique,
                                if ch.recorded then "1" else "0"]])
  }

  lemma HandedIsRecorded(call: Incoming, l: Line, key: Key)
    requires l.menu != []
    ensures var ch := EndOfLine(l, key, AtLookup(call, l)).ch;
      ch.handlers == ["vm-finalize"] && RecordedOn(Ended(Handed(ch)), call, l, key)
  {
    assert [] + Heard(l, key) == Heard(l, key);
  }

  /** vm-finalize runs once, with what the variables say at the end. */
  lemma HandlerRuns(plan: seq<Block>, ch: Channel, fuel: nat)
    requires HasTrunk(plan) && fuel >= 2 && ch.handlers == ["vm-finalize"]
    ensures HangUp(plan, ch.handlers, ch, fuel) == Ended(Handed(ch))
  {
    var args := FINALIZE_APPS[0].args;
    var next := ch.(handed := ch.handed + [Values(ch, args)]);
    assert Values(ch, args) == [ch.line, ch.lang, ch.caller, ch.did, ch.start, ch.from.unique,
                                if ch.recorded then "1" else "0"];
    assert Run(plan, Silent, "vm-finalize", "s", 0, ch, fuel) == Run(plan, Silent, "vm-finalize", "s", 1, next, fuel - 1);
    assert Run(plan, Silent, "vm-finalize", "s", 1, next, fuel - 1) == Ended(next);
    assert ["vm-finalize"][..0] == [];
  }

  lemma LookupToEnd(plan: seq<Block>, lines: seq<Line>, key: Key, l: Line, ch: Channel, fuel: nat)
    requires HasLookup(plan, lines) && HasRecord(plan) && LineOk(l) && HasLine(plan, l) && DidsDiffer(lines) && l in lines
    requires ch.digits == l.did && ValidKey(key) && fuel >= |lines| + 20
    ensures Run(plan, key, "did-lookup", "s", 0, ch, fuel) == EndOfLine(l, key, ch)
  {
    var k :| 0 <= k < |lines| && lines[k] == l;
    LookupFinds(plan, lines, key, k, 0, ch, fuel);
    FromLine(plan, key, l, ch, fuel - k - 1, Run(plan, key, "did-lookup", "s", 0, ch, fuel));
  }

  /** Whatever goes on at the start of a line's context ends as the line does. */
  lemma FromLine(plan: seq<Block>, key: Key, l: Line, ch: Channel, fuel: nat, e: Ending)
    requires HasRecord(plan) && LineOk(l) && HasLine(plan, l) && ValidKey(key) && fuel >= 20
    requires e == Run(plan, key, LineCtx(l.id), "s", 0, ch, fuel)
    ensures e == EndOfLine(l, key, ch)
  {
    LineRuns(plan, key, l, ch, fuel);
  }

  lemma ReachesLookup(plan: seq<Block>, call: Incoming, key: Key, l: Line, fuel: nat)
    requires HasTrunk(plan) && DidOk(l.did) && Calls(call.number, l) && fuel >= 7
    ensures Dial(plan, call, key, fuel) == Run(plan, key, "did-lookup", "s", 0, AtLookup(call, l), fuel - 7)
  {
    NumberPatterns(call.number, l);
    TrunkRuns(plan, key, call, fuel);
    CheckRuns(plan, key, Ring(call).(raw := l.did), fuel - 2);
  }

  /** Any other call ends without a recording, without a prompt, and without a run of vm-finalize. */
  lemma OtherCallsAreRejected(lines: seq<Line>, call: Incoming, key: Key, fuel: nat)
    requires Accepted(lines) && fuel >= |lines| + ENOUGH && forall l | l in lines :: !Calls(call.number, l)
    ensures RejectedCall(Call(Plan(lines), call, key, fuel))
  {
    FixedParts(lines);
    if Pattern(call.number).Some? {
      ReachesNothing(Plan(lines), lines, call, key, fuel);
    }
  }

  lemma ReachesNothing(plan: seq<Block>, lines: seq<Line>, call: Incoming, key: Key, fuel: nat)
    requires HasTrunk(plan) && HasLookup(plan, lines) && Pattern(call.number).Some?
    requires fuel >= |lines| + ENOUGH && forall l | l in lines :: !Calls(call.number, l)
    ensures var e := Dial(plan, call, key, fuel); RejectedCall(e) && e.ch.handlers == []
  {
    TrunkRuns(plan, key, call, fuel);
    var raw := RawOf(call.number);
    var ch := Ring(call).(raw := raw);
    CheckRuns(plan, key, ch, fuel - 2);
    forall l | l in lines ensures raw != l.did {
      RawIsNotDid(call.number, l);
    }
    if Pattern(call.number).value != ANYTHING && OnlyDigits(raw) {
      LookupFails(plan, lines, key, 0, Checked(ch), fuel - 7);
    }
  }

  /** Compiler correctness: every call terminates; it reaches Record exactly when the number is the DID of a line, with
      or without a plus sign, and then with the variables and the language the configuration prescribes; exactly then is
      it handed to vm-finalize, once. */
  lemma DialplanMeansTheConfiguration(lines: seq<Line>, call: Incoming, key: Key, fuel: nat)
    requires Accepted(lines) && ValidKey(key) && fuel >= |lines| + ENOUGH
    ensures var e := Call(Plan(lines), call, key, fuel);
      && e.Ended?
      && (e.ch.takes != [] <==> exists l | l in lines :: Calls(call.number, l))
      && (e.ch.handed != [] <==> exists l | l in lines :: Calls(call.number, l))
      && (forall l | l in lines && Calls(call.number, l) :: RecordedOn(e, call, l, key))
  {
    if l :| l in lines && Calls(call.number, l) {
      forall m | m in lines && Calls(call.number, m) ensures RecordedOn(Call(Plan(lines), call, key, fuel), call, m, key) {
        CallReachesItsLine(lines, call, key, m, fuel);
      }
    } else {
      OtherCallsAreRejected(lines, call, key, fuel);
    }
  }
}
