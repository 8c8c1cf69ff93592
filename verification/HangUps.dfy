/**
  The caller hangs up whenever he likes: at every step of a call to a line the channel is either still untouched or will
  be handed to vm-finalize once, with the line's name and numbers and a language vm-finalize accepts.
*/
module HangUps {
  import opened Common
  import opened Text
  import opened Config
  import opened Dialplan
  import opened Generate
  import opened CallFlow

  /** The languages a call to the line may have. */
  predicate LangOf(l: Line, lang: string) {
    lang == "auto" || lang in l.menu || lang == l.defaultLanguage
  }

  /** Nothing was heard or recorded, and nothing will be handed over. */
  predicate Untouched(ch: Channel) {
    ch.handlers == [] && ch.played == [] && ch.takes == [] && !ch.recorded && ch.handed == []
  }

  /** The line's variables are set, and the handler is pushed, once. */
  predicate Taken(ch: Channel, call: Incoming, l: Line) {
    && ch.from == call && ch.handlers == ["vm-finalize"] && ch.handed == []
    && ch.line == l.id && ch.did == l.did && ch.start == call.epoch && ch.caller == CallerOf(call) && LangOf(l, ch.lang)
    && (ch.takes != [] ==> ch.recorded)
  }

  predicate Sound(ch: Channel, call: Incoming, l: Line) {
    Untouched(ch) || Taken(ch, call, l)
  }

  /** Less than a row of plain applications. */
  lemma {:induction false} RunShort(plan: seq<Block>, key: Key, ctx: string, exten: string, prio: nat, ch: Channel, n: nat)
    requires Find(plan, ctx, exten).Some? && prio + n <= |Find(plan, ctx, exten).value|
    requires forall a | a in Find(plan, ctx, exten).value[prio..prio + n] :: Plain(a)
    ensures var apps := Find(plan, ctx, exten).value;
      Run(plan, key, ctx, exten, prio, ch, n) == StillRunning(Effects(apps[prio..prio + n], ch))
  {
    var apps := Find(plan, ctx, exten).value;
    RunPlain(plan, key, ctx, exten, prio, prio + n, ch, n);
  }

  lemma RecordSound(plan: seq<Block>, key: Key, ch: Channel, call: Incoming, l: Line, n: nat)
    requires HasRecord(plan) && Taken(ch, call, l)
    ensures Sound(Run(plan, key, "vm-record", "s", 0, ch, n).ch, call, l)
  {
    if n >= 4 {
      RecordRuns(plan, key, ch, n);
    } else {
      RecordPrefix(ch, n);
      assert forall a | a in RECORD_APPS[0..n] :: Plain(a);
      RunShort(plan, key, "vm-record", "s", 0, ch, n);
    }
  }

  lemma RecordPrefix(ch: Channel, n: nat)
    requires n <= 3
    ensures forall a | a in RECORD_APPS[0..n] :: Plain(a)
    ensures var next := Effects(RECORD_APPS[0..n], ch);
      && next.from == ch.from && next.handlers == ch.handlers && next.handed == ch.handed && next.line == ch.line
      && next.did == ch.did && next.start == ch.start && next.caller == ch.caller && next.lang == ch.lang
      && (n == 0 ==> next == ch) && (n > 0 ==> next.recorded)
  {
    if n == 1 {
      assert RECORD_APPS[0..1] == [SetRecorded];
      Effects1(SetRecorded, ch);
    } else if n == 2 {
      assert RECORD_APPS[0..2] == [SetRecorded, Record];
      Effects2(SetRecorded, Record, ch);
    } else if n == 3 {
      assert RECORD_APPS[0..3] == [SetRecorded, Record, PlaybackThanks];
      Effects3(SetRecorded, Record, PlaybackThanks, ch);
    } else {
      assert RECORD_APPS[0..0] == [];
    }
  }

  /** From an extension that sets the language and says its notice. */
  lemma ChoiceSound(plan: seq<Block>, key: Key, ctx: string, exten: string, lang: string, ch: Channel, call: Incoming,
                    l: Line, n: nat)
    requires HasRecord(plan) && Find(plan, ctx, exten) == Some(Choice(l.id, lang)) && Taken(ch, call, l) && LangOf(l, lang)
    ensures Sound(Run(plan, key, ctx, exten, 0, ch, n).ch, call, l)
  {
    var apps := Choice(l.id, lang);
    var next := ch.(lang := lang, played := ch.played + [NoticeName(l.id, lang)]);
    Effects2(apps[0], apps[1], ch);
    Effects1(apps[0], ch);
    if n == 0 {
    } else if n == 1 {
      assert apps[0..1] == [apps[0]];
      RunShort(plan, key, ctx, exten, 0, ch, 1);
    } else {
      assert apps[0..2] == [apps[0], apps[1]];
      RunPlain(plan, key, ctx, exten, 0, 2, ch, n);
      ToRecordSound(plan, key, ctx, exten, 2, next, call, l, n - 2);
    }
  }

  /** From the jump to the recording. */
  lemma ToRecordSound(plan: seq<Block>, key: Key, ctx: string, exten: string, prio: nat, ch: Channel, call: Incoming, l: Line,
                      n: nat)
    requires HasRecord(plan) && Taken(ch, call, l)
    requires var f := Find(plan, ctx, exten); f.Some? && prio < |f.value| && f.value[prio] == TO_RECORD
    ensures Sound(Run(plan, key, ctx, exten, prio, ch, n).ch, call, l)
  {
    if n > 0 {
      RecordSound(plan, key, ch, call, l, n - 1);
    }
    GotoSound(plan, key, ctx, exten, prio, "vm-record", "s", ch, call, l, n);
  }

  /** From an extension that only says a notice. */
  lemma NoticeSound(plan: seq<Block>, key: Key, ctx: string, exten: string, prio: nat, notice: string, ch: Channel,
                    call: Incoming, l: Line, n: nat)
    requires HasRecord(plan) && Taken(ch, call, l)
    requires var f := Find(plan, ctx, exten);
      f.Some? && prio + 2 == |f.value| && f.value[prio] == Playback(notice) && f.value[prio + 1] == TO_RECORD
    ensures Sound(Run(plan, key, ctx, exten, prio, ch, n).ch, call, l)
  {
    if n > 0 {
      var next := ch.(played := ch.played + [notice]);
      assert Run(plan, key, ctx, exten, prio, ch, n) == Run(plan, key, ctx, exten, prio + 1, next, n - 1);
      ToRecordSound(plan, key, ctx, exten, prio + 1, next, call, l, n - 1);
    }
  }

  lemma TimeoutSound(plan: seq<Block>, key: Key, l: Line, ch: Channel, call: Incoming, n: nat)
    requires l.HasMenu() && HasLine(plan, l) && HasRecord(plan) && Taken(ch, call, l)
    ensures Sound(Run(plan, key, LineCtx(l.id), "t", 0, ch, n).ch, call, l)
  {
    assert LineBlocks(l)[1 + |l.menu|] == Block(LineCtx(l.id), "t", TimeoutApps(l));
    if l.defaultLanguage == "auto" {
      NoticeSound(plan, key, LineCtx(l.id), "t", 0, NoticeName(l.id, "auto"), ch, call, l, n);
    } else {
      ChoiceSound(plan, key, LineCtx(l.id), "t", l.defaultLanguage, ch, call, l, n);
    }
  }

  lemma PressedSound(plan: seq<Block>, key: Key, l: Line, ch: Channel, call: Incoming, n: nat)
    requires l.HasMenu() && |l.menu| <= 9 && HasLine(plan, l) && HasRecord(plan) && Taken(ch, call, l)
    requires !key.Silent? && IsDtmf(key.c)
    ensures Sound(Run(plan, key, LineCtx(l.id), Pressed(plan, LineCtx(l.id), key.c), 0, ch, n).ch, call, l)
  {
    var entry := Entry(l, key);
    if entry.Some? {
      EntryFound(plan, l, key);
      ChoiceSound(plan, key, LineCtx(l.id), [key.c], l.menu[entry.value], ch, call, l, n);
    } else {
      InvalidFound(plan, l, key);
      if n > 0 {
        TimeoutSound(plan, key, l, ch, call, n - 1);
      }
      GotoSound(plan, key, LineCtx(l.id), "i", 0, LineCtx(l.id), "t", ch, call, l, n);
    }
  }

  lemma GotoSound(plan: seq<Block>, key: Key, ctx: string, exten: string, prio: nat, nextCtx: string, nextExten: string,
                  ch: Channel, call: Incoming, l: Line, n: nat)
    requires var f := Find(plan, ctx, exten); f.Some? && prio < |f.value| && f.value[prio] == Goto(nextCtx, nextExten)
    requires Taken(ch, call, l) && (n > 0 ==> Sound(Run(plan, key, nextCtx, nextExten, 0, ch, n - 1).ch, call, l))
    ensures Sound(Run(plan, key, ctx, exten, prio, ch, n).ch, call, l)
  {
    if n > 0 {
      RunGoto(plan, key, ctx, exten, prio, ch, n);
    }
  }

  /** From the menu, or the notice of a line without one. */
  lemma GreetingSound(plan: seq<Block>, key: Key, l: Line, ch: Channel, call: Incoming, n: nat)
    requires LineOk(l) && HasLine(plan, l) && HasRecord(plan) && Taken(ch, call, l) && ValidKey(key)
    ensures Sound(Run(plan, key, LineCtx(l.id), "s", 7, ch, n).ch, call, l)
  {
    StartFound(plan, l);
    if !l.HasMenu() {
      NoticeSound(plan, key, LineCtx(l.id), "s", 7, NoticeName(l.id, l.menu[0]), ch, call, l, n);
    } else {
      MenuSound(plan, key, l, ch, call, n);
    }
  }

  lemma MenuSound(plan: seq<Block>, key: Key, l: Line, ch: Channel, call: Incoming, n: nat)
    requires LineOk(l) && l.HasMenu() && HasLine(plan, l) && HasRecord(plan) && Taken(ch, call, l) && ValidKey(key)
    ensures Sound(Run(plan, key, LineCtx(l.id), "s", 7, ch, n).ch, call, l)
  {
    var ctx := LineCtx(l.id);
    var heard := ch.(played := ch.played + [MenuName(l.id)]);
    StartFound(plan, l);
    if n < 2 {
      MenuShort(plan, key, ctx, StartApps(l), ch, n);
    } else {
      RunMenu(plan, key, ctx, StartApps(l), ch, n);
      KeySound(plan, key, l, heard, call, if key.During? then n - 1 else n - 2);
    }
  }

  lemma MenuShort(plan: seq<Block>, key: Key, ctx: string, apps: seq<App>, ch: Channel, n: nat)
    requires Find(plan, ctx, "s") == Some(apps) && |apps| == 9 && apps[7].Background? && n < 2
    ensures Run(plan, key, ctx, "s", 7, ch, n).ch == if n == 0 then ch else ch.(played := ch.played + [apps[7].prompt])
  {
  }

  lemma KeySound(plan: seq<Block>, key: Key, l: Line, ch: Channel, call: Incoming, n: nat)
    requires l.HasMenu() && |l.menu| <= 9 && HasLine(plan, l) && HasRecord(plan) && Taken(ch, call, l) && ValidKey(key)
    ensures Sound(Run(plan, key, LineCtx(l.id), if key.Silent? then "t" else Pressed(plan, LineCtx(l.id), key.c), 0, ch, n).ch,
                  call, l)
  {
    if key.Silent? {
      TimeoutSound(plan, key, l, ch, call, n);
    } else {
      PressedSound(plan, key, l, ch, call, n);
    }
  }

  // ---- the opening ----

  lemma {:induction false} EffectsSnoc(apps: seq<App>, a: App, ch: Channel)
    requires (forall x | x in apps :: Plain(x)) && Plain(a)
    ensures (forall x | x in apps + [a] :: Plain(x)) && Effects(apps + [a], ch) == Effect(a, Effects(apps, ch))
  {
    EffectsAppend(apps, [a], ch);
    Effects1(a, Effects(apps, ch));
  }

  /** The channel after the first n statements of the opening. */
  function OpenedTo(l: Line, lang: string, ch: Channel, n: nat): Channel {
    ch.(line := if n >= 1 then l.id else ch.line, did := if n >= 2 then l.did else ch.did,
        lang := if n >= 3 then lang else ch.lang, start := if n >= 4 then ch.from.epoch else ch.start,
        handlers := if n >= 5 then ch.handlers + ["vm-finalize"] else ch.handlers, answered := n >= 6 || ch.answered)
  }

  lemma OpeningStep(l: Line, lang: string, ch: Channel, n: nat)
    requires n < 7
    ensures Opening(l, lang)[0..n + 1] == Opening(l, lang)[0..n] + [Opening(l, lang)[n]] && Plain(Opening(l, lang)[n])
    ensures Effect(Opening(l, lang)[n], OpenedTo(l, lang, ch, n)) == OpenedTo(l, lang, ch, n + 1)
  {
  }

  lemma {:induction false} OpeningPrefix(l: Line, lang: string, ch: Channel, n: nat)
    requires n <= 7
    ensures forall a | a in Opening(l, lang)[0..n] :: Plain(a)
    ensures Effects(Opening(l, lang)[0..n], ch) == OpenedTo(l, lang, ch, n)
    decreases n
  {
    if n > 0 {
      OpeningPrefix(l, lang, ch, n - 1);
      OpeningStep(l, lang, ch, n - 1);
      EffectsSnoc(Opening(l, lang)[0..n - 1], Opening(l, lang)[n - 1], ch);
    }
  }

  /** What a channel is at the start of a line's context. */
  predicate AtLine(ch: Channel, call: Incoming) {
    Untouched(ch) && ch.from == call && ch.caller == CallerOf(call)
  }

  lemma LineSound(plan: seq<Block>, key: Key, l: Line, ch: Channel, call: Incoming, n: nat)
    requires LineOk(l) && HasLine(plan, l) && HasRecord(plan) && AtLine(ch, call) && ValidKey(key)
    ensures Sound(Run(plan, key, LineCtx(l.id), "s", 0, ch, n).ch, call, l)
  {
    var lang := if l.HasMenu() then "auto" else l.menu[0];
    if n >= 7 {
      OpeningRuns(plan, key, l, ch, n);
      OpenedIsTaken(l, lang, ch, call);
      FromGreeting(plan, key, l, Opened(l, lang, ch), call, n - 7, Run(plan, key, LineCtx(l.id), "s", 0, ch, n));
    } else {
      StartFound(plan, l);
      OpeningShort(plan, key, l, lang, StartApps(l), ch, n);
      OpenedToIsSound(l, lang, ch, call, n);
    }
  }

  lemma OpenedToIsSound(l: Line, lang: string, ch: Channel, call: Incoming, n: nat)
    requires LineOk(l) && AtLine(ch, call) && lang == (if l.HasMenu() then "auto" else l.menu[0]) && n < 7
    ensures Sound(OpenedTo(l, lang, ch, n), call, l)
  {
  }

  lemma OpenedIsTaken(l: Line, lang: string, ch: Channel, call: Incoming)
    requires LineOk(l) && AtLine(ch, call) && lang == (if l.HasMenu() then "auto" else l.menu[0])
    ensures Taken(Opened(l, lang, ch), call, l)
  {
  }

  lemma FromGreeting(plan: seq<Block>, key: Key, l: Line, ch: Channel, call: Incoming, n: nat, e: Ending)
    requires LineOk(l) && HasLine(plan, l) && HasRecord(plan) && Taken(ch, call, l) && ValidKey(key)
    requires e == Run(plan, key, LineCtx(l.id), "s", 7, ch, n)
    ensures Sound(e.ch, call, l)
  {
    GreetingSound(plan, key, l, ch, call, n);
  }

  lemma OpeningShort(plan: seq<Block>, key: Key, l: Line, lang: string, apps: seq<App>, ch: Channel, n: nat)
    requires Find(plan, LineCtx(l.id), "s") == Some(apps) && |apps| == 9 && apps[0..7] == Opening(l, lang) && n < 7
    ensures Run(plan, key, LineCtx(l.id), "s", 0, ch, n) == StillRunning(OpenedTo(l, lang, ch, n))
  {
    assert apps[0..n] == apps[0..7][0..n];
    OpeningPrefix(l, lang, ch, n);
    RunShort(plan, key, LineCtx(l.id), "s", 0, ch, n);
  }

  // ---- before the line ----

  lemma {:induction false} LookupShort(plan: seq<Block>, lines: seq<Line>, key: Key, k: nat, prio: nat, ch: Channel, n: nat)
    requires HasLookup(plan, lines) && DidsDiffer(lines) && prio <= k < |lines| && ch.digits == lines[k].did && n <= k - prio
    ensures Run(plan, key, "did-lookup", "s", prio, ch, n) == StillRunning(ch)
    decreases n
  {
    if n > 0 {
      LookupShort(plan, lines, key, k, prio + 1, ch, n - 1);
    }
  }

  lemma LookupSound(plan: seq<Block>, lines: seq<Line>, key: Key, l: Line, ch: Channel, call: Incoming, n: nat)
    requires HasLookup(plan, lines) && HasRecord(plan) && LineOk(l) && HasLine(plan, l) && DidsDiffer(lines) && l in lines
    requires ch.digits == l.did && AtLine(ch, call) && ValidKey(key)
    ensures Sound(Run(plan, key, "did-lookup", "s", 0, ch, n).ch, call, l)
  {
    var k :| 0 <= k < |lines| && lines[k] == l;
    LookupSoundAt(plan, lines, key, l, k, ch, call, n);
  }

  lemma LookupSoundAt(plan: seq<Block>, lines: seq<Line>, key: Key, l: Line, k: nat, ch: Channel, call: Incoming, n: nat)
    requires HasLookup(plan, lines) && HasRecord(plan) && LineOk(l) && HasLine(plan, l) && DidsDiffer(lines)
    requires k < |lines| && lines[k] == l && ch.digits == l.did && AtLine(ch, call) && ValidKey(key)
    ensures Sound(Run(plan, key, "did-lookup", "s", 0, ch, n).ch, call, l)
  {
    if n <= k {
      LookupShort(plan, lines, key, k, 0, ch, n);
    } else {
      LookupFinds(plan, lines, key, k, 0, ch, n);
      FromLineSound(plan, key, l, ch, call, n - k - 1, Run(plan, key, "did-lookup", "s", 0, ch, n));
    }
  }

  lemma FromLineSound(plan: seq<Block>, key: Key, l: Line, ch: Channel, call: Incoming, n: nat, e: Ending)
    requires LineOk(l) && HasLine(plan, l) && HasRecord(plan) && AtLine(ch, call) && ValidKey(key)
    requires e == Run(plan, key, LineCtx(l.id), "s", 0, ch, n)
    ensures Sound(e.ch, call, l)
  {
    LineSound(plan, key, l, ch, call, n);
  }

  /** The check of the number touches neither handlers nor recordings. */
  lemma CheckShort(plan: seq<Block>, key: Key, ch: Channel, prio: nat, n: nat)
    requires HasTrunk(plan) && prio <= 5 && n < 5 - prio && Untouched(ch)
    ensures Untouched(Run(plan, key, "from-trunk-check", "s", prio, ch, n).ch)
    decreases n
  {
    if n > 0 {
      var app := CHECK_APPS[prio];
      if Plain(app) {
        CheckShort(plan, key, Effect(app, ch), prio + 1, n - 1);
      } else {
        assert app == RejectUnlessPlain(5);
        CheckRejects(plan, key, ch, n);
        CheckShort(plan, key, ch, prio + 1, n - 1);
      }
    }
  }

  lemma CheckRejects(plan: seq<Block>, key: Key, ch: Channel, n: nat)
    requires HasTrunk(plan) && n > 0
    ensures var r := Run(plan, key, "from-trunk-check", "s", 1, ch, n);
      r.ch == ch || r == Run(plan, key, "from-trunk-check", "s", 2, ch, n - 1)
  {
  }

  lemma TrunkSound(plan: seq<Block>, lines: seq<Line>, call: Incoming, key: Key, l: Line, n: nat)
    requires HasTrunk(plan) && HasLookup(plan, lines) && HasRecord(plan) && LineOk(l) && HasLine(plan, l)
    requires DidsDiffer(lines) && DidOk(l.did) && l in lines && Calls(call.number, l) && ValidKey(key)
    ensures Sound(Dial(plan, call, key, n).ch, call, l)
  {
    var ch := Ring(call).(raw := l.did);
    NumberPatterns(call.number, l);
    if n >= 2 {
      TrunkRuns(plan, key, call, n);
      if n >= 7 {
        CheckRuns(plan, key, ch, n - 2);
        LookupSound(plan, lines, key, l, Checked(ch), call, n - 7);
      } else {
        CheckShort(plan, key, ch, 0, n - 2);
      }
    } else {
      TrunkShort(plan, key, call, n);
    }
  }

  lemma TrunkShort(plan: seq<Block>, key: Key, call: Incoming, n: nat)
    requires HasTrunk(plan) && Pattern(call.number) in {Some(PLUS_NUMBER), Some(NUMBER)} && n < 2
    ensures Untouched(Dial(plan, call, key, n).ch)
  {
    var p := Pattern(call.number).value;
    assert Run(plan, key, "from-trunk", p, 0, Ring(call), n).ch
        == if n == 0 then Ring(call) else Effect(SetRaw(if p == PLUS_NUMBER then 1 else 0), Ring(call));
  }

  /** A call whose caller hangs up after n steps of the dialplan, wherever it is by then. */
  function HungUp(plan: seq<Block>, call: Incoming, key: Key, n: nat, fuel: nat): Ending {
    var ch := Dial(plan, call, key, n).ch;
    HangUp(plan, ch.handlers, ch, fuel)
  }

  /** How it ends: as if nothing had happened, or handed to vm-finalize once, in a language it accepts, and as recorded if
      anything was. */
  predicate HandedOnce(e: Ending, call: Incoming, l: Line) {
    && e.Ended?
    && (|| (e.ch.handed == [] && e.ch.played == [] && e.ch.takes == [])
        || (&& LangOf(l, e.ch.lang) && (e.ch.takes != [] ==> e.ch.recorded)
            && e.ch.handed == [[l.id, e.ch.lang, CallerOf(call), l.did, call.epoch, call.unique,
                                if e.ch.recorded then "1" else "0"]]))
  }

  /** Whenever the caller of a line hangs up: if he heard anything, vm-finalize runs exactly once. */
  lemma HangUpAnywhere(lines: seq<Line>, call: Incoming, key: Key, l: Line, n: nat, fuel: nat)
    requires Accepted(lines) && l in lines && Calls(call.number, l) && ValidKey(key) && fuel >= 2
    ensures HandedOnce(HungUp(Plan(lines), call, key, n, fuel), call, l)
  {
    FixedParts(lines);
    LineParts(lines, l);
    AllDidsDiffer(lines);
    TrunkSound(Plan(lines), lines, call, key, l, n);
    SoundIsHanded(Plan(lines), Dial(Plan(lines), call, key, n).ch, call, l, fuel);
  }

  lemma SoundIsHanded(plan: seq<Block>, ch: Channel, call: Incoming, l: Line, fuel: nat)
    requires HasTrunk(plan) && Sound(ch, call, l) && fuel >= 2
    ensures HandedOnce(HangUp(plan, ch.handlers, ch, fuel), call, l)
  {
    if !Untouched(ch) {
      HandlerRuns(plan, ch, fuel);
    }
  }
}
