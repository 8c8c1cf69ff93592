/**
  The bounds of Delivery.dfy are exact: runs that meet them, and runs that show where a promise stops. Every run here is
  of one item, alone in ready/, that a worker polls again and again.
*/
module Exact {
  import opened Common
  import opened Config
  import opened Machine
  import opened Protocol
  import opened Cycle
  import opened Delivery
  import opened Calls

  /** The worker is between two cycles; the item waits, and this is what is remembered about it. */
  predicate Waits(s: System, id: Id, meta: Meta, audio: Option<Bytes>, slot: Slot) {
    && s.mode.Idle? && s.jsons == map[id := meta] && s.wavs == (if audio.Some? then map[id := audio.value] else map[])
    && s.slots == Put(map[], id, slot)
  }

  /** What a fetch finds of such an item. */
  predicate Finds(o: Oracle, meta: Meta, audio: Option<Bytes>) {
    if o.get.Got? then o.get.meta == meta && o.get.wav == audio
    else o.onDisk.Some? ==> audio.Some? && o.onDisk.value <= audio.value
  }

  lemma Publish(cfg: Settings, id: Id, meta: Meta, audio: Option<Bytes>) returns (moves: seq<Move>, s: System)
    requires cfg.Valid() && meta.id == id && meta.hasAudio == Some(audio.Some?)
    ensures After(cfg, moves) == Some(s) && Waits(s, id, meta, audio, EMPTY)
    ensures s.history == (if audio.Some? then [Moved(id, audio.value)] else []) + [Posted(id, meta)]
  {
    if audio.Some? {
      Go1(cfg, INIT, MoveWav(id, audio.value));
      var half := Apply(cfg, INIT, MoveWav(id, audio.value));
      Go1(cfg, half, MoveJson(id, meta));
      GoAppend(cfg, INIT, [MoveWav(id, audio.value)], [MoveJson(id, meta)]);
      moves, s := [MoveWav(id, audio.value)] + [MoveJson(id, meta)], Apply(cfg, half, MoveJson(id, meta));
    } else {
      Go1(cfg, INIT, MoveJson(id, meta));
      moves, s := [MoveJson(id, meta)], Apply(cfg, INIT, MoveJson(id, meta));
    }
  }

  function Round(cfg: Settings, slot: Slot, id: Id, o: Oracle): seq<Move>
    requires cfg.Valid() && o.Valid()
  {
    [ScanStart] + [ScanEnd([id])] + ItemMoves(cfg, slot, id, o) + [Rest]
  }

  lemma RoundIsARun(cfg: Settings, s: System, id: Id, meta: Meta, audio: Option<Bytes>, slot: Slot, o: Oracle)
    returns (t: System)
    requires cfg.Valid() && o.Valid() && Waits(s, id, meta, audio, slot)
    requires Finds(o, meta, audio)
    requires JsonRemoved !in Process(cfg, slot, id, o).calls
    ensures var out := Process(cfg, slot, id, o);
      && Go(cfg, s, Round(cfg, slot, id, o)) == Some(t)
      && Waits(t, id, meta, if WavRemoved in out.calls then None else audio, out.slot)
      && t.history == s.history + CallsOf(id, out.calls)
  {
    var s2 := ScanIsARun(cfg, s, id, meta, audio, slot);
    ItemIsARun(cfg, s2, o);
    var scan := [ScanStart] + [ScanEnd([id])];
    var item := ItemMoves(cfg, slot, id, o);
    GoAppend(cfg, s, scan, item);
    GoOn(cfg, s, scan + item, Rest);
    t := Go(cfg, s, scan + item + [Rest]).value;
    assert t == AfterItem(cfg, s, id, slot, o);
    StillWaits(cfg, s, id, meta, audio, slot, o);
  }

  lemma StillWaits(cfg: Settings, s: System, id: Id, meta: Meta, audio: Option<Bytes>, slot: Slot, o: Oracle)
    requires cfg.Valid() && o.Valid() && Waits(s, id, meta, audio, slot)
    requires JsonRemoved !in Process(cfg, slot, id, o).calls
    ensures var out := Process(cfg, slot, id, o);
      Waits(AfterItem(cfg, s, id, slot, o), id, meta, if WavRemoved in out.calls then None else audio, out.slot)
  {
  }

  /** The state that processing the only item leaves. */
  function AfterItem(cfg: Settings, s: System, id: Id, slot: Slot, o: Oracle): System
    requires cfg.Valid() && o.Valid()
  {
    var out := Process(cfg, slot, id, o);
    s.(mode := Idle, slots := Put(s.slots, id, out.slot), history := s.history + CallsOf(id, out.calls),
       wavs := if WavRemoved in out.calls then s.wavs - {id} else s.wavs,
       jsons := if JsonRemoved in out.calls then s.jsons - {id} else s.jsons)
  }

  lemma ScanIsARun(cfg: Settings, s: System, id: Id, meta: Meta, audio: Option<Bytes>, slot: Slot) returns (t: System)
    requires cfg.Valid() && Waits(s, id, meta, audio, slot)
    ensures Go(cfg, s, [ScanStart] + [ScanEnd([id])]) == Some(t) && t == s.(mode := Polling([id]))
  {
    Go1(cfg, s, ScanStart);
    var s1 := Apply(cfg, s, ScanStart);
    assert [id][0] == id;
    assert (set k | k in [id]) == {id};
    Go1(cfg, s1, ScanEnd([id]));
    t := Apply(cfg, s1, ScanEnd([id]));
    assert t.slots == s.slots;
    GoAppend(cfg, s, [ScanStart], [ScanEnd([id])]);
  }

  /** One more poll cycle at the end of a run. */
  lemma OneMore(cfg: Settings, moves: seq<Move>, s: System, id: Id, meta: Meta, audio: Option<Bytes>, slot: Slot,
                o: Oracle)
    returns (more: seq<Move>, t: System)
    requires cfg.Valid() && o.Valid() && After(cfg, moves) == Some(s) && Waits(s, id, meta, audio, slot)
    requires Finds(o, meta, audio)
    requires JsonRemoved !in Process(cfg, slot, id, o).calls
    ensures var out := Process(cfg, slot, id, o);
      && After(cfg, more) == Some(t)
      && Waits(t, id, meta, if WavRemoved in out.calls then None else audio, out.slot)
      && t.history == s.history + CallsOf(id, out.calls)
  {
    t := RoundIsARun(cfg, s, id, meta, audio, slot, o);
    more := moves + Round(cfg, slot, id, o);
    GoAppend(cfg, INIT, moves, Round(cfg, slot, id, o));
  }

  /** Calls that remove no file. */
  predicate Keeping(calls: seq<Effect>) {
    WavRemoved !in calls && JsonRemoved !in calls
  }

  // ---- how the counts of Delivery.dfy grow ----

  lemma {:induction false} CountsGrow(h: seq<Mark>, id: Id, calls: seq<Effect>)
    ensures var more := h + CallsOf(id, calls);
      && Deliveries(more, id) >= Deliveries(h, id) && AckAlerts(more, id) >= AckAlerts(h, id)
      && (GaveUp !in calls ==> FailuresSince(more, id) >= FailuresSince(h, id))
    decreases |calls|
  {
    if calls == [] {
      assert h + CallsOf(id, calls) == h;
    } else {
      SplitLast(h, id, calls);
      CountsGrow(h, id, calls[..|calls| - 1]);
    }
  }

  lemma SplitLast(h: seq<Mark>, id: Id, calls: seq<Effect>)
    requires calls != []
    ensures var more := h + CallsOf(id, calls); var n := |calls| - 1;
      more != [] && more[..|more| - 1] == h + CallsOf(id, calls[..n]) && more[|more| - 1] == Call(id, calls[n])
  {
  }

  lemma {:induction false} AlertsGrow(h: seq<Mark>, id: Id, calls: seq<Effect>)
    requires AckAlerted in calls
    ensures AckAlerts(h + CallsOf(id, calls), id) >= AckAlerts(h, id) + 1
    decreases |calls|
  {
    SplitLast(h, id, calls);
    var n := |calls| - 1;
    if calls[n].AckAlerted? {
      CountsGrow(h, id, calls[..n]);
    } else {
      AlertsGrow(h, id, calls[..n]);
    }
  }

  lemma {:induction false} DeliveriesGrow(h: seq<Mark>, id: Id, calls: seq<Effect>)
    requires exists e :: e in calls && e.Accepted?
    ensures Deliveries(h + CallsOf(id, calls), id) >= Deliveries(h, id) + 1
    decreases |calls|
  {
    SplitLast(h, id, calls);
    var n := |calls| - 1;
    if calls[n].Accepted? {
      CountsGrow(h, id, calls[..n]);
    } else {
      DeliveriesGrow(h, id, calls[..n]);
    }
  }

  lemma {:induction false} FailuresGrow(h: seq<Mark>, id: Id, calls: seq<Effect>)
    requires GaveUp !in calls && exists e :: e in calls && e.FailureCounted?
    ensures FailuresSince(h + CallsOf(id, calls), id) >= FailuresSince(h, id) + 1
    decreases |calls|
  {
    SplitLast(h, id, calls);
    var n := |calls| - 1;
    if calls[n].FailureCounted? {
      CountsGrow(h, id, calls[..n]);
    } else {
      FailuresGrow(h, id, calls[..n]);
    }
  }

  function CrashCount(h: seq<Mark>): nat
    decreases |h|
  {
    if h == [] then 0 else CrashCount(h[..|h| - 1]) + (if h[|h| - 1].Crash? then 1 else 0)
  }

  lemma {:induction false} CallsDoNotCrash(h: seq<Mark>, id: Id, calls: seq<Effect>)
    ensures CrashCount(h + CallsOf(id, calls)) == CrashCount(h)
    decreases |calls|
  {
    if calls == [] {
      assert h + CallsOf(id, calls) == h;
    } else {
      SplitLast(h, id, calls);
      CallsDoNotCrash(h, id, calls[..|calls| - 1]);
    }
  }

  lemma {:induction false} UnackedCrashesAreCrashes(h: seq<Mark>, id: Id)
    ensures UnackedCrashes(h, id) <= CrashCount(h)
    decreases |h|
  {
    if h != [] {
      UnackedCrashesAreCrashes(h[..|h| - 1], id);
    }
  }

  // ---- what one call of process does ----

  const BLANK_EMAIL: Email := Email("", "")

  function MissedCall(cfg: Settings, id: Id): Meta
    requires cfg.Valid()
  {
    Meta(id, Some(cfg.lines[0].id), None, Some(false))
  }

  /** A missed call whose email is sent with this answer; every ack fails. */
  function Missing(meta: Meta, snd: SendAnswer): Oracle {
    Oracle(Got(meta, None), true, SpeechRaises, NoAnswer, NoAnswer, Rendered(BLANK_EMAIL), snd, AckRaises(0), None, true,
           RenderRaises, SendRaises)
  }

  /** A fetch that raises. */
  function Unreadable(meta: Meta): Oracle {
    Missing(meta, SendRaises).(get := GetRaises)
  }

  function MissedEmail(cfg: Settings, id: Id): Pending
    requires cfg.Valid()
  {
    Pending(MissedCall(cfg, id), Missed, LineWithId(cfg.lines, cfg.lines[0].id).GetOr(cfg.lines[0]).mailbox, BLANK_EMAIL, [],
            NO_PROVIDERS)
  }

  lemma MissedComposes(cfg: Settings, id: Id, snd: SendAnswer)
    requires cfg.Valid()
    ensures var meta := MissedCall(cfg, id);
      Compose(cfg, id, meta, None, Missing(meta, snd)) == Ready(MissedEmail(cfg, id), [])
  {
  }

  /** Delivered, not acked: the failure of the ack is counted and then forgotten. */
  lemma DeliversWithoutAck(cfg: Settings, id: Id)
    requires cfg.Valid()
    ensures var p := MissedEmail(cfg, id);
      var out := Process(cfg, EMPTY, id, Missing(p.meta, Accepts("")));
      && Keeping(out.calls) && out.slot == EMPTY.(sent := Some(Delivered(p.meta, "")))
      && Accepted(p, "") in out.calls && (cfg.maxFailures == 1 && cfg.alerter ==> AckAlerted in out.calls)
  {
    var p := MissedEmail(cfg, id);
    MissedComposes(cfg, id, Accepts(""));
    var alert := if cfg.maxFailures == 1 && cfg.alerter then [AckAlerted] else [];
    assert Removals(0) == [];
    assert Process(cfg, EMPTY, id, Missing(p.meta, Accepts(""))).calls ==
        [Began, GetCalled, Fetched(p.meta, None), SendCalled(p), Accepted(p, ""),
         Recorded(p.meta, Sent(Missed), NO_PROVIDERS, Some("")), AckCalled, AckFailureCounted(1)] + alert;
  }

  lemma FailsToAckAgain(cfg: Settings, id: Id)
    requires cfg.Valid() && cfg.maxFailures == 1 && cfg.alerter
    ensures var p := MissedEmail(cfg, id);
      var out := Process(cfg, EMPTY.(sent := Some(Delivered(p.meta, ""))), id, Missing(p.meta, Accepts("")));
      Keeping(out.calls) && AckAlerted in out.calls
  {
  }

  // ---- the "ack failing" alert ----

  /** With max_failures 1 the alert is raised by the delivering call and again by the next one: the fresh path clears the
      counter in between. */
  lemma AlertsTwice(cfg: Settings, id: Id) returns (moves: seq<Move>)
    requires cfg.Valid() && cfg.maxFailures == 1 && cfg.alerter
    ensures After(cfg, moves).Some? && AckAlerts(After(cfg, moves).value.history, id) >= 2
  {
    var p := MissedEmail(cfg, id);
    var o := Missing(p.meta, Accepts(""));
    var s;
    moves, s := Publish(cfg, id, p.meta, None);
    DeliversWithoutAck(cfg, id);
    AlertsGrow(s.history, id, Process(cfg, EMPTY, id, o).calls);
    moves, s := OneMore(cfg, moves, s, id, p.meta, None, EMPTY, o);
    var slot := EMPTY.(sent := Some(Delivered(p.meta, "")));
    FailsToAckAgain(cfg, id);
    AlertsGrow(s.history, id, Process(cfg, slot, id, o).calls);
    moves, s := OneMore(cfg, moves, s, id, p.meta, None, slot, o);
  }

  /** The "ack failing" alert is attempted at most once per item in every run exactly when max_failures is at least 2. */
  lemma AckAlertOnceIff(cfg: Settings, id: Id)
    requires cfg.Valid() && cfg.alerter
    ensures (forall moves :: After(cfg, moves).Some? ==> AckAlerts(After(cfg, moves).value.history, id) <= 1)
            <==> cfg.maxFailures >= 2
  {
    if cfg.maxFailures >= 2 {
      forall moves | After(cfg, moves).Some? ensures AckAlerts(After(cfg, moves).value.history, id) <= 1 {
        AckAlertAtMostOnce(cfg, moves, id);
      }
    } else {
      var moves := AlertsTwice(cfg, id);
      assert After(cfg, moves).Some?;
    }
  }

  // ---- duplicates ----

  lemma {:induction false} Crashing(cfg: Settings, id: Id, k: nat) returns (moves: seq<Move>, s: System)
    requires cfg.Valid()
    ensures After(cfg, moves) == Some(s) && Waits(s, id, MissedCall(cfg, id), None, EMPTY)
    ensures Deliveries(s.history, id) >= k && CrashCount(s.history) == k
    decreases k
  {
    var p := MissedEmail(cfg, id);
    if k == 0 {
      moves, s := Publish(cfg, id, p.meta, None);
      assert s.history == [Posted(id, p.meta)];
      assert s.history[..0] == [];
    } else {
      moves, s := Crashing(cfg, id, k - 1);
      moves, s := DeliverOnce(cfg, id, moves, s);
      assert (s.history + [Crash])[..|s.history|] == s.history;
      moves, s := Restart(cfg, id, moves, s);
    }
  }

  lemma DeliverOnce(cfg: Settings, id: Id, before: seq<Move>, s: System) returns (moves: seq<Move>, t: System)
    requires cfg.Valid() && After(cfg, before) == Some(s) && Waits(s, id, MissedCall(cfg, id), None, EMPTY)
    ensures After(cfg, moves) == Some(t)
    ensures t.mode.Idle? && t.jsons == map[id := MissedCall(cfg, id)] && t.wavs == map[]
    ensures Deliveries(t.history, id) >= Deliveries(s.history, id) + 1 && CrashCount(t.history) == CrashCount(s.history)
  {
    var p := MissedEmail(cfg, id);
    var o := Missing(p.meta, Accepts(""));
    DeliversWithoutAck(cfg, id);
    var calls := Process(cfg, EMPTY, id, o).calls;
    assert Accepted(p, "").Accepted?;
    DeliveriesGrow(s.history, id, calls);
    CallsDoNotCrash(s.history, id, calls);
    moves, t := OneMore(cfg, before, s, id, p.meta, None, EMPTY, o);
  }

  /** The duplicate bound is met: for every k some run has k crashes that find the item delivered but not acked, and
      1 + k emails accepted for it. */
  lemma DuplicateBoundIsMet(cfg: Settings, id: Id, k: nat) returns (moves: seq<Move>)
    requires cfg.Valid()
    ensures After(cfg, moves).Some?
    ensures var h := After(cfg, moves).value.history; Deliveries(h, id) == 1 + k && UnackedCrashes(h, id) == k
  {
    var s;
    moves, s := Crashing(cfg, id, k);
    moves, s := DeliverOnce(cfg, id, moves, s);
    NoLoss(cfg, moves, id);
    UnackedCrashesAreCrashes(s.history, id);
  }

  // ---- a crash between the two removals of an ack ----

  function VoiceMail(cfg: Settings, id: Id): Meta
    requires cfg.Valid()
  {
    Meta(id, Some(cfg.lines[0].id), Some("de"), Some(true))
  }

  /** The email goes out with the recording; ack removes the WAV and then raises. */
  function HalfAcked(meta: Meta, wav: Bytes): Oracle {
    Missing(meta, Accepts("")).(get := Got(meta, Some(wav)), ack := AckRaises(1), onDisk := Some(wav))
  }

  lemma RemovesOnlyTheWav(cfg: Settings, id: Id, wav: Bytes)
    requires cfg.Valid()
    ensures var out := Process(cfg, EMPTY, id, HalfAcked(VoiceMail(cfg, id), wav));
      WavRemoved in out.calls && JsonRemoved !in out.calls
  {
    var meta := VoiceMail(cfg, id);
    var o := HalfAcked(meta, wav);
    var p := HalfAckedComposes(cfg, id, wav);
    HalfDelivers(cfg, id, p);
    var d := Deliver(cfg, EMPTY, id, p, Accepts(""), AckRaises(1));
    assert Pipeline(cfg, EMPTY, id, meta, Some(wav), o).calls == [SpeechChecked(SpeechRaises)] + d.calls;
    FetchedThenReturns(cfg, EMPTY, id, meta, Some(wav), o);
    HalfIsEnough([Began, GetCalled, Fetched(meta, Some(wav))], [SpeechChecked(SpeechRaises)], d.calls);
  }

  lemma HalfAckedComposes(cfg: Settings, id: Id, wav: Bytes) returns (p: Pending)
    requires cfg.Valid()
    ensures var meta := VoiceMail(cfg, id);
      Compose(cfg, id, meta, Some(wav), HalfAcked(meta, wav)) == Ready(p, [SpeechChecked(SpeechRaises)])
  {
    assert cfg.lines[0] in cfg.lines;
    var line := LineWithId(cfg.lines, cfg.lines[0].id).value;
    p := Pending(VoiceMail(cfg, id), FallbackSpeech, line.mailbox, BLANK_EMAIL, [Attachment(id + ".wav", wav)], NO_PROVIDERS);
  }

  lemma HalfDelivers(cfg: Settings, id: Id, p: Pending)
    requires cfg.Valid()
    ensures var d := Deliver(cfg, EMPTY, id, p, Accepts(""), AckRaises(1));
      d.verdict.Retry? && WavRemoved in d.calls && JsonRemoved !in d.calls
  {
    assert Removals(1) == [WavRemoved];
    assert Deliver(cfg, EMPTY, id, p, Accepts(""), AckRaises(1)).calls ==
        [SendCalled(p), Accepted(p, ""), Recorded(p.meta, Sent(p.outcome), p.providers, Some("")), AckCalled, WavRemoved,
         AckFailureCounted(1)] + (if cfg.maxFailures == 1 && cfg.alerter then [AckAlerted] else []);
  }

  lemma HalfIsEnough(head: seq<Effect>, asked: seq<Effect>, calls: seq<Effect>)
    requires WavRemoved in calls && JsonRemoved !in head && JsonRemoved !in asked && JsonRemoved !in calls
    ensures WavRemoved in head + (asked + calls) && JsonRemoved !in head + (asked + calls)
  {
  }

  lemma TakenForAMissedCall(cfg: Settings, id: Id) returns (p: Pending)
    requires cfg.Valid()
    ensures p.outcome == Missed && p.attachments == []
    ensures var meta := VoiceMail(cfg, id); var calls := Process(cfg, EMPTY, id, Missing(meta, Accepts(""))).calls;
      |calls| > 4 && calls[2] == Fetched(meta, None) && calls[4] == Accepted(p, "") && JsonRemoved !in calls
  {
    assert cfg.lines[0] in cfg.lines;
    var meta := VoiceMail(cfg, id);
    p := Pending(meta, Missed, LineWithId(cfg.lines, cfg.lines[0].id).value.mailbox, BLANK_EMAIL, [], NO_PROVIDERS);
    assert Compose(cfg, id, meta, None, Missing(meta, Accepts(""))) == Ready(p, []);
    assert Removals(0) == [];
    assert Process(cfg, EMPTY, id, Missing(meta, Accepts(""))).calls ==
        [Began, GetCalled, Fetched(meta, None), SendCalled(p), Accepted(p, ""),
         Recorded(meta, Sent(Missed), NO_PROVIDERS, Some("")), AckCalled, AckFailureCounted(1)]
        + (if cfg.maxFailures == 1 && cfg.alerter then [AckAlerted] else []);
  }

  /** A fetch can miss the WAV of a message after a crash: the restarted worker then announces a missed call. */
  lemma CrashTurnsMessageIntoMissedCall(cfg: Settings, id: Id, wav: Bytes) returns (moves: seq<Move>, i: nat, p: Pending)
    requires cfg.Valid()
    ensures After(cfg, moves).Some?
    ensures var h := After(cfg, moves).value.history; var meta := VoiceMail(cfg, id);
      && i + 2 < |h| && h[i] == Call(id, Fetched(meta, None)) && meta.hasAudio == Some(true)
      && h[i + 2] == Call(id, Accepted(p, "")) && p.outcome == Missed
  {
    var meta := VoiceMail(cfg, id);
    var s;
    moves, s := Publish(cfg, id, meta, Some(wav));
    RemovesOnlyTheWav(cfg, id, wav);
    moves, s := OneMore(cfg, moves, s, id, meta, Some(wav), EMPTY, HalfAcked(meta, wav));
    moves, s := Restart(cfg, id, moves, s);
    p := TakenForAMissedCall(cfg, id);
    i := |s.history| + 2;
    var calls := Process(cfg, EMPTY, id, Missing(meta, Accepts(""))).calls;
    moves, s := OneMore(cfg, moves, s, id, meta, None, EMPTY, Missing(meta, Accepts("")));
    assert CallsOf(id, calls)[2] == Call(id, calls[2]) && CallsOf(id, calls)[4] == Call(id, calls[4]);
  }

  lemma Restart(cfg: Settings, id: Id, before: seq<Move>, s: System) returns (moves: seq<Move>, t: System)
    requires cfg.Valid() && After(cfg, before) == Some(s)
    ensures After(cfg, moves) == Some(t) && t == s.(mode := Idle, slots := map[], history := s.history + [Crash])
  {
    GoAppend(cfg, INIT, before, [Crashes]);
    Go1(cfg, s, Crashes);
    moves, t := before + [Crashes], Apply(cfg, s, Crashes);
  }

  // ---- escalation ----

  lemma FetchFails(cfg: Settings, id: Id, meta: Meta, n: nat)
    requires cfg.Valid() && n + 1 < cfg.maxFailures
    ensures Process(cfg, EMPTY.(failures := n), id, Unreadable(meta))
            == Out(EMPTY.(failures := n + 1), [Began, GetCalled, FailureCounted(n + 1)], Retry)
  {
  }

  predicate NoGiveUp(h: seq<Mark>, id: Id) {
    Call(id, GaveUp) !in h && Crash !in h
  }

  /** One more cycle whose calls count a failure, or none. */
  lemma OneMoreFailure(cfg: Settings, moves: seq<Move>, s: System, id: Id, meta: Meta, audio: Option<Bytes>, slot: Slot,
                o: Oracle)
    returns (more: seq<Move>, t: System)
    requires cfg.Valid() && o.Valid() && After(cfg, moves) == Some(s) && Waits(s, id, meta, audio, slot)
    requires Finds(o, meta, audio)
    requires var calls := Process(cfg, slot, id, o).calls; Keeping(calls) && GaveUp !in calls && NoGiveUp(s.history, id)
    ensures var out := Process(cfg, slot, id, o);
      && After(cfg, more) == Some(t) && Waits(t, id, meta, audio, out.slot) && NoGiveUp(t.history, id)
      && FailuresSince(t.history, id) >= FailuresSince(s.history, id)
      && ((exists e :: e in out.calls && e.FailureCounted?) ==>
            FailuresSince(t.history, id) >= FailuresSince(s.history, id) + 1)
  {
    var calls := Process(cfg, slot, id, o).calls;
    more, t := OneMore(cfg, moves, s, id, meta, audio, slot, o);
    CountsGrow(s.history, id, calls);
    if e :| e in calls && e.FailureCounted? {
      FailuresGrow(s.history, id, calls);
    }
    forall m | m in CallsOf(id, calls) ensures m != Call(id, GaveUp) && !m.Crash? {
    }
  }

  /** The run ends with the item waiting and n failures counted, and saw no give-up and no crash. */
  predicate Counted(cfg: Settings, moves: seq<Move>, s: System, id: Id, meta: Meta, audio: Option<Bytes>, slot: Slot,
                    n: nat)
    requires cfg.Valid()
  {
    && After(cfg, moves) == Some(s) && Waits(s, id, meta, audio, slot)
    && FailuresSince(s.history, id) >= n && NoGiveUp(s.history, id)
  }

  lemma NothingCounted(cfg: Settings, id: Id, meta: Meta, audio: Option<Bytes>) returns (moves: seq<Move>, s: System)
    requires cfg.Valid() && meta.id == id && meta.hasAudio == Some(audio.Some?)
    ensures Counted(cfg, moves, s, id, meta, audio, EMPTY.(failures := 0), 0)
  {
    moves, s := Publish(cfg, id, meta, audio);
  }

  /** n fetches in a row raise. */
  lemma {:induction false} FetchesFail(cfg: Settings, id: Id, meta: Meta, audio: Option<Bytes>, n: nat)
    returns (moves: seq<Move>, s: System)
    requires cfg.Valid() && n < cfg.maxFailures && meta.id == id && meta.hasAudio == Some(audio.Some?)
    ensures Counted(cfg, moves, s, id, meta, audio, EMPTY.(failures := n), n)
    decreases n
  {
    if n == 0 {
      moves, s := NothingCounted(cfg, id, meta, audio);
    } else {
      moves, s := FetchesFail(cfg, id, meta, audio, n - 1);
      moves, s := FetchFailsOnce(cfg, id, meta, audio, moves, s, n);
    }
  }

  /** The n-th fetch raises. */
  lemma FetchFailsOnce(cfg: Settings, id: Id, meta: Meta, audio: Option<Bytes>, moves: seq<Move>, s: System, n: nat)
    returns (more: seq<Move>, t: System)
    requires cfg.Valid() && 0 < n < cfg.maxFailures
    requires Counted(cfg, moves, s, id, meta, audio, EMPTY.(failures := n - 1), n - 1)
    ensures Counted(cfg, more, t, id, meta, audio, EMPTY.(failures := n), n)
  {
    FetchFails(cfg, id, meta, n - 1);
    assert [Began, GetCalled, FailureCounted(n)][2].FailureCounted?;
    more, t := OneMoreFailure(cfg, moves, s, id, meta, audio, EMPTY.(failures := n - 1), Unreadable(meta));
  }

  function Cached(cfg: Settings, id: Id, n: nat): Slot
    requires cfg.Valid()
  {
    EMPTY.(pending := Some(MissedEmail(cfg, id)), failures := n, sendFailedLogged := true)
  }

  lemma MailServerRefuses(cfg: Settings, id: Id, n: nat)
    requires cfg.Valid()
    ensures var p := MissedEmail(cfg, id);
      Process(cfg, EMPTY.(failures := n), id, Missing(p.meta, RaisesSendError))
      == Out(Cached(cfg, id, 0), [Began, GetCalled, Fetched(p.meta, None), SendCalled(p),
                                  Refused, Recorded(p.meta, SendFailed, NO_PROVIDERS, None)], Retry)
  {
  }

  lemma SendFails(cfg: Settings, id: Id, n: nat)
    requires cfg.Valid() && n + 1 < cfg.maxFailures
    ensures var p := MissedEmail(cfg, id);
      Process(cfg, Cached(cfg, id, n), id, Missing(p.meta, SendRaises))
      == Out(Cached(cfg, id, n + 1), [Began, SendCalled(p), FailureCounted(n + 1)], Retry)
  {
  }

  lemma RefusedOnce(cfg: Settings, id: Id, moves: seq<Move>, s: System, n: nat) returns (more: seq<Move>, t: System)
    requires cfg.Valid() && Counted(cfg, moves, s, id, MissedCall(cfg, id), None, EMPTY.(failures := n), n)
    ensures Counted(cfg, more, t, id, MissedCall(cfg, id), None, Cached(cfg, id, 0), n)
  {
    MailServerRefuses(cfg, id, n);
    var meta := MissedCall(cfg, id);
    more, t := OneMoreFailure(cfg, moves, s, id, meta, None, EMPTY.(failures := n), Missing(meta, RaisesSendError));
  }

  /** The n-th send raises; k failures are counted by then. */
  lemma SendFailsOnce(cfg: Settings, id: Id, moves: seq<Move>, s: System, n: nat, k: nat)
    returns (more: seq<Move>, t: System)
    requires cfg.Valid() && 0 < n < cfg.maxFailures && k > 0
    requires Counted(cfg, moves, s, id, MissedCall(cfg, id), None, Cached(cfg, id, n - 1), k - 1)
    ensures Counted(cfg, more, t, id, MissedCall(cfg, id), None, Cached(cfg, id, n), k)
  {
    SendFails(cfg, id, n - 1);
    var meta := MissedCall(cfg, id);
    assert [Began, SendCalled(MissedEmail(cfg, id)), FailureCounted(n)][2].FailureCounted?;
    more, t := OneMoreFailure(cfg, moves, s, id, meta, None, Cached(cfg, id, n - 1), Missing(meta, SendRaises));
  }

  /** Then the mail server refuses the email, which clears the counter, and n sends in a row raise. */
  lemma {:induction false} SendsFail(cfg: Settings, id: Id, n: nat) returns (moves: seq<Move>, s: System)
    requires cfg.Valid() && n < cfg.maxFailures
    ensures Counted(cfg, moves, s, id, MissedCall(cfg, id), None, Cached(cfg, id, n), cfg.maxFailures - 1 + n)
    decreases n
  {
    if n == 0 {
      moves, s := FetchesFail(cfg, id, MissedCall(cfg, id), None, cfg.maxFailures - 1);
      moves, s := RefusedOnce(cfg, id, moves, s, cfg.maxFailures - 1);
    } else {
      moves, s := SendsFail(cfg, id, n - 1);
      moves, s := SendFailsOnce(cfg, id, moves, s, n, cfg.maxFailures - 1 + n);
    }
  }

  /** The escalation bound is met: some run counts 2 * (max_failures - 1) failures of a waiting item without giving up;
      half of them are spent. */
  lemma EscalationBoundIsMet(cfg: Settings, id: Id) returns (moves: seq<Move>)
    requires cfg.Valid()
    ensures After(cfg, moves).Some?
    ensures var s := After(cfg, moves).value;
      && s.mode.Idle? && NoGiveUp(s.history, id) && FailuresSince(s.history, id) == 2 * (cfg.maxFailures - 1)
      && Spent(s.history, id) == cfg.maxFailures - 1
  {
    var s;
    moves, s := SendsFail(cfg, id, cfg.maxFailures - 1);
    EscalationBound(cfg, moves, id);
  }

  // ---- attachments of the fallback ----

  /** Everything works up to the send, which raises; the mail server then refuses the fallback. */
  function Unsendable(cfg: Settings, id: Id, wav: Bytes): Oracle
    requires cfg.Valid()
  {
    Oracle(Got(VoiceMail(cfg, id), Some(wav)), true, Seconds(cfg.minSpeech), Answered("", ""), Answered("", ""),
           Rendered(BLANK_EMAIL), SendRaises, AckRaises(0), Some(wav), true, Rendered(BLANK_EMAIL), RaisesSendError)
  }

  /** What is asked on the way to a message. */
  function Asked(cfg: Settings, menu: seq<string>, language: string): seq<Effect> {
    [SpeechChecked(Seconds(cfg.minSpeech))] + [TranscribeCalled("de", menu, Answered("", ""))]
    + [SummariseCalled("", language, Answered("", ""))]
  }

  lemma UnsendableComposes(cfg: Settings, id: Id, wav: Bytes) returns (p: Pending, line: Line)
    requires cfg.Valid()
    ensures p.attachments == [] && LineWithId(cfg.lines, cfg.lines[0].id) == Some(line)
    ensures Compose(cfg, id, VoiceMail(cfg, id), Some(wav), Unsendable(cfg, id, wav))
            == Ready(p, Asked(cfg, line.menu, line.emailLanguage))
  {
    assert cfg.lines[0] in cfg.lines;
    line := LineWithId(cfg.lines, cfg.lines[0].id).value;
    p := Pending(VoiceMail(cfg, id), Message, line.mailbox, BLANK_EMAIL, [], Providers(Some(""), Some("")));
  }

  lemma UnsendableRaises(cfg: Settings, id: Id, wav: Bytes, p: Pending, line: Line, s: Slot)
    requires cfg.Valid() && LineWithId(cfg.lines, cfg.lines[0].id) == Some(line)
    requires Compose(cfg, id, VoiceMail(cfg, id), Some(wav), Unsendable(cfg, id, wav))
             == Ready(p, Asked(cfg, line.menu, line.emailLanguage))
    ensures Pipeline(cfg, s, id, VoiceMail(cfg, id), Some(wav), Unsendable(cfg, id, wav))
      == Out(s.(pending := Some(p)), Asked(cfg, line.menu, line.emailLanguage) + [SendCalled(p)], Raised)
  {
  }

  lemma UnsendableGivesUp(cfg: Settings, id: Id, wav: Bytes, p: Pending, q: Pending)
    requires cfg.Valid()
    requires q == FallbackEmail(cfg, id, Some(VoiceMail(cfg, id)), BLANK_EMAIL, [Attachment(id + ".wav", wav)])
    ensures q.attachments == [Attachment(id + ".wav", wav)]
    ensures Failed(cfg, EMPTY.(failures := cfg.maxFailures - 1, pending := Some(p)), id, Some(VoiceMail(cfg, id)), None,
                   Unsendable(cfg, id, wav)).calls
            == [FailureCounted(cfg.maxFailures), GaveUp, SendCalled(q), Refused,
                Recorded(q.meta, SendFailed, NO_PROVIDERS, None)]
  {
  }

  /** The calls of such a call, and what is where. */
  lemma AtOnceCalls(cfg: Settings, meta: Meta, wav: Bytes, menu: seq<string>, language: string, p: Pending, q: Pending)
    returns (calls: seq<Effect>)
    requires cfg.Valid()
    ensures calls
      == [Began, GetCalled, Fetched(meta, Some(wav))]
         + (Asked(cfg, menu, language) + [SendCalled(p)])
         + [FailureCounted(cfg.maxFailures), GaveUp, SendCalled(q), Refused, Recorded(q.meta, SendFailed, NO_PROVIDERS, None)]
    ensures |calls| == 12 && Keeping(calls)
    ensures calls[6] == SendCalled(p) && calls[7] == FailureCounted(cfg.maxFailures) && calls[8] == GaveUp
    ensures calls[9] == SendCalled(q)
  {
    calls := [Began, GetCalled, Fetched(meta, Some(wav)), SpeechChecked(Seconds(cfg.minSpeech)),
              TranscribeCalled("de", menu, Answered("", "")), SummariseCalled("", language, Answered("", "")),
              SendCalled(p), FailureCounted(cfg.maxFailures), GaveUp, SendCalled(q), Refused,
              Recorded(q.meta, SendFailed, NO_PROVIDERS, None)];
  }

  lemma GivesUpAtOnce(cfg: Settings, id: Id, wav: Bytes) returns (o: Oracle, p: Pending, q: Pending, calls: seq<Effect>)
    requires cfg.Valid()
    ensures o.Valid() && o.get == Got(VoiceMail(cfg, id), Some(wav))
    ensures p.attachments == [] && q.attachments == [Attachment(id + ".wav", wav)]
    ensures calls == Process(cfg, EMPTY.(failures := cfg.maxFailures - 1), id, o).calls
    ensures |calls| == 12 && Keeping(calls)
    ensures calls[6] == SendCalled(p) && calls[7] == FailureCounted(cfg.maxFailures) && calls[8] == GaveUp
    ensures calls[9] == SendCalled(q)
  {
    var line;
    p, line := UnsendableComposes(cfg, id, wav);
    var meta := VoiceMail(cfg, id);
    q := FallbackEmail(cfg, id, Some(meta), BLANK_EMAIL, [Attachment(id + ".wav", wav)]);
    o := Unsendable(cfg, id, wav);
    var s := EMPTY.(failures := cfg.maxFailures - 1);
    UnsendableRaises(cfg, id, wav, p, line, s);
    UnsendableGivesUp(cfg, id, wav, p, q);
    FetchedThenFails(cfg, s, id, meta, Some(wav), o);
    calls := AtOnceCalls(cfg, meta, wav, line.menu, line.emailLanguage, p, q);
  }

  /** At i the email is sent without the recording, at g it is given up, at j the fallback is sent with it. */
  predicate ChangesAttachments(h: seq<Mark>, id: Id, wav: Bytes, i: nat, g: nat, j: nat) {
    && i < g < j < |h| && IsSend(h[i], id) && h[g] == Call(id, GaveUp) && IsSend(h[j], id)
    && Steady(h, id, i, g) && Steady(h, id, g + 1, j)
    && h[i].e.p.attachments == [] && h[j].e.p.attachments == [Attachment(id + ".wav", wav)]
  }

  lemma Tail(h: seq<Mark>, id: Id, calls: seq<Effect>, p: Pending, q: Pending, wav: Bytes)
    requires |calls| == 12 && calls[6] == SendCalled(p) && calls[7].FailureCounted? && calls[8] == GaveUp
    requires calls[9] == SendCalled(q) && p.attachments == [] && q.attachments == [Attachment(id + ".wav", wav)]
    ensures ChangesAttachments(h + CallsOf(id, calls), id, wav, |h| + 6, |h| + 8, |h| + 9)
  {
    var more := h + CallsOf(id, calls);
    assert forall k | 6 <= k <= 9 :: more[|h| + k] == Call(id, calls[k]);
  }

  lemma GiveUpRound(cfg: Settings, id: Id, wav: Bytes, before: seq<Move>, s: System) returns (moves: seq<Move>, t: System)
    requires cfg.Valid() && After(cfg, before) == Some(s)
    requires Waits(s, id, VoiceMail(cfg, id), Some(wav), EMPTY.(failures := cfg.maxFailures - 1))
    ensures After(cfg, moves) == Some(t)
    ensures var n := |s.history|; ChangesAttachments(t.history, id, wav, n + 6, n + 8, n + 9)
  {
    var o, p, q, calls := GivesUpAtOnce(cfg, id, wav);
    moves, t := OneMore(cfg, before, s, id, VoiceMail(cfg, id), Some(wav), EMPTY.(failures := cfg.maxFailures - 1), o);
    assert t.history == s.history + CallsOf(id, calls);
    Tail(s.history, id, calls, p, q, wav);
  }

  /** A give-up in the very call that cached the email does not keep its attachments: the fallback of a message that was
      to go out without one carries the recording. */
  lemma SameCallGiveUpChangesAttachments(cfg: Settings, id: Id, wav: Bytes)
    returns (moves: seq<Move>, i: nat, g: nat, j: nat)
    requires cfg.Valid()
    ensures After(cfg, moves).Some? && ChangesAttachments(After(cfg, moves).value.history, id, wav, i, g, j)
  {
    var s;
    moves, s := FetchesFail(cfg, id, VoiceMail(cfg, id), Some(wav), cfg.maxFailures - 1);
    i, g, j := |s.history| + 6, |s.history| + 8, |s.history| + 9;
    moves, s := GiveUpRound(cfg, id, wav, moves, s);
  }

  // ---- the alert of a give-up ----

  /** The fallback of an item whose metadata could not be read. */
  function NamelessFallback(cfg: Settings, id: Id): Pending
    requires cfg.Valid()
  {
    FallbackEmail(cfg, id, None, BLANK_EMAIL, [])
  }

  /** The fallback is cached after n failed attempts to send it again. */
  function Unsent(cfg: Settings, id: Id, n: nat): Slot
    requires cfg.Valid()
  {
    EMPTY.(pending := Some(NamelessFallback(cfg, id)), failures := n, giveUpAlert := true)
  }

  /** The last fetch raises, and so does sending the fallback. */
  lemma FallbackFails(cfg: Settings, id: Id)
    requires cfg.Valid()
    ensures var q := NamelessFallback(cfg, id); var meta := MissedCall(cfg, id);
      Process(cfg, EMPTY.(failures := cfg.maxFailures - 1), id, Unreadable(meta).(fallback := Rendered(BLANK_EMAIL)))
      == Out(Unsent(cfg, id, 0), [Began, GetCalled, FailureCounted(cfg.maxFailures), GaveUp, SendCalled(q)], Retry)
  {
  }

  lemma ResendFails(cfg: Settings, id: Id, n: nat)
    requires cfg.Valid() && n + 1 < cfg.maxFailures
    ensures Process(cfg, Unsent(cfg, id, n), id, Missing(MissedCall(cfg, id), SendRaises))
      == Out(Unsent(cfg, id, n + 1), [Began, SendCalled(NamelessFallback(cfg, id)), FailureCounted(n + 1)], Retry)
  {
  }

  /** The second give-up raises while it renders its fallback: nothing is cached, the alert is still owed. */
  lemma SecondGiveUpRaises(cfg: Settings, id: Id)
    requires cfg.Valid()
    ensures Process(cfg, Unsent(cfg, id, cfg.maxFailures - 1), id, Missing(MissedCall(cfg, id), SendRaises))
      == Out(EMPTY.(giveUpAlert := true),
             [Began, SendCalled(NamelessFallback(cfg, id)), FailureCounted(cfg.maxFailures), GaveUp], Retry)
  {
  }

  lemma AcceptsOwing(cfg: Settings, id: Id, p: Pending)
    requires cfg.Valid() && cfg.alerter
    ensures AfterAccept(cfg, EMPTY.(pending := Some(p), giveUpAlert := true), id, p, "", AckRaises(0)).calls
      == [Accepted(p, ""), Recorded(p.meta, Sent(p.outcome), p.providers, Some("")), GiveUpAlerted, AckCalled,
          AckFailureCounted(1)] + (if cfg.maxFailures == 1 then [AckAlerted] else [])
  {
    assert Removals(0) == [];
  }

  lemma SendsOwing(cfg: Settings, id: Id, meta: Meta, p: Pending, o: Oracle)
    requires cfg.Valid() && o.Valid() && Compose(cfg, id, meta, None, o) == Ready(p, [])
    requires o.send == Accepts("") && o.ack == AckRaises(0)
    ensures var out := Pipeline(cfg, EMPTY.(giveUpAlert := true), id, meta, None, o);
      && !out.verdict.Raised?
      && out.calls == [SendCalled(p)]
                      + AfterAccept(cfg, EMPTY.(pending := Some(p), giveUpAlert := true), id, p, "", AckRaises(0)).calls
  {
  }

  /** The calls of such a delivery, and where its alert is. */
  lemma OwingCalls(cfg: Settings, p: Pending, tail: seq<Effect>) returns (calls: seq<Effect>)
    requires tail == [Accepted(p, ""), Recorded(p.meta, Sent(p.outcome), p.providers, Some("")), GiveUpAlerted, AckCalled,
                      AckFailureCounted(1)] + (if cfg.maxFailures == 1 then [AckAlerted] else [])
    ensures calls == [Began, GetCalled, Fetched(p.meta, None)] + ([SendCalled(p)] + tail)
    ensures Keeping(calls) && |calls| > 6 && calls[4] == Accepted(p, "") && calls[6] == GiveUpAlerted
  {
    calls := [Began, GetCalled, Fetched(p.meta, None), SendCalled(p)] + tail;
  }

  lemma DeliversOwing(cfg: Settings, id: Id) returns (calls: seq<Effect>)
    requires cfg.Valid() && cfg.alerter
    ensures var p := MissedEmail(cfg, id);
      && calls == Process(cfg, EMPTY.(giveUpAlert := true), id, Missing(p.meta, Accepts(""))).calls
      && Keeping(calls) && |calls| > 6 && calls[4] == Accepted(p, "") && calls[6] == GiveUpAlerted
  {
    var p := MissedEmail(cfg, id);
    var o := Missing(p.meta, Accepts(""));
    MissedComposes(cfg, id, Accepts(""));
    AcceptsOwing(cfg, id, p);
    SendsOwing(cfg, id, p.meta, p, o);
    FetchedThenReturns(cfg, EMPTY.(giveUpAlert := true), id, p.meta, None, o);
    calls := OwingCalls(cfg, p, AfterAccept(cfg, EMPTY.(pending := Some(p), giveUpAlert := true), id, p, "", AckRaises(0)).calls);
  }

  predicate Reaches(cfg: Settings, moves: seq<Move>, s: System, id: Id, slot: Slot)
    requires cfg.Valid()
  {
    After(cfg, moves) == Some(s) && Waits(s, id, MissedCall(cfg, id), None, slot)
  }

  lemma {:induction false} ResendsFail(cfg: Settings, id: Id, n: nat) returns (moves: seq<Move>, s: System)
    requires cfg.Valid() && n < cfg.maxFailures
    ensures Reaches(cfg, moves, s, id, Unsent(cfg, id, n))
    decreases n
  {
    var meta := MissedCall(cfg, id);
    if n == 0 {
      moves, s := FetchesFail(cfg, id, meta, None, cfg.maxFailures - 1);
      FallbackFails(cfg, id);
      moves, s := OneMore(cfg, moves, s, id, meta, None, EMPTY.(failures := cfg.maxFailures - 1),
                          Unreadable(meta).(fallback := Rendered(BLANK_EMAIL)));
    } else {
      moves, s := ResendsFail(cfg, id, n - 1);
      ResendFails(cfg, id, n - 1);
      moves, s := OneMore(cfg, moves, s, id, meta, None, Unsent(cfg, id, n - 1), Missing(meta, SendRaises));
    }
  }

  /** An ordinary email may be announced as a fallback: a give-up caches its fallback, the next one raises before it
      caches another, and then a first attempt delivers. */
  lemma OrdinaryEmailIsAlerted(cfg: Settings, id: Id) returns (moves: seq<Move>, i: nat, p: Pending)
    requires cfg.Valid() && cfg.alerter
    ensures After(cfg, moves).Some?
    ensures var h := After(cfg, moves).value.history;
      && i + 2 < |h| && h[i] == Call(id, Accepted(p, "")) && h[i + 2] == Call(id, GiveUpAlerted)
      && !p.outcome.FallbackFailedRepeatedly?
  {
    var meta := MissedCall(cfg, id);
    p := MissedEmail(cfg, id);
    var s;
    moves, s := ResendsFail(cfg, id, cfg.maxFailures - 1);
    SecondGiveUpRaises(cfg, id);
    moves, s := OneMore(cfg, moves, s, id, meta, None, Unsent(cfg, id, cfg.maxFailures - 1), Missing(meta, SendRaises));
    i := |s.history| + 4;
    var calls := DeliversOwing(cfg, id);
    moves, s := OneMore(cfg, moves, s, id, meta, None, EMPTY.(giveUpAlert := true), Missing(meta, Accepts("")));
    assert CallsOf(id, calls)[4] == Call(id, calls[4]) && CallsOf(id, calls)[6] == Call(id, calls[6]);
  }
}
