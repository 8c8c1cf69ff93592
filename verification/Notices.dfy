/**
  The other half of giving up: the operator's alert. Over every run, the acceptance of an email that a give-up owes an
  alert for is followed by exactly one alert, and it is exact when that email is the give-up's fallback.
*/
module Notices {
  import opened Common
  import opened Machine
  import opened Protocol
  import opened Delivery
  import opened Lifting

  // ---- the plain statements ----

  /** The call of `process` that the item last was taken up by has given up. */
  function GaveUpNow(h: seq<Mark>, id: Id): bool
    decreases |h|
  {
    if h == [] || h[|h| - 1].Crash? || h[|h| - 1] == Call(id, Began) then false
    else h[|h| - 1] == Call(id, GaveUp) || GaveUpNow(h[..|h| - 1], id)
  }

  /** The email that waits to be accepted is the fallback of the latest give-up. */
  function FallbackWaits(h: seq<Mark>, id: Id): bool
    decreases |h|
  {
    if h == [] || h[|h| - 1].Crash? || h[|h| - 1] == Call(id, GaveUp) || IsAccepted(h[|h| - 1], id) then false
    else
      var before := h[..|h| - 1];
      FallbackWaits(before, id) || (IsSend(h[|h| - 1], id) && GaveUpNow(before, id))
  }

  /** Some give-up sent a fallback, and no email was accepted since. */
  function AlertOwed(h: seq<Mark>, id: Id): bool
    decreases |h|
  {
    if h == [] || h[|h| - 1].Crash? || IsAccepted(h[|h| - 1], id) then false
    else
      var before := h[..|h| - 1];
      AlertOwed(before, id) || (IsSend(h[|h| - 1], id) && GaveUpNow(before, id))
  }

  /** The present worker process had an email of the item accepted while an alert was owed. */
  function AcceptedOwing(h: seq<Mark>, id: Id): bool
    decreases |h|
  {
    if h == [] || h[|h| - 1].Crash? then false
    else
      var before := h[..|h| - 1];
      if IsAccepted(h[|h| - 1], id) then AlertOwed(before, id) else AcceptedOwing(before, id)
  }

  /** Give-up alerts of the present worker process for the item. */
  function GiveUpAlerts(h: seq<Mark>, id: Id): nat
    decreases |h|
  {
    if h == [] || h[|h| - 1].Crash? then 0
    else GiveUpAlerts(h[..|h| - 1], id) + (if h[|h| - 1] == Call(id, GiveUpAlerted) then 1 else 0)
  }

  // ---- the automaton ----

  /** What the events of an item say about its alert. `due`: an email was accepted owing, and the alert must come before
      anything but the entry in the call log. */
  datatype Duty = Duty(gave: bool, waits: bool, owed: bool, due: bool, taken: bool, told: nat)

  const IDLE: Duty := Duty(false, false, false, false, false, 0)

  function DutyStep(alerter: bool, d: Duty, e: Effect): Option<Duty> {
    if e.GiveUpAlerted? then if d.due then Some(d.(due := false, told := d.told + 1)) else None
    else if e.Recorded? then Some(d)
    else if d.due then None
    else match e
      case Began => Some(d.(gave := false))
      case GaveUp => Some(d.(gave := true, waits := false))
      case SendCalled(p) =>
        if p.outcome.FallbackFailedRepeatedly? != (d.gave || d.waits) then None
        else Some(d.(waits := d.gave || d.waits, owed := d.gave || d.owed))
      case Accepted(p, _) =>
        if p.outcome.FallbackFailedRepeatedly? != d.waits || (d.waits && !d.owed) || d.told > 0 then None
        else Some(d.(waits := false, owed := false, taken := d.owed, due := d.owed && alerter))
      case _ => Some(d)
  }

  function Duties(alerter: bool): Follower<Duty> {
    Follower(IDLE, (d, e) => DutyStep(alerter, d, e))
  }

  // ---- one call of process ----

  /** No alert is outstanding, and those given are those that were owed. */
  predicate Settled(alerter: bool, d: Duty) {
    !d.due && d.told == (if alerter && d.taken then 1 else 0)
  }

  /** What is remembered of an undelivered item. */
  predicate Recalls(s: Slot, d: Duty) {
    s.sent.None? ==>
      && !d.taken && d.told == 0 && d.owed == s.giveUpAlert && (d.waits ==> d.owed)
      && d.waits == (s.pending.Some? && s.pending.value.outcome.FallbackFailedRepeatedly?)
  }

  function Kept(alerter: bool): Promise<Duty> {
    Promise((d: Duty) => Settled(alerter, d), (s, d) => Recalls(s, d))
  }

  ghost predicate OutSettled(cfg: Settings, d: Duty, out: Out) {
    OutKeeps(Duties(cfg.alerter), Kept(cfg.alerter), d, out)
  }

  /** Calls that have nothing to do with the alert. */
  predicate Quiet(calls: seq<Effect>) {
    forall e | e in calls :: !e.Began? && !e.GaveUp? && !e.SendCalled? && !e.Accepted? && !e.GiveUpAlerted?
  }

  lemma QuietChangesNothing(alerter: bool, d: Duty, calls: seq<Effect>)
    requires Quiet(calls) && !d.due
    ensures Through(Duties(alerter), Some(d), calls) == Some(d)
  {
    ThroughIdle(Duties(alerter), d, calls);
  }

  lemma AckIsQuiet(cfg: Settings, s: Slot, id: Id, retry: bool, a: AckAnswer)
    requires a.Valid()
    ensures Quiet(Ack(cfg, s, id, retry, a).calls)
    ensures s.sent.Some? && !Ack(cfg, s, id, retry, a).verdict.Acked? ==> Ack(cfg, s, id, retry, a).slot.sent.Some?
  {
    RemovalsAreQuiet();
  }

  lemma RemovalsAreQuiet()
    ensures forall n | 0 <= n <= 2 :: Quiet(Removals(n))
  {
  }

  lemma AcceptSettles(cfg: Settings, s: Slot, id: Id, p: Pending, mid: string, a: AckAnswer, d: Duty)
    requires a.Valid() && !d.due && !d.taken && d.told == 0 && d.owed == s.giveUpAlert && (d.waits ==> d.owed)
    requires p.outcome.FallbackFailedRepeatedly? == d.waits
    ensures OutSettled(cfg, d, AfterAccept(cfg, s, id, p, mid, a))
  {
    var r := Duties(cfg.alerter);
    var took := [Accepted(p, mid), Recorded(p.meta, Sent(p.outcome), p.providers, Some(mid))];
    var alerts := if s.giveUpAlert && cfg.alerter then [GiveUpAlerted] else [];
    var s1 := s.(pending := None, sent := Some(Delivered(p.meta, mid)), failures := 0, giveUpAlert := false);
    var acked := Ack(cfg, s1, id, false, a);
    var d1 := TakenSettles(cfg.alerter, d, p, mid, alerts);
    ThroughAppend(r, Some(d), took + alerts, acked.calls);
    AckIsQuiet(cfg, s1, id, false, a);
    QuietChangesNothing(cfg.alerter, d1, acked.calls);
  }

  lemma TakenSettles(alerter: bool, d: Duty, p: Pending, mid: string, alerts: seq<Effect>) returns (d': Duty)
    requires !d.due && !d.taken && d.told == 0 && (d.waits ==> d.owed)
    requires p.outcome.FallbackFailedRepeatedly? == d.waits && alerts == (if d.owed && alerter then [GiveUpAlerted] else [])
    ensures Through(Duties(alerter), Some(d),
                    [Accepted(p, mid), Recorded(p.meta, Sent(p.outcome), p.providers, Some(mid))] + alerts) == Some(d')
    ensures Settled(alerter, d')
  {
    var r := Duties(alerter);
    var note := Recorded(p.meta, Sent(p.outcome), p.providers, Some(mid));
    var d1 := DutyStep(alerter, d, Accepted(p, mid)).value;
    assert [Accepted(p, mid), note] == [Accepted(p, mid)] + [note];
    ThroughAppend(r, Some(d), [Accepted(p, mid)], [note]);
    Through1(r, d, Accepted(p, mid));
    Through1(r, d1, note);
    ThroughAppend(r, Some(d), [Accepted(p, mid), note], alerts);
    Through1(r, d1, GiveUpAlerted);
    d' := if alerts == [] then d1 else DutyStep(alerter, d1, GiveUpAlerted).value;
  }

  /** Sending the fallback in the call that gives up, or the email that waits, or a first email. */
  lemma DeliverSettles(cfg: Settings, s: Slot, id: Id, p: Pending, snd: SendAnswer, a: AckAnswer, d: Duty)
    requires a.Valid() && s.sent.None? && !d.due && !d.taken && d.told == 0
    requires s.giveUpAlert == (d.gave || d.owed) && (d.waits ==> d.owed)
    requires p.outcome.FallbackFailedRepeatedly? == (d.gave || d.waits)
    ensures OutSettled(cfg, d, Deliver(cfg, s, id, p, snd, a))
  {
    var r := Duties(cfg.alerter);
    var d1 := DutyStep(cfg.alerter, d, SendCalled(p)).value;
    Through1(r, d, SendCalled(p));
    match snd {
      case SendRaises =>
      case RaisesSendError =>
        var rest := if s.sendFailedLogged then [Refused]
                    else [Refused, Recorded(p.meta, SendFailed, p.providers, None)];
        assert Deliver(cfg, s, id, p, snd, a).calls == [SendCalled(p)] + rest;
        ThroughAppend(r, Some(d), [SendCalled(p)], rest);
        QuietChangesNothing(cfg.alerter, d1, rest);
      case Accepts(mid) =>
        var cached := s.(pending := Some(p));
        AcceptSettles(cfg, cached, id, p, mid, a, d1);
        ThroughAppend(r, Some(d), [SendCalled(p)], AfterAccept(cfg, cached, id, p, mid, a).calls);
    }
  }

  lemma GiveUpSettles(cfg: Settings, s: Slot, id: Id, meta: Option<Meta>, kept: Option<seq<Attachment>>, o: Oracle, d: Duty)
    requires cfg.Valid() && o.Valid() && s.sent.None? && Settled(cfg.alerter, d) && Recalls(s, d)
    ensures OutSettled(cfg, d, GiveUp(cfg, s, id, meta, kept, o))
  {
    var atts := FallbackAttachments(id, kept, o);
    if atts.Some? && o.fallback.Rendered? {
      var p := FallbackEmail(cfg, id, meta, o.fallback.email, atts.value);
      FallbackSettles(cfg, s, id, p, o.sendAgain, o.ack, d);
    } else {
      Through1(Duties(cfg.alerter), d, GaveUp);
    }
  }

  lemma FallbackSettles(cfg: Settings, s: Slot, id: Id, p: Pending, snd: SendAnswer, a: AckAnswer, d: Duty)
    requires cfg.Valid() && a.Valid() && s.sent.None? && Settled(cfg.alerter, d) && Recalls(s, d)
    requires p.outcome.FallbackFailedRepeatedly?
    ensures var r := Deliver(cfg, s.(failures := 0, pending := None, giveUpAlert := true), id, p, snd, a);
      OutSettled(cfg, d, Out(r.slot, [GaveUp] + r.calls, if r.verdict.Raised? then Retry else r.verdict))
  {
    var d1 := DutyStep(cfg.alerter, d, GaveUp).value;
    var s1 := s.(failures := 0, pending := None, giveUpAlert := true);
    DeliverSettles(cfg, s1, id, p, snd, a, d1);
    GaveUpThen(cfg, d, d1, Deliver(cfg, s1, id, p, snd, a));
  }

  lemma GaveUpThen(cfg: Settings, d: Duty, d1: Duty, r: Out)
    requires DutyStep(cfg.alerter, d, GaveUp) == Some(d1) && OutSettled(cfg, d1, r)
    ensures OutSettled(cfg, d, Out(r.slot, [GaveUp] + r.calls, if r.verdict.Raised? then Retry else r.verdict))
  {
    Through1(Duties(cfg.alerter), d, GaveUp);
    ThroughAppend(Duties(cfg.alerter), Some(d), [GaveUp], r.calls);
  }

  lemma FailedSettles(cfg: Settings, s: Slot, id: Id, meta: Option<Meta>, kept: Option<seq<Attachment>>, o: Oracle, d: Duty)
    requires cfg.Valid() && o.Valid() && s.sent.None? && Settled(cfg.alerter, d) && Recalls(s, d)
    ensures OutSettled(cfg, d, Failed(cfg, s, id, meta, kept, o))
  {
    var n := s.failures + 1;
    if n >= cfg.maxFailures {
      var r := GiveUp(cfg, s, id, meta, kept, o);
      GiveUpSettles(cfg, s, id, meta, kept, o, d);
      After1(cfg, d, d, FailureCounted(n), r);
    } else {
      Through1(Duties(cfg.alerter), d, FailureCounted(n));
    }
  }

  /** One call before calls that keep the promise. */
  lemma After1(cfg: Settings, d: Duty, next: Duty, e: Effect, r: Out)
    requires DutyStep(cfg.alerter, d, e) == Some(next) && OutSettled(cfg, next, r)
    ensures OutSettled(cfg, d, Out(r.slot, [e] + r.calls, r.verdict))
  {
    Through1(Duties(cfg.alerter), d, e);
    ThroughAppend(Duties(cfg.alerter), Some(d), [e], r.calls);
  }

  lemma ComposeIsQuiet(cfg: Settings, id: Id, meta: Meta, wav: Option<Bytes>, o: Oracle)
    ensures var c := Compose(cfg, id, meta, wav, o);
      Quiet(c.calls) && (c.Ready? ==> !c.p.outcome.FallbackFailedRepeatedly?)
  {
  }

  lemma PipelineSettles(cfg: Settings, s: Slot, id: Id, meta: Meta, wav: Option<Bytes>, o: Oracle, d: Duty)
    requires cfg.Valid() && o.Valid() && s.sent.None? && s.pending.None? && Settled(cfg.alerter, d) && Recalls(s, d) && !d.gave
    ensures OutSettled(cfg, d, Pipeline(cfg, s, id, meta, wav, o))
    ensures Pipeline(cfg, s, id, meta, wav, o).verdict.Raised? ==> Pipeline(cfg, s, id, meta, wav, o).slot.sent.None?
  {
    var c := Compose(cfg, id, meta, wav, o);
    ComposeIsQuiet(cfg, id, meta, wav, o);
    QuietChangesNothing(cfg.alerter, d, c.calls);
    if c.Ready? {
      DeliverSettles(cfg, s, id, c.p, o.send, o.ack, d);
      ThroughAppend(Duties(cfg.alerter), Some(d), c.calls, Deliver(cfg, s, id, c.p, o.send, o.ack).calls);
    }
  }

  /** A call begins, and asks for things. */
  lemma QuietTail(alerter: bool, d: Duty, calls: seq<Effect>)
    requires !d.due && Quiet(calls)
    ensures Through(Duties(alerter), Some(d), [Began] + calls) == Some(d.(gave := false))
  {
    Through1(Duties(alerter), d, Began);
    ThroughAppend(Duties(alerter), Some(d), [Began], calls);
    QuietChangesNothing(alerter, d.(gave := false), calls);
  }

  /** Quiet calls, then an exception. */
  lemma ThenFails(cfg: Settings, s: Slot, id: Id, meta: Option<Meta>, kept: Option<seq<Attachment>>, o: Oracle, d: Duty,
                  before: seq<Effect>, d1: Duty)
    requires cfg.Valid() && o.Valid() && s.sent.None? && Settled(cfg.alerter, d1) && Recalls(s, d1)
    requires Through(Duties(cfg.alerter), Some(d), before) == Some(d1)
    ensures var f := Failed(cfg, s, id, meta, kept, o); OutSettled(cfg, d, Out(f.slot, before + f.calls, f.verdict))
  {
    FailedSettles(cfg, s, id, meta, kept, o, d1);
    ThroughAppend(Duties(cfg.alerter), Some(d), before, Failed(cfg, s, id, meta, kept, o).calls);
  }

  lemma FreshSettles(cfg: Settings, s: Slot, id: Id, o: Oracle, d: Duty)
    requires cfg.Valid() && o.Valid() && s.sent.None? && s.pending.None? && Settled(cfg.alerter, d) && Recalls(s, d)
    ensures OutSettled(cfg, d, ProcessFresh(cfg, s, id, o))
  {
    assert [Began] + [GetCalled] == [Began, GetCalled];
    QuietTail(cfg.alerter, d, [GetCalled]);
    match o.get {
      case GetSpoolError =>
      case GetRaises =>
        ThenFails(cfg, s, id, None, None, o, d, [Began, GetCalled], d.(gave := false));
      case Got(meta, wav) =>
        FetchedSettles(cfg, s, id, meta, wav, o, d);
    }
  }

  lemma FetchedSettles(cfg: Settings, s: Slot, id: Id, meta: Meta, wav: Option<Bytes>, o: Oracle, d: Duty)
    requires cfg.Valid() && o.Valid() && s.sent.None? && s.pending.None? && Settled(cfg.alerter, d) && Recalls(s, d)
    requires o.get == Got(meta, wav)
    ensures OutSettled(cfg, d, ProcessFresh(cfg, s, id, o))
  {
    var head := [Began, GetCalled, Fetched(meta, wav)];
    var d1 := d.(gave := false);
    var r := Pipeline(cfg, s, id, meta, wav, o);
    assert head == [Began] + [GetCalled, Fetched(meta, wav)];
    QuietTail(cfg.alerter, d, [GetCalled, Fetched(meta, wav)]);
    PipelineSettles(cfg, s, id, meta, wav, o, d1);
    ThroughAppend(Duties(cfg.alerter), Some(d), head, r.calls);
    if r.verdict.Raised? {
      var d2 := Through(Duties(cfg.alerter), Some(d1), r.calls).value;
      ThenFails(cfg, r.slot, id, Some(meta), None, o, d, head + r.calls, d2);
    }
  }

  lemma ResendSettles(cfg: Settings, s: Slot, id: Id, o: Oracle, d: Duty)
    requires cfg.Valid() && o.Valid() && s.sent.None? && s.pending.Some? && Settled(cfg.alerter, d) && Recalls(s, d)
    ensures OutSettled(cfg, d, Process(cfg, s, id, o))
  {
    var d1 := d.(gave := false);
    var p := s.pending.value;
    var r := Deliver(cfg, s, id, p, o.send, o.ack);
    Through1(Duties(cfg.alerter), d, Began);
    DeliverSettles(cfg, s, id, p, o.send, o.ack, d1);
    ThroughAppend(Duties(cfg.alerter), Some(d), [Began], r.calls);
    if r.verdict.Raised? {
      var d2 := Through(Duties(cfg.alerter), Some(d1), r.calls).value;
      ThenFails(cfg, r.slot, id, Some(p.meta), Some(p.attachments), o, d, [Began] + r.calls, d2);
    }
  }

  lemma ProcessSettles(cfg: Settings, s: Slot, id: Id, o: Oracle, d: Duty)
    requires cfg.Valid() && o.Valid() && Settled(cfg.alerter, d) && Recalls(s, d)
    ensures CallKeeps(cfg, Duties(cfg.alerter), Kept(cfg.alerter), s, id, o, d)
  {
    if s.sent.Some? {
      var r := Ack(cfg, s, id, true, o.ack);
      AckIsQuiet(cfg, s, id, true, o.ack);
      QuietTail(cfg.alerter, d, r.calls);
    } else if s.pending.Some? {
      ResendSettles(cfg, s, id, o, d);
    } else {
      FreshSettles(cfg, s, id, o, d);
    }
  }

  // ---- every run ----

  lemma RunIsDutiful(cfg: Settings, moves: seq<Move>, id: Id)
    requires cfg.Valid() && After(cfg, moves).Some?
    ensures Upheld(Duties(cfg.alerter), Kept(cfg.alerter), After(cfg, moves).value, id)
  {
    forall s, o: Oracle, d | o.Valid() && Settled(cfg.alerter, d) && Recalls(s, d)
      ensures CallKeeps(cfg, Duties(cfg.alerter), Kept(cfg.alerter), s, id, o, d)
    {
      ProcessSettles(cfg, s, id, o, d);
    }
    RunUpholds(cfg, Duties(cfg.alerter), Kept(cfg.alerter), moves, id);
  }

  /** The automaton reads the history. */
  lemma {:induction false} DutyReads(alerter: bool, h: seq<Mark>, id: Id)
    requires Read(Duties(alerter), h, id).Some?
    ensures var d := Read(Duties(alerter), h, id).value;
      && d.gave == GaveUpNow(h, id) && d.waits == FallbackWaits(h, id) && d.owed == AlertOwed(h, id)
      && d.taken == AcceptedOwing(h, id) && d.told == GiveUpAlerts(h, id)
    decreases |h|
  {
    if h != [] {
      var m := h[|h| - 1];
      PrefixRead(Duties(alerter), h, id, |h| - 1);
      DutyReads(alerter, h[..|h| - 1], id);
      if m.Call? && m.id == id {
        StepReads(alerter, Read(Duties(alerter), h[..|h| - 1], id).value, m, id);
      }
    }
  }

  lemma StepReads(alerter: bool, d: Duty, m: Mark, id: Id)
    requires m.Call? && m.id == id && DutyStep(alerter, d, m.e).Some?
    ensures var next := DutyStep(alerter, d, m.e).value;
      && next.gave == (m != Call(id, Began) && (m == Call(id, GaveUp) || d.gave))
      && next.waits == (m != Call(id, GaveUp) && !IsAccepted(m, id) && (d.waits || (IsSend(m, id) && d.gave)))
      && next.owed == (!IsAccepted(m, id) && (d.owed || (IsSend(m, id) && d.gave)))
      && next.taken == (if IsAccepted(m, id) then d.owed else d.taken)
      && next.told == d.told + (if m == Call(id, GiveUpAlerted) then 1 else 0)
  {
  }

  /** An alert that is given is one that is owed, and only the one still due is missing. */
  lemma {:induction false} ToldIsOwed(alerter: bool, h: seq<Mark>, id: Id)
    requires Read(Duties(alerter), h, id).Some?
    ensures var d := Read(Duties(alerter), h, id).value;
      d.told + (if d.due then 1 else 0) == (if alerter && d.taken then 1 else 0) && (d.waits ==> d.owed)
    decreases |h|
  {
    if h != [] {
      PrefixRead(Duties(alerter), h, id, |h| - 1);
      ToldIsOwed(alerter, h[..|h| - 1], id);
    }
  }

  /** The accepted email is the fallback of a give-up exactly when that fallback is what waits: the latest give-up sent
      it, and it was not accepted before. Then an alert is owed. */
  lemma AcceptedFallback(cfg: Settings, moves: seq<Move>, id: Id, i: nat, p: Pending, mid: string)
    requires cfg.Valid() && After(cfg, moves).Some? && i < |After(cfg, moves).value.history|
    requires After(cfg, moves).value.history[i] == Call(id, Accepted(p, mid))
    ensures var h := After(cfg, moves).value.history;
      && (p.outcome.FallbackFailedRepeatedly? <==> FallbackWaits(h[..i], id))
      && (p.outcome.FallbackFailedRepeatedly? ==> AlertOwed(h[..i], id))
  {
    var h := After(cfg, moves).value.history;
    RunIsDutiful(cfg, moves, id);
    ReadNext(Duties(cfg.alerter), h, id, i);
    DutyReads(cfg.alerter, h[..i], id);
  }

  /** Every give-up is reported: if there is an alerter, the acceptance of an email that owes an alert is followed by
      exactly one, before the item is acked; no other alert is given. */
  lemma GiveUpIsAlerted(cfg: Settings, moves: seq<Move>, id: Id)
    requires cfg.Valid() && After(cfg, moves).Some?
    ensures var s := After(cfg, moves).value; var h := s.history;
      && GiveUpAlerts(h, id) <= (if cfg.alerter && AcceptedOwing(h, id) then 1 else 0)
      && (!(s.mode.Working? && s.mode.id == id) ==>
            GiveUpAlerts(h, id) == (if cfg.alerter && AcceptedOwing(h, id) then 1 else 0))
      && (forall i | 0 <= i < |h| && h[i] == Call(id, AckCalled) ::
            GiveUpAlerts(h[..i], id) == (if cfg.alerter && AcceptedOwing(h[..i], id) then 1 else 0))
      && (forall i | 0 <= i < |h| && h[i] == Call(id, GiveUpAlerted) ::
            AcceptedOwing(h[..i], id) && GiveUpAlerts(h[..i], id) == 0)
  {
    var s := After(cfg, moves).value;
    var h := s.history;
    RunIsDutiful(cfg, moves, id);
    DutyReads(cfg.alerter, h, id);
    ToldIsOwed(cfg.alerter, h, id);
    forall i | 0 <= i < |h| && (h[i] == Call(id, AckCalled) || h[i] == Call(id, GiveUpAlerted))
      ensures h[i] == Call(id, AckCalled) ==>
        GiveUpAlerts(h[..i], id) == (if cfg.alerter && AcceptedOwing(h[..i], id) then 1 else 0)
      ensures h[i] == Call(id, GiveUpAlerted) ==> AcceptedOwing(h[..i], id) && GiveUpAlerts(h[..i], id) == 0
    {
      ReadNext(Duties(cfg.alerter), h, id, i);
      DutyReads(cfg.alerter, h[..i], id);
      ToldIsOwed(cfg.alerter, h[..i], id);
    }
  }
}
