/**
  The "ack failing" alert, exactly: over every run, how many are attempted is decided by how often the ack failed since the
  delivery, and by whether a first attempt delivered the item.
*/
module Acks {
  import opened Common
  import opened Machine
  import opened Protocol
  import opened Delivery
  import opened Lifting
  import opened Notices

  // ---- the plain statements ----

  /** Failed acks of the item, counted by the present worker process. */
  function AckFailures(h: seq<Mark>, id: Id): nat
    decreases |h|
  {
    if h == [] || h[|h| - 1].Crash? then 0
    else
      var m := h[|h| - 1];
      AckFailures(h[..|h| - 1], id) + (if m.Call? && m.id == id && m.e.AckFailureCounted? then 1 else 0)
  }

  /** The present worker process delivered the item in a call that fetched it and did not give up. */
  function FirstAttempt(h: seq<Mark>, id: Id): bool
    decreases |h|
  {
    if h == [] || h[|h| - 1].Crash? then false
    else
      var before := h[..|h| - 1];
      if IsAccepted(h[|h| - 1], id) then HasFetched(before, id) && !GaveUpNow(before, id) else FirstAttempt(before, id)
  }

  /** How many alerts that makes. The counter is cleared once, at the end of a first attempt: its own failed ack is
      forgotten, and the limit is reached one failure later; with a limit of one it was reached before. */
  function AlertsFor(max: int, alerter: bool, first: bool, failures: nat): nat {
    if !alerter then 0
    else (if first && max == 1 && failures >= 1 then 1 else 0)
         + (if failures - (if first then 1 else 0) >= max then 1 else 0)
  }

  // ---- the automaton ----

  /** `now`: the delivering call still runs. `due`: the failed ack that was counted reached the limit. */
  datatype Tally = Tally(fetching: bool, gave: bool, delivered: bool, first: bool, now: bool, failures: nat, due: bool,
                         told: nat)

  const CLEAR: Tally := Tally(false, false, false, false, false, 0, false, 0)

  function TallyStep(max: int, alerter: bool, d: Tally, e: Effect): Option<Tally> {
    if e.AckAlerted? then if d.due then Some(d.(due := false, told := d.told + 1)) else None
    else if d.due then None
    else match e
      case Began => Some(d.(fetching := false, gave := false, now := false))
      case GetCalled => Some(d.(fetching := true))
      case GaveUp => Some(d.(gave := true))
      case Accepted(_, _) =>
        if d.delivered then None else Some(d.(delivered := true, first := d.fetching && !d.gave, now := true))
      case AckFailureCounted(n) =>
        if !d.delivered || n != d.failures + 1 - (if d.first && !d.now then 1 else 0) then None
        else Some(d.(failures := d.failures + 1, due := n == max && alerter))
      case _ => Some(d)
  }

  function Tallies(cfg: Settings): Follower<Tally> {
    Follower(CLEAR, (d, e) => TallyStep(cfg.maxFailures, cfg.alerter, d, e))
  }

  predicate Even(cfg: Settings, d: Tally) {
    && !d.due && d.told == AlertsFor(cfg.maxFailures, cfg.alerter, d.first, d.failures)
    && (!d.delivered ==> d.failures == 0 && !d.first)
  }

  /** The counter of a delivered item. */
  predicate Counts(s: Slot, d: Tally) {
    if s.sent.Some? then d.delivered && (d.first ==> d.failures >= 1) && s.failures == d.failures - (if d.first then 1 else 0)
    else !d.delivered
  }

  function Kept(cfg: Settings): Promise<Tally> {
    Promise((d: Tally) => Even(cfg, d), (s, d) => Counts(s, d))
  }

  ghost predicate OutEven(cfg: Settings, d: Tally, out: Out) {
    OutKeeps(Tallies(cfg), Kept(cfg), d, out)
  }

  // ---- one call of process ----

  predicate Idle(calls: seq<Effect>) {
    forall e | e in calls ::
      !e.Began? && !e.GetCalled? && !e.GaveUp? && !e.Accepted? && !e.AckFailureCounted? && !e.AckAlerted?
  }

  lemma IdleChangesNothing(cfg: Settings, d: Tally, calls: seq<Effect>)
    requires Idle(calls) && !d.due
    ensures Through(Tallies(cfg), Some(d), calls) == Some(d)
  {
    ThroughIdle(Tallies(cfg), d, calls);
  }

  lemma RemovalsAreIdle()
    ensures forall n | 0 <= n <= 2 :: Idle(Removals(n))
  {
  }

  /** A failed ack. `before` is what the slot's counter is short of the failures so far. */
  lemma AckFailedEven(cfg: Settings, s: Slot, d: Tally)
    requires cfg.Valid() && d.delivered && Even(cfg, d) && s.sent.Some?
    requires s.failures == d.failures - (if d.first && !d.now then 1 else 0) && (d.first ==> d.now == (d.failures == 0))
    ensures var out := AckFailed(cfg, s); var e := Through(Tallies(cfg), Some(d), out.calls);
      && e.Some? && Even(cfg, e.value) && e.value.delivered && e.value.failures == d.failures + 1 && e.value.first == d.first
  {
    var n := s.failures + 1;
    var d1 := TallyStep(cfg.maxFailures, cfg.alerter, d, AckFailureCounted(n)).value;
    Through1(Tallies(cfg), d, AckFailureCounted(n));
    if n == cfg.maxFailures && cfg.alerter {
      Through1(Tallies(cfg), d1, AckAlerted);
      ThroughAppend(Tallies(cfg), Some(d), [AckFailureCounted(n)], [AckAlerted]);
    } else {
      assert [AckFailureCounted(n)] + [] == [AckFailureCounted(n)];
    }
  }

  lemma AckEven(cfg: Settings, s: Slot, id: Id, retry: bool, a: AckAnswer, d: Tally)
    requires cfg.Valid() && a.Valid() && d.delivered && Even(cfg, d) && s.sent.Some?
    requires s.failures == d.failures - (if d.first && !d.now then 1 else 0) && (d.first ==> d.now == (d.failures == 0))
    ensures var out := Ack(cfg, s, id, retry, a); var e := Through(Tallies(cfg), Some(d), out.calls);
      && e.Some? && Even(cfg, e.value)
      && (!out.verdict.Acked? ==> && e.value.delivered && e.value.first == d.first && e.value.failures == d.failures + 1
                                  && out.slot == s.(failures := s.failures + 1))
  {
    RemovalsAreIdle();
    match a {
      case AckRaises(n) =>
        var head := [AckCalled] + Removals(n);
        IdleChangesNothing(cfg, d, head);
        AckFailedEven(cfg, s, d);
        ThroughAppend(Tallies(cfg), Some(d), head, AckFailed(cfg, s).calls);
      case Removes =>
        IdleChangesNothing(cfg, d, Ack(cfg, s, id, retry, a).calls);
    }
  }

  /** From acceptance on: what the slot says if the counter is cleared at the end, and if it is not. */
  ghost predicate Delivers(cfg: Settings, d: Tally, out: Out) {
    var e := Through(Tallies(cfg), Some(d), out.calls);
    && e.Some? && Even(cfg, e.value)
    && (out.verdict.Raised? ==> e.value == d && out.slot.sent.None?)
    && (out.verdict.Retry? ==>
          Counts(if d.fetching && !d.gave then out.slot.(failures := 0) else out.slot, e.value))
  }

  lemma AcceptEven(cfg: Settings, s: Slot, id: Id, p: Pending, mid: string, a: AckAnswer, d: Tally)
    requires cfg.Valid() && a.Valid() && !d.delivered && Even(cfg, d)
    ensures Delivers(cfg, d, AfterAccept(cfg, s, id, p, mid, a))
  {
    var r := Tallies(cfg);
    var notes := [Recorded(p.meta, Sent(p.outcome), p.providers, Some(mid))]
                 + (if s.giveUpAlert && cfg.alerter then [GiveUpAlerted] else []);
    var s1 := s.(pending := None, sent := Some(Delivered(p.meta, mid)), failures := 0, giveUpAlert := false);
    var d1 := TallyStep(cfg.maxFailures, cfg.alerter, d, Accepted(p, mid)).value;
    var acked := Ack(cfg, s1, id, false, a);
    Through1(r, d, Accepted(p, mid));
    IdleChangesNothing(cfg, d1, notes);
    ThroughAppend(r, Some(d), [Accepted(p, mid)], notes);
    AckEven(cfg, s1, id, false, a, d1);
    ThroughAppend(r, Some(d), [Accepted(p, mid)] + notes, acked.calls);
    AcceptCalls(cfg, s, id, p, mid, a, notes, acked.calls);
  }

  lemma AcceptCalls(cfg: Settings, s: Slot, id: Id, p: Pending, mid: string, a: AckAnswer,
                    notes: seq<Effect>, acked: seq<Effect>)
    requires a.Valid()
    requires notes == [Recorded(p.meta, Sent(p.outcome), p.providers, Some(mid))]
                      + (if s.giveUpAlert && cfg.alerter then [GiveUpAlerted] else [])
    requires var s1 := s.(pending := None, sent := Some(Delivered(p.meta, mid)), failures := 0, giveUpAlert := false);
      acked == Ack(cfg, s1, id, false, a).calls
    ensures AfterAccept(cfg, s, id, p, mid, a).calls == [Accepted(p, mid)] + notes + acked
  {
  }

  lemma DeliverEven(cfg: Settings, s: Slot, id: Id, p: Pending, snd: SendAnswer, a: AckAnswer, d: Tally)
    requires cfg.Valid() && a.Valid() && s.sent.None? && !d.delivered && Even(cfg, d)
    ensures Delivers(cfg, d, Deliver(cfg, s, id, p, snd, a))
  {
    IdleChangesNothing(cfg, d, [SendCalled(p)]);
    if snd.Accepts? {
      var cached := s.(pending := Some(p));
      AcceptEven(cfg, cached, id, p, snd.mid, a, d);
      ThroughAppend(Tallies(cfg), Some(d), [SendCalled(p)], AfterAccept(cfg, cached, id, p, snd.mid, a).calls);
    } else {
      IdleChangesNothing(cfg, d, Deliver(cfg, s, id, p, snd, a).calls);
    }
  }

  /** Calls before calls that keep the promise. */
  lemma Before(cfg: Settings, d: Tally, before: seq<Effect>, next: Tally, r: Out)
    requires Through(Tallies(cfg), Some(d), before) == Some(next) && OutEven(cfg, next, r)
    ensures OutEven(cfg, d, Out(r.slot, before + r.calls, r.verdict))
  {
    ThroughAppend(Tallies(cfg), Some(d), before, r.calls);
  }

  lemma GiveUpEven(cfg: Settings, s: Slot, id: Id, meta: Option<Meta>, kept: Option<seq<Attachment>>, o: Oracle, d: Tally)
    requires cfg.Valid() && o.Valid() && s.sent.None? && !d.delivered && Even(cfg, d)
    ensures OutEven(cfg, d, GiveUp(cfg, s, id, meta, kept, o))
  {
    var atts := FallbackAttachments(id, kept, o);
    var d1 := d.(gave := true);
    Through1(Tallies(cfg), d, GaveUp);
    if atts.Some? && o.fallback.Rendered? {
      var p := FallbackEmail(cfg, id, meta, o.fallback.email, atts.value);
      var s1 := s.(failures := 0, pending := None, giveUpAlert := true);
      var r := Deliver(cfg, s1, id, p, o.sendAgain, o.ack);
      DeliverEven(cfg, s1, id, p, o.sendAgain, o.ack, d1);
      ThroughAppend(Tallies(cfg), Some(d), [GaveUp], r.calls);
    }
  }

  lemma FailedEven(cfg: Settings, s: Slot, id: Id, meta: Option<Meta>, kept: Option<seq<Attachment>>, o: Oracle, d: Tally)
    requires cfg.Valid() && o.Valid() && s.sent.None? && !d.delivered && Even(cfg, d)
    ensures OutEven(cfg, d, Failed(cfg, s, id, meta, kept, o))
  {
    if s.failures + 1 >= cfg.maxFailures {
      LastFailedEven(cfg, s, id, meta, kept, o, d);
    } else {
      CountedEven(cfg, s, d);
    }
  }

  lemma CountedEven(cfg: Settings, s: Slot, d: Tally)
    requires cfg.Valid() && s.sent.None? && !d.delivered && Even(cfg, d)
    ensures OutEven(cfg, d, Out(s.(failures := s.failures + 1), [FailureCounted(s.failures + 1)], Retry))
  {
    IdleChangesNothing(cfg, d, [FailureCounted(s.failures + 1)]);
  }

  lemma LastFailedEven(cfg: Settings, s: Slot, id: Id, meta: Option<Meta>, kept: Option<seq<Attachment>>, o: Oracle, d: Tally)
    requires cfg.Valid() && o.Valid() && s.sent.None? && !d.delivered && Even(cfg, d)
    ensures var r := GiveUp(cfg, s, id, meta, kept, o);
      OutEven(cfg, d, Out(r.slot, [FailureCounted(s.failures + 1)] + r.calls, r.verdict))
  {
    IdleChangesNothing(cfg, d, [FailureCounted(s.failures + 1)]);
    GiveUpEven(cfg, s, id, meta, kept, o, d);
    Before(cfg, d, [FailureCounted(s.failures + 1)], d, GiveUp(cfg, s, id, meta, kept, o));
  }

  lemma ThenFails(cfg: Settings, s: Slot, id: Id, meta: Option<Meta>, kept: Option<seq<Attachment>>, o: Oracle, d: Tally,
                  before: seq<Effect>, d1: Tally)
    requires cfg.Valid() && o.Valid() && s.sent.None? && !d1.delivered && Even(cfg, d1)
    requires Through(Tallies(cfg), Some(d), before) == Some(d1)
    ensures var f := Failed(cfg, s, id, meta, kept, o); OutEven(cfg, d, Out(f.slot, before + f.calls, f.verdict))
  {
    FailedEven(cfg, s, id, meta, kept, o, d1);
    Before(cfg, d, before, d1, Failed(cfg, s, id, meta, kept, o));
  }

  lemma ComposeIsIdle(cfg: Settings, id: Id, meta: Meta, wav: Option<Bytes>, o: Oracle)
    ensures Idle(Compose(cfg, id, meta, wav, o).calls)
  {
  }

  lemma PipelineEven(cfg: Settings, s: Slot, id: Id, meta: Meta, wav: Option<Bytes>, o: Oracle, d: Tally)
    requires cfg.Valid() && o.Valid() && s.sent.None? && !d.delivered && Even(cfg, d)
    ensures Delivers(cfg, d, Pipeline(cfg, s, id, meta, wav, o))
  {
    var c := Compose(cfg, id, meta, wav, o);
    ComposeIsIdle(cfg, id, meta, wav, o);
    IdleChangesNothing(cfg, d, c.calls);
    if c.Ready? {
      DeliverEven(cfg, s, id, c.p, o.send, o.ack, d);
      ThroughAppend(Tallies(cfg), Some(d), c.calls, Deliver(cfg, s, id, c.p, o.send, o.ack).calls);
    }
  }

  /** The start of a call that fetches. */
  lemma Fetches(cfg: Settings, d: Tally)
    requires !d.due
    ensures Through(Tallies(cfg), Some(d), [Began, GetCalled]) == Some(d.(fetching := true, gave := false, now := false))
  {
    var d1 := d.(fetching := false, gave := false, now := false);
    assert [Began, GetCalled] == [Began] + [GetCalled];
    Through1(Tallies(cfg), d, Began);
    Through1(Tallies(cfg), d1, GetCalled);
    ThroughAppend(Tallies(cfg), Some(d), [Began], [GetCalled]);
  }

  lemma FreshEven(cfg: Settings, s: Slot, id: Id, o: Oracle, d: Tally)
    requires cfg.Valid() && o.Valid() && s.sent.None? && s.pending.None? && !d.delivered && Even(cfg, d)
    ensures OutEven(cfg, d, ProcessFresh(cfg, s, id, o))
  {
    var d1 := d.(fetching := true, gave := false, now := false);
    Fetches(cfg, d);
    match o.get {
      case GetSpoolError =>
      case GetRaises =>
        ThenFails(cfg, s, id, None, None, o, d, [Began, GetCalled], d1);
      case Got(meta, wav) =>
        FetchedEven(cfg, s, id, meta, wav, o, d);
    }
  }

  lemma FetchedEven(cfg: Settings, s: Slot, id: Id, meta: Meta, wav: Option<Bytes>, o: Oracle, d: Tally)
    requires cfg.Valid() && o.Valid() && s.sent.None? && s.pending.None? && !d.delivered && Even(cfg, d)
    requires o.get == Got(meta, wav)
    ensures OutEven(cfg, d, ProcessFresh(cfg, s, id, o))
  {
    var head := [Began, GetCalled, Fetched(meta, wav)];
    var d1 := d.(fetching := true, gave := false, now := false);
    var r := Pipeline(cfg, s, id, meta, wav, o);
    Fetches(cfg, d);
    assert head == [Began, GetCalled] + [Fetched(meta, wav)];
    Through1(Tallies(cfg), d1, Fetched(meta, wav));
    ThroughAppend(Tallies(cfg), Some(d), [Began, GetCalled], [Fetched(meta, wav)]);
    PipelineEven(cfg, s, id, meta, wav, o, d1);
    ThroughAppend(Tallies(cfg), Some(d), head, r.calls);
    if r.verdict.Raised? {
      ThenFails(cfg, r.slot, id, Some(meta), None, o, d, head + r.calls, d1);
    }
  }

  lemma ResendEven(cfg: Settings, s: Slot, id: Id, o: Oracle, d: Tally)
    requires cfg.Valid() && o.Valid() && s.sent.None? && s.pending.Some? && !d.delivered && Even(cfg, d)
    ensures OutEven(cfg, d, Process(cfg, s, id, o))
  {
    var d1 := d.(fetching := false, gave := false, now := false);
    var p := s.pending.value;
    var r := Deliver(cfg, s, id, p, o.send, o.ack);
    Through1(Tallies(cfg), d, Began);
    DeliverEven(cfg, s, id, p, o.send, o.ack, d1);
    ThroughAppend(Tallies(cfg), Some(d), [Began], r.calls);
    if r.verdict.Raised? {
      ThenFails(cfg, r.slot, id, Some(p.meta), Some(p.attachments), o, d, [Began] + r.calls, d1);
    }
  }

  lemma ProcessEven(cfg: Settings, s: Slot, id: Id, o: Oracle, d: Tally)
    requires cfg.Valid() && o.Valid() && Even(cfg, d) && Counts(s, d)
    ensures CallKeeps(cfg, Tallies(cfg), Kept(cfg), s, id, o, d)
  {
    if s.sent.Some? {
      var d1 := d.(fetching := false, gave := false, now := false);
      var r := Ack(cfg, s, id, true, o.ack);
      Through1(Tallies(cfg), d, Began);
      AckEven(cfg, s, id, true, o.ack, d1);
      ThroughAppend(Tallies(cfg), Some(d), [Began], r.calls);
    } else if s.pending.Some? {
      ResendEven(cfg, s, id, o, d);
    } else {
      FreshEven(cfg, s, id, o, d);
    }
  }

  // ---- every run ----

  lemma {:induction false} TallyReads(cfg: Settings, h: seq<Mark>, id: Id)
    requires Read(Tallies(cfg), h, id).Some?
    ensures var d := Read(Tallies(cfg), h, id).value;
      && d.fetching == HasFetched(h, id) && d.gave == GaveUpNow(h, id) && d.first == FirstAttempt(h, id)
      && d.failures == AckFailures(h, id) && d.told == AckAlerts(h, id)
    decreases |h|
  {
    if h != [] {
      var m := h[|h| - 1];
      PrefixRead(Tallies(cfg), h, id, |h| - 1);
      TallyReads(cfg, h[..|h| - 1], id);
      if m.Call? && m.id == id {
        TallyNext(cfg, Read(Tallies(cfg), h[..|h| - 1], id).value, m, id);
      }
    }
  }

  lemma TallyNext(cfg: Settings, d: Tally, m: Mark, id: Id)
    requires m.Call? && m.id == id && TallyStep(cfg.maxFailures, cfg.alerter, d, m.e).Some?
    ensures var next := TallyStep(cfg.maxFailures, cfg.alerter, d, m.e).value;
      && next.fetching == (m != Call(id, Began) && (m == Call(id, GetCalled) || d.fetching))
      && next.gave == (m != Call(id, Began) && (m == Call(id, GaveUp) || d.gave))
      && next.first == (if IsAccepted(m, id) then d.fetching && !d.gave else d.first)
      && next.failures == d.failures + (if m.e.AckFailureCounted? then 1 else 0)
      && next.told == d.told + (if m == Call(id, AckAlerted) then 1 else 0)
  {
  }

  /** Between two calls of `process`, the alerts attempted for an item are exactly those its failed acks call for: with a
      limit of at least two, one, from the max_failures-th failure on, or the next one after a first attempt. */
  lemma AckAlertsAreExact(cfg: Settings, moves: seq<Move>, id: Id)
    requires cfg.Valid() && After(cfg, moves).Some?
    ensures var s := After(cfg, moves).value; var h := s.history;
      !(s.mode.Working? && s.mode.id == id) ==>
        AckAlerts(h, id) == AlertsFor(cfg.maxFailures, cfg.alerter, FirstAttempt(h, id), AckFailures(h, id))
  {
    forall s, o: Oracle, d | o.Valid() && Even(cfg, d) && Counts(s, d)
      ensures CallKeeps(cfg, Tallies(cfg), Kept(cfg), s, id, o, d)
    {
      ProcessEven(cfg, s, id, o, d);
    }
    RunUpholds(cfg, Tallies(cfg), Kept(cfg), moves, id);
    TallyReads(cfg, After(cfg, moves).value.history, id);
  }
}
