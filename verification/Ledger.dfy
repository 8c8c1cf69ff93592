/**
  Nothing that happens to an item goes unrecorded: over every run, each refused email, each delivery, each failed ack and
  each late one is in the call log or in the counts.
*/
module Ledger {
  import opened Common
  import opened Machine
  import opened Protocol
  import opened Delivery
  import opened Lifting

  // ---- the plain statement ----

  /** Calls of this kind made for the item by the present worker process. */
  function Times(h: seq<Mark>, id: Id, kind: Effect -> bool): nat
    decreases |h|
  {
    if h == [] || h[|h| - 1].Crash? then 0
    else
      var m := h[|h| - 1];
      Times(h[..|h| - 1], id, kind) + (if m.Call? && m.id == id && kind(m.e) then 1 else 0)
  }

  const REFUSED: Effect -> bool := (e: Effect) => e.Refused?
  const ACCEPTED: Effect -> bool := (e: Effect) => e.Accepted?
  const ASKED: Effect -> bool := (e: Effect) => e.AckCalled?
  const COUNTED: Effect -> bool := (e: Effect) => e.AckFailureCounted?
  const REMOVED: Effect -> bool := (e: Effect) => e.JsonRemoved?
  const FAILED: Effect -> bool := (e: Effect) => e.Recorded? && e.entry.SendFailed?
  const LATE: Effect -> bool := (e: Effect) => e.Recorded? && e.entry.AckedAfterRetry?

  // ---- the automaton ----

  /** How often each of these happened. */
  datatype Tally = Tally(refused: nat, accepted: nat, asked: nat, counted: nat, removed: nat, failed: nat, late: nat)

  const NONE: Tally := Tally(0, 0, 0, 0, 0, 0, 0)

  function Add(d: Tally, e: Effect): Tally {
    match e
    case Refused => d.(refused := d.refused + 1)
    case Accepted(_, _) => d.(accepted := d.accepted + 1)
    case AckCalled => d.(asked := d.asked + 1)
    case AckFailureCounted(_) => d.(counted := d.counted + 1)
    case JsonRemoved => d.(removed := d.removed + 1)
    case Recorded(_, SendFailed, _, _) => d.(failed := d.failed + 1)
    case Recorded(_, AckedAfterRetry, _, _) => d.(late := d.late + 1)
    case _ => d
  }

  const TALLIES: Follower<Tally> := Follower(NONE, (d, e) => Some(Add(d, e)))

  predicate Even(d: Tally) {
    && d.failed == (if d.refused >= 1 then 1 else 0)
    && (d.asked >= 1 <==> d.accepted >= 1)
    && (d.counted == d.asked || (d.counted == d.asked - 1 && d.removed >= 1))
    && d.late == (if d.counted < d.asked && d.asked >= 2 then 1 else 0)
  }

  /** A delivered item waits for its next ack; any other one remembers whether a refusal was recorded. */
  predicate Recalls(s: Slot, d: Tally) {
    if s.sent.Some? then d.asked >= 1 && d.counted == d.asked
    else d.asked == 0 && s.sendFailedLogged == (d.refused >= 1)
  }

  const KEPT: Promise<Tally> := Promise((d: Tally) => Even(d), (s, d) => Recalls(s, d))

  ghost predicate OutEven(d: Tally, out: Out) {
    OutKeeps(TALLIES, KEPT, d, out)
  }

  // ---- one call of process ----

  predicate Idle(calls: seq<Effect>) {
    forall e | e in calls :: Add(NONE, e) == NONE
  }

  lemma IdleAddsNothing(d: Tally, calls: seq<Effect>)
    requires Idle(calls)
    ensures Through(TALLIES, Some(d), calls) == Some(d)
  {
    ThroughIdle(TALLIES, d, calls);
  }

  lemma RemovalsAdd(d: Tally, n: nat)
    requires n <= 2
    ensures Through(TALLIES, Some(d), [AckCalled] + Removals(n))
      == Some(d.(asked := d.asked + 1, removed := if n == 2 then d.removed + 1 else d.removed))
  {
    var d1 := d.(asked := d.asked + 1);
    Through1(TALLIES, d, AckCalled);
    ThroughAppend(TALLIES, Some(d), [AckCalled], Removals(n));
    if n == 0 {
      assert Removals(0) == [];
    } else {
      Through1(TALLIES, d1, WavRemoved);
      if n == 1 {
        assert Removals(1) == [WavRemoved];
      } else {
        assert Removals(2) == [WavRemoved] + [JsonRemoved];
        Through1(TALLIES, d1, JsonRemoved);
        ThroughAppend(TALLIES, Some(d1), [WavRemoved], [JsonRemoved]);
      }
    }
  }

  lemma AckFailedAdds(cfg: Settings, s: Slot, d: Tally)
    ensures Through(TALLIES, Some(d), AckFailed(cfg, s).calls) == Some(d.(counted := d.counted + 1))
  {
    var n := s.failures + 1;
    var alerts := if n == cfg.maxFailures && cfg.alerter then [AckAlerted] else [];
    Through1(TALLIES, d, AckFailureCounted(n));
    IdleAddsNothing(d.(counted := d.counted + 1), alerts);
    ThroughAppend(TALLIES, Some(d), [AckFailureCounted(n)], alerts);
  }

  lemma AckEven(cfg: Settings, s: Slot, id: Id, retry: bool, a: AckAnswer, d: Tally)
    requires a.Valid() && s.sent.Some? && d.accepted >= 1 && d.counted == d.asked && d.late == 0
    requires d.failed == (if d.refused >= 1 then 1 else 0) && retry == (d.asked >= 1)
    ensures OutEven(d, Ack(cfg, s, id, retry, a))
  {
    match a {
      case AckRaises(n) =>
        RemovalsAdd(d, n);
        var d1 := Through(TALLIES, Some(d), [AckCalled] + Removals(n)).value;
        AckFailedAdds(cfg, s, d1);
        ThroughAppend(TALLIES, Some(d), [AckCalled] + Removals(n), AckFailed(cfg, s).calls);
      case Removes =>
        RemovalsAdd(d, 2);
        var head := [AckCalled] + Removals(2);
        if retry {
          var note := Recorded(s.sent.value.meta, AckedAfterRetry, NO_PROVIDERS, Some(s.sent.value.mid));
          ThroughAppend(TALLIES, Some(d), head, [note]);
          Through1(TALLIES, Through(TALLIES, Some(d), head).value, note);
        } else {
          assert head + [] == head;
        }
    }
  }

  /** Calls before calls that keep the promise. */
  lemma Before(d: Tally, before: seq<Effect>, next: Tally, r: Out)
    requires Through(TALLIES, Some(d), before) == Some(next) && OutEven(next, r)
    ensures OutEven(d, Out(r.slot, before + r.calls, r.verdict))
  {
    ThroughAppend(TALLIES, Some(d), before, r.calls);
  }

  lemma AcceptEven(cfg: Settings, s: Slot, id: Id, p: Pending, mid: string, a: AckAnswer, d: Tally)
    requires a.Valid() && Even(d) && d.asked == 0
    ensures OutEven(d, AfterAccept(cfg, s, id, p, mid, a))
  {
    var note := Recorded(p.meta, Sent(p.outcome), p.providers, Some(mid));
    var alerts := if s.giveUpAlert && cfg.alerter then [GiveUpAlerted] else [];
    var s1 := s.(pending := None, sent := Some(Delivered(p.meta, mid)), failures := 0, giveUpAlert := false);
    var d1 := d.(accepted := d.accepted + 1);
    Through1(TALLIES, d, Accepted(p, mid));
    IdleAddsNothing(d1, [note] + alerts);
    ThroughAppend(TALLIES, Some(d), [Accepted(p, mid)], [note] + alerts);
    assert [Accepted(p, mid)] + ([note] + alerts) == [Accepted(p, mid), note] + alerts;
    AckEven(cfg, s1, id, false, a, d1);
    Before(d, [Accepted(p, mid), note] + alerts, d1, Ack(cfg, s1, id, false, a));
  }

  /** A refusal is recorded unless one was. */
  lemma RefusedEven(s: Slot, p: Pending, d: Tally)
    requires Even(d) && s.sent.None? && Recalls(s, d)
    ensures var note := Recorded(p.meta, SendFailed, p.providers, None); var out := s.(pending := Some(p));
      if s.sendFailedLogged then OutEven(d, Out(out, [SendCalled(p), Refused], Retry))
      else OutEven(d, Out(out.(sendFailedLogged := true), [SendCalled(p), Refused, note], Retry))
  {
    var note := Recorded(p.meta, SendFailed, p.providers, None);
    var d1 := d.(refused := d.refused + 1);
    assert [SendCalled(p), Refused] == [SendCalled(p)] + [Refused];
    assert [SendCalled(p), Refused, note] == [SendCalled(p), Refused] + [note];
    Through1(TALLIES, d, SendCalled(p));
    Through1(TALLIES, d, Refused);
    Through1(TALLIES, d1, note);
    ThroughAppend(TALLIES, Some(d), [SendCalled(p)], [Refused]);
    ThroughAppend(TALLIES, Some(d), [SendCalled(p), Refused], [note]);
  }

  lemma {:induction false} DeliverEven(cfg: Settings, s: Slot, id: Id, p: Pending, snd: SendAnswer, a: AckAnswer, d: Tally)
    requires a.Valid() && Even(d) && s.sent.None? && Recalls(s, d)
    ensures OutEven(d, Deliver(cfg, s, id, p, snd, a))
    ensures var r := Deliver(cfg, s, id, p, snd, a);
      r.verdict.Raised? ==> r.slot == s.(pending := Some(p)) && Through(TALLIES, Some(d), r.calls) == Some(d)
  {
    Through1(TALLIES, d, SendCalled(p));
    match snd {
      case SendRaises =>
      case RaisesSendError => RefusedEven(s, p, d);
      case Accepts(mid) =>
        var cached := s.(pending := Some(p));
        AcceptEven(cfg, cached, id, p, mid, a, d);
        Before(d, [SendCalled(p)], d, AfterAccept(cfg, cached, id, p, mid, a));
    }
  }

  lemma GiveUpEven(cfg: Settings, s: Slot, id: Id, meta: Option<Meta>, kept: Option<seq<Attachment>>, o: Oracle, d: Tally)
    requires cfg.Valid() && o.Valid() && Even(d) && s.sent.None? && Recalls(s, d)
    ensures OutEven(d, GiveUp(cfg, s, id, meta, kept, o))
  {
    var atts := FallbackAttachments(id, kept, o);
    IdleAddsNothing(d, [GaveUp]);
    if atts.Some? && o.fallback.Rendered? {
      var p := FallbackEmail(cfg, id, meta, o.fallback.email, atts.value);
      var s1 := s.(failures := 0, pending := None, giveUpAlert := true);
      var r := Deliver(cfg, s1, id, p, o.sendAgain, o.ack);
      DeliverEven(cfg, s1, id, p, o.sendAgain, o.ack, d);
      Before(d, [GaveUp], d, r);
    }
  }

  lemma FailedEven(cfg: Settings, s: Slot, id: Id, meta: Option<Meta>, kept: Option<seq<Attachment>>, o: Oracle, d: Tally)
    requires cfg.Valid() && o.Valid() && Even(d) && s.sent.None? && Recalls(s, d)
    ensures OutEven(d, Failed(cfg, s, id, meta, kept, o))
  {
    if s.failures + 1 >= cfg.maxFailures {
      LastFailedEven(cfg, s, id, meta, kept, o, d);
    } else {
      IdleAddsNothing(d, [FailureCounted(s.failures + 1)]);
    }
  }

  lemma LastFailedEven(cfg: Settings, s: Slot, id: Id, meta: Option<Meta>, kept: Option<seq<Attachment>>, o: Oracle, d: Tally)
    requires cfg.Valid() && o.Valid() && Even(d) && s.sent.None? && Recalls(s, d)
    ensures var r := GiveUp(cfg, s, id, meta, kept, o);
      OutEven(d, Out(r.slot, [FailureCounted(s.failures + 1)] + r.calls, r.verdict))
  {
    IdleAddsNothing(d, [FailureCounted(s.failures + 1)]);
    GiveUpEven(cfg, s, id, meta, kept, o, d);
    Before(d, [FailureCounted(s.failures + 1)], d, GiveUp(cfg, s, id, meta, kept, o));
  }

  /** Calls that leave the tally alone, and then an exception. */
  lemma ThenFails(cfg: Settings, s: Slot, id: Id, meta: Option<Meta>, kept: Option<seq<Attachment>>, o: Oracle, d: Tally,
                  before: seq<Effect>)
    requires cfg.Valid() && o.Valid() && Even(d) && s.sent.None? && Recalls(s, d)
    requires Through(TALLIES, Some(d), before) == Some(d)
    ensures var f := Failed(cfg, s, id, meta, kept, o); OutEven(d, Out(f.slot, before + f.calls, f.verdict))
  {
    FailedEven(cfg, s, id, meta, kept, o, d);
    Before(d, before, d, Failed(cfg, s, id, meta, kept, o));
  }

  lemma PipelineEven(cfg: Settings, s: Slot, id: Id, meta: Meta, wav: Option<Bytes>, o: Oracle, d: Tally)
    requires cfg.Valid() && o.Valid() && Even(d) && s.sent.None? && Recalls(s, d)
    ensures OutEven(d, Pipeline(cfg, s, id, meta, wav, o))
    ensures var r := Pipeline(cfg, s, id, meta, wav, o);
      r.verdict.Raised? ==> r.slot.sent.None? && Recalls(r.slot, d) && Through(TALLIES, Some(d), r.calls) == Some(d)
  {
    var c := Compose(cfg, id, meta, wav, o);
    IdleAddsNothing(d, c.calls);
    if c.Ready? {
      var r := Deliver(cfg, s, id, c.p, o.send, o.ack);
      DeliverEven(cfg, s, id, c.p, o.send, o.ack, d);
      Before(d, c.calls, d, r);
      ThroughAppend(TALLIES, Some(d), c.calls, r.calls);
    }
  }

  lemma FreshEven(cfg: Settings, s: Slot, id: Id, o: Oracle, d: Tally)
    requires cfg.Valid() && o.Valid() && Even(d) && s.sent.None? && s.pending.None? && Recalls(s, d)
    ensures OutEven(d, ProcessFresh(cfg, s, id, o))
  {
    match o.get {
      case GetSpoolError => IdleAddsNothing(d, [Began, GetCalled]);
      case GetRaises =>
        IdleAddsNothing(d, [Began, GetCalled]);
        ThenFails(cfg, s, id, None, None, o, d, [Began, GetCalled]);
      case Got(meta, wav) =>
        var head := [Began, GetCalled, Fetched(meta, wav)];
        var r := Pipeline(cfg, s, id, meta, wav, o);
        IdleAddsNothing(d, head);
        PipelineEven(cfg, s, id, meta, wav, o, d);
        Before(d, head, d, r);
        ThroughAppend(TALLIES, Some(d), head, r.calls);
        if r.verdict.Raised? {
          ThenFails(cfg, r.slot, id, Some(meta), None, o, d, head + r.calls);
        }
    }
  }

  lemma ResendEven(cfg: Settings, s: Slot, id: Id, o: Oracle, d: Tally)
    requires cfg.Valid() && o.Valid() && Even(d) && s.sent.None? && s.pending.Some? && Recalls(s, d)
    ensures OutEven(d, Process(cfg, s, id, o))
  {
    var p := s.pending.value;
    var r := Deliver(cfg, s, id, p, o.send, o.ack);
    IdleAddsNothing(d, [Began]);
    DeliverEven(cfg, s, id, p, o.send, o.ack, d);
    Before(d, [Began], d, r);
    ThroughAppend(TALLIES, Some(d), [Began], r.calls);
    if r.verdict.Raised? {
      ThenFails(cfg, r.slot, id, Some(p.meta), Some(p.attachments), o, d, [Began] + r.calls);
    }
  }

  lemma ProcessEven(cfg: Settings, s: Slot, id: Id, o: Oracle, d: Tally)
    requires cfg.Valid() && o.Valid() && Even(d) && Recalls(s, d)
    ensures CallKeeps(cfg, TALLIES, KEPT, s, id, o, d)
  {
    if s.sent.Some? {
      IdleAddsNothing(d, [Began]);
      AckEven(cfg, s, id, true, o.ack, d);
      Before(d, [Began], d, Ack(cfg, s, id, true, o.ack));
    } else if s.pending.Some? {
      ResendEven(cfg, s, id, o, d);
    } else {
      FreshEven(cfg, s, id, o, d);
    }
  }

  // ---- every run ----

  lemma {:induction false} TallyReads(h: seq<Mark>, id: Id)
    ensures Read(TALLIES, h, id) == Some(Tally(Times(h, id, REFUSED), Times(h, id, ACCEPTED), Times(h, id, ASKED),
      Times(h, id, COUNTED), Times(h, id, REMOVED), Times(h, id, FAILED), Times(h, id, LATE)))
    decreases |h|
  {
    if h != [] {
      TallyReads(h[..|h| - 1], id);
    }
  }

  /** Between two calls of `process`, in every run, of what the present worker process did for an item: a refused email has
      its one send-failed entry; an accepted email is followed by an ack; every ack is counted as failed, except that the
      last one may have removed the metadata; and one that did so at a later call has its acked-after-retry entry. */
  lemma NothingIsMissing(cfg: Settings, moves: seq<Move>, id: Id)
    requires cfg.Valid() && After(cfg, moves).Some?
    ensures var s := After(cfg, moves).value; var h := s.history;
      !(s.mode.Working? && s.mode.id == id) ==>
        && Times(h, id, FAILED) == (if Times(h, id, REFUSED) >= 1 then 1 else 0)
        && (Times(h, id, ASKED) >= 1 <==> Times(h, id, ACCEPTED) >= 1)
        && var left := Times(h, id, ASKED) - Times(h, id, COUNTED);
          && (left == 0 || (left == 1 && Times(h, id, REMOVED) >= 1))
          && Times(h, id, LATE) == (if left == 1 && Times(h, id, ASKED) >= 2 then 1 else 0)
  {
    forall s, o: Oracle, d | o.Valid() && Even(d) && Recalls(s, d) ensures CallKeeps(cfg, TALLIES, KEPT, s, id, o, d) {
      ProcessEven(cfg, s, id, o, d);
    }
    RunUpholds(cfg, TALLIES, KEPT, moves, id);
    TallyReads(After(cfg, moves).value.history, id);
  }
}
