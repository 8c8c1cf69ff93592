/**
  The poll loop of aivoicemail/worker.py: list, evict, process every item, raise the alerts.

  The ghost field `moves` is the run of Protocol.dfy the worker has taken part in; `Valid` ties what the Processor
  remembers to the state at its end, so the theorems of Delivery.dfy hold of the loop itself.
*/
module Working {
  import opened Common
  import opened Protocol
  import opened Cycle
  import opened Weaving
  import opened ListWire
  import M = Machine
  import Alerts
  import Delivery
  import Keeps
  import Processing

  const ORPHAN_CHECK_SECONDS: real := 600.0

  /** Clocks, the orphan scan (None when it raises) and the answers of the alert mailer during one cycle. */
  datatype Rest = Rest(listedAt: real, now: real, scan: Option<nat>, answers: Alerts.Kind -> Alerts.MailAnswer)

  /** The inputs of consecutive cycles are possible from `s` on. */
  ghost predicate AllPossible(cfg: M.Settings, s: System, inputs: seq<Input>)
    requires cfg.Valid()
    decreases |inputs|
  {
    inputs != [] ==>
      && s.mode.Idle? && Possible(cfg, s, inputs[0])
      && var t := Go(cfg, s, CycleMoves(inputs[0]));
      && t.Some? && AllPossible(cfg, t.value, inputs[1..])
  }

  lemma {:induction false} NoCrashMoves(cfg: M.Settings, s: System, moves: seq<Move>)
    requires cfg.Valid() && Go(cfg, s, moves).Some? && Crash !in s.history && Crashes !in moves
    ensures Crash !in Go(cfg, s, moves).value.history
    decreases |moves|
  {
    if moves != [] {
      var m := moves[|moves| - 1];
      NoCrashMoves(cfg, s, moves[..|moves| - 1]);
      assert m in moves;
      NoCrashMove(cfg, Go(cfg, s, moves[..|moves| - 1]).value, m);
    }
  }

  lemma NoCrashMove(cfg: M.Settings, s: System, m: Move)
    requires cfg.Valid() && Enabled(cfg, s, m) && Crash !in s.history && m != Crashes
    ensures Crash !in Apply(cfg, s, m).history
  {
  }

  lemma CycleHasNoCrash(cfg: M.Settings, s: System, input: Input)
    requires cfg.Valid() && Possible(cfg, s, input)
    ensures Crashes !in CycleMoves(input)
  {
    assert Crashes !in input.before + input.during;
    if input.listing.Listed? {
      var at := Go(cfg, s, input.before).value;
      var end := Go(cfg, at.(mode := Scanning(at.jsons.Keys)), input.during).value;
      RestHasNoCrash(cfg, at, end, input);
    }
  }

  lemma RestHasNoCrash(cfg: M.Settings, at: System, end: System, input: Input)
    requires cfg.Valid() && input.listing.Listed? && (forall o | o in input.oracles :: o.Valid())
    requires ServedFrom(cfg, at, end, input)
    ensures Crashes !in input.rest
  {
    ServesOnly(cfg, Evict(end.slots, Ids(input.listing.items)), input.listing.items, input.oracles);
    EveryMoveHasAPart(input.rest);
  }

  class Worker {
    const processor: Processing.Processor
    const alerter: Alerts.Alerter
    var lastOk: real
    var orphans: nat
    var lastOrphanCheck: Option<real>
    ghost var moves: seq<Move>

    ghost function Now(): Option<System>
      reads this, processor
      requires processor.Valid()
    {
      After(processor.cfg, moves)
    }

    ghost predicate Remembers(slots: map<Id, M.Slot>)
      reads processor
    {
      forall id :: processor.SlotOf(id) == SlotIn(slots, id)
    }

    ghost predicate Valid()
      reads this, processor
    {
      && processor.Valid()
      && Now().Some? && Now().value.mode.Idle? && Remembers(Now().value.slots)
      && Crashes !in moves
    }

    constructor (cfg: M.Settings, alerter: Alerts.Alerter, started: real)
      requires cfg.Valid()
      ensures Valid() && moves == [] && fresh(processor) && processor.cfg == cfg && this.alerter == alerter
    {
      processor := new Processing.Processor(cfg);
      this.alerter := alerter;
      lastOk, orphans, lastOrphanCheck := started, 0, None;
      moves := [];
      new;
      forall id ensures processor.SlotOf(id) == M.EMPTY {
        processor.KnownIsNotEmpty(id);
      }
    }

    /** Process the listed items in order; those not acked are still waiting. */
    method ServeAll(items: seq<Item>, oracles: seq<M.Oracle>, ghost slots: map<Id, M.Slot>)
      returns (waiting: seq<Item>)
      requires processor.Valid() && Remembers(slots)
      requires |oracles| == |items| && forall o | o in oracles :: o.Valid()
      modifies processor
      ensures processor.Valid()
      ensures var done := Serve(processor.cfg, slots, items, oracles); Remembers(done.slots) && waiting == done.waiting
    {
      waiting := [];
      ghost var done := Served(slots, []);
      for i := 0 to |items|
        invariant processor.Valid() && Remembers(done.slots) && waiting == done.waiting
        invariant done == Serve(processor.cfg, slots, items[..i], oracles[..i])
      {
        assert items[..i + 1][..i] == items[..i] && oracles[..i + 1][..i] == oracles[..i];
        assert oracles[i] in oracles;
        var verdict := ServeOne(items[i].id, oracles[i], done.slots);
        if verdict != M.Acked {
          waiting := waiting + [items[i]];
        }
        done := Serve(processor.cfg, slots, items[..i + 1], oracles[..i + 1]);
      }
      assert items[..|items|] == items && oracles[..|items|] == oracles;
    }

    method ServeOne(id: Id, o: M.Oracle, ghost slots: map<Id, M.Slot>) returns (verdict: M.Verdict)
      requires processor.Valid() && Remembers(slots) && o.Valid()
      modifies processor
      ensures processor.Valid()
      ensures var out := M.Process(processor.cfg, SlotIn(slots, id), id, o);
        Remembers(Put(slots, id, out.slot)) && verdict == out.verdict
    {
      ghost var made;
      verdict, made := processor.Process(id, o);
      processor.ElsewhereKeepsSlots(id);
    }

    /** The part of a turn after a successful list: evict, scan for orphans every ten minutes, process. */
    method Attend(items: seq<Item>, oracles: seq<M.Oracle>, rest: Rest, ghost slots: map<Id, M.Slot>)
      returns (waiting: seq<Item>)
      requires processor.Valid() && Remembers(slots)
      requires |oracles| == |items| && forall o | o in oracles :: o.Valid()
      modifies this, processor
      ensures processor.Valid() && moves == old(moves)
      ensures var done := Serve(processor.cfg, Evict(slots, Ids(items)), items, oracles);
        Remembers(done.slots) && waiting == done.waiting
      ensures lastOk == rest.listedAt
      ensures if old(lastOrphanCheck).None? || rest.listedAt - old(lastOrphanCheck).value >= 600.0
              then orphans == rest.scan.GetOr(0) && lastOrphanCheck == Some(rest.listedAt)
              else orphans == old(orphans) && lastOrphanCheck == old(lastOrphanCheck)
    {
      lastOk := rest.listedAt;
      processor.Evict(set id | id in Ids(items));
      if lastOrphanCheck.None? || lastOk - lastOrphanCheck.value >= ORPHAN_CHECK_SECONDS {
        lastOrphanCheck := Some(lastOk);
        orphans := rest.scan.GetOr(0);
      }
      waiting := ServeAll(items, oracles, Evict(slots, Ids(items)));
    }

    /** One turn of the loop. Whatever has reason for an alert was reported within the hour, unless the mailer failed to
        take it. `died` is an exception of the alert mailer, which leaves it. Others that leave the loop (a
        listing that is not text, pruning the call log) are crashes. */
    method Turn(input: Input, rest: Rest) returns (waiting: seq<Item>, died: bool)
      requires Valid() && Possible(processor.cfg, Now().value, input)
      modifies this, processor, alerter
      ensures Valid() && moves == old(moves) + CycleMoves(input)
      ensures input.listing.Listed? ==>
                && (forall id :: processor.SlotOf(id) != M.EMPTY ==> id in Ids(waiting))
                && lastOk == rest.listedAt
                && (forall item | item in waiting :: item in input.listing.items)
                && (forall item | item in input.listing.items && item.id in Now().value.jsons :: item in waiting)
      ensures input.listing.Listed? ==>
                if old(lastOrphanCheck).None? || rest.listedAt - old(lastOrphanCheck).value >= 600.0
                then orphans == rest.scan.GetOr(0) && lastOrphanCheck == Some(rest.listedAt)
                else orphans == old(orphans) && lastOrphanCheck == old(lastOrphanCheck)
      ensures input.listing.SpoolFails? ==>
                waiting == [] && lastOk == old(lastOk) && orphans == old(orphans) && lastOrphanCheck == old(lastOrphanCheck)
      ensures !died ==> forall kind ::
                rest.answers(kind).Takes? && HasReason(kind, waiting, rest.now) ==> RecentlySent(kind, rest.now)
      ensures forall kind :: !HasReason(kind, waiting, rest.now) ==>
                Alerts.Same(old(alerter.lastSent), alerter.lastSent, kind)
      ensures died ==> exists kind :: rest.answers(kind).Explodes? && HasReason(kind, waiting, rest.now)
    {
      ghost var cfg := processor.cfg;
      ghost var s := Now().value;
      ghost var more := CycleMoves(input);
      RunKeeps(cfg, moves);
      CycleIsARun(cfg, s, input);
      CycleHasNoCrash(cfg, s, input);
      GoAppend(cfg, INIT, moves, more);
      waiting := [];
      if input.listing.Listed? {
        Bounded(cfg, moves, input.listing.items, input.oracles);
        WaitingWereListed(cfg, Evict(s.slots, Ids(input.listing.items)), input.listing.items, input.oracles);
        waiting := Attend(input.listing.items, input.oracles, rest, s.slots);
      }
      moves := moves + more;
      assert Remembers(Now().value.slots);
      died := RaiseAlerts(waiting, rest);
    }

    /** The last step of a turn. */
    method RaiseAlerts(waiting: seq<Item>, rest: Rest) returns (died: bool)
      modifies alerter
      ensures !died ==> forall kind ::
                rest.answers(kind).Takes? && HasReason(kind, waiting, rest.now) ==> RecentlySent(kind, rest.now)
      ensures forall kind :: !HasReason(kind, waiting, rest.now) ==>
                Alerts.Same(old(alerter.lastSent), alerter.lastSent, kind)
      ensures died ==> exists kind :: rest.answers(kind).Explodes? && HasReason(kind, waiting, rest.now)
    {
      ReasonsAgree(waiting, rest.now);
      died := alerter.Check(Mtimes(waiting), lastOk, rest.now, orphans, rest.answers);
    }

    /** An alert of this kind was sent less than an hour before this clock reading, or after it. */
    predicate RecentlySent(kind: Alerts.Kind, now: real)
      reads this, alerter
    {
      kind in alerter.lastSent && now - alerter.lastSent[kind] < 3600.0
    }

    /** The condition of this kind of alert holds: an item has waited too long, listing has failed too long, or files lie
        around. */
    ghost predicate HasReason(kind: Alerts.Kind, waiting: seq<Item>, now: real)
      reads this, alerter
    {
      match kind
      case Stale => exists item | item in waiting :: now - item.mtime as real > 60.0 * alerter.staleMinutes as real
      case SpoolUnreachable => now - lastOk > 60.0 * alerter.unreachableMinutes as real
      case StaleOrphan => orphans > 0
      case _ => false
    }

    lemma ReasonsAgree(waiting: seq<Item>, now: real)
      ensures forall kind :: alerter.Reason(kind, Mtimes(waiting), lastOk, now, orphans) <==> HasReason(kind, waiting, now)
    {
      MtimesOf(waiting);
    }

    static lemma MtimesOf(items: seq<Item>)
      ensures forall item | item in items :: item.mtime in Mtimes(items)
      ensures forall m | m in Mtimes(items) :: exists item | item in items :: item.mtime == m
    {
      forall item | item in items ensures item.mtime in Mtimes(items) {
        var i :| 0 <= i < |items| && items[i] == item;
        assert Mtimes(items)[i] == item.mtime;
      }
      forall m | m in Mtimes(items) ensures exists item | item in items :: item.mtime == m {
        var i :| 0 <= i < |items| && Mtimes(items)[i] == m;
        assert items[i] in items;
      }
    }

    static function Mtimes(items: seq<Item>): seq<int> {
      seq(|items|, i requires 0 <= i < |items| => items[i].mtime)
    }

    /** Any number of cycles: no item is delivered twice, and each item the worker removed from the spool was delivered
        exactly once before. */
    method Run(inputs: seq<Input>, rests: seq<Rest>)
      requires Valid() && |rests| == |inputs| && AllPossible(processor.cfg, Now().value, inputs)
      modifies this, processor, alerter
      ensures Valid() && old(moves) <= moves
      ensures var h := Now().value.history; forall id ::
          && Delivery.Deliveries(h, id) <= 1
          && forall i | 0 <= i < |h| && Delivery.IsRemoval(h[i], id) :: Delivery.Deliveries(h[..i], id) == 1
    {
      ghost var cfg := processor.cfg;
      for i := 0 to |inputs|
        invariant Valid() && old(moves) <= moves && AllPossible(cfg, Now().value, inputs[i..])
      {
        ghost var before := moves;
        RunKeeps(cfg, moves);
        CycleIsARun(cfg, Now().value, inputs[i]);
        GoAppend(cfg, INIT, before, CycleMoves(inputs[i]));
        assert inputs[i..][1..] == inputs[i + 1..];
        var _, died := Turn(inputs[i], rests[i]);
        if died { break; }
      }
      NoCrashMoves(cfg, INIT, moves);
      forall id ensures
          var h := Now().value.history;
          && Delivery.Deliveries(h, id) <= 1
          && forall i | 0 <= i < |h| && Delivery.IsRemoval(h[i], id) :: Delivery.Deliveries(h[..i], id) == 1
      {
        Delivery.AtMostOnce(cfg, moves, id);
      }
    }
  }

  lemma {:induction false} WaitingWereListed(cfg: M.Settings, slots: map<Id, M.Slot>, items: seq<Item>,
                                             oracles: seq<M.Oracle>)
    requires cfg.Valid() && |oracles| == |items| && forall o | o in oracles :: o.Valid()
    ensures forall item | item in Serve(cfg, slots, items, oracles).waiting :: item in items
    decreases |items|
  {
    if items != [] {
      var n := |items| - 1;
      WaitingWereListed(cfg, slots, items[..n], oracles[..n]);
      assert items == items[..n] + [items[n]];
    }
  }

  /** State is bounded by the spool, for the slots a run ends with. */
  lemma Bounded(cfg: M.Settings, moves: seq<Move>, items: seq<Item>, oracles: seq<M.Oracle>)
    requires cfg.Valid() && After(cfg, moves).Some? && After(cfg, moves).value.mode.Idle?
    requires |oracles| == |items| && (forall o | o in oracles :: o.Valid()) && Distinct(Ids(items))
    ensures var done := Serve(cfg, Evict(After(cfg, moves).value.slots, Ids(items)), items, oracles);
      forall id :: SlotIn(done.slots, id) != M.EMPTY ==> id in Ids(done.waiting)
  {
    var s := After(cfg, moves).value;
    RunKeeps(cfg, moves);
    forall id | id in s.slots ensures Keeps.SlotOk(s.slots[id]) {
      assert Good(cfg, s, id);
    }
    forall id ensures
      var done := Serve(cfg, Evict(s.slots, Ids(items)), items, oracles);
      SlotIn(done.slots, id) != M.EMPTY ==> id in Ids(done.waiting)
    {
      BoundedByWaiting(cfg, s.slots, items, oracles, id);
    }
  }
}
