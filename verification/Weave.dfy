/**
  Producers and the worker do not get in each other's way: after a directory scan, a run of the worker stays a run when
  moves of producers are woven into it anywhere, because producers never touch an item that was published before.
*/
module Weaving {
  import opened Common
  import opened Machine
  import opened Protocol

  predicate IsProducer(m: Move) {
    m.MoveWav? || m.MoveJson?
  }

  /** The moves of the worker between two scans. */
  predicate IsServing(m: Move) {
    m.ReadMeta? || m.Attend? || m.Emit? || m.Finish? || m.Rest?
  }

  function ProducerPart(moves: seq<Move>): seq<Move>
    decreases |moves|
  {
    if moves == [] then []
    else ProducerPart(moves[..|moves| - 1]) + (if IsProducer(moves[|moves| - 1]) then [moves[|moves| - 1]] else [])
  }

  function WorkerPart(moves: seq<Move>): seq<Move>
    decreases |moves|
  {
    if moves == [] then []
    else WorkerPart(moves[..|moves| - 1]) + (if IsProducer(moves[|moves| - 1]) then [] else [moves[|moves| - 1]])
  }

  lemma {:induction false} EveryMoveHasAPart(moves: seq<Move>)
    ensures forall m | m in moves :: IsProducer(m) || m in WorkerPart(moves)
    decreases |moves|
  {
    if moves != [] {
      EveryMoveHasAPart(moves[..|moves| - 1]);
      assert moves == moves[..|moves| - 1] + [moves[|moves| - 1]];
    }
  }

  /** The worker's next steps are about these items only. */
  predicate Within(mode: Mode, ours: set<Id>) {
    match mode
    case Idle => true
    case Scanning(_) => false
    case Polling(queue) => forall id | id in queue :: id in ours
    case Fetching(id, _, queue) => id in ours && forall k | k in queue :: k in ours
    case Working(id, _, _, queue) => id in ours && forall k | k in queue :: k in ours
  }

  /** The worker cannot tell t from s: t only has more from producers, about other items. */
  ghost predicate Ahead(ours: set<Id>, s: System, t: System) {
    && t.mode == s.mode && t.slots == s.slots && Within(s.mode, ours)
    && (forall id | id in ours :: id in t.used && id !in t.moved)
    && (forall id | id in ours :: WavIn(t, id) == WavIn(s, id))
    && (forall id | id in ours :: (id in t.jsons <==> id in s.jsons) && (id in s.jsons ==> t.jsons[id] == s.jsons[id]))
  }

  lemma WorkerStaysAhead(cfg: Settings, ours: set<Id>, s: System, t: System, m: Move)
    requires cfg.Valid() && Ahead(ours, s, t) && IsServing(m) && Enabled(cfg, s, m)
    ensures Enabled(cfg, t, m) && Ahead(ours, Apply(cfg, s, m), Apply(cfg, t, m))
    ensures Apply(cfg, t, m).used == t.used && Apply(cfg, t, m).moved == t.moved
  {
    match m
    case ReadMeta => ReadStaysAhead(cfg, ours, s, t, m);
    case Attend(_) => AttendStaysAhead(cfg, ours, s, t, m);
    case Emit => EmitStaysAhead(cfg, ours, s, t, m);
    case _ =>
  }

  lemma ReadStaysAhead(cfg: Settings, ours: set<Id>, s: System, t: System, m: Move)
    requires cfg.Valid() && Ahead(ours, s, t) && m.ReadMeta? && Enabled(cfg, s, m)
    ensures Enabled(cfg, t, m) && Ahead(ours, Apply(cfg, s, m), Apply(cfg, t, m))
    ensures Apply(cfg, t, m).used == t.used && Apply(cfg, t, m).moved == t.moved
  {
    assert s.mode.queue[0] in s.mode.queue;
    assert forall k | k in s.mode.queue[1..] :: k in s.mode.queue;
  }

  lemma AttendStaysAhead(cfg: Settings, ours: set<Id>, s: System, t: System, m: Move)
    requires cfg.Valid() && Ahead(ours, s, t) && m.Attend? && Enabled(cfg, s, m)
    ensures Enabled(cfg, t, m) && Ahead(ours, Apply(cfg, s, m), Apply(cfg, t, m))
    ensures Apply(cfg, t, m).used == t.used && Apply(cfg, t, m).moved == t.moved
  {
    if s.mode.Polling? {
      assert s.mode.queue[0] in s.mode.queue;
      assert forall k | k in s.mode.queue[1..] :: k in s.mode.queue;
    }
  }

  lemma EmitStaysAhead(cfg: Settings, ours: set<Id>, s: System, t: System, m: Move)
    requires cfg.Valid() && Ahead(ours, s, t) && m.Emit? && Enabled(cfg, s, m)
    ensures Enabled(cfg, t, m) && Ahead(ours, Apply(cfg, s, m), Apply(cfg, t, m))
    ensures Apply(cfg, t, m).used == t.used && Apply(cfg, t, m).moved == t.moved
  {
  }

  lemma ProducerStaysAhead(cfg: Settings, ours: set<Id>, s: System, t: System, m: Move)
    requires cfg.Valid() && Ahead(ours, s, t) && IsProducer(m) && Enabled(cfg, t, m)
    ensures Ahead(ours, s, Apply(cfg, t, m))
  {
  }

  /** Whether a producer can move depends on the moves of producers alone. */
  lemma ProducersDecide(cfg: Settings, t: System, u: System, m: Move)
    requires cfg.Valid() && IsProducer(m) && t.used == u.used && t.moved == u.moved
    ensures Enabled(cfg, t, m) == Enabled(cfg, u, m)
    ensures Enabled(cfg, t, m) ==>
              Apply(cfg, t, m).used == Apply(cfg, u, m).used && Apply(cfg, t, m).moved == Apply(cfg, u, m).moved
  {
  }

  /** A run of the worker and a run of producers, woven together, are a run; it leaves the worker where its own would. */
  lemma {:induction false} WovenIsARun(cfg: Settings, ours: set<Id>, s: System, t: System, moves: seq<Move>)
    requires cfg.Valid() && Ahead(ours, s, t)
    requires Go(cfg, s, WorkerPart(moves)).Some? && forall m | m in WorkerPart(moves) :: IsServing(m)
    requires Go(cfg, t, ProducerPart(moves)).Some?
    ensures var end := Go(cfg, t, moves);
      && end.Some? && Ahead(ours, Go(cfg, s, WorkerPart(moves)).value, end.value)
      && end.value.used == Go(cfg, t, ProducerPart(moves)).value.used
      && end.value.moved == Go(cfg, t, ProducerPart(moves)).value.moved
    decreases |moves|
  {
    if moves != [] {
      var before := moves[..|moves| - 1];
      var m := moves[|moves| - 1];
      if IsProducer(m) {
        assert ProducerPart(moves)[..|ProducerPart(moves)| - 1] == ProducerPart(before);
        assert WorkerPart(moves) == WorkerPart(before);
        WovenIsARun(cfg, ours, s, t, before);
        var now := Go(cfg, t, before).value;
        ProducersDecide(cfg, now, Go(cfg, t, ProducerPart(before)).value, m);
        ProducerStaysAhead(cfg, ours, Go(cfg, s, WorkerPart(before)).value, now, m);
      } else {
        assert WorkerPart(moves)[..|WorkerPart(moves)| - 1] == WorkerPart(before);
        assert m in WorkerPart(moves) && forall k | k in WorkerPart(before) :: k in WorkerPart(moves);
        assert ProducerPart(moves) == ProducerPart(before);
        WovenIsARun(cfg, ours, s, t, before);
        WorkerStaysAhead(cfg, ours, Go(cfg, s, WorkerPart(before)).value, Go(cfg, t, before).value, m);
      }
    }
  }
}
