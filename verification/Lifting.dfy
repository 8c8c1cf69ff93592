/**
  From one call of `process` to every run. A Follower reads the events of one item since the last crash and stops at an
  event that breaks its promise; if every call of `process` keeps the promise, every run does.
*/
module Lifting {
  import opened Common
  import opened Machine
  import opened Keeps
  import opened Protocol

  datatype Follower<!D> = Follower(start: D, step: (D, Effect) -> Option<D>)

  function Seen<D>(r: Follower<D>, d: Option<D>, m: Mark, id: Id): Option<D> {
    if d.None? then None
    else match m
      case Crash => Some(r.start)
      case Call(k, e) => if k == id then r.step(d.value, e) else d
      case _ => d
  }

  /** What the history says; None when the promise was broken. */
  function Read<D>(r: Follower<D>, h: seq<Mark>, id: Id): Option<D>
    decreases |h|
  {
    if h == [] then Some(r.start) else Seen(r, Read(r, h[..|h| - 1], id), h[|h| - 1], id)
  }

  function Through<D>(r: Follower<D>, d: Option<D>, calls: seq<Effect>): Option<D>
    decreases |calls|
  {
    if calls == [] || d.None? then d else Through(r, r.step(d.value, calls[0]), calls[1..])
  }

  lemma ReadLast<D>(r: Follower<D>, h: seq<Mark>, m: Mark, id: Id)
    ensures Read(r, h + [m], id) == Seen(r, Read(r, h, id), m, id)
  {
    assert (h + [m])[..|h|] == h;
  }

  lemma {:induction false} ThroughAppend<D>(r: Follower<D>, d: Option<D>, a: seq<Effect>, b: seq<Effect>)
    ensures Through(r, d, a + b) == Through(r, Through(r, d, a), b)
    decreases |a|
  {
    if a == [] {
      assert a + b == b;
    } else if d.Some? {
      assert (a + b)[0] == a[0] && (a + b)[1..] == a[1..] + b;
      ThroughAppend(r, r.step(d.value, a[0]), a[1..], b);
    }
  }

  lemma Through1<D>(r: Follower<D>, d: D, e: Effect)
    ensures Through(r, Some(d), [e]) == r.step(d, e)
  {
    assert [e][1..] == [];
  }

  /** Calls that the follower passes over. */
  lemma {:induction false} ThroughIdle<D>(r: Follower<D>, d: D, calls: seq<Effect>)
    requires forall e | e in calls :: r.step(d, e) == Some(d)
    ensures Through(r, Some(d), calls) == Some(d)
    decreases |calls|
  {
    if calls != [] {
      assert calls[0] in calls && forall e | e in calls[1..] :: e in calls;
      ThroughIdle(r, d, calls[1..]);
    }
  }

  lemma {:induction false} PrefixRead<D>(r: Follower<D>, h: seq<Mark>, id: Id, i: nat)
    requires Read(r, h, id).Some? && i <= |h|
    ensures Read(r, h[..i], id).Some?
    decreases |h|
  {
    if i == |h| {
      assert h[..i] == h;
    } else {
      PrefixRead(r, h[..|h| - 1], id, i);
      assert h[..|h| - 1][..i] == h[..i];
    }
  }

  /** At every event of a kept promise the follower takes a step. */
  lemma ReadNext<D>(r: Follower<D>, h: seq<Mark>, id: Id, i: nat)
    requires Read(r, h, id).Some? && i < |h|
    ensures Read(r, h[..i], id).Some? && Read(r, h[..i + 1], id) == Seen(r, Read(r, h[..i], id), h[i], id)
    ensures Read(r, h[..i + 1], id).Some?
  {
    PrefixRead(r, h, id, i);
    PrefixRead(r, h, id, i + 1);
    assert h[..i + 1] == h[..i] + [h[i]];
    ReadLast(r, h[..i], h[i], id);
  }

  /** What holds between two calls of `process` (`settled`), and for an item in ready/ of what is remembered (`recalls`). */
  datatype Promise<!D> = Promise(settled: D -> bool, recalls: (Slot, D) -> bool)

  ghost predicate CallKeeps<D>(cfg: Settings, r: Follower<D>, p: Promise<D>, s: Slot, id: Id, o: Oracle, d: D)
    requires cfg.Valid() && o.Valid()
  {
    OutKeeps(r, p, d, Process(cfg, s, id, o))
  }

  ghost predicate OutKeeps<D>(r: Follower<D>, p: Promise<D>, d: D, out: Out) {
    var e := Through(r, Some(d), out.calls);
    e.Some? && p.settled(e.value) && (!out.verdict.Acked? ==> p.recalls(out.slot, e.value))
  }

  ghost predicate Upheld<D>(r: Follower<D>, p: Promise<D>, s: System, id: Id) {
    var d := Read(r, s.history, id);
    && d.Some?
    && (id in s.moved || id !in s.used ==> d.value == r.start)
    && (if s.mode.Working? && s.mode.id == id then
          var e := Through(r, d, s.mode.todo);
          e.Some? && p.settled(e.value) && (JsonRemoved !in s.mode.todo && id in s.jsons ==> p.recalls(s.mode.after, e.value))
        else
          p.settled(d.value) && (id in s.jsons ==> p.recalls(SlotIn(s.slots, id), d.value)))
  }

  lemma OtherMark<D>(r: Follower<D>, s: System, m: Mark, id: Id)
    requires !m.Crash? && (m.Call? ==> m.id != id)
    ensures Read(r, s.history + [m], id) == Read(r, s.history, id)
  {
    ReadLast(r, s.history, m, id);
  }

  lemma PublishKeeps<D>(cfg: Settings, r: Follower<D>, p: Promise<D>, s: System, id: Id, m: Move)
    requires cfg.Valid() && Good(cfg, s, id) && Upheld(r, p, s, id) && Enabled(cfg, s, m) && (m.MoveWav? || m.MoveJson?)
    requires p.recalls(EMPTY, r.start)
    ensures Upheld(r, p, Apply(cfg, s, m), id)
  {
    OtherMark(r, s, if m.MoveWav? then Moved(m.id, m.audio) else Posted(m.id, m.meta), id);
  }

  lemma ScanKeeps<D>(cfg: Settings, r: Follower<D>, p: Promise<D>, s: System, id: Id, listing: seq<Id>)
    requires cfg.Valid() && Good(cfg, s, id) && Upheld(r, p, s, id) && Enabled(cfg, s, ScanEnd(listing))
    ensures Upheld(r, p, Apply(cfg, s, ScanEnd(listing)), id)
  {
    assert id in listing <==> id in set k | k in listing;
  }

  /** The item the worker takes up. */
  function Served(s: System): Id
    requires (s.mode.Polling? && s.mode.queue != []) || s.mode.Fetching?
  {
    if s.mode.Polling? then s.mode.queue[0] else s.mode.id
  }

  lemma AttendUpholds<D>(cfg: Settings, r: Follower<D>, p: Promise<D>, s: System, id: Id, o: Oracle)
    requires cfg.Valid() && Good(cfg, s, id) && Upheld(r, p, s, id) && Enabled(cfg, s, Attend(o))
    requires Served(s) == id ==> CallKeeps(cfg, r, p, SlotIn(s.slots, id), id, o, Read(r, s.history, id).value)
    ensures Upheld(r, p, Apply(cfg, s, Attend(o)), id)
  {
    if id == Served(s) {
      ProcessRemoves(cfg, SlotIn(s.slots, id), id, o);
    }
  }

  lemma EmitUpholds<D>(cfg: Settings, r: Follower<D>, p: Promise<D>, s: System, id: Id)
    requires cfg.Valid() && Good(cfg, s, id) && Upheld(r, p, s, id) && Enabled(cfg, s, Emit)
    ensures Upheld(r, p, Apply(cfg, s, Emit), id)
  {
    var e := s.mode.todo[0];
    var d := Read(r, s.history, id);
    ReadLast(r, s.history, Call(s.mode.id, e), id);
    if s.mode.id == id {
      assert Through(r, d, s.mode.todo) == Through(r, r.step(d.value, e), s.mode.todo[1..]);
      assert s.mode.todo == [e] + s.mode.todo[1..];
      assert id in s.used && id !in s.moved;
    }
  }

  lemma RestKeeps<D>(cfg: Settings, r: Follower<D>, p: Promise<D>, s: System, id: Id, m: Move)
    requires cfg.Valid() && Good(cfg, s, id) && Upheld(r, p, s, id) && Enabled(cfg, s, m)
    requires p.settled(r.start) && p.recalls(EMPTY, r.start)
    requires m.ScanStart? || m.ScanFails? || m.ReadMeta? || m.Finish? || m.Rest? || m.Crashes?
    ensures Upheld(r, p, Apply(cfg, s, m), id)
  {
    if m.Crashes? {
      ReadLast(r, s.history, Crash, id);
    }
  }

  lemma MoveUpholds<D>(cfg: Settings, r: Follower<D>, p: Promise<D>, s: System, id: Id, m: Move)
    requires cfg.Valid() && Good(cfg, s, id) && Upheld(r, p, s, id) && Enabled(cfg, s, m)
    requires p.settled(r.start) && p.recalls(EMPTY, r.start)
    requires m.Attend? && Served(s) == id ==> CallKeeps(cfg, r, p, SlotIn(s.slots, id), id, m.o, Read(r, s.history, id).value)
    ensures Upheld(r, p, Apply(cfg, s, m), id)
  {
    if m.Attend? {
      AttendUpholds(cfg, r, p, s, id, m.o);
    } else if m.ScanEnd? {
      ScanKeeps(cfg, r, p, s, id, m.listing);
    } else if m.Emit? {
      EmitUpholds(cfg, r, p, s, id);
    } else if m.MoveWav? || m.MoveJson? {
      PublishKeeps(cfg, r, p, s, id, m);
    } else {
      RestKeeps(cfg, r, p, s, id, m);
    }
  }

  /** Every call keeps the promise, so every run does. */
  lemma {:induction false} RunUpholds<D(!new)>(cfg: Settings, r: Follower<D>, p: Promise<D>, moves: seq<Move>, id: Id)
    requires cfg.Valid() && After(cfg, moves).Some? && p.settled(r.start) && p.recalls(EMPTY, r.start)
    requires forall s, o: Oracle, d {:trigger CallKeeps(cfg, r, p, s, id, o, d)} |
               o.Valid() && p.settled(d) && p.recalls(s, d) :: CallKeeps(cfg, r, p, s, id, o, d)
    ensures Upheld(r, p, After(cfg, moves).value, id)
    decreases |moves|
  {
    if moves != [] {
      var before := moves[..|moves| - 1];
      var s := After(cfg, before).value;
      RunUpholds(cfg, r, p, before, id);
      RunKeeps(cfg, before);
      assert Good(cfg, s, id);
      ServedIsThere(cfg, s, moves[|moves| - 1], id);
      MoveUpholds(cfg, r, p, s, id, moves[|moves| - 1]);
    }
  }

  lemma ServedIsThere(cfg: Settings, s: System, m: Move, id: Id)
    requires cfg.Valid() && Good(cfg, s, id) && Enabled(cfg, s, m)
    ensures m.Attend? && Served(s) == id ==> id in s.jsons && m.o.Valid()
  {
  }
}
