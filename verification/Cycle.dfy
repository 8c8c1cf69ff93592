/**
  One poll cycle of aivoicemail/worker.py as a function, and its place in the protocol: a cycle is a run of Protocol.dfy,
  so everything proved there about every run holds of the worker.
*/
module Cycle {
  import opened Common
  import opened Machine
  import opened Keeps
  import opened Protocol
  import opened Weaving
  import opened ListWire

  datatype Listing = SpoolFails | Listed(items: seq<Item>)

  /** One cycle and its surroundings: what producers do before the directory scan and during it, what list answers, what
      every call answers per item, and the rest of the cycle, the worker's moves with those of producers between them. */
  datatype Input = Input(before: seq<Move>, during: seq<Move>, listing: Listing, oracles: seq<Oracle>, rest: seq<Move>)

  function Ids(items: seq<Item>): (ids: seq<Id>)
    ensures |ids| == |items| && forall i | 0 <= i < |items| :: ids[i] == items[i].id
  {
    seq(|items|, i requires 0 <= i < |items| => items[i].id)
  }

  datatype Served = Served(slots: map<Id, Slot>, waiting: seq<Item>)

  /** Processing the listed items in order; `waiting` are those still in the spool afterwards. */
  function Serve(cfg: Settings, slots: map<Id, Slot>, items: seq<Item>, oracles: seq<Oracle>): Served
    requires cfg.Valid() && |oracles| == |items| && forall o | o in oracles :: o.Valid()
    decreases |items|
  {
    if items == [] then Served(slots, [])
    else
      var n := |items| - 1;
      var before := Serve(cfg, slots, items[..n], oracles[..n]);
      var out := Process(cfg, SlotIn(before.slots, items[n].id), items[n].id, oracles[n]);
      Served(Put(before.slots, items[n].id, out.slot),
             if out.verdict.Acked? then before.waiting else before.waiting + [items[n]])
  }

  function SlotsAfter(cfg: Settings, slots: map<Id, Slot>, input: Input): map<Id, Slot>
    requires cfg.Valid() && (input.listing.Listed? ==> |input.oracles| == |input.listing.items|)
    requires forall o | o in input.oracles :: o.Valid()
  {
    match input.listing
    case SpoolFails => slots
    case Listed(items) => Serve(cfg, Evict(slots, Ids(items)), items, input.oracles).slots
  }

  function WaitingAfter(cfg: Settings, slots: map<Id, Slot>, input: Input): seq<Item>
    requires cfg.Valid() && input.listing.Listed? && |input.oracles| == |input.listing.items|
    requires forall o | o in input.oracles :: o.Valid()
  {
    Serve(cfg, Evict(slots, Ids(input.listing.items)), input.listing.items, input.oracles).waiting
  }

  /** State is bounded by the spool: after a cycle whose list succeeded, every id in any of the five collections is one
      of the items still waiting. */
  lemma {:induction false} BoundedByWaiting(cfg: Settings, slots: map<Id, Slot>, items: seq<Item>, oracles: seq<Oracle>,
                                            id: Id)
    requires cfg.Valid() && |oracles| == |items| && (forall o | o in oracles :: o.Valid())
    requires Distinct(Ids(items)) && forall k | k in slots :: SlotOk(slots[k])
    ensures var done := Serve(cfg, Evict(slots, Ids(items)), items, oracles);
      id in done.slots && done.slots[id] != EMPTY ==> id in Ids(done.waiting)
  {
    var ids := Ids(items);
    ServedOnce(cfg, Evict(slots, ids), items, oracles, id);
  }

  lemma {:induction false} ServedOnce(cfg: Settings, slots: map<Id, Slot>, items: seq<Item>, oracles: seq<Oracle>,
                                      id: Id)
    requires cfg.Valid() && |oracles| == |items| && (forall o | o in oracles :: o.Valid())
    requires Distinct(Ids(items)) && forall k | k in slots :: SlotOk(slots[k])
    ensures var done := Serve(cfg, slots, items, oracles); var ids := Ids(items);
      && (forall k | k in done.slots :: SlotOk(done.slots[k]))
      && (id !in ids ==> SlotIn(done.slots, id) == SlotIn(slots, id))
      && (id in ids && SlotIn(done.slots, id) != EMPTY ==> id in Ids(done.waiting))
    decreases |items|
  {
    if items != [] {
      var n := |items| - 1;
      var last := items[n].id;
      assert Ids(items[..n]) == Ids(items)[..n];
      ServedOnce(cfg, slots, items[..n], oracles[..n], id);
      var before := Serve(cfg, slots, items[..n], oracles[..n]);
      var done := Serve(cfg, slots, items, oracles);
      ProcessShape(cfg, SlotIn(before.slots, last), last, oracles[n]);
      assert id in Ids(items) <==> id in Ids(items)[..n] || id == last;
      if id in Ids(before.waiting) {
        var j :| 0 <= j < |before.waiting| && Ids(before.waiting)[j] == id;
        assert Ids(done.waiting)[j] == id;
      }
      if id == last && done.waiting != before.waiting {
        assert Ids(done.waiting)[|before.waiting|] == id;
      }
    }
  }

  // ---- a cycle is a run ----

  function Emits(n: nat): seq<Move> {
    seq(n, _ => Emit)
  }

  /** The moves that take up the head of the queue. */
  function Opening(s: Slot, o: Oracle): seq<Move> {
    (if IsFresh(s) && o.get.Got? then [ReadMeta] else []) + [Attend(o)]
  }

  function ItemMoves(cfg: Settings, s: Slot, id: Id, o: Oracle): seq<Move>
    requires cfg.Valid() && o.Valid()
  {
    Opening(s, o) + Emits(|Process(cfg, s, id, o).calls|) + [Finish]
  }

  function ServeMoves(cfg: Settings, slots: map<Id, Slot>, items: seq<Item>, oracles: seq<Oracle>): seq<Move>
    requires cfg.Valid() && |oracles| == |items| && forall o | o in oracles :: o.Valid()
    decreases |items|
  {
    if items == [] then []
    else
      var n := |items| - 1;
      var before := Serve(cfg, slots, items[..n], oracles[..n]).slots;
      ServeMoves(cfg, slots, items[..n], oracles[..n])
      + ItemMoves(cfg, SlotIn(before, items[n].id), items[n].id, oracles[n])
  }

  function CycleMoves(input: Input): seq<Move> {
    input.before + [ScanStart] + input.during +
    (match input.listing
     case SpoolFails => [ScanFails]
     case Listed(items) => [ScanEnd(Ids(items))] + input.rest)
  }

  /** What the surroundings of a cycle can be: producers make moves that are possible, anywhere between the worker's; list
      shows everything that was in ready/ when the scan started and nothing that was not there when it ended; a fetch
      returns what is there. */
  predicate Possible(cfg: Settings, s: System, input: Input)
    requires cfg.Valid()
  {
    && (forall m | m in input.before + input.during :: IsProducer(m))
    && (forall o | o in input.oracles :: o.Valid())
    && var at := Go(cfg, s, input.before);
    && at.Some?
    && var end := Go(cfg, at.value.(mode := Scanning(at.value.jsons.Keys)), input.during);
    && end.Some?
    && (input.listing.Listed? ==> ServedFrom(cfg, at.value, end.value, input))
  }

  /** The part after the scan, which started at `at` and ends at `end`. */
  predicate ServedFrom(cfg: Settings, at: System, end: System, input: Input)
    requires cfg.Valid() && input.listing.Listed? && forall o | o in input.oracles :: o.Valid()
  {
    var items := input.listing.items;
    && |input.oracles| == |items| && Distinct(Ids(items))
    && at.jsons.Keys <= IdSet(items) <= end.jsons.Keys
    && AllFaithful(end, items, input.oracles)
    && WorkerPart(input.rest) == ServeMoves(cfg, Evict(end.slots, Ids(items)), items, input.oracles) + [Rest]
    && Go(cfg, Polled(end, items), ProducerPart(input.rest)).Some?
  }

  /** The system when the directory scan has shown these items. */
  function Polled(s: System, items: seq<Item>): System {
    s.(mode := Polling(Ids(items)), slots := Evict(s.slots, Ids(items)))
  }

  /** What a fetch returns, and what it may leave behind when it raises. */
  predicate Faithful(s: System, id: Id, o: Oracle) {
    && id in s.jsons
    && (if o.get.Got? then o.get.meta == s.jsons[id] && o.get.wav == WavIn(s, id) else LeavesPart(s, id, o))
  }

  lemma {:induction false} GoAppend(cfg: Settings, s: System, a: seq<Move>, b: seq<Move>)
    requires cfg.Valid() && Go(cfg, s, a).Some?
    ensures Go(cfg, s, a + b) == Go(cfg, Go(cfg, s, a).value, b)
    decreases |b|
  {
    if b == [] {
      assert a + b == a;
    } else {
      assert (a + b)[..|a + b| - 1] == a + b[..|b| - 1];
      GoAppend(cfg, s, a, b[..|b| - 1]);
    }
  }

  lemma Go1(cfg: Settings, s: System, m: Move)
    requires cfg.Valid() && Enabled(cfg, s, m)
    ensures Go(cfg, s, [m]) == Some(Apply(cfg, s, m))
  {
  }

  lemma GoOn(cfg: Settings, s: System, moves: seq<Move>, m: Move)
    requires cfg.Valid() && Go(cfg, s, moves).Some? && Enabled(cfg, Go(cfg, s, moves).value, m)
    ensures Go(cfg, s, moves + [m]) == Some(Apply(cfg, Go(cfg, s, moves).value, m))
  {
    assert (moves + [m])[..|moves|] == moves;
  }

  /** The moves of producers leave the worker alone. */
  lemma {:induction false} ProducersLeaveWorker(cfg: Settings, s: System, more: seq<Move>)
    requires cfg.Valid() && Go(cfg, s, more).Some? && forall m | m in more :: IsProducer(m)
    ensures var t := Go(cfg, s, more).value; t.slots == s.slots && t.mode == s.mode
    ensures var t := Go(cfg, s, more).value; s.jsons.Keys <= t.jsons.Keys
    decreases |more|
  {
    if more != [] {
      ProducersLeaveWorker(cfg, s, more[..|more| - 1]);
      assert more[|more| - 1] in more;
    }
  }

  /** All files but those of one item are the same. */
  predicate SameFiles(s: System, t: System, but: set<Id>) {
    s.wavs - but == t.wavs - but && s.jsons - but == t.jsons - but
  }

  /** The calls of one item as the history shows them. */
  function CallsOf(id: Id, calls: seq<Effect>): (r: seq<Mark>)
    ensures |r| == |calls| && forall i | 0 <= i < |r| :: r[i] == Call(id, calls[i])
  {
    seq(|calls|, i requires 0 <= i < |calls| => Call(id, calls[i]))
  }

  /** The system when every call of the item has been made. */
  function Emitted(s: System): System
    requires s.mode.Working?
  {
    s.(mode := s.mode.(todo := []), history := s.history + CallsOf(s.mode.id, s.mode.todo),
       wavs := if WavRemoved in s.mode.todo then s.wavs - {s.mode.id} else s.wavs,
       jsons := if JsonRemoved in s.mode.todo then s.jsons - {s.mode.id} else s.jsons)
  }

  lemma EmittedNext(cfg: Settings, s: System)
    requires cfg.Valid() && s.mode.Working? && s.mode.todo != []
    ensures Apply(cfg, s, Emit).mode.Working? && Emitted(Apply(cfg, s, Emit)) == Emitted(s)
  {
  }

  lemma {:induction false} EmitAll(cfg: Settings, s: System)
    requires cfg.Valid() && s.mode.Working?
    ensures Go(cfg, s, Emits(|s.mode.todo|)) == Some(Emitted(s))
    decreases |s.mode.todo|
  {
    if s.mode.todo == [] {
      assert s.history + CallsOf(s.mode.id, []) == s.history;
    } else {
      Go1(cfg, s, Emit);
      var t := Apply(cfg, s, Emit);
      EmittedNext(cfg, s);
      EmitAll(cfg, t);
      assert [Emit] + Emits(|t.mode.todo|) == Emits(|s.mode.todo|);
      GoAppend(cfg, s, [Emit], Emits(|t.mode.todo|));
    }
  }

  lemma OpeningIsARun(cfg: Settings, s: System, o: Oracle)
    requires cfg.Valid() && o.Valid()
    requires s.mode.Polling? && s.mode.queue != [] && Faithful(s, s.mode.queue[0], o)
    ensures var id := s.mode.queue[0];
      Go(cfg, s, Opening(SlotIn(s.slots, id), o)) == Some(Start(cfg, s, id, s.mode.queue[1..], o))
  {
    var slot := SlotIn(s.slots, s.mode.queue[0]);
    if IsFresh(slot) && o.get.Got? {
      Go1(cfg, s, ReadMeta);
      Go1(cfg, Apply(cfg, s, ReadMeta), Attend(o));
      GoAppend(cfg, s, [ReadMeta], [Attend(o)]);
    } else {
      Go1(cfg, s, Attend(o));
      assert Opening(slot, o) == [Attend(o)];
    }
  }

  /** What a call of `process` leaves when its calls are made and it returns. */
  function Done(s: System): System
    requires s.mode.Working?
  {
    Emitted(s).(mode := Polling(s.mode.queue), slots := Put(s.slots, s.mode.id, s.mode.after))
  }

  lemma WorkIsARun(cfg: Settings, s: System, opening: seq<Move>, s1: System)
    requires cfg.Valid() && Go(cfg, s, opening) == Some(s1) && s1.mode.Working?
    ensures Go(cfg, s, opening + Emits(|s1.mode.todo|) + [Finish]) == Some(Done(s1))
    ensures SameFiles(s1, Done(s1), {s1.mode.id})
  {
    var emits := Emits(|s1.mode.todo|);
    EmitAll(cfg, s1);
    GoAppend(cfg, s, opening, emits);
    GoOn(cfg, s, opening + emits, Finish);
    OneItem(s1.wavs, s1.mode.id);
    OneItem(s1.jsons, s1.mode.id);
  }

  lemma OneItem<T>(files: map<Id, T>, id: Id)
    ensures (files - {id}) - {id} == files - {id}
  {
  }

  lemma ItemIsARun(cfg: Settings, s: System, o: Oracle)
    requires cfg.Valid() && o.Valid()
    requires s.mode.Polling? && s.mode.queue != [] && Faithful(s, s.mode.queue[0], o)
    ensures var id := s.mode.queue[0]; var slot := SlotIn(s.slots, id);
      var t := Done(Start(cfg, s, id, s.mode.queue[1..], o));
      && Go(cfg, s, ItemMoves(cfg, slot, id, o)) == Some(t)
      && SameFiles(s, t, {id})
  {
    var id := s.mode.queue[0];
    OpeningIsARun(cfg, s, o);
    WorkIsARun(cfg, s, Opening(SlotIn(s.slots, id), o), Start(cfg, s, id, s.mode.queue[1..], o));
  }

  /** The last of the listed items is the next in the queue once the others are done, and is none of them. */
  lemma QueueHead(items: seq<Item>, queue: seq<Id>)
    requires items != [] && Ids(items) <= queue && Distinct(queue)
    ensures var n := |items| - 1;
      && Ids(items[..n]) == Ids(items)[..n] && Ids(items[..n]) <= queue
      && queue[n..][0] == items[n].id && queue[n..][1..] == queue[|items|..]
      && items[n].id !in Ids(items[..n])
  {
  }

  predicate AllFaithful(s: System, items: seq<Item>, oracles: seq<Oracle>)
    requires |items| == |oracles|
  {
    forall i | 0 <= i < |items| :: Faithful(s, items[i].id, oracles[i])
  }

  function IdSet(items: seq<Item>): set<Id> {
    set i | i in Ids(items)
  }

  lemma StillFaithful(s: System, t: System, items: seq<Item>, id: Id, o: Oracle)
    requires SameFiles(s, t, IdSet(items)) && id !in Ids(items) && Faithful(s, id, o)
    ensures Faithful(t, id, o)
  {
    assert id in s.wavs <==> id in s.wavs - IdSet(items);
    assert id in t.wavs <==> id in t.wavs - IdSet(items);
    assert id in s.jsons <==> id in s.jsons - IdSet(items);
    assert id in t.jsons <==> id in t.jsons - IdSet(items);
  }

  lemma SameFilesGrow(s: System, t: System, u: System, items: seq<Item>)
    requires items != []
    requires var n := |items| - 1; SameFiles(s, t, IdSet(items[..n])) && SameFiles(t, u, {items[n].id})
    ensures SameFiles(s, u, IdSet(items))
  {
    var n := |items| - 1;
    assert Ids(items) == Ids(items[..n]) + [items[n].id];
    var most := IdSet(items[..n]);
    var all := IdSet(items);
    assert all == most + {items[n].id};
    assert s.wavs - all == (s.wavs - most) - {items[n].id};
    assert t.wavs - all == (t.wavs - most) - {items[n].id} == (t.wavs - {items[n].id}) - most;
    assert u.wavs - all == (u.wavs - {items[n].id}) - most;
    assert s.jsons - all == (s.jsons - most) - {items[n].id};
    assert t.jsons - all == (t.jsons - most) - {items[n].id} == (t.jsons - {items[n].id}) - most;
    assert u.jsons - all == (u.jsons - {items[n].id}) - most;
  }

  /** Every item whose JSON is still in ready/ is among those that wait. */
  predicate NoneForgotten(items: seq<Item>, waiting: seq<Item>, t: System) {
    forall item | item in items && item.id in t.jsons :: item in waiting
  }

  lemma LastNotForgotten(cfg: Settings, t: System, items: seq<Item>, waiting: seq<Item>, o: Oracle)
    requires cfg.Valid() && o.Valid() && items != [] && items[|items| - 1].id !in Ids(items[..|items| - 1])
    requires t.mode.Polling? && t.mode.queue != [] && t.mode.queue[0] == items[|items| - 1].id
    requires NoneForgotten(items[..|items| - 1], waiting, t)
    ensures var item := items[|items| - 1]; var out := Process(cfg, SlotIn(t.slots, item.id), item.id, o);
      NoneForgotten(items, if out.verdict.Acked? then waiting else waiting + [item],
                    Done(Start(cfg, t, item.id, t.mode.queue[1..], o)))
  {
    var last := items[|items| - 1];
    ProcessRemoves(cfg, SlotIn(t.slots, last.id), last.id, o);
    assert items == items[..|items| - 1] + [last];
    forall item | item in items[..|items| - 1] ensures item.id != last.id {
      var i :| 0 <= i < |items| - 1 && items[i] == item;
      assert Ids(items[..|items| - 1])[i] == item.id;
    }
  }

  lemma {:induction false} ServeIsARun(cfg: Settings, s: System, items: seq<Item>, oracles: seq<Oracle>)
    requires cfg.Valid() && |oracles| == |items| && (forall o | o in oracles :: o.Valid())
    requires s.mode.Polling? && Ids(items) <= s.mode.queue && Distinct(s.mode.queue) && AllFaithful(s, items, oracles)
    ensures var t := Go(cfg, s, ServeMoves(cfg, s.slots, items, oracles));
      && t.Some? && t.value.mode == Polling(s.mode.queue[|items|..])
      && t.value.slots == Serve(cfg, s.slots, items, oracles).slots
      && SameFiles(s, t.value, IdSet(items))
      && NoneForgotten(items, Serve(cfg, s.slots, items, oracles).waiting, t.value)
    decreases |items|
  {
    if items != [] {
      var n := |items| - 1;
      var o := oracles[n];
      QueueHead(items, s.mode.queue);
      ServeIsARun(cfg, s, items[..n], oracles[..n]);
      var moves := ServeMoves(cfg, s.slots, items[..n], oracles[..n]);
      var t := Go(cfg, s, moves).value;
      assert o in oracles;
      StillFaithful(s, t, items[..n], items[n].id, o);
      ItemIsARun(cfg, t, o);
      LastNotForgotten(cfg, t, items, Serve(cfg, s.slots, items[..n], oracles[..n]).waiting, o);
      var last := ItemMoves(cfg, SlotIn(t.slots, items[n].id), items[n].id, o);
      GoAppend(cfg, s, moves, last);
      SameFilesGrow(s, t, Go(cfg, t, last).value, items);
    }
  }

  lemma PolledIsARun(cfg: Settings, s: System, items: seq<Item>, oracles: seq<Oracle>)
    requires cfg.Valid() && |oracles| == |items| && (forall o | o in oracles :: o.Valid())
    requires s.mode == Polling(Ids(items)) && Distinct(Ids(items)) && AllFaithful(s, items, oracles)
    ensures var t := Go(cfg, s, ServeMoves(cfg, s.slots, items, oracles) + [Rest]);
      && t.Some? && t.value.mode.Idle? && t.value.slots == Serve(cfg, s.slots, items, oracles).slots
      && NoneForgotten(items, Serve(cfg, s.slots, items, oracles).waiting, t.value)
  {
    var ids := Ids(items);
    ServeIsARun(cfg, s, items, oracles);
    var moves := ServeMoves(cfg, s.slots, items, oracles);
    var t := Go(cfg, s, moves).value;
    assert ids[|items|..] == [];
    GoOn(cfg, s, moves, Rest);
  }

  lemma {:induction false} ServesOnly(cfg: Settings, slots: map<Id, Slot>, items: seq<Item>, oracles: seq<Oracle>)
    requires cfg.Valid() && |oracles| == |items| && forall o | o in oracles :: o.Valid()
    ensures forall m | m in ServeMoves(cfg, slots, items, oracles) :: IsServing(m)
    decreases |items|
  {
    if items != [] {
      ServesOnly(cfg, slots, items[..|items| - 1], oracles[..|items| - 1]);
    }
  }

  /** After the scan: the worker's moves, whatever producers do in between. */
  lemma RestIsARun(cfg: Settings, at: System, end: System, input: Input)
    requires cfg.Valid() && input.listing.Listed? && (forall o | o in input.oracles :: o.Valid())
    requires ServedFrom(cfg, at, end, input) && Inv(cfg, end)
    ensures var items := input.listing.items; var t := Go(cfg, Polled(end, items), input.rest);
      var done := Serve(cfg, Evict(end.slots, Ids(items)), items, input.oracles);
      && t.Some? && t.value.mode.Idle? && t.value.slots == done.slots
      && NoneForgotten(items, done.waiting, t.value)
  {
    var items := input.listing.items;
    var s := Polled(end, items);
    PolledIsARun(cfg, s, items, input.oracles);
    ServesOnly(cfg, s.slots, items, input.oracles);
    PublishedIsTaken(cfg, end, items);
    WovenIsARun(cfg, IdSet(items), s, s, input.rest);
    forall item | item in items ensures item.id in IdSet(items) {
      var i :| 0 <= i < |items| && items[i] == item;
      assert Ids(items)[i] == item.id;
    }
  }

  /** Producers are done with the items that are listed. */
  lemma PublishedIsTaken(cfg: Settings, end: System, items: seq<Item>)
    requires cfg.Valid() && Inv(cfg, end) && IdSet(items) <= end.jsons.Keys
    ensures Ahead(IdSet(items), Polled(end, items), Polled(end, items))
  {
    forall id | id in IdSet(items) ensures id in end.used && id !in end.moved {
      assert Good(cfg, end, id);
    }
  }

  /** From an idle worker, a cycle in possible surroundings is a run that ends idle with the slots of the cycle; a listed
      item that is still in ready/ waits. */
  lemma CycleIsARun(cfg: Settings, s: System, input: Input)
    requires cfg.Valid() && Inv(cfg, s) && s.mode.Idle? && Possible(cfg, s, input)
    ensures var t := Go(cfg, s, CycleMoves(input));
      && t.Some? && t.value.mode.Idle? && t.value.slots == SlotsAfter(cfg, s.slots, input)
      && (input.listing.Listed? ==>
            NoneForgotten(input.listing.items, WaitingAfter(cfg, s.slots, input), t.value))
  {
    var at := Go(cfg, s, input.before).value;
    ProducersLeaveWorker(cfg, s, input.before);
    Go1(cfg, at, ScanStart);
    GoAppend(cfg, s, input.before, [ScanStart]);
    var scanning := Apply(cfg, at, ScanStart);
    ProducersLeaveWorker(cfg, scanning, input.during);
    GoAppend(cfg, s, input.before + [ScanStart], input.during);
    var end := Go(cfg, scanning, input.during).value;
    var scan := input.before + [ScanStart] + input.during;
    if input.listing.SpoolFails? {
      Go1(cfg, end, ScanFails);
      GoAppend(cfg, s, scan, [ScanFails]);
    } else {
      var ids := Ids(input.listing.items);
      Go1(cfg, end, ScanEnd(ids));
      GoKeeps(cfg, s, scan);
      RestIsARun(cfg, at, end, input);
      GoAppend(cfg, end, [ScanEnd(ids)], input.rest);
      GoAppend(cfg, s, scan, [ScanEnd(ids)] + input.rest);
    }
  }

  lemma {:induction false} GoKeeps(cfg: Settings, s: System, moves: seq<Move>)
    requires cfg.Valid() && Inv(cfg, s) && Go(cfg, s, moves).Some?
    ensures Inv(cfg, Go(cfg, s, moves).value)
    decreases |moves|
  {
    if moves != [] {
      GoKeeps(cfg, s, moves[..|moves| - 1]);
      MoveKeeps(cfg, Go(cfg, s, moves[..|moves| - 1]).value, moves[|moves| - 1]);
    }
  }
}
