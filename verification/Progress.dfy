/**
  Bounded progress: an item does not stay forever. If from some moment on the spool answers and emails are accepted and
  acked, an item in ready/ is gone after at most max_failures more calls of `process`, whatever raises in between.
*/
module Progress {
  import opened Common
  import opened Machine
  import opened Keeps
  import opened Protocol

  /** The spool, the mail server and the rendering of the fallback work. The rest may raise. */
  predicate Kind(o: Oracle) {
    && !o.get.GetSpoolError? && o.send.Accepts? && o.sendAgain.Accepts? && o.ack.Removes?
    && o.fallback.Rendered? && o.diskReadable
  }

  predicate Unsent(s: Slot) {
    s.sent.None? && s.pending.None?
  }

  /** How many calls of `process` it takes at most from here. */
  function Needed(cfg: Settings, s: Slot): int {
    if Unsent(s) then cfg.maxFailures - s.failures else 1
  }

  /** One kind call of `process` finishes the item, or brings it one failure closer to the limit. */
  lemma TakeAdvances(cfg: Settings, s: Slot, id: Id, o: Oracle)
    requires cfg.Valid() && o.Valid() && Kind(o) && (s.sent.None? ==> s.failures < cfg.maxFailures)
    ensures var out := Process(cfg, s, id, o);
      || out.verdict.Acked?
      || (Unsent(s) && out.slot == s.(failures := s.failures + 1) && out.slot.failures < cfg.maxFailures)
  {
    if Unsent(s) {
      FreshAdvances(cfg, s, id, o);
    }
  }

  lemma FailedAdvances(cfg: Settings, s: Slot, id: Id, meta: Option<Meta>, o: Oracle)
    requires cfg.Valid() && o.Valid() && Kind(o) && Unsent(s) && s.failures < cfg.maxFailures
    ensures var out := Failed(cfg, s, id, meta, None, o);
      out.verdict.Acked? || (out.slot == s.(failures := s.failures + 1) && out.slot.failures < cfg.maxFailures)
  {
    assert FallbackAttachments(id, None, o).Some?;
  }

  lemma FreshAdvances(cfg: Settings, s: Slot, id: Id, o: Oracle)
    requires cfg.Valid() && o.Valid() && Kind(o) && Unsent(s) && s.failures < cfg.maxFailures
    ensures var out := ProcessFresh(cfg, s, id, o);
      out.verdict.Acked? || (out.slot == s.(failures := s.failures + 1) && out.slot.failures < cfg.maxFailures)
  {
    match o.get {
      case GetRaises =>
        FailedAdvances(cfg, s, id, None, o);
      case Got(meta, wav) =>
        if Compose(cfg, id, meta, wav, o).Broken? {
          FailedAdvances(cfg, s, id, Some(meta), o);
        }
    }
  }

  // ---- runs ----

  /** The worker is about to take up the item. */
  predicate Serves(s: System, id: Id) {
    match s.mode
    case Polling(queue) => queue != [] && queue[0] == id
    case Fetching(k, _, _) => k == id
    case _ => false
  }

  /** The worker does not die, and whenever it takes up the item the surroundings are kind. */
  predicate Kindly(cfg: Settings, s: System, moves: seq<Move>, id: Id)
    requires cfg.Valid() && Go(cfg, s, moves).Some?
    decreases |moves|
  {
    moves == [] ||
    (var before := moves[..|moves| - 1]; var m := moves[|moves| - 1];
     && Kindly(cfg, s, before, id) && !m.Crashes?
     && (m.Attend? && Serves(Go(cfg, s, before).value, id) ==> Kind(m.o)))
  }

  /** How often the worker takes up the item. */
  function Takes(cfg: Settings, s: System, moves: seq<Move>, id: Id): nat
    requires cfg.Valid() && Go(cfg, s, moves).Some?
    decreases |moves|
  {
    if moves == [] then 0
    else
      var before := moves[..|moves| - 1];
      Takes(cfg, s, before, id)
      + (if moves[|moves| - 1].Attend? && Serves(Go(cfg, s, before).value, id) then 1 else 0)
  }

  /** After k takes a slot that began as `first` has k more failures, and nothing was sent. */
  predicate Advanced(first: Slot, k: nat, now: Slot) {
    if k == 0 then now == first else Unsent(first) && Unsent(now) && now.failures == first.failures + k
  }

  predicate Gaining(cfg: Settings, first: Slot, k: nat, s: System, id: Id) {
    && id in s.used && id !in s.moved
    && (if s.mode.Working? && s.mode.id == id then
          k > 0 && (JsonRemoved !in s.mode.todo && id in s.jsons ==> Advanced(first, k, s.mode.after))
        else id in s.jsons ==> Advanced(first, k, SlotIn(s.slots, id)))
  }

  lemma AttendGains(cfg: Settings, first: Slot, k: nat, s: System, id: Id, o: Oracle)
    requires cfg.Valid() && Good(cfg, s, id) && Gaining(cfg, first, k, s, id) && Enabled(cfg, s, Attend(o))
    requires Serves(s, id) ==> Kind(o) && id in s.jsons
    ensures Gaining(cfg, first, if Serves(s, id) then k + 1 else k, Apply(cfg, s, Attend(o)), id)
  {
    if Serves(s, id) {
      TakeAdvances(cfg, SlotIn(s.slots, id), id, o);
      ProcessRemoves(cfg, SlotIn(s.slots, id), id, o);
    }
  }

  lemma OtherMovesGain(cfg: Settings, first: Slot, k: nat, s: System, id: Id, m: Move)
    requires cfg.Valid() && Good(cfg, s, id) && Gaining(cfg, first, k, s, id) && Enabled(cfg, s, m)
    requires !m.Attend? && !m.Crashes? && !m.ScanEnd?
    ensures Gaining(cfg, first, k, Apply(cfg, s, m), id)
  {
  }

  lemma ScanGains(cfg: Settings, first: Slot, k: nat, s: System, id: Id, listing: seq<Id>)
    requires cfg.Valid() && Good(cfg, s, id) && Gaining(cfg, first, k, s, id) && Enabled(cfg, s, ScanEnd(listing))
    ensures Gaining(cfg, first, k, Apply(cfg, s, ScanEnd(listing)), id)
  {
    assert id in listing <==> id in set i | i in listing;
  }

  lemma MoveGains(cfg: Settings, first: Slot, k: nat, s: System, id: Id, m: Move)
    requires cfg.Valid() && Good(cfg, s, id) && Gaining(cfg, first, k, s, id) && Enabled(cfg, s, m)
    requires !m.Crashes? && (m.Attend? && Serves(s, id) ==> Kind(m.o))
    ensures Gaining(cfg, first, if m.Attend? && Serves(s, id) then k + 1 else k, Apply(cfg, s, m), id)
  {
    if m.Attend? {
      AttendGains(cfg, first, k, s, id, m.o);
    } else if m.ScanEnd? {
      ScanGains(cfg, first, k, s, id, m.listing);
    } else {
      OtherMovesGain(cfg, first, k, s, id, m);
    }
  }

  lemma {:induction false} TakesAdvance(cfg: Settings, s: System, moves: seq<Move>, id: Id)
    requires cfg.Valid() && Inv(cfg, s) && id in s.jsons && !(s.mode.Working? && s.mode.id == id)
    requires Go(cfg, s, moves).Some? && Kindly(cfg, s, moves, id)
    ensures var t := Go(cfg, s, moves).value;
      Inv(cfg, t) && Gaining(cfg, SlotIn(s.slots, id), Takes(cfg, s, moves, id), t, id)
    decreases |moves|
  {
    assert Good(cfg, s, id);
    if moves != [] {
      var before := moves[..|moves| - 1];
      var t := Go(cfg, s, before).value;
      TakesAdvance(cfg, s, before, id);
      MoveKeeps(cfg, t, moves[|moves| - 1]);
      assert Good(cfg, t, id);
      MoveGains(cfg, SlotIn(s.slots, id), Takes(cfg, s, before, id), t, id, moves[|moves| - 1]);
    }
  }

  /** From every state of every run: once an item in ready/ has been taken up Needed times, kindly and without a crash, it
      is gone. That is at most max_failures times, and once if an email of it is cached or was accepted. */
  lemma GoneAfterEnoughTakes(cfg: Settings, run: seq<Move>, moves: seq<Move>, id: Id)
    requires cfg.Valid() && After(cfg, run).Some?
    requires var s := After(cfg, run).value;
      && id in s.jsons && !(s.mode.Working? && s.mode.id == id)
      && Go(cfg, s, moves).Some? && Kindly(cfg, s, moves, id)
    ensures var s := After(cfg, run).value; var slot := SlotIn(s.slots, id); var t := Go(cfg, s, moves).value;
      && 1 <= Needed(cfg, slot) <= cfg.maxFailures
      && (Takes(cfg, s, moves, id) >= Needed(cfg, slot) && !(t.mode.Working? && t.mode.id == id) ==> id !in t.jsons)
  {
    var s := After(cfg, run).value;
    var t := Go(cfg, s, moves).value;
    RunKeeps(cfg, run);
    assert Good(cfg, s, id);
    TakesAdvance(cfg, s, moves, id);
    assert Good(cfg, t, id);
  }
}
