/**
  The safety of voicemail delivery, over every run of Protocol.dfy: every interleaving of producers, every fault at
  every call and, unless a theorem says otherwise, any number of worker crashes.

  The statements count events of the history directly; the automata of Watch.dfy are only used in the proofs.
*/
module Delivery {
  import opened Common
  import opened Machine
  import opened Watch
  import opened Keeps
  import opened Protocol

  predicate IsAccepted(m: Mark, id: Id) {
    m.Call? && m.id == id && m.e.Accepted?
  }

  /** The call of ack and the two removals it makes. */
  predicate IsRemoval(m: Mark, id: Id) {
    m == Call(id, AckCalled) || m == Call(id, WavRemoved) || m == Call(id, JsonRemoved)
  }

  predicate IsPublication(m: Mark, id: Id) {
    m.Posted? && m.id == id
  }

  predicate IsLookup(m: Mark, id: Id) {
    m.Call? && m.id == id &&
    (m.e.GetCalled? || m.e.Fetched? || m.e.SpeechChecked? || m.e.TranscribeCalled? || m.e.SummariseCalled?)
  }

  predicate IsSend(m: Mark, id: Id) {
    m.Call? && m.id == id && m.e.SendCalled?
  }

  predicate IsCount(m: Mark, id: Id) {
    m.Call? && m.id == id && m.e.FailureCounted?
  }

  /** Emails accepted for the item, ever. */
  function Deliveries(h: seq<Mark>, id: Id): nat
    decreases |h|
  {
    if h == [] then 0
    else Deliveries(h[..|h| - 1], id) + (if IsAccepted(h[|h| - 1], id) then 1 else 0)
  }

  /** Emails accepted for the item by the present worker process. */
  function DeliveriesNow(h: seq<Mark>, id: Id): nat
    decreases |h|
  {
    if h == [] || h[|h| - 1].Crash? then 0
    else DeliveriesNow(h[..|h| - 1], id) + (if IsAccepted(h[|h| - 1], id) then 1 else 0)
  }

  /** The item's JSON is in ready/. */
  function InReady(h: seq<Mark>, id: Id): bool
    decreases |h|
  {
    if h == [] then false
    else if IsPublication(h[|h| - 1], id) then true
    else if h[|h| - 1] == Call(id, JsonRemoved) then false
    else InReady(h[..|h| - 1], id)
  }

  /** Crashes that found the item delivered by that process and still in ready/. */
  function UnackedCrashes(h: seq<Mark>, id: Id): nat
    decreases |h|
  {
    if h == [] then 0
    else
      var before := h[..|h| - 1];
      UnackedCrashes(before, id)
      + (if h[|h| - 1].Crash? && InReady(before, id) && DeliveriesNow(before, id) > 0 then 1 else 0)
  }

  /** Failures counted for the item since the last give-up attempt or crash. */
  function FailuresSince(h: seq<Mark>, id: Id): nat
    decreases |h|
  {
    if h == [] || h[|h| - 1].Crash? || h[|h| - 1] == Call(id, GaveUp) then 0
    else FailuresSince(h[..|h| - 1], id) + (if IsCount(h[|h| - 1], id) then 1 else 0)
  }

  /** The call of `process` that the item last was taken up by has called `get`. */
  function HasFetched(h: seq<Mark>, id: Id): bool
    decreases |h|
  {
    if h == [] || h[|h| - 1].Crash? || h[|h| - 1] == Call(id, Began) then false
    else h[|h| - 1] == Call(id, GetCalled) || HasFetched(h[..|h| - 1], id)
  }

  /** The failures since the last give-up attempt or crash that the Processor no longer counts: those before a refusal
      that ended a call which fetched. A refusal of a cached email clears nothing. */
  function Spent(h: seq<Mark>, id: Id): nat
    decreases |h|
  {
    if h == [] || h[|h| - 1].Crash? || h[|h| - 1] == Call(id, GaveUp) then 0
    else
      var before := h[..|h| - 1];
      if h[|h| - 1] == Call(id, Refused) && HasFetched(before, id) then FailuresSince(before, id) else Spent(before, id)
  }

  /** "ack failing" notifications attempted for the item by the present worker process. */
  function AckAlerts(h: seq<Mark>, id: Id): nat
    decreases |h|
  {
    if h == [] || h[|h| - 1].Crash? then 0
    else AckAlerts(h[..|h| - 1], id) + (if h[|h| - 1] == Call(id, AckAlerted) then 1 else 0)
  }

  /** What the present worker process wrote to the call log about the item. */
  function Records(h: seq<Mark>, id: Id): seq<(Entry, Option<string>)>
    decreases |h|
  {
    if h == [] || h[|h| - 1].Crash? then []
    else
      var m := h[|h| - 1];
      Records(h[..|h| - 1], id)
      + (if m.Call? && m.id == id && m.e.Recorded? then [(m.e.entry, m.e.noted)] else [])
  }

  // ---- the automata agree with the plain counts ----

  lemma {:induction false} PrefixOk(max: int, h: seq<Mark>, id: Id, i: nat)
    requires Observe(max, h, id).Ok() && i <= |h|
    ensures Observe(max, h[..i], id).Ok()
    decreases |h|
  {
    if i == |h| {
      assert h[..i] == h;
    } else {
      PrefixOk(max, h[..|h| - 1], id, i);
      assert h[..|h| - 1][..i] == h[..i];
    }
  }

  lemma ObserveNext(max: int, h: seq<Mark>, id: Id, i: nat)
    requires Observe(max, h, id).Ok() && i < |h|
    ensures Observe(max, h[..i], id).Ok() && Observe(max, h[..i + 1], id).Ok()
    ensures Observe(max, h[..i + 1], id) == See(max, Observe(max, h[..i], id), h[i], id)
  {
    PrefixOk(max, h, id, i);
    PrefixOk(max, h, id, i + 1);
    assert h[..i + 1] == h[..i] + [h[i]];
    ObserveLast(max, h[..i], h[i], id);
  }

  lemma TotalNext(m: Mail, k: Mark, id: Id)
    requires m.Mail? && k.Call? && k.id == id && MailStep(m, Did(k.e)).Mail?
    ensures var after := MailStep(m, Did(k.e)); var more := if IsAccepted(k, id) then 1 else 0;
      after.total == m.total + more && after.now == m.now + more
  {
  }

  lemma {:induction false} MailTotals(max: int, h: seq<Mark>, id: Id)
    requires Observe(max, h, id).Ok()
    ensures var m := Observe(max, h, id).mail; m.total == Deliveries(h, id) && m.now == DeliveriesNow(h, id)
    decreases |h|
  {
    if h != [] {
      var m := h[|h| - 1];
      PrefixOk(max, h, id, |h| - 1);
      MailTotals(max, h[..|h| - 1], id);
      if m.Call? && m.id == id {
        TotalNext(Observe(max, h[..|h| - 1], id).mail, m, id);
      }
    }
  }

  lemma {:induction false} MailFile(max: int, h: seq<Mark>, id: Id)
    requires Observe(max, h, id).Ok()
    ensures Observe(max, h, id).mail.json == InReady(h, id)
    decreases |h|
  {
    if h != [] {
      PrefixOk(max, h, id, |h| - 1);
      MailFile(max, h[..|h| - 1], id);
    }
  }

  lemma {:induction false} MailHits(max: int, h: seq<Mark>, id: Id)
    requires Observe(max, h, id).Ok()
    ensures Observe(max, h, id).mail.hits == UnackedCrashes(h, id)
    decreases |h|
  {
    if h != [] {
      var before := h[..|h| - 1];
      PrefixOk(max, h, id, |h| - 1);
      MailHits(max, before, id);
      MailTotals(max, before, id);
      MailFile(max, before, id);
    }
  }

  lemma MailCounts(max: int, h: seq<Mark>, id: Id)
    requires Observe(max, h, id).Ok()
    ensures var m := Observe(max, h, id).mail;
      && m.total == Deliveries(h, id) && m.now == DeliveriesNow(h, id)
      && m.json == InReady(h, id) && m.hits == UnackedCrashes(h, id)
  {
    MailTotals(max, h, id);
    MailFile(max, h, id);
    MailHits(max, h, id);
  }

  lemma CountNext(max: int, k: Strikes, m: Mark, id: Id)
    requires k.Strikes? && m.Call? && m.id == id && StrikesStep(max, k, Did(m.e)).Strikes?
    ensures var next := StrikesStep(max, k, Did(m.e));
      && next.count == (if m == Call(id, GaveUp) then 0 else k.count + (if IsCount(m, id) then 1 else 0))
      && next.fetched == (m != Call(id, Began) && (m == Call(id, GetCalled) || k.fetched))
      && next.spent == (if m == Call(id, GaveUp) then 0
                        else if m == Call(id, Refused) && k.fetched then k.count else k.spent)
  {
  }

  lemma {:induction false} StrikesCount(max: int, h: seq<Mark>, id: Id)
    requires Observe(max, h, id).Ok()
    ensures var k := Observe(max, h, id).strikes;
      k.count == FailuresSince(h, id) && k.fetched == HasFetched(h, id) && k.spent == Spent(h, id)
    decreases |h|
  {
    if h != [] {
      var m := h[|h| - 1];
      PrefixOk(max, h, id, |h| - 1);
      StrikesCount(max, h[..|h| - 1], id);
      if m.Call? && m.id == id {
        CountNext(max, Observe(max, h[..|h| - 1], id).strikes, m, id);
      }
    }
  }

  lemma {:induction false} AlarmCounts(max: int, h: seq<Mark>, id: Id)
    requires Observe(max, h, id).Ok()
    ensures Observe(max, h, id).alarm.raised == AckAlerts(h, id)
    decreases |h|
  {
    if h != [] {
      PrefixOk(max, h, id, |h| - 1);
      AlarmCounts(max, h[..|h| - 1], id);
    }
  }

  /** The call log the automaton has read. */
  function Written(b: Book): seq<(Entry, Option<string>)> {
    if b.BookBad? then []
    else
      (if b.failed then [(SendFailed, None)] else [])
      + (if b.delivered && b.accepted.Some? then [(Sent(b.accepted.value.0), Some(b.accepted.value.1))] else [])
      + (if b.acked && b.accepted.Some? then [(AckedAfterRetry, Some(b.accepted.value.1))] else [])
  }

  lemma {:induction false} BookShape(max: int, h: seq<Mark>, id: Id)
    requires Observe(max, h, id).Ok()
    ensures var b := Observe(max, h, id).book;
      (b.acked ==> b.delivered) && (b.delivered ==> b.accepted.Some?)
      && (Observe(max, h, id).mail.now == 0 <==> b.accepted.None?)
    decreases |h|
  {
    if h != [] {
      PrefixOk(max, h, id, |h| - 1);
      BookShape(max, h[..|h| - 1], id);
    }
  }

  /** The automaton reads what is written, one event at a time. */
  lemma WrittenNext(b: Book, e: Effect)
    requires !BookStep(b, Did(e)).BookBad? && (b.acked ==> b.delivered) && (b.delivered ==> b.accepted.Some?)
    requires e.Accepted? ==> b.accepted.None?
    ensures Written(BookStep(b, Did(e))) == Written(b) + (if e.Recorded? then [(e.entry, e.noted)] else [])
  {
  }

  lemma {:induction false} BookWrites(max: int, h: seq<Mark>, id: Id)
    requires Observe(max, h, id).Ok()
    ensures Records(h, id) == Written(Observe(max, h, id).book)
    decreases |h|
  {
    if h != [] {
      var before := h[..|h| - 1];
      var m := h[|h| - 1];
      PrefixOk(max, h, id, |h| - 1);
      BookWrites(max, before, id);
      if m.Call? && m.id == id {
        BookShape(max, before, id);
        WrittenNext(Observe(max, before, id).book, m.e);
      }
    }
  }

  lemma {:induction false} CrashFree(max: int, h: seq<Mark>, id: Id)
    requires Observe(max, h, id).Ok() && Crash !in h
    ensures !Observe(max, h, id).shelf.crashed && UnackedCrashes(h, id) == 0
    ensures DeliveriesNow(h, id) == Deliveries(h, id)
    decreases |h|
  {
    if h != [] {
      PrefixOk(max, h, id, |h| - 1);
      CrashFree(max, h[..|h| - 1], id);
      assert h[|h| - 1] in h;
    }
  }

  lemma RemovalAfterDelivery(max: int, h: seq<Mark>, id: Id, i: nat)
    requires Observe(max, h, id).Ok() && i < |h| && IsRemoval(h[i], id)
    ensures DeliveriesNow(h[..i], id) == 1 && Observe(max, h[..i], id).Ok()
  {
    ObserveNext(max, h, id, i);
    MailCounts(max, h[..i], id);
  }

  lemma PublishedOnce(max: int, h: seq<Mark>, id: Id)
    requires Observe(max, h, id).Ok()
    ensures (exists m | m in h :: IsPublication(m, id)) ==> Observe(max, h, id).mail.posted
  {
  }

  // ---- the theorems ----

  /** At most once: while the worker is not restarted each item has at most one accepted email, and had exactly one
      before ack was called for it and before either of its files was removed. */
  lemma AtMostOnce(cfg: Settings, moves: seq<Move>, id: Id)
    requires cfg.Valid() && After(cfg, moves).Some? && Crash !in After(cfg, moves).value.history
    ensures var h := After(cfg, moves).value.history;
      && Deliveries(h, id) <= 1
      && forall i | 0 <= i < |h| && IsRemoval(h[i], id) :: Deliveries(h[..i], id) == 1
  {
    var max := cfg.maxFailures;
    var s := After(cfg, moves).value;
    var h := s.history;
    Observed(cfg, moves, id);
    MailCounts(max, h, id);
    CrashFree(max, h, id);
    forall i | 0 <= i < |h| && IsRemoval(h[i], id) ensures Deliveries(h[..i], id) == 1 {
      RemovalAfterDelivery(max, h, id, i);
      CrashFree(max, h[..i], id);
    }
  }

  /** No loss: with crashes anywhere, an item leaves ready/ only after an email for it was accepted by the very process
      that removes it, and an extra email costs a crash that found the item delivered but not yet acked. */
  lemma NoLoss(cfg: Settings, moves: seq<Move>, id: Id)
    requires cfg.Valid() && After(cfg, moves).Some?
    ensures var s := After(cfg, moves).value; var h := s.history;
      && Deliveries(h, id) <= 1 + UnackedCrashes(h, id)
      && ((exists m | m in h :: IsPublication(m, id)) ==> id in s.jsons || Deliveries(h, id) >= 1)
      && (forall i | 0 <= i < |h| && IsRemoval(h[i], id) :: DeliveriesNow(h[..i], id) == 1)
      && (id in s.jsons <==> InReady(h, id))
  {
    var max := cfg.maxFailures;
    var s := After(cfg, moves).value;
    var h := s.history;
    Observed(cfg, moves, id);
    MailCounts(max, h, id);
    PublishedOnce(max, h, id);
    forall i | 0 <= i < |h| && IsRemoval(h[i], id) ensures DeliveriesNow(h[..i], id) == 1 {
      RemovalAfterDelivery(max, h, id, i);
    }
  }

  lemma {:induction false} PublicationStays(max: int, h: seq<Mark>, id: Id, i: nat)
    requires Observe(max, h, id).Ok() && i < |h| && IsPublication(h[i], id)
    ensures Observe(max, h, id).mail.posted
    decreases |h|
  {
    PrefixOk(max, h, id, |h| - 1);
    if i < |h| - 1 {
      PublicationStays(max, h[..|h| - 1], id, i);
    }
  }

  lemma NotYetPublished(max: int, h: seq<Mark>, id: Id)
    requires Observe(max, h, id).Ok() && !Observe(max, h, id).mail.posted
    ensures !exists m | m in h :: IsPublication(m, id)
  {
    forall i | 0 <= i < |h| ensures !IsPublication(h[i], id) {
      if IsPublication(h[i], id) {
        PublicationStays(max, h, id, i);
      }
    }
  }

  /** Publish and consume: a fetch sees the published metadata, and it returns a WAV exactly when the metadata says so and
      the worker has not removed it, which without a crash means exactly when the metadata says so. Where it misses one an
      email for the item had been accepted. The worker leaves no WAV in ready/ without its JSON: a lone WAV belongs to a
      producer that has not published its JSON yet. */
  lemma FetchesWhatWasPublished(cfg: Settings, moves: seq<Move>, id: Id)
    requires cfg.Valid() && After(cfg, moves).Some?
    ensures var s := After(cfg, moves).value; var h := s.history;
      && (id in s.wavs && id !in s.jsons ==> id in s.moved && !exists m | m in h :: IsPublication(m, id))
      && forall i, meta, audio | 0 <= i < |h| && h[i] == Call(id, Fetched(meta, audio)) ::
           && Posted(id, meta) in h[..i]
           && (audio.Some? <==> meta.hasAudio == Some(true) && Call(id, WavRemoved) !in h[..i])
           && (Crash !in h[..i] ==> (audio.Some? <==> meta.hasAudio == Some(true)))
           && (audio.None? && meta.hasAudio == Some(true) ==> Deliveries(h[..i], id) >= 1)
  {
    var max := cfg.maxFailures;
    var s := After(cfg, moves).value;
    var h := s.history;
    Observed(cfg, moves, id);
    if id in s.wavs && id !in s.jsons {
      NotYetPublished(max, h, id);
    }
    forall i, meta, audio | 0 <= i < |h| && h[i] == Call(id, Fetched(meta, audio))
      ensures Posted(id, meta) in h[..i]
      ensures audio.Some? <==> meta.hasAudio == Some(true) && Call(id, WavRemoved) !in h[..i]
      ensures Crash !in h[..i] ==> (audio.Some? <==> meta.hasAudio == Some(true))
      ensures audio.None? && meta.hasAudio == Some(true) ==> Deliveries(h[..i], id) >= 1
    {
      OneFetch(max, h, id, i, meta, audio);
    }
  }

  lemma OneFetch(max: int, h: seq<Mark>, id: Id, i: nat, meta: Meta, audio: Option<Bytes>)
    requires Observe(max, h, id).Ok() && i < |h| && h[i] == Call(id, Fetched(meta, audio))
    ensures Posted(id, meta) in h[..i]
    ensures audio.Some? <==> meta.hasAudio == Some(true) && Call(id, WavRemoved) !in h[..i]
    ensures Crash !in h[..i] ==> (audio.Some? <==> meta.hasAudio == Some(true))
    ensures audio.None? && meta.hasAudio == Some(true) ==> Deliveries(h[..i], id) >= 1
  {
    ObserveNext(max, h, id, i);
    var f := Observe(max, h[..i], id).shelf;
    assert f.json == Some(meta) && (f.cut ==> f.crashed) && audio.Some? == (meta.hasAudio == Some(true) && !f.cut);
    ShelfCut(max, h[..i], id);
    ShelfJson(max, h[..i], id);
    CutAfterDelivery(max, h[..i], id);
    MailTotals(max, h[..i], id);
    if Crash !in h[..i] {
      CrashFree(max, h[..i], id);
    }
  }

  lemma {:induction false} ShelfCut(max: int, h: seq<Mark>, id: Id)
    requires Observe(max, h, id).Ok()
    ensures Observe(max, h, id).shelf.cut <==> Call(id, WavRemoved) in h
    decreases |h|
  {
    if h != [] {
      var before := h[..|h| - 1];
      PrefixOk(max, h, id, |h| - 1);
      ShelfCut(max, before, id);
      assert h == before + [h[|h| - 1]];
    }
  }

  lemma JsonNext(max: int, w: Watch, m: Mark, id: Id)
    requires w.Ok() && See(max, w, m, id).Ok()
    ensures var json := See(max, w, m, id).shelf.json; json.None? || json == w.shelf.json || m == Posted(id, json.value)
  {
  }

  lemma {:induction false} ShelfJson(max: int, h: seq<Mark>, id: Id)
    requires Observe(max, h, id).Ok()
    ensures var json := Observe(max, h, id).shelf.json; json.Some? ==> Posted(id, json.value) in h
    decreases |h|
  {
    if h != [] {
      var before := h[..|h| - 1];
      PrefixOk(max, h, id, |h| - 1);
      ShelfJson(max, before, id);
      JsonNext(max, Observe(max, before, id), h[|h| - 1], id);
      assert h == before + [h[|h| - 1]];
    }
  }

  lemma CutNext(max: int, w: Watch, m: Mark, id: Id)
    requires w.Ok() && w.mail.now <= w.mail.total && (w.shelf.cut ==> w.mail.total >= 1) && See(max, w, m, id).Ok()
    ensures var next := See(max, w, m, id); next.mail.now <= next.mail.total && (next.shelf.cut ==> next.mail.total >= 1)
  {
  }

  lemma {:induction false} CutAfterDelivery(max: int, h: seq<Mark>, id: Id)
    requires Observe(max, h, id).Ok()
    ensures var w := Observe(max, h, id); w.mail.now <= w.mail.total && (w.shelf.cut ==> w.mail.total >= 1)
    decreases |h|
  {
    if h != [] {
      PrefixOk(max, h, id, |h| - 1);
      CutAfterDelivery(max, h[..|h| - 1], id);
      CutNext(max, Observe(max, h[..|h| - 1], id), h[|h| - 1], id);
    }
  }

  predicate LogShape(r: seq<(Entry, Option<string>)>, failed: bool, outcome: Outcome, mid: string, n: nat) {
    n <= 2 &&
    r == (if failed then [(SendFailed, None)] else [])
         + [(Sent(outcome), Some(mid)), (AckedAfterRetry, Some(mid))][..n]
  }

  /** The call log of one worker process about one item: optionally send-failed, then at most one email outcome, then
      optionally acked-after-retry, and the last two carry the same message id. Between two calls of `process` an outcome
      is there if and only if this process delivered the item. */
  lemma CallLogShape(cfg: Settings, moves: seq<Move>, id: Id)
    requires cfg.Valid() && After(cfg, moves).Some?
    ensures var s := After(cfg, moves).value; var h := s.history;
      exists failed, outcome, mid, n ::
        && LogShape(Records(h, id), failed, outcome, mid, n)
        && (!(s.mode.Working? && s.mode.id == id) ==> (n >= 1 <==> DeliveriesNow(h, id) == 1))
  {
    var s := After(cfg, moves).value;
    var h := s.history;
    RunKeeps(cfg, moves);
    assert Good(cfg, s, id);
    MailTotals(cfg.maxFailures, h, id);
    BookShape(cfg.maxFailures, h, id);
    BookWrites(cfg.maxFailures, h, id);
    var b := Observe(cfg.maxFailures, h, id).book;
    var pair := b.accepted.GetOr((Message, ""));
    var both := [(Sent(pair.0), Some(pair.1)), (AckedAfterRetry, Some(pair.1))];
    var n := if b.acked then 2 else if b.delivered then 1 else 0;
    assert both[..0] == [] && both[..1] == [both[0]] && both[..2] == [both[0]] + [both[1]];
    assert LogShape(Records(h, id), b.failed, pair.0, pair.1, n);
  }

  /** No crash and no give-up of the item between two points of the history. */
  predicate Steady(h: seq<Mark>, id: Id, lo: nat, hi: nat)
    requires lo <= hi <= |h|
  {
    forall k | lo <= k < hi :: !h[k].Crash? && h[k] != Call(id, GaveUp)
  }

  /** The email `p` stays the cached one, or was delivered; `early` says it may have been cached by the call that runs. */
  predicate Holds(c: Cache, p: Pending, early: bool) {
    c.Finished? || (c.Cached? && c.p == p && (c.early ==> early))
  }

  lemma HoldsNext(max: int, w: Watch, m: Mark, id: Id, p: Pending, early: bool)
    requires Holds(w.cache, p, early) && !m.Crash? && m != Call(id, GaveUp) && See(max, w, m, id).Ok()
    ensures Holds(See(max, w, m, id).cache, p, early)
    ensures m == Call(id, Began) ==> Holds(See(max, w, m, id).cache, p, false)
  {
  }

  lemma {:induction false} CacheHolds(max: int, h: seq<Mark>, id: Id, lo: nat, hi: nat, p: Pending, early: bool)
    requires Observe(max, h, id).Ok() && lo <= hi <= |h| && Steady(h, id, lo, hi)
    requires Holds(Observe(max, h[..lo], id).cache, p, early)
    ensures Holds(Observe(max, h[..hi], id).cache, p, early)
    decreases hi
  {
    if lo < hi {
      CacheHolds(max, h, id, lo, hi - 1, p, early);
      ObserveNext(max, h, id, hi - 1);
      HoldsNext(max, Observe(max, h[..hi - 1], id), h[hi - 1], id, p, early);
    }
  }

  lemma CacheStays(max: int, h: seq<Mark>, id: Id, i: nat, j: nat)
    requires Observe(max, h, id).Ok() && i < j <= |h| && IsSend(h[i], id) && Steady(h, id, i, j)
    ensures Holds(Observe(max, h[..j], id).cache, h[i].e.p, true)
  {
    ObserveNext(max, h, id, i);
    CacheHolds(max, h, id, i + 1, j, h[i].e.p, true);
  }

  /** Cached resend: after a send of an item, until a give-up or a crash, nothing is fetched, transcribed or summarised
      for it again and every further send is the same email to the same mailbox with the same attachments. */
  lemma ResendsTheCachedEmail(cfg: Settings, moves: seq<Move>, id: Id, i: nat, j: nat)
    requires cfg.Valid() && After(cfg, moves).Some?
    requires i < j < |After(cfg, moves).value.history|
    requires var h := After(cfg, moves).value.history; IsSend(h[i], id) && Steady(h, id, i, j)
    ensures var h := After(cfg, moves).value.history;
      && !IsLookup(h[j], id)
      && (IsSend(h[j], id) ==> h[j].e.p == h[i].e.p)
  {
    Observed(cfg, moves, id);
    CacheStays(cfg.maxFailures, After(cfg, moves).value.history, id, i, j);
    ObserveNext(cfg.maxFailures, After(cfg, moves).value.history, id, j);
  }

  /** After giving up on a cached email: nothing cached yet, or an email with the same attachments. */
  predicate HasAttachments(c: Cache, atts: seq<Attachment>) {
    c.Finished? || c == Dropped(Some(atts)) || (c.Cached? && c.p.attachments == atts)
  }

  lemma HasAttachmentsNext(max: int, w: Watch, m: Mark, id: Id, atts: seq<Attachment>)
    requires HasAttachments(w.cache, atts) && !m.Crash? && m != Call(id, GaveUp) && m != Call(id, Began)
    requires See(max, w, m, id).Ok()
    ensures HasAttachments(See(max, w, m, id).cache, atts)
  {
  }

  lemma {:induction false} AttachmentsStay(max: int, h: seq<Mark>, id: Id, g: nat, j: nat, atts: seq<Attachment>)
    requires Observe(max, h, id).Ok() && g < j <= |h| && Steady(h, id, g + 1, j)
    requires forall k | g < k < j :: h[k] != Call(id, Began)
    requires HasAttachments(Observe(max, h[..g + 1], id).cache, atts)
    ensures HasAttachments(Observe(max, h[..j], id).cache, atts)
    decreases j
  {
    if g + 1 < j {
      AttachmentsStay(max, h, id, g, j - 1, atts);
      ObserveNext(max, h, id, j - 1);
      HasAttachmentsNext(max, Observe(max, h[..j - 1], id), h[j - 1], id, atts);
    }
  }

  /** A give-up on an email that an earlier call of `process` cached sends a fallback with the same attachments. */
  lemma FallbackKeepsAttachments(cfg: Settings, moves: seq<Move>, id: Id, i: nat, b: nat, g: nat, j: nat)
    requires cfg.Valid() && After(cfg, moves).Some?
    requires i < b < g < j < |After(cfg, moves).value.history|
    requires var h := After(cfg, moves).value.history;
      && IsSend(h[i], id) && h[b] == Call(id, Began) && h[g] == Call(id, GaveUp) && IsSend(h[j], id)
      && Steady(h, id, i, g) && Steady(h, id, g + 1, j)
      && forall k | g < k < j :: h[k] != Call(id, Began)
    ensures var h := After(cfg, moves).value.history; h[j].e.p.attachments == h[i].e.p.attachments
  {
    var h := After(cfg, moves).value.history;
    Observed(cfg, moves, id);
    CachedBefore(cfg.maxFailures, h, id, i, b, g);
    AttachmentsKept(cfg.maxFailures, h, id, g, j, h[i].e.p);
  }

  /** An email sent before a call of `process` began is an old one when that call gives up. */
  lemma CachedBefore(max: int, h: seq<Mark>, id: Id, i: nat, b: nat, g: nat)
    requires Observe(max, h, id).Ok() && i < b < g <= |h| && IsSend(h[i], id) && h[b] == Call(id, Began)
    requires Steady(h, id, i, g)
    ensures Holds(Observe(max, h[..g], id).cache, h[i].e.p, false)
  {
    var p := h[i].e.p;
    CacheStays(max, h, id, i, b);
    ObserveNext(max, h, id, b);
    HoldsNext(max, Observe(max, h[..b], id), h[b], id, p, true);
    CacheHolds(max, h, id, b + 1, g, p, false);
  }

  lemma AttachmentsKept(max: int, h: seq<Mark>, id: Id, g: nat, j: nat, p: Pending)
    requires Observe(max, h, id).Ok() && g < j < |h| && Holds(Observe(max, h[..g], id).cache, p, false)
    requires h[g] == Call(id, GaveUp) && IsSend(h[j], id) && Steady(h, id, g + 1, j)
    requires forall k | g < k < j :: h[k] != Call(id, Began)
    ensures h[j].e.p.attachments == p.attachments
  {
    ObserveNext(max, h, id, g);
    AttachmentsStay(max, h, id, g, j, p.attachments);
    ObserveNext(max, h, id, j);
  }

  /** Escalation: every counted failure is numbered by the failures since the last give-up or crash, less the spent ones.
      Of a waiting item at most max_failures - 1 failures are counted and not spent, and what is remembered for an
      undelivered one is exactly their number. At most max_failures - 1 are ever spent, so however spool, send and other
      errors interleave at most 2 * (max_failures - 1) are counted without a give-up. */
  lemma EscalationBound(cfg: Settings, moves: seq<Move>, id: Id)
    requires cfg.Valid() && After(cfg, moves).Some?
    ensures var s := After(cfg, moves).value; var h := s.history; var max := cfg.maxFailures;
      && Spent(h, id) <= max - 1
      && (!(s.mode.Working? && s.mode.id == id) ==> FailuresSince(h, id) <= max - 1 + Spent(h, id))
      && (!(s.mode.Working? && s.mode.id == id) && id in s.jsons && DeliveriesNow(h, id) == 0 ==>
            SlotIn(s.slots, id).failures + Spent(h, id) == FailuresSince(h, id))
      && (forall i, n: nat | 0 <= i < |h| && h[i] == Call(id, FailureCounted(n)) ::
            n <= max && n + Spent(h[..i + 1], id) == FailuresSince(h[..i + 1], id))
  {
    var max := cfg.maxFailures;
    var s := After(cfg, moves).value;
    var h := s.history;
    RunKeeps(cfg, moves);
    assert Good(cfg, s, id);
    WaitingCount(cfg, s, id);
    forall i, n: nat | 0 <= i < |h| && h[i] == Call(id, FailureCounted(n))
      ensures n <= max && n + Spent(h[..i + 1], id) == FailuresSince(h[..i + 1], id)
    {
      Numbered(max, h, id, i, n);
    }
  }

  lemma WaitingCount(cfg: Settings, s: System, id: Id)
    requires cfg.Valid() && Good(cfg, s, id)
    ensures var h := s.history; var max := cfg.maxFailures;
      && Observe(max, h, id).Ok() && Spent(h, id) <= max - 1
      && (!(s.mode.Working? && s.mode.id == id) ==> FailuresSince(h, id) <= max - 1 + Spent(h, id))
      && (!(s.mode.Working? && s.mode.id == id) && id in s.jsons && DeliveriesNow(h, id) == 0 ==>
            SlotIn(s.slots, id).failures + Spent(h, id) == FailuresSince(h, id))
  {
    StrikesCount(cfg.maxFailures, s.history, id);
    MailTotals(cfg.maxFailures, s.history, id);
  }

  lemma Numbered(max: int, h: seq<Mark>, id: Id, i: nat, n: nat)
    requires max >= 1 && Observe(max, h, id).Ok() && i < |h| && h[i] == Call(id, FailureCounted(n))
    ensures n <= max && n + Spent(h[..i + 1], id) == FailuresSince(h[..i + 1], id)
  {
    ObserveNext(max, h, id, i);
    StrikesCount(max, h[..i + 1], id);
  }

  /** What a Processor remembers between two calls of `process`: never both a delivery and a cached email of one item; for
      an item in ready/, a delivery exactly when this process made one; for an undelivered item a counter below the
      limit. */
  lemma RemembersDeliveries(cfg: Settings, moves: seq<Move>, id: Id)
    requires cfg.Valid() && After(cfg, moves).Some?
    requires var s := After(cfg, moves).value; !(s.mode.Working? && s.mode.id == id)
    ensures var s := After(cfg, moves).value; var slot := SlotIn(s.slots, id);
      && (slot.sent.Some? ==> slot.pending.None? && DeliveriesNow(s.history, id) == 1)
      && (id in s.jsons ==> (slot.sent.Some? <==> DeliveriesNow(s.history, id) == 1))
      && (slot.sent.None? ==> slot.failures < cfg.maxFailures)
  {
    var s := After(cfg, moves).value;
    RunKeeps(cfg, moves);
    assert Good(cfg, s, id);
    MailTotals(cfg.maxFailures, s.history, id);
  }

  /** Nothing about the item happens between two points of the history. */
  predicate Untouched(h: seq<Mark>, id: Id, lo: nat, hi: nat)
    requires lo <= hi <= |h|
  {
    forall k | lo <= k < hi :: !h[k].Crash? && h[k].id != id
  }

  /** The failure that reaches the limit is directly followed by a give-up, unless the worker dies first. */
  lemma LimitForcesGiveUp(cfg: Settings, moves: seq<Move>, id: Id, i: nat, j: nat)
    requires cfg.Valid() && After(cfg, moves).Some? && i < j < |After(cfg, moves).value.history|
    requires var h := After(cfg, moves).value.history;
      h[i] == Call(id, FailureCounted(cfg.maxFailures)) && Untouched(h, id, i + 1, j) && !h[j].Crash? && h[j].id == id
    ensures After(cfg, moves).value.history[j] == Call(id, GaveUp)
  {
    var h := After(cfg, moves).value.history;
    Observed(cfg, moves, id);
    NextIsGiveUp(cfg.maxFailures, h, id, i, j);
  }

  lemma NextIsGiveUp(max: nat, h: seq<Mark>, id: Id, i: nat, j: nat)
    requires Observe(max, h, id).Ok() && i < j < |h| && h[i] == Call(id, FailureCounted(max))
    requires Untouched(h, id, i + 1, j) && !h[j].Crash? && h[j].id == id
    ensures h[j] == Call(id, GaveUp)
  {
    ObserveNext(max, h, id, i);
    OthersDoNotMatter(max, h, id, i + 1, j);
    ObserveNext(max, h, id, j);
  }

  /** Every give-up directly follows the failure numbered max_failures, and comes after exactly as many failures as that
      and the spent ones: after exactly max_failures failures if and only if none were spent. */
  lemma GiveUpOnlyAtLimit(cfg: Settings, moves: seq<Move>, id: Id, j: nat) returns (i: nat)
    requires cfg.Valid() && After(cfg, moves).Some? && j < |After(cfg, moves).value.history|
    requires After(cfg, moves).value.history[j] == Call(id, GaveUp)
    ensures var h := After(cfg, moves).value.history; var max := cfg.maxFailures;
      && i < j && h[i] == Call(id, FailureCounted(max)) && Untouched(h, id, i + 1, j)
      && FailuresSince(h[..j], id) == max + Spent(h[..j], id)
      && (FailuresSince(h[..j], id) == max <==> Spent(h[..j], id) == 0)
  {
    var h := After(cfg, moves).value.history;
    Observed(cfg, moves, id);
    ObserveNext(cfg.maxFailures, h, id, j);
    StrikesCount(cfg.maxFailures, h[..j], id);
    DueIsAtLimit(cfg.maxFailures, h[..j], id);
    i := DueSince(cfg.maxFailures, h, id, j);
  }

  lemma {:induction false} DueIsAtLimit(max: int, h: seq<Mark>, id: Id)
    requires Observe(max, h, id).Ok()
    ensures var k := Observe(max, h, id).strikes; k.due ==> k.count == max + k.spent
    decreases |h|
  {
    if h != [] {
      var m := h[|h| - 1];
      PrefixOk(max, h, id, |h| - 1);
      DueIsAtLimit(max, h[..|h| - 1], id);
      if m.Call? && m.id == id {
        DueNext(max, Observe(max, h[..|h| - 1], id).strikes, m.e);
      }
    }
  }

  lemma DueNext(max: int, k: Strikes, e: Effect)
    requires k.Strikes? && StrikesStep(max, k, Did(e)).Strikes? && (k.due ==> k.count == max + k.spent)
    ensures var next := StrikesStep(max, k, Did(e)); next.due ==> next.count == max + next.spent
  {
  }

  lemma {:induction false} OthersDoNotMatter(max: int, h: seq<Mark>, id: Id, i: nat, j: nat)
    requires Observe(max, h, id).Ok() && i <= j <= |h| && Untouched(h, id, i, j)
    ensures Observe(max, h[..j], id) == Observe(max, h[..i], id)
    decreases j
  {
    if i < j {
      ObserveNext(max, h, id, j - 1);
      OthersDoNotMatter(max, h, id, i, j - 1);
    }
  }

  lemma DueComesFrom(max: nat, w: Watch, m: Mark, id: Id)
    requires w.Ok() && See(max, w, m, id).Ok() && See(max, w, m, id).strikes.due
    ensures m == Call(id, FailureCounted(max)) || (!m.Crash? && m.id != id && w.strikes.due)
  {
  }

  lemma {:induction false} DueSince(max: nat, h: seq<Mark>, id: Id, j: nat) returns (i: nat)
    requires Observe(max, h, id).Ok() && j <= |h|
    requires Observe(max, h[..j], id).Ok() && Observe(max, h[..j], id).strikes.due
    ensures i < j && h[i] == Call(id, FailureCounted(max)) && Untouched(h, id, i + 1, j)
    decreases j
  {
    assert j != 0;
    ObserveNext(max, h, id, j - 1);
    DueComesFrom(max, Observe(max, h[..j - 1], id), h[j - 1], id);
    if h[j - 1] == Call(id, FailureCounted(max)) {
      i := j - 1;
    } else {
      i := DueSince(max, h, id, j - 1);
    }
  }

  /** Ack failures: with max_failures of at least 2, one worker process attempts the "ack failing" notification at most
      once per item, however often its ack fails. */
  lemma AckAlertAtMostOnce(cfg: Settings, moves: seq<Move>, id: Id)
    requires cfg.Valid() && After(cfg, moves).Some? && cfg.maxFailures >= 2
    ensures AckAlerts(After(cfg, moves).value.history, id) <= 1
  {
    var h := After(cfg, moves).value.history;
    Observed(cfg, moves, id);
    AlarmCounts(cfg.maxFailures, h, id);
    AlarmBounded(cfg.maxFailures, h, id);
  }

  lemma {:induction false} AlarmBounded(max: int, h: seq<Mark>, id: Id)
    requires max >= 2 && Observe(max, h, id).Ok()
    ensures Observe(max, h, id).alarm.raised <= 1
    decreases |h|
  {
    if h != [] {
      PrefixOk(max, h, id, |h| - 1);
      AlarmBounded(max, h[..|h| - 1], id);
    }
  }

  /** After delivery, until a crash, an item is only ever acked: nothing is sent, fetched, counted or given up. */
  lemma {:induction false} OnlyAckedAfterDelivery(cfg: Settings, moves: seq<Move>, id: Id, i: nat, j: nat)
    requires cfg.Valid() && After(cfg, moves).Some? && i < j < |After(cfg, moves).value.history|
    requires var h := After(cfg, moves).value.history; IsAccepted(h[i], id) && forall k | i < k < j :: !h[k].Crash?
    ensures var h := After(cfg, moves).value.history;
      && !IsLookup(h[j], id) && !IsSend(h[j], id) && !IsAccepted(h[j], id) && !IsCount(h[j], id)
      && h[j] != Call(id, GaveUp)
  {
    var h := After(cfg, moves).value.history;
    Observed(cfg, moves, id);
    FinishedStays(cfg.maxFailures, h, id, i, j);
    ObserveNext(cfg.maxFailures, h, id, j);
  }

  lemma FinishedNext(max: int, w: Watch, m: Mark, id: Id)
    requires w.cache.Finished? && w.strikes.Strikes? && w.strikes.over && !w.strikes.due
    requires !m.Crash? && See(max, w, m, id).Ok()
    ensures var next := See(max, w, m, id);
      next.cache.Finished? && next.strikes.Strikes? && next.strikes.over && !next.strikes.due
  {
  }

  lemma {:induction false} FinishedStays(max: int, h: seq<Mark>, id: Id, i: nat, j: nat)
    requires Observe(max, h, id).Ok() && i < j <= |h| && IsAccepted(h[i], id)
    requires forall k | i < k < j :: !h[k].Crash?
    ensures var w := Observe(max, h[..j], id); w.cache.Finished? && w.strikes.Strikes? && w.strikes.over && !w.strikes.due
    decreases j
  {
    ObserveNext(max, h, id, j - 1);
    if i < j - 1 {
      FinishedStays(max, h, id, i, j - 1);
      FinishedNext(max, Observe(max, h[..j - 1], id), h[j - 1], id);
    }
  }
}
