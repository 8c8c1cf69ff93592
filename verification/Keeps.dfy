/**
  One call of `process` keeps every promise of Watch.dfy: from a slot that agrees with what was observed, the calls made
  lead to the slot that is left behind, whatever the oracle answers.
*/
module Keeps {
  import opened Common
  import opened Machine
  import opened Watch

  /** Facts that hold between any two events. */
  predicate Always(max: int, w: Watch) {
    && w.Ok()
    && var m := w.mail; var s := w.shelf;
    && m.now <= 1 && m.now <= m.total
    && m.total <= m.hits + 1 && (m.json ==> m.total <= m.hits + m.now)
    && (m.posted && !m.json ==> m.total >= 1) && (m.json ==> m.posted)
    && (!s.crashed ==> m.hits == 0 && m.now == m.total)
    && m.posted == s.posted && m.json == s.json.Some?
    && (s.wav && s.json.None? ==> !s.posted)
    && (s.json.Some? ==> s.wav == (s.json.value.hasAudio == Some(true) && !s.cut))
    && (s.cut ==> s.posted && m.total >= 1)
    && w.strikes.spent <= w.strikes.count <= max - 1 + w.strikes.spent + (if w.strikes.due then 1 else 0)
    && w.strikes.spent <= max - 1
  }

  /** What a slot says about an item whose JSON is in ready/. */
  predicate Tracks(max: int, s: Slot, w: Watch)
    requires w.Ok()
  {
    && (w.mail.now == 1 <==> s.sent.Some?)
    && (w.shelf.cut && !w.shelf.crashed ==> s.sent.Some?)
    && w.book.accepted.Some? == w.book.delivered == s.sent.Some?
    && (s.sent.None? ==> !w.book.acked && w.book.failed == s.sendFailedLogged
                         && (s.pending.Some? ==> w.cache.Cached? && w.cache.p == s.pending.value)
                         && (s.pending.None? ==> w.cache.Fresh? || w.cache.Dropped?)
                         && (s.pending.None? ==> w.strikes.spent == 0)
                         && w.strikes.count == s.failures + w.strikes.spent
                         && w.alarm.raised == 0 && !w.strikes.over)
  }

  /** A slot between two calls of `process`. */
  predicate Agrees(max: int, s: Slot, w: Watch) {
    && Always(max, w)
    && !w.strikes.due
    && w.book.delivered == (w.mail.now == 1)
    && (s.sent.None? ==> s.failures < max)
    && (s.sent.Some? ==>
          && s.pending.None? && !s.giveUpAlert
          && w.mail.now == 1 && w.cache.Finished? && w.strikes.over
          && w.book.delivered && !w.book.acked
          && w.book.accepted.Some? && w.book.accepted.value.1 == s.sent.value.mid
          && (max >= 2 ==> w.alarm.raised <= (if s.failures >= max then 1 else 0)))
    && (w.mail.json ==> Tracks(max, s, w))
  }

  /** A slot whose email `p` may be sent now. */
  predicate Sendable(max: int, s: Slot, p: Pending, w: Watch) {
    && Always(max, w)
    && !w.strikes.due && !w.strikes.over && s.failures < max
    && w.strikes.count == s.failures + w.strikes.spent && (w.strikes.fetched ==> w.strikes.spent == 0)
    && s.sent.None? && w.mail.json && w.mail.now == 0 && w.alarm.raised == 0
    && (w.shelf.cut ==> w.shelf.crashed)
    && w.book.accepted.None? && !w.book.delivered && !w.book.acked && w.book.failed == s.sendFailedLogged
    && (match w.cache
        case Fresh => true
        case Cached(q, _) => p == q
        case Dropped(kept) => kept == None || kept == Some(p.attachments)
        case _ => false)
  }

  lemma AckFailedKeeps(cfg: Settings, s: Slot, w: Watch)
    requires cfg.Valid() && Agrees(cfg.maxFailures, s, w) && s.sent.Some?
    ensures var out := AckFailed(cfg, s); var w' := Replay(cfg.maxFailures, w, out.calls);
      && Agrees(cfg.maxFailures, out.slot, w') && w'.mail.json == w.mail.json
      && (s.failures == 0 && w.alarm.raised == 0 ==> Agrees(cfg.maxFailures, s, w'))
  {
    AckFailedSeen(cfg, s, w);
  }

  /** A failed ack is seen only when it raises the alarm. */
  lemma AckFailedSeen(cfg: Settings, s: Slot, w: Watch)
    requires w.Ok() && !w.strikes.due && w.strikes.Strikes? && w.alarm.Alarm?
    ensures Replay(cfg.maxFailures, w, AckFailed(cfg, s).calls)
            == (if s.failures + 1 == cfg.maxFailures && cfg.alerter
                then w.(alarm := AlarmStep(cfg.maxFailures, w.alarm, Did(AckAlerted))) else w)
  {
    var max := cfg.maxFailures;
    var n := s.failures + 1;
    if n == max && cfg.alerter {
      assert [AckFailureCounted(n)] + [AckAlerted] == [AckFailureCounted(n), AckAlerted];
      Replay2(max, w, AckFailureCounted(n), AckAlerted);
    } else {
      assert [AckFailureCounted(n)] + [] == [AckFailureCounted(n)];
      Replay1(max, w, AckFailureCounted(n));
    }
  }

  /** The removals of an ack of a delivered item, one, both or none. */
  lemma RemovalsKeep(max: int, s: Slot, w: Watch, n: nat)
    requires n <= 2 && Agrees(max, s, w) && s.sent.Some? && w.mail.json
    ensures var w' := Replay(max, w, Removals(n));
      && Agrees(max, s, w') && w'.mail.json == (n < 2) && w'.alarm == w.alarm && w'.book == w.book
  {
    if n == 1 {
      assert Removals(1) == [WavRemoved];
      Replay1(max, w, WavRemoved);
    } else if n == 2 {
      assert Removals(2) == [WavRemoved, JsonRemoved];
      Replay2(max, w, WavRemoved, JsonRemoved);
    }
  }

  lemma AckKeeps(cfg: Settings, s: Slot, id: Id, retry: bool, a: AckAnswer, w: Watch)
    requires cfg.Valid() && a.Valid() && Agrees(cfg.maxFailures, s, w) && s.sent.Some? && w.mail.json
    ensures var out := Ack(cfg, s, id, retry, a); var w' := Replay(cfg.maxFailures, w, out.calls);
      && (out.verdict == Retry ==> Agrees(cfg.maxFailures, out.slot, w'))
      && (out.verdict == Acked || (s.failures == 0 && w.alarm.raised == 0)
          ==> Agrees(cfg.maxFailures, out.slot.(failures := 0), w'))
      && !out.verdict.Raised?
  {
    var max := cfg.maxFailures;
    var out := Ack(cfg, s, id, retry, a);
    var w1 := Step(max, w, Did(AckCalled));
    Replay1(max, w, AckCalled);
    match a {
      case AckRaises(n) =>
        var r := AckFailed(cfg, s);
        RemovalsKeep(max, s, w1, n);
        AckFailedKeeps(cfg, s, Replay(max, w1, Removals(n)));
        ReplayAppend(max, w, [AckCalled], Removals(n));
        ReplayAppend(max, w, [AckCalled] + Removals(n), r.calls);
      case Removes =>
        RemovalsKeep(max, s, w1, 2);
        ReplayAppend(max, w, [AckCalled], Removals(2));
        var note := Recorded(s.sent.value.meta, AckedAfterRetry, NO_PROVIDERS, Some(s.sent.value.mid));
        var tail := if retry then [note] else [];
        var w2 := Replay(max, w, [AckCalled] + Removals(2));
        ReplayAppend(max, w, [AckCalled] + Removals(2), tail);
        Replay1(max, w2, note);
    }
  }

  lemma AfterAcceptKeeps(cfg: Settings, s: Slot, id: Id, p: Pending, mid: string, a: AckAnswer, w: Watch)
    requires cfg.Valid() && a.Valid()
    requires Sendable(cfg.maxFailures, s, p, w) && w.cache.Cached?
    ensures var out := AfterAccept(cfg, s, id, p, mid, a); var w' := Replay(cfg.maxFailures, w, out.calls);
      && !out.verdict.Raised?
      && (out.verdict.Retry? ==> Agrees(cfg.maxFailures, out.slot, w'))
      && Agrees(cfg.maxFailures, out.slot.(failures := 0), w')
  {
    var max := cfg.maxFailures;
    var took := [Accepted(p, mid), Recorded(p.meta, Sent(p.outcome), p.providers, Some(mid))];
    var alerts := if s.giveUpAlert && cfg.alerter then [GiveUpAlerted] else [];
    var s1 := s.(pending := None, sent := Some(Delivered(p.meta, mid)), failures := 0, giveUpAlert := false);
    var w1 := Replay(max, w, took);
    TakenKeeps(cfg, s, p, mid, w);
    AlertIsQuiet(max, w1, alerts);
    ReplayAppend(max, w, took, alerts);
    AckKeeps(cfg, s1, id, false, a, w1);
    ReplayAppend(max, w, took + alerts, Ack(cfg, s1, id, false, a).calls);
  }

  lemma AlertIsQuiet(max: int, w: Watch, alerts: seq<Effect>)
    requires !w.strikes.StrikesBad? && !w.strikes.due && alerts in {[], [GiveUpAlerted]}
    ensures Replay(max, w, alerts) == w
  {
  }

  /** The two events of an acceptance: the email is taken, and written to the call log. */
  lemma TakenKeeps(cfg: Settings, s: Slot, p: Pending, mid: string, w: Watch)
    requires cfg.Valid() && Sendable(cfg.maxFailures, s, p, w) && w.cache.Cached?
    ensures var w' := Replay(cfg.maxFailures, w, [Accepted(p, mid),
                                                  Recorded(p.meta, Sent(p.outcome), p.providers, Some(mid))]);
      && w'.mail.Mail? && w'.mail.json && w'.alarm == w.alarm == Alarm(0)
      && Agrees(cfg.maxFailures,
                s.(pending := None, sent := Some(Delivered(p.meta, mid)), failures := 0, giveUpAlert := false), w')
  {
    Replay2(cfg.maxFailures, w, Accepted(p, mid), Recorded(p.meta, Sent(p.outcome), p.providers, Some(mid)));
  }

  lemma DeliverKeeps(cfg: Settings, s: Slot, id: Id, p: Pending, snd: SendAnswer, a: AckAnswer, w: Watch)
    requires cfg.Valid() && a.Valid()
    requires Sendable(cfg.maxFailures, s, p, w)
    ensures var out := Deliver(cfg, s, id, p, snd, a); var w' := Replay(cfg.maxFailures, w, out.calls);
      && (out.verdict.Raised? || (out.verdict.Retry? && (!w.strikes.fetched || s.failures == 0))
          ==> Agrees(cfg.maxFailures, out.slot, w'))
      && (out.verdict.Raised? ==> out.slot == s.(pending := Some(p)) && w'.mail.json
                                  && w'.cache == Cached(p, w.cache.Cached? ==> w.cache.early))
      && (out.verdict.Acked? || (out.verdict.Retry? && (w.strikes.fetched || s.failures == 0))
          ==> Agrees(cfg.maxFailures, out.slot.(failures := 0), w'))
  {
    var max := cfg.maxFailures;
    if snd.Accepts? {
      var w1 := Replay(max, w, [SendCalled(p)]);
      var cached := s.(pending := Some(p));
      Replay1(max, w, SendCalled(p));
      AfterAcceptKeeps(cfg, cached, id, p, snd.mid, a, w1);
      ReplayAppend(max, w, [SendCalled(p)], AfterAccept(cfg, cached, id, p, snd.mid, a).calls);
    } else {
      SendFailsKeeps(cfg, s, id, p, snd, a, w);
    }
  }

  lemma SendFailsKeeps(cfg: Settings, s: Slot, id: Id, p: Pending, snd: SendAnswer, a: AckAnswer, w: Watch)
    requires cfg.Valid() && a.Valid()
    requires Sendable(cfg.maxFailures, s, p, w) && !snd.Accepts?
    ensures var out := Deliver(cfg, s, id, p, snd, a); var w' := Replay(cfg.maxFailures, w, out.calls);
      && (out.verdict.Raised? || (out.verdict.Retry? && (!w.strikes.fetched || s.failures == 0))
          ==> Agrees(cfg.maxFailures, out.slot, w'))
      && (out.verdict.Raised? ==> out.slot == s.(pending := Some(p)) && w'.mail.json
                                  && w'.cache == Cached(p, w.cache.Cached? ==> w.cache.early))
      && (out.verdict.Acked? || (out.verdict.Retry? && (w.strikes.fetched || s.failures == 0))
          ==> Agrees(cfg.maxFailures, out.slot.(failures := 0), w'))
  {
    var max := cfg.maxFailures;
    if snd.SendRaises? {
      Replay1(max, w, SendCalled(p));
    } else {
      Replay2(max, w, SendCalled(p), Refused);
      Replay3(max, w, SendCalled(p), Refused, Recorded(p.meta, SendFailed, p.providers, None));
    }
  }

  /** What `_give_up` may assume: the cached email of an earlier call is the one whose attachments are kept. */
  predicate KeepsRight(kept: Option<seq<Attachment>>, c: Cache) {
    match c
    case Fresh => true
    case Cached(p, early) => if early then true else kept == Some(p.attachments)
    case _ => false
  }

  lemma GiveUpKeeps(cfg: Settings, s: Slot, id: Id, meta: Option<Meta>, kept: Option<seq<Attachment>>, o: Oracle,
                    w: Watch)
    requires cfg.Valid() && o.Valid() && Always(cfg.maxFailures, w) && w.mail.json && s.sent.None?
    requires w.strikes.due && Tracks(cfg.maxFailures, s.(failures := cfg.maxFailures), w) && KeepsRight(kept, w.cache)
    ensures var out := GiveUp(cfg, s, id, meta, kept, o); var w' := Replay(cfg.maxFailures, w, out.calls);
      && !out.verdict.Raised?
      && (out.verdict.Retry? ==> Agrees(cfg.maxFailures, out.slot, w'))
      && Agrees(cfg.maxFailures, out.slot.(failures := 0), w')
  {
    var atts := FallbackAttachments(id, kept, o);
    if atts.Some? && o.fallback.Rendered? {
      FallbackKeeps(cfg, s, id, kept, FallbackEmail(cfg, id, meta, o.fallback.email, atts.value), o.sendAgain, o.ack, w);
    } else {
      ResetKeeps(cfg, s, w);
    }
  }

  /** Sending the fallback after the reset. */
  lemma FallbackKeeps(cfg: Settings, s: Slot, id: Id, kept: Option<seq<Attachment>>, p: Pending, snd: SendAnswer,
                      a: AckAnswer, w: Watch)
    requires cfg.Valid() && a.Valid() && Always(cfg.maxFailures, w) && w.mail.json && s.sent.None?
    requires w.strikes.due && Tracks(cfg.maxFailures, s.(failures := cfg.maxFailures), w) && KeepsRight(kept, w.cache)
    requires kept.Some? ==> p.attachments == kept.value
    ensures var r := Deliver(cfg, s.(failures := 0, pending := None, giveUpAlert := true), id, p, snd, a);
      var w' := Replay(cfg.maxFailures, w, [GaveUp] + r.calls);
      && (!r.verdict.Acked? ==> Agrees(cfg.maxFailures, r.slot, w'))
      && Agrees(cfg.maxFailures, r.slot.(failures := 0), w')
  {
    var w1 := Replay(cfg.maxFailures, w, [GaveUp]);
    var s1 := s.(failures := 0, pending := None, giveUpAlert := true);
    ResetSendable(cfg, s, kept, p, w);
    DeliverKeeps(cfg, s1, id, p, snd, a, w1);
    ReplayAppend(cfg.maxFailures, w, [GaveUp], Deliver(cfg, s1, id, p, snd, a).calls);
  }

  /** Giving up starts by forgetting the counter and the cached email. */
  lemma ResetKeeps(cfg: Settings, s: Slot, w: Watch)
    requires cfg.Valid() && Always(cfg.maxFailures, w) && w.mail.json && s.sent.None?
    requires w.strikes.due && Tracks(cfg.maxFailures, s.(failures := cfg.maxFailures), w)
    requires w.cache.Fresh? || w.cache.Cached?
    ensures Agrees(cfg.maxFailures, s.(failures := 0, pending := None), Replay(cfg.maxFailures, w, [GaveUp]))
  {
  }

  /** Then a fallback may be sent. */
  lemma ResetSendable(cfg: Settings, s: Slot, kept: Option<seq<Attachment>>, p: Pending, w: Watch)
    requires cfg.Valid() && Always(cfg.maxFailures, w) && w.mail.json && s.sent.None?
    requires w.strikes.due && Tracks(cfg.maxFailures, s.(failures := cfg.maxFailures), w) && KeepsRight(kept, w.cache)
    requires kept.Some? ==> p.attachments == kept.value
    ensures var w' := Replay(cfg.maxFailures, w, [GaveUp]);
      && Sendable(cfg.maxFailures, s.(failures := 0, pending := None, giveUpAlert := true), p, w')
  {
  }

  lemma FailedKeeps(cfg: Settings, s: Slot, id: Id, meta: Option<Meta>, kept: Option<seq<Attachment>>, o: Oracle,
                    w: Watch)
    requires cfg.Valid() && o.Valid() && Agrees(cfg.maxFailures, s, w) && w.mail.json && s.sent.None?
    requires KeepsRight(kept, w.cache)
    ensures var out := Failed(cfg, s, id, meta, kept, o); var w' := Replay(cfg.maxFailures, w, out.calls);
      && !out.verdict.Raised?
      && (out.verdict.Retry? ==> Agrees(cfg.maxFailures, out.slot, w'))
      && (out.verdict.Acked? ==> Agrees(cfg.maxFailures, out.slot.(failures := 0), w'))
  {
    if s.failures + 1 < cfg.maxFailures {
      StrikeKeeps(cfg.maxFailures, s, w);
    } else {
      LastStrikeKeeps(cfg, s, id, meta, kept, o, w);
    }
  }

  lemma LastStrikeKeeps(cfg: Settings, s: Slot, id: Id, meta: Option<Meta>, kept: Option<seq<Attachment>>, o: Oracle,
                        w: Watch)
    requires cfg.Valid() && o.Valid() && Agrees(cfg.maxFailures, s, w) && w.mail.json && s.sent.None?
    requires KeepsRight(kept, w.cache) && s.failures + 1 >= cfg.maxFailures
    ensures var out := Failed(cfg, s, id, meta, kept, o); var w' := Replay(cfg.maxFailures, w, out.calls);
      && !out.verdict.Raised?
      && (out.verdict.Retry? ==> Agrees(cfg.maxFailures, out.slot, w'))
      && Agrees(cfg.maxFailures, out.slot.(failures := 0), w')
  {
    var counted := [FailureCounted(s.failures + 1)];
    StrikeKeeps(cfg.maxFailures, s, w);
    GiveUpKeeps(cfg, s, id, meta, kept, o, Replay(cfg.maxFailures, w, counted));
    ReplayAppend(cfg.maxFailures, w, counted, GiveUp(cfg, s, id, meta, kept, o).calls);
  }

  /** One more counted failure: below the limit nothing else changes, at the limit a give-up is due. */
  lemma StrikeKeeps(max: int, s: Slot, w: Watch)
    requires max >= 1 && Agrees(max, s, w) && w.mail.json && s.sent.None?
    ensures var n := s.failures + 1; var w' := Replay(max, w, [FailureCounted(n)]);
      && w'.cache == w.cache && w'.mail == w.mail && Always(max, w') && w'.strikes.due == (n >= max)
      && (n < max ==> Agrees(max, s.(failures := n), w'))
      && (n >= max ==> Tracks(max, s.(failures := max), w'))
  {
  }

  /** Composing an email only checks for speech and calls the two providers, and only for an item without a cached email. */
  lemma ComposeKeeps(cfg: Settings, id: Id, meta: Meta, wav: Option<Bytes>, o: Oracle, w: Watch)
    requires w.Ok() && w.cache.Fresh? && !w.strikes.due
    ensures Replay(cfg.maxFailures, w, Compose(cfg, id, meta, wav, o).calls) == w
  {
    var c := Compose(cfg, id, meta, wav, o);
    if |c.calls| == 1 {
      assert c.calls == [c.calls[0]];
      Replay1(cfg.maxFailures, w, c.calls[0]);
    } else if |c.calls| == 2 {
      assert c.calls == [c.calls[0], c.calls[1]];
      Replay2(cfg.maxFailures, w, c.calls[0], c.calls[1]);
    } else if |c.calls| == 3 {
      assert c.calls == [c.calls[0], c.calls[1], c.calls[2]];
      Replay3(cfg.maxFailures, w, c.calls[0], c.calls[1], c.calls[2]);
    }
  }

  lemma PipelineKeeps(cfg: Settings, s: Slot, id: Id, meta: Meta, wav: Option<Bytes>, o: Oracle, w: Watch)
    requires cfg.Valid() && o.Valid() && Agrees(cfg.maxFailures, s, w) && w.mail.json
    requires s.sent.None? && s.pending.None? && w.cache.Fresh? && w.strikes.fetched
    ensures var out := Pipeline(cfg, s, id, meta, wav, o); var w' := Replay(cfg.maxFailures, w, out.calls);
      && (!out.verdict.Raised? ==> Agrees(cfg.maxFailures, out.slot.(failures := 0), w'))
      && (out.verdict.Raised? ==> Agrees(cfg.maxFailures, out.slot, w') && out.slot.sent.None? && w'.mail.json
                                  && (w'.cache.Fresh? || (w'.cache.Cached? && w'.cache.early)))
  {
    var max := cfg.maxFailures;
    ComposeKeeps(cfg, id, meta, wav, o, w);
    var c := Compose(cfg, id, meta, wav, o);
    if c.Ready? {
      DeliverKeeps(cfg, s, id, c.p, o.send, o.ack, w);
      ReplayAppend(max, w, c.calls, Deliver(cfg, s, id, c.p, o.send, o.ack).calls);
    }
  }

  lemma RetrySavedKeeps(cfg: Settings, s: Slot, id: Id, o: Oracle, w: Watch)
    requires cfg.Valid() && o.Valid() && Agrees(cfg.maxFailures, s, w) && w.mail.json
    requires s.sent.Some? || s.pending.Some?
    ensures var out := Process(cfg, s, id, o); var w' := Replay(cfg.maxFailures, w, out.calls);
      && !out.verdict.Raised?
      && (out.verdict.Retry? ==> Agrees(cfg.maxFailures, out.slot, w'))
      && Agrees(cfg.maxFailures, if out.verdict.Acked? then out.slot.(failures := 0) else out.slot, w')
  {
    var max := cfg.maxFailures;
    var w1 := Replay(max, w, [Began]);
    Replay1(max, w, Began);
    if s.sent.Some? {
      AckKeeps(cfg, s, id, true, o.ack, w1);
      ReplayAppend(max, w, [Began], Ack(cfg, s, id, true, o.ack).calls);
    } else {
      ResendKeeps(cfg, s, id, o, w);
    }
  }

  /** A resend of the cached email. */
  lemma ResendKeeps(cfg: Settings, s: Slot, id: Id, o: Oracle, w: Watch)
    requires cfg.Valid() && o.Valid() && Agrees(cfg.maxFailures, s, w) && w.mail.json
    requires s.sent.None? && s.pending.Some?
    ensures var out := Process(cfg, s, id, o); var w' := Replay(cfg.maxFailures, w, out.calls);
      && !out.verdict.Raised?
      && (out.verdict.Retry? ==> Agrees(cfg.maxFailures, out.slot, w'))
      && Agrees(cfg.maxFailures, if out.verdict.Acked? then out.slot.(failures := 0) else out.slot, w')
  {
    var max := cfg.maxFailures;
    var w1 := Replay(max, w, [Began]);
    Replay1(max, w, Began);
    var p := s.pending.value;
    var r := Deliver(cfg, s, id, p, o.send, o.ack);
    DeliverKeeps(cfg, s, id, p, o.send, o.ack, w1);
    ReplayAppend(max, w, [Began], r.calls);
    if r.verdict.Raised? {
      var w2 := Replay(max, w1, r.calls);
      FailedKeeps(cfg, r.slot, id, Some(p.meta), Some(p.attachments), o, w2);
      ReplayAppend(max, w, [Began] + r.calls, Failed(cfg, r.slot, id, Some(p.meta), Some(p.attachments), o).calls);
    }
  }

  lemma ProcessFreshKeeps(cfg: Settings, s: Slot, id: Id, o: Oracle, w: Watch)
    requires cfg.Valid() && o.Valid() && Agrees(cfg.maxFailures, s, w) && w.mail.json
    requires s.sent.None? && s.pending.None?
    requires o.get.Got? ==> w.shelf.json == Some(o.get.meta) && o.get.wav.Some? == w.shelf.wav
    ensures var out := Process(cfg, s, id, o); var w' := Replay(cfg.maxFailures, w, out.calls);
      && !out.verdict.Raised?
      && (out.verdict.Retry? ==> Agrees(cfg.maxFailures, out.slot, w'))
      && (out.verdict.Acked? ==> Agrees(cfg.maxFailures, out.slot.(failures := 0), w'))
  {
    var max := cfg.maxFailures;
    var w0 := Replay(max, w, [Began, GetCalled]);
    Replay2(max, w, Began, GetCalled);
    match o.get {
      case GetSpoolError =>
      case GetRaises =>
        FailedKeeps(cfg, s, id, None, None, o, w0);
        ReplayAppend(max, w, [Began, GetCalled], Failed(cfg, s, id, None, None, o).calls);
      case Got(meta, wav) =>
        FetchedKeeps(cfg, s, id, meta, wav, o, w);
    }
  }

  lemma FetchedKeeps(cfg: Settings, s: Slot, id: Id, meta: Meta, wav: Option<Bytes>, o: Oracle, w: Watch)
    requires cfg.Valid() && o.Valid() && Agrees(cfg.maxFailures, s, w) && w.mail.json
    requires s.sent.None? && s.pending.None?
    requires o.get == Got(meta, wav) && w.shelf.json == Some(meta) && wav.Some? == w.shelf.wav
    ensures var out := Process(cfg, s, id, o); var w' := Replay(cfg.maxFailures, w, out.calls);
      && !out.verdict.Raised?
      && (out.verdict.Retry? ==> Agrees(cfg.maxFailures, out.slot, w'))
      && (out.verdict.Acked? ==> Agrees(cfg.maxFailures, out.slot.(failures := 0), w'))
  {
    var max := cfg.maxFailures;
    var head := [Began, GetCalled, Fetched(meta, wav)];
    Replay3(max, w, Began, GetCalled, Fetched(meta, wav));
    var w1 := Replay(max, w, head);
    PipelineKeeps(cfg, s, id, meta, wav, o, w1);
    var r := Pipeline(cfg, s, id, meta, wav, o);
    ReplayAppend(max, w, head, r.calls);
    if r.verdict.Raised? {
      FailedKeeps(cfg, r.slot, id, Some(meta), None, o, Replay(max, w1, r.calls));
      ReplayAppend(max, w, head + r.calls, Failed(cfg, r.slot, id, Some(meta), None, o).calls);
    }
  }

  // ---- the shape of a slot between calls ----

  predicate SlotOk(s: Slot) {
    s.sent.Some? ==> s.pending.None? && !s.giveUpAlert
  }

  lemma AckShape(cfg: Settings, s: Slot, id: Id, retry: bool, a: AckAnswer)
    requires a.Valid() && SlotOk(s) && s.sent.Some?
    ensures var out := Ack(cfg, s, id, retry, a);
      && !out.verdict.Raised? && SlotOk(out.slot)
      && (out.verdict.Acked? ==> out.slot == EMPTY.(failures := s.failures))
  {
  }

  lemma DeliverShape(cfg: Settings, s: Slot, id: Id, p: Pending, snd: SendAnswer, a: AckAnswer)
    requires a.Valid() && s.sent.None?
    ensures var out := Deliver(cfg, s, id, p, snd, a);
      && SlotOk(out.slot) && (out.verdict.Acked? ==> out.slot == EMPTY) && (out.verdict.Raised? ==> out.slot.sent.None?)
  {
  }

  lemma FailedShape(cfg: Settings, s: Slot, id: Id, meta: Option<Meta>, kept: Option<seq<Attachment>>, o: Oracle)
    requires cfg.Valid() && o.Valid() && s.sent.None?
    ensures var out := Failed(cfg, s, id, meta, kept, o);
      !out.verdict.Raised? && SlotOk(out.slot) && (out.verdict.Acked? ==> out.slot == EMPTY)
  {
    GiveUpShape(cfg, s, id, meta, kept, o);
  }

  lemma GiveUpShape(cfg: Settings, s: Slot, id: Id, meta: Option<Meta>, kept: Option<seq<Attachment>>, o: Oracle)
    requires cfg.Valid() && o.Valid() && s.sent.None?
    ensures var out := GiveUp(cfg, s, id, meta, kept, o);
      !out.verdict.Raised? && SlotOk(out.slot) && (out.verdict.Acked? ==> out.slot == EMPTY)
  {
    var atts := FallbackAttachments(id, kept, o);
    if atts.Some? && o.fallback.Rendered? {
      var p := FallbackEmail(cfg, id, meta, o.fallback.email, atts.value);
      DeliverShape(cfg, s.(failures := 0, pending := None, giveUpAlert := true), id, p, o.sendAgain, o.ack);
    }
  }

  /** `process` never raises, and an item returned as "acked" is forgotten: it is in none of the five collections. */
  lemma ProcessShape(cfg: Settings, s: Slot, id: Id, o: Oracle)
    requires cfg.Valid() && o.Valid() && SlotOk(s)
    ensures var out := Process(cfg, s, id, o);
      !out.verdict.Raised? && SlotOk(out.slot) && (out.verdict.Acked? ==> out.slot == EMPTY)
  {
    if s.sent.Some? {
      AckShape(cfg, s, id, true, o.ack);
    } else if s.pending.Some? {
      ResendShape(cfg, s, id, o);
    } else {
      FreshShape(cfg, s, id, o);
    }
  }

  lemma ResendShape(cfg: Settings, s: Slot, id: Id, o: Oracle)
    requires cfg.Valid() && o.Valid() && s.sent.None? && s.pending.Some?
    ensures var out := Process(cfg, s, id, o);
      !out.verdict.Raised? && SlotOk(out.slot) && (out.verdict.Acked? ==> out.slot == EMPTY)
  {
    var p := s.pending.value;
    DeliverShape(cfg, s, id, p, o.send, o.ack);
    var r := Deliver(cfg, s, id, p, o.send, o.ack);
    assert r.slot.pending.Some? ==> r.slot.pending.value == p;
    if r.verdict.Raised? {
      FailedShape(cfg, r.slot, id, Some(p.meta), Some(p.attachments), o);
    }
  }

  lemma FreshShape(cfg: Settings, s: Slot, id: Id, o: Oracle)
    requires cfg.Valid() && o.Valid() && s.sent.None? && s.pending.None?
    ensures var out := ProcessFresh(cfg, s, id, o);
      !out.verdict.Raised? && SlotOk(out.slot) && (out.verdict.Acked? ==> out.slot == EMPTY)
  {
    match o.get {
      case GetSpoolError =>
      case GetRaises =>
        FailedShape(cfg, s, id, None, None, o);
      case Got(meta, wav) =>
        var c := Compose(cfg, id, meta, wav, o);
        var r := Pipeline(cfg, s, id, meta, wav, o);
        if c.Ready? {
          DeliverShape(cfg, s, id, c.p, o.send, o.ack);
        }
        if r.verdict.Raised? {
          FailedShape(cfg, r.slot, id, Some(meta), None, o);
        }
    }
  }

  /** An item is returned as "acked" only when its files were removed. */
  predicate AckedRemoves(out: Out) {
    out.verdict.Acked? ==> JsonRemoved in out.calls
  }

  lemma AckRemoves(cfg: Settings, s: Slot, id: Id, retry: bool, a: AckAnswer)
    requires a.Valid()
    ensures AckedRemoves(Ack(cfg, s, id, retry, a))
  {
    assert Removals(2)[1] == JsonRemoved;
  }

  lemma DeliverRemoves(cfg: Settings, s: Slot, id: Id, p: Pending, snd: SendAnswer, a: AckAnswer)
    requires a.Valid()
    ensures AckedRemoves(Deliver(cfg, s, id, p, snd, a))
  {
    AckRemoves(cfg, s.(pending := None, sent := Some(Delivered(p.meta, if snd.Accepts? then snd.mid else "")), failures := 0,
                       giveUpAlert := false), id, false, a);
  }

  lemma FailedRemoves(cfg: Settings, s: Slot, id: Id, meta: Option<Meta>, kept: Option<seq<Attachment>>, o: Oracle)
    requires cfg.Valid() && o.Valid()
    ensures AckedRemoves(Failed(cfg, s, id, meta, kept, o))
  {
    var atts := FallbackAttachments(id, kept, o);
    if atts.Some? && o.fallback.Rendered? {
      var p := FallbackEmail(cfg, id, meta, o.fallback.email, atts.value);
      DeliverRemoves(cfg, s.(failures := 0, pending := None, giveUpAlert := true), id, p, o.sendAgain, o.ack);
    }
  }

  lemma ProcessRemoves(cfg: Settings, s: Slot, id: Id, o: Oracle)
    requires cfg.Valid() && o.Valid()
    ensures AckedRemoves(Process(cfg, s, id, o))
  {
    if s.sent.Some? {
      AckRemoves(cfg, s, id, true, o.ack);
      RetryRemoves(cfg, Ack(cfg, s, id, true, o.ack), id, o);
    } else if s.pending.Some? {
      var p := s.pending.value;
      DeliverRemoves(cfg, s, id, p, o.send, o.ack);
      RetryRemoves(cfg, Deliver(cfg, s, id, p, o.send, o.ack), id, o);
    } else {
      FreshRemoves(cfg, s, id, o);
    }
  }

  lemma RetryRemoves(cfg: Settings, r: Out, id: Id, o: Oracle)
    requires cfg.Valid() && o.Valid() && AckedRemoves(r)
    ensures AckedRemoves(RetrySaved(cfg, r, id, o))
  {
    var p := r.slot.pending;
    FailedRemoves(cfg, r.slot, id, Some(if p.Some? then p.value.meta else Meta(id, None, None, None)),
                  Some(if p.Some? then p.value.attachments else []), o);
  }

  lemma FreshRemoves(cfg: Settings, s: Slot, id: Id, o: Oracle)
    requires cfg.Valid() && o.Valid()
    ensures AckedRemoves(ProcessFresh(cfg, s, id, o))
  {
    match o.get {
      case GetSpoolError =>
      case GetRaises =>
        FailedRemoves(cfg, s, id, None, None, o);
      case Got(meta, wav) =>
        var c := Compose(cfg, id, meta, wav, o);
        var r := Pipeline(cfg, s, id, meta, wav, o);
        if c.Ready? {
          DeliverRemoves(cfg, s, id, c.p, o.send, o.ack);
        }
        FailedRemoves(cfg, r.slot, id, Some(meta), None, o);
    }
  }

  /** One call of `process` keeps every promise and never raises. */
  lemma ProcessKeeps(cfg: Settings, s: Slot, id: Id, o: Oracle, w: Watch)
    requires cfg.Valid() && o.Valid() && Agrees(cfg.maxFailures, s, w) && w.mail.json
    requires s.sent.None? && s.pending.None? && o.get.Got? ==>
               w.shelf.json == Some(o.get.meta) && o.get.wav.Some? == w.shelf.wav
    ensures var out := Process(cfg, s, id, o);
      && !out.verdict.Raised?
      && Agrees(cfg.maxFailures, out.slot, Replay(cfg.maxFailures, w, out.calls))
  {
    ProcessShape(cfg, s, id, o);
    if s.sent.Some? || s.pending.Some? {
      RetrySavedKeeps(cfg, s, id, o, w);
    } else {
      ProcessFreshKeeps(cfg, s, id, o, w);
    }
  }
}
