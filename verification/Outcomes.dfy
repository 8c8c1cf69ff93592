/**
  Which email an item gets, and what the call log says of it: over every run, the outcome of an email is the one that the
  speech check and the two provider chains call for, and every log entry is about an email that was sent.
*/
module Outcomes {
  import opened Common
  import opened Config
  import opened Machine
  import opened Protocol
  import opened Delivery
  import opened Lifting

  /** What was learnt of an item since it was last asked for: its metadata and recording, the speech in it, and the answers
      of the transcription and the summary chain; and whether an email was offered since. */
  datatype Evidence = Evidence(meta: Option<Meta>, audio: Option<Bytes>, speech: Option<SpeechAnswer>,
                               heard: Option<ProviderAnswer>, said: Option<ProviderAnswer>, offered: bool)

  const NOTHING: Evidence := Evidence(None, None, None, None, None, false)

  function Learn(k: Evidence, e: Effect): Evidence {
    match e
    case GetCalled => NOTHING
    case Fetched(meta, audio) => NOTHING.(meta := Some(meta), audio := audio)
    case SpeechChecked(found) => k.(speech := Some(found))
    case TranscribeCalled(_, _, heard) => k.(heard := Some(heard))
    case SummariseCalled(_, _, said) => k.(said := Some(said))
    case SendCalled(_) => k.(offered := true)
    case _ => k
  }

  function Known(h: seq<Mark>, id: Id): Evidence
    decreases |h|
  {
    if h == [] || h[|h| - 1].Crash? then NOTHING
    else
      var m := h[|h| - 1];
      if m.Call? && m.id == id then Learn(Known(h[..|h| - 1], id), m.e) else Known(h[..|h| - 1], id)
  }

  /** The recording holds at least this much speech. */
  predicate Spoke(min: real, k: Evidence) {
    k.audio.Some? && k.speech.Some? && k.speech.value.Seconds? && k.speech.value.seconds >= min
  }

  predicate Answers(a: Option<ProviderAnswer>) {
    a.Some? && a.value.Answered?
  }

  /** The name of the line survives `_give_up`'s cleaning. */
  predicate Tidy(meta: Meta) {
    meta.line.Some? && Clean(meta.line.value) == meta.line.value
  }

  /** The outcome of a first attempt is what the evidence calls for, and it is about this item. A fallback of a give-up is
      about the item's line if its metadata was read. */
  predicate Fits(min: real, k: Evidence, p: Pending) {
    && (if p.outcome.FallbackFailedRepeatedly? then
          k.meta.Some? && Tidy(k.meta.value) ==> p.meta.line == k.meta.value.line
        else k.meta == Some(p.meta))
    && match p.outcome
       case FallbackFailedRepeatedly => true
       case Missed =>
         && (k.audio.None? || (k.speech.Some? && k.speech.value.Seconds? && k.speech.value.seconds < min))
         && k.heard.None? && k.said.None?
       case FallbackSpeech => k.audio.Some? && k.speech == Some(SpeechRaises) && k.heard.None? && k.said.None?
       case FallbackTranscription => Spoke(min, k) && k.heard == Some(NoAnswer) && k.said.None?
       case FallbackSummary =>
         Spoke(min, k) && Answers(k.heard) && k.said == Some(NoAnswer)
         && p.providers == Providers(Some(k.heard.value.provider), None)
       case Message =>
         Spoke(min, k) && Answers(k.heard) && Answers(k.said)
         && p.providers == Providers(Some(k.heard.value.provider), Some(k.said.value.provider))
  }

  /** The recording as an attachment. */
  function Attached(id: Id, audio: Option<Bytes>): seq<Attachment> {
    if audio.Some? then [Attachment(id + ".wav", audio.value)] else []
  }

  /** The line that metadata names. */
  function LineOf(cfg: Settings, meta: Option<Meta>): Option<Line> {
    if meta.Some? && meta.value.line.Some? then LineWithId(cfg.lines, meta.value.line.value) else None
  }

  // ---- the automaton ----

  /** `sent` is the last email offered, `accepted` the one accepted by this process. */
  datatype Account = Account(known: Evidence, sent: Option<Pending>, accepted: Option<(Pending, string)>)

  const BLANK: Account := Account(NOTHING, None, None)

  /** What an event is allowed to be, given what came before. */
  predicate Allowed(cfg: Settings, id: Id, d: Account, e: Effect) {
    match e
    case SpeechChecked(_) => d.known.audio.Some? && d.known.speech.None?
    case TranscribeCalled(lang, candidates, _) =>
      && Spoke(cfg.minSpeech, d.known) && d.known.meta.Some? && d.known.meta.value.lang == Some(lang) && d.known.heard.None?
      && LineOf(cfg, d.known.meta).Some? && candidates == LineOf(cfg, d.known.meta).value.menu
    case SummariseCalled(transcript, language, _) =>
      && Answers(d.known.heard) && d.known.heard.value.text == transcript && d.known.said.None?
      && LineOf(cfg, d.known.meta).Some? && language == LineOf(cfg, d.known.meta).value.emailLanguage
    case SendCalled(p) =>
      && Fits(cfg.minSpeech, d.known, p) && d.accepted.None?
      && (p.outcome.FallbackFailedRepeatedly? && d.known.meta.Some? && !d.known.offered ==>
            p.attachments == Attached(id, d.known.audio))
    case Accepted(p, _) => d.sent == Some(p) && Fits(cfg.minSpeech, d.known, p) && d.accepted.None?
    case Recorded(meta, entry, providers, noted) => (
      match entry
      case SendFailed =>
        d.sent.Some? && meta == d.sent.value.meta && providers == d.sent.value.providers && noted == None
      case Sent(outcome) =>
        && d.accepted.Some? && noted == Some(d.accepted.value.1)
        && var p := d.accepted.value.0; meta == p.meta && outcome == p.outcome && providers == p.providers
      case AckedAfterRetry =>
        && d.accepted.Some? && noted == Some(d.accepted.value.1)
        && meta == d.accepted.value.0.meta && providers == NO_PROVIDERS)
    case _ => true
  }

  function AccountStep(cfg: Settings, id: Id, d: Account, e: Effect): Option<Account> {
    if !Allowed(cfg, id, d, e) then None
    else
      var next := d.(known := Learn(d.known, e));
      match e
      case SendCalled(p) => Some(next.(sent := Some(p)))
      case Accepted(p, mid) => Some(next.(accepted := Some((p, mid))))
      case _ => Some(next)
  }

  function Accounts(cfg: Settings, id: Id): Follower<Account> {
    Follower(BLANK, (d, e) => AccountStep(cfg, id, d, e))
  }

  /** What is remembered of an item is what was accepted of it, or an email that fits. */
  predicate Remembers(cfg: Settings, s: Slot, d: Account) {
    if s.sent.Some? then
      d.accepted.Some? && d.accepted.value.0.meta == s.sent.value.meta && d.accepted.value.1 == s.sent.value.mid
    else
      d.accepted.None? && (s.pending.Some? ==> Fits(cfg.minSpeech, d.known, s.pending.value) && d.known.offered)
  }

  function Kept(cfg: Settings): Promise<Account> {
    Promise((d: Account) => true, (s, d) => Remembers(cfg, s, d))
  }

  ghost predicate OutFits(cfg: Settings, id: Id, d: Account, out: Out) {
    OutKeeps(Accounts(cfg, id), Kept(cfg), d, out)
  }

  // ---- one call of process ----

  /** Calls that are neither about the evidence nor about an email. */
  predicate Idle(calls: seq<Effect>) {
    forall e | e in calls ::
      e.Began? || e.Refused? || e.FailureCounted? || e.GaveUp? || e.AckCalled? || e.WavRemoved? || e.JsonRemoved?
      || e.AckFailureCounted? || e.GiveUpAlerted? || e.AckAlerted?
  }

  lemma IdleChangesNothing(cfg: Settings, id: Id, d: Account, calls: seq<Effect>)
    requires Idle(calls)
    ensures Through(Accounts(cfg, id), Some(d), calls) == Some(d)
  {
    ThroughIdle(Accounts(cfg, id), d, calls);
  }

  lemma RemovalsAreIdle()
    ensures forall n | 0 <= n <= 2 :: Idle(Removals(n))
  {
  }

  /** An ack writes at most that it took a retry. */
  lemma AckFits(cfg: Settings, s: Slot, id: Id, retry: bool, a: AckAnswer, d: Account)
    requires a.Valid() && s.sent.Some? && Remembers(cfg, s, d)
    ensures var out := Ack(cfg, s, id, retry, a);
      Through(Accounts(cfg, id), Some(d), out.calls) == Some(d) && (!out.verdict.Acked? ==> out.slot.sent == s.sent)
  {
    RemovalsAreIdle();
    match a {
      case AckRaises(n) =>
        IdleChangesNothing(cfg, id, d, Ack(cfg, s, id, retry, a).calls);
      case Removes =>
        var head := [AckCalled] + Removals(2);
        IdleChangesNothing(cfg, id, d, head);
        if retry {
          var note := Recorded(s.sent.value.meta, AckedAfterRetry, NO_PROVIDERS, Some(s.sent.value.mid));
          ThroughAppend(Accounts(cfg, id), Some(d), head, [note]);
          Through1(Accounts(cfg, id), d, note);
        } else {
          assert head + [] == head;
        }
    }
  }

  lemma AcceptFits(cfg: Settings, s: Slot, id: Id, p: Pending, mid: string, a: AckAnswer, d: Account)
    requires a.Valid() && d.sent == Some(p) && Fits(cfg.minSpeech, d.known, p) && d.accepted.None?
    ensures OutFits(cfg, id, d, AfterAccept(cfg, s, id, p, mid, a))
  {
    var r := Accounts(cfg, id);
    var took := [Accepted(p, mid), Recorded(p.meta, Sent(p.outcome), p.providers, Some(mid))];
    var alerts := if s.giveUpAlert && cfg.alerter then [GiveUpAlerted] else [];
    var s1 := s.(pending := None, sent := Some(Delivered(p.meta, mid)), failures := 0, giveUpAlert := false);
    var d1 := d.(accepted := Some((p, mid)));
    TakenFits(cfg, id, d, p, mid);
    IdleChangesNothing(cfg, id, d1, alerts);
    ThroughAppend(r, Some(d), took, alerts);
    AckFits(cfg, s1, id, false, a, d1);
    ThroughAppend(r, Some(d), took + alerts, Ack(cfg, s1, id, false, a).calls);
  }

  lemma TakenFits(cfg: Settings, id: Id, d: Account, p: Pending, mid: string)
    requires d.sent == Some(p) && Fits(cfg.minSpeech, d.known, p) && d.accepted.None?
    ensures Through(Accounts(cfg, id), Some(d), [Accepted(p, mid), Recorded(p.meta, Sent(p.outcome), p.providers, Some(mid))])
      == Some(d.(accepted := Some((p, mid))))
  {
    var note := Recorded(p.meta, Sent(p.outcome), p.providers, Some(mid));
    assert [Accepted(p, mid), note] == [Accepted(p, mid)] + [note];
    Through1(Accounts(cfg, id), d, Accepted(p, mid));
    Through1(Accounts(cfg, id), d.(accepted := Some((p, mid))), note);
    ThroughAppend(Accounts(cfg, id), Some(d), [Accepted(p, mid)], [note]);
  }

  lemma DeliverFits(cfg: Settings, s: Slot, id: Id, p: Pending, snd: SendAnswer, a: AckAnswer, d: Account)
    requires a.Valid() && s.sent.None? && Allowed(cfg, id, d, SendCalled(p))
    ensures OutFits(cfg, id, d, Deliver(cfg, s, id, p, snd, a))
  {
    var r := Accounts(cfg, id);
    var d1 := d.(sent := Some(p), known := d.known.(offered := true));
    Through1(r, d, SendCalled(p));
    match snd {
      case SendRaises =>
      case RaisesSendError =>
        var note := Recorded(p.meta, SendFailed, p.providers, None);
        assert [SendCalled(p), Refused] == [SendCalled(p)] + [Refused];
        assert [SendCalled(p), Refused, note] == [SendCalled(p), Refused] + [note];
        Through1(r, d1, Refused);
        Through1(r, d1, note);
        ThroughAppend(r, Some(d), [SendCalled(p)], [Refused]);
        ThroughAppend(r, Some(d), [SendCalled(p), Refused], [note]);
      case Accepts(mid) =>
        var cached := s.(pending := Some(p));
        AcceptFits(cfg, cached, id, p, mid, a, d1);
        ThroughAppend(r, Some(d), [SendCalled(p)], AfterAccept(cfg, cached, id, p, mid, a).calls);
    }
  }

  /** One idle call before calls that keep the promise. */
  lemma Before(cfg: Settings, id: Id, d: Account, before: seq<Effect>, next: Account, r: Out)
    requires Through(Accounts(cfg, id), Some(d), before) == Some(next) && OutFits(cfg, id, next, r)
    ensures OutFits(cfg, id, d, Out(r.slot, before + r.calls, r.verdict))
  {
    ThroughAppend(Accounts(cfg, id), Some(d), before, r.calls);
  }

  /** What the exception handlers hand to `_give_up`: metadata that names the item's line if it was read, and the recording
      by way of the work directory if nothing was offered yet. */
  predicate MayGiveUp(meta: Option<Meta>, kept: Option<seq<Attachment>>, o: Oracle, k: Evidence) {
    && (k.meta.Some? && Tidy(k.meta.value) ==> meta.Some? && meta.value.line == k.meta.value.line)
    && (k.meta.Some? && !k.offered ==> kept.None? && o.onDisk == k.audio)
  }

  lemma {:induction false} GiveUpFits(cfg: Settings, s: Slot, id: Id, meta: Option<Meta>, kept: Option<seq<Attachment>>,
                                      o: Oracle, d: Account)
    requires cfg.Valid() && o.Valid() && s.sent.None? && d.accepted.None? && MayGiveUp(meta, kept, o, d.known)
    ensures OutFits(cfg, id, d, GiveUp(cfg, s, id, meta, kept, o))
  {
    var atts := FallbackAttachments(id, kept, o);
    IdleChangesNothing(cfg, id, d, [GaveUp]);
    if atts.Some? && o.fallback.Rendered? {
      var p := FallbackEmail(cfg, id, meta, o.fallback.email, atts.value);
      var s1 := s.(failures := 0, pending := None, giveUpAlert := true);
      var r := Deliver(cfg, s1, id, p, o.sendAgain, o.ack);
      DeliverFits(cfg, s1, id, p, o.sendAgain, o.ack, d);
      ThroughAppend(Accounts(cfg, id), Some(d), [GaveUp], r.calls);
    }
  }

  lemma FailedFits(cfg: Settings, s: Slot, id: Id, meta: Option<Meta>, kept: Option<seq<Attachment>>, o: Oracle, d: Account)
    requires cfg.Valid() && o.Valid() && s.sent.None? && Remembers(cfg, s, d) && MayGiveUp(meta, kept, o, d.known)
    ensures OutFits(cfg, id, d, Failed(cfg, s, id, meta, kept, o))
  {
    if s.failures + 1 >= cfg.maxFailures {
      LastFailedFits(cfg, s, id, meta, kept, o, d);
    } else {
      CountedFits(cfg, s, id, d);
    }
  }

  lemma CountedFits(cfg: Settings, s: Slot, id: Id, d: Account)
    requires s.sent.None? && Remembers(cfg, s, d)
    ensures OutFits(cfg, id, d, Out(s.(failures := s.failures + 1), [FailureCounted(s.failures + 1)], Retry))
  {
    IdleChangesNothing(cfg, id, d, [FailureCounted(s.failures + 1)]);
  }

  lemma LastFailedFits(cfg: Settings, s: Slot, id: Id, meta: Option<Meta>, kept: Option<seq<Attachment>>, o: Oracle,
                       d: Account)
    requires cfg.Valid() && o.Valid() && s.sent.None? && d.accepted.None? && MayGiveUp(meta, kept, o, d.known)
    ensures var r := GiveUp(cfg, s, id, meta, kept, o);
      OutFits(cfg, id, d, Out(r.slot, [FailureCounted(s.failures + 1)] + r.calls, r.verdict))
  {
    IdleChangesNothing(cfg, id, d, [FailureCounted(s.failures + 1)]);
    GiveUpFits(cfg, s, id, meta, kept, o, d);
    Before(cfg, id, d, [FailureCounted(s.failures + 1)], d, GiveUp(cfg, s, id, meta, kept, o));
  }

  /** Composing asks only what it may, and the email fits what it learnt. */
  lemma {:induction false} ComposeFits(cfg: Settings, id: Id, meta: Meta, wav: Option<Bytes>, o: Oracle, d: Account)
    requires d.known == NOTHING.(meta := Some(meta), audio := wav)
    ensures var c := Compose(cfg, id, meta, wav, o); var e := Through(Accounts(cfg, id), Some(d), c.calls);
      && e.Some? && e.value.accepted == d.accepted && e.value.sent == d.sent
      && e.value.known.meta == Some(meta) && e.value.known.audio == wav && !e.value.known.offered
      && (c.Ready? ==> Fits(cfg.minSpeech, e.value.known, c.p) && !c.p.outcome.FallbackFailedRepeatedly?)
  {
    var r := Accounts(cfg, id);
    var c := Compose(cfg, id, meta, wav, o);
    if c.calls != [] {
      var one := [c.calls[0]];
      Through1(r, d, c.calls[0]);
      if |c.calls| == 1 {
        assert c.calls == one;
      } else {
        var d1 := AccountStep(cfg, id, d, c.calls[0]).value;
        Through1(r, d1, c.calls[1]);
        ThroughAppend(r, Some(d), one, [c.calls[1]]);
        if |c.calls| == 2 {
          assert c.calls == one + [c.calls[1]];
        } else {
          var d2 := AccountStep(cfg, id, d1, c.calls[1]).value;
          Through1(r, d2, c.calls[2]);
          ThroughAppend(r, Some(d), one + [c.calls[1]], [c.calls[2]]);
          assert c.calls == one + [c.calls[1]] + [c.calls[2]];
        }
      }
    }
  }

  lemma {:induction false} PipelineFits(cfg: Settings, s: Slot, id: Id, meta: Meta, wav: Option<Bytes>, o: Oracle, d: Account)
    requires cfg.Valid() && o.Valid() && s.sent.None? && s.pending.None? && d.accepted.None?
    requires d.known == NOTHING.(meta := Some(meta), audio := wav)
    ensures OutFits(cfg, id, d, Pipeline(cfg, s, id, meta, wav, o))
    ensures var r := Pipeline(cfg, s, id, meta, wav, o);
      r.verdict.Raised? ==>
        && r.slot.sent.None?
        && var k := Through(Accounts(cfg, id), Some(d), r.calls).value.known; k.meta == Some(meta) && k.audio == wav
  {
    var c := Compose(cfg, id, meta, wav, o);
    ComposeFits(cfg, id, meta, wav, o, d);
    if c.Ready? {
      var d1 := Through(Accounts(cfg, id), Some(d), c.calls).value;
      var r := Deliver(cfg, s, id, c.p, o.send, o.ack);
      DeliverFits(cfg, s, id, c.p, o.send, o.ack, d1);
      Before(cfg, id, d, c.calls, d1, r);
      if r.verdict.Raised? {
        SendRaised(cfg, s, id, c.p, o, d1);
        ThroughAppend(Accounts(cfg, id), Some(d), c.calls, r.calls);
      }
    }
  }

  lemma {:induction false} SendRaised(cfg: Settings, s: Slot, id: Id, p: Pending, o: Oracle, d: Account)
    requires o.Valid() && s.sent.None? && Deliver(cfg, s, id, p, o.send, o.ack).verdict.Raised?
    requires Allowed(cfg, id, d, SendCalled(p))
    ensures var r := Deliver(cfg, s, id, p, o.send, o.ack); var e := Through(Accounts(cfg, id), Some(d), r.calls);
      && r.slot.sent.None? && e.Some? && e.value.known == d.known.(offered := true)
  {
  }

  /** An exception after calls that kept the promise. */
  lemma ThenFails(cfg: Settings, s: Slot, id: Id, meta: Option<Meta>, kept: Option<seq<Attachment>>, o: Oracle, d: Account,
                  before: seq<Effect>, d1: Account)
    requires cfg.Valid() && o.Valid() && s.sent.None? && Remembers(cfg, s, d1) && MayGiveUp(meta, kept, o, d1.known)
    requires Through(Accounts(cfg, id), Some(d), before) == Some(d1)
    ensures var f := Failed(cfg, s, id, meta, kept, o); OutFits(cfg, id, d, Out(f.slot, before + f.calls, f.verdict))
  {
    FailedFits(cfg, s, id, meta, kept, o, d1);
    Before(cfg, id, d, before, d1, Failed(cfg, s, id, meta, kept, o));
  }

  lemma Asked(cfg: Settings, id: Id, d: Account)
    ensures Through(Accounts(cfg, id), Some(d), [Began, GetCalled]) == Some(d.(known := NOTHING))
  {
    assert [Began, GetCalled] == [Began] + [GetCalled];
    Through1(Accounts(cfg, id), d, Began);
    Through1(Accounts(cfg, id), d, GetCalled);
    ThroughAppend(Accounts(cfg, id), Some(d), [Began], [GetCalled]);
  }

  lemma FreshFits(cfg: Settings, s: Slot, id: Id, o: Oracle, d: Account)
    requires cfg.Valid() && o.Valid() && s.sent.None? && s.pending.None? && d.accepted.None?
    ensures OutFits(cfg, id, d, ProcessFresh(cfg, s, id, o))
  {
    Asked(cfg, id, d);
    match o.get {
      case GetSpoolError =>
      case GetRaises =>
        ThenFails(cfg, s, id, None, None, o, d, [Began, GetCalled], d.(known := NOTHING));
      case Got(meta, wav) =>
        FetchedFits(cfg, s, id, meta, wav, o, d);
    }
  }

  lemma FetchedFits(cfg: Settings, s: Slot, id: Id, meta: Meta, wav: Option<Bytes>, o: Oracle, d: Account)
    requires cfg.Valid() && o.Valid() && s.sent.None? && s.pending.None? && d.accepted.None?
    requires o.get == Got(meta, wav)
    ensures OutFits(cfg, id, d, ProcessFresh(cfg, s, id, o))
  {
    var head := [Began, GetCalled, Fetched(meta, wav)];
    var d0 := d.(known := NOTHING);
    var d1 := d.(known := NOTHING.(meta := Some(meta), audio := wav));
    var r := Pipeline(cfg, s, id, meta, wav, o);
    Asked(cfg, id, d);
    assert head == [Began, GetCalled] + [Fetched(meta, wav)];
    Through1(Accounts(cfg, id), d0, Fetched(meta, wav));
    ThroughAppend(Accounts(cfg, id), Some(d), [Began, GetCalled], [Fetched(meta, wav)]);
    PipelineFits(cfg, s, id, meta, wav, o, d1);
    Before(cfg, id, d, head, d1, r);
    if r.verdict.Raised? {
      var d2 := Through(Accounts(cfg, id), Some(d1), r.calls).value;
      ThroughAppend(Accounts(cfg, id), Some(d), head, r.calls);
      ThenFails(cfg, r.slot, id, Some(meta), None, o, d, head + r.calls, d2);
    }
  }

  lemma ResendFits(cfg: Settings, s: Slot, id: Id, o: Oracle, d: Account)
    requires cfg.Valid() && o.Valid() && s.sent.None? && s.pending.Some? && Remembers(cfg, s, d)
    ensures OutFits(cfg, id, d, Process(cfg, s, id, o))
  {
    var p := s.pending.value;
    var r := Deliver(cfg, s, id, p, o.send, o.ack);
    IdleChangesNothing(cfg, id, d, [Began]);
    DeliverFits(cfg, s, id, p, o.send, o.ack, d);
    Before(cfg, id, d, [Began], d, r);
    if r.verdict.Raised? {
      var d2 := Through(Accounts(cfg, id), Some(d), r.calls).value;
      ThroughAppend(Accounts(cfg, id), Some(d), [Began], r.calls);
      ThenFails(cfg, r.slot, id, Some(p.meta), Some(p.attachments), o, d, [Began] + r.calls, d2);
    }
  }

  lemma ProcessFits(cfg: Settings, s: Slot, id: Id, o: Oracle, d: Account)
    requires cfg.Valid() && o.Valid() && Remembers(cfg, s, d)
    ensures CallKeeps(cfg, Accounts(cfg, id), Kept(cfg), s, id, o, d)
  {
    if s.sent.Some? {
      var r := Ack(cfg, s, id, true, o.ack);
      AckFits(cfg, s, id, true, o.ack, d);
      IdleChangesNothing(cfg, id, d, [Began]);
      Before(cfg, id, d, [Began], d, r);
    } else if s.pending.Some? {
      ResendFits(cfg, s, id, o, d);
    } else {
      FreshFits(cfg, s, id, o, d);
    }
  }

  // ---- every run ----

  lemma RunFits(cfg: Settings, moves: seq<Move>, id: Id)
    requires cfg.Valid() && After(cfg, moves).Some?
    ensures Upheld(Accounts(cfg, id), Kept(cfg), After(cfg, moves).value, id)
  {
    forall s, o: Oracle, d | o.Valid() && Remembers(cfg, s, d)
      ensures CallKeeps(cfg, Accounts(cfg, id), Kept(cfg), s, id, o, d)
    {
      ProcessFits(cfg, s, id, o, d);
    }
    RunUpholds(cfg, Accounts(cfg, id), Kept(cfg), moves, id);
  }

  /** The automaton reads the history: the evidence, and emails that were really sent and accepted. */
  lemma {:induction false} EvidenceReads(cfg: Settings, h: seq<Mark>, id: Id)
    requires Read(Accounts(cfg, id), h, id).Some?
    ensures Read(Accounts(cfg, id), h, id).value.known == Known(h, id)
    decreases |h|
  {
    if h != [] {
      PrefixRead(Accounts(cfg, id), h, id, |h| - 1);
      EvidenceReads(cfg, h[..|h| - 1], id);
    }
  }

  lemma {:induction false} EmailsRead(cfg: Settings, h: seq<Mark>, id: Id)
    requires Read(Accounts(cfg, id), h, id).Some?
    ensures var d := Read(Accounts(cfg, id), h, id).value;
      && (d.sent.Some? ==> Call(id, SendCalled(d.sent.value)) in h)
      && (d.accepted.Some? ==> Call(id, Accepted(d.accepted.value.0, d.accepted.value.1)) in h)
    decreases |h|
  {
    if h != [] {
      var before := h[..|h| - 1];
      PrefixRead(Accounts(cfg, id), h, id, |h| - 1);
      EmailsRead(cfg, before, id);
      assert h == before + [h[|h| - 1]];
    }
  }

  /** At every event of every run: it was allowed by what was known. */
  lemma EventAllowed(cfg: Settings, moves: seq<Move>, id: Id, i: nat, e: Effect) returns (d: Account)
    requires cfg.Valid() && After(cfg, moves).Some? && i < |After(cfg, moves).value.history|
    requires After(cfg, moves).value.history[i] == Call(id, e)
    ensures var h := After(cfg, moves).value.history;
      && Allowed(cfg, id, d, e) && d.known == Known(h[..i], id)
      && (d.sent.Some? ==> Call(id, SendCalled(d.sent.value)) in h[..i])
      && (d.accepted.Some? ==> Call(id, Accepted(d.accepted.value.0, d.accepted.value.1)) in h[..i])
  {
    var h := After(cfg, moves).value.history;
    RunFits(cfg, moves, id);
    ReadNext(Accounts(cfg, id), h, id, i);
    EvidenceReads(cfg, h[..i], id);
    EmailsRead(cfg, h[..i], id);
    d := Read(Accounts(cfg, id), h[..i], id).value;
  }

  /** The email of an item, in every run. Unless a give-up wrote it, its outcome is decided by what was learnt since the
      item was last asked for: it announces a missed call if and only if there was no recording or less than the least
      speech in it, it is a message if and only if both provider chains answered, and so on. */
  lemma OutcomeIsRight(cfg: Settings, moves: seq<Move>, id: Id, i: nat, p: Pending)
    requires cfg.Valid() && After(cfg, moves).Some? && i < |After(cfg, moves).value.history|
    requires var m := After(cfg, moves).value.history[i];
      m == Call(id, SendCalled(p)) || (m.Call? && m.id == id && m.e.Accepted? && m.e.p == p)
    requires !p.outcome.FallbackFailedRepeatedly?
    ensures var k := Known(After(cfg, moves).value.history[..i], id);
      && (p.outcome.Missed? <==>
            k.audio.None? || (k.speech.Some? && k.speech.value.Seconds? && k.speech.value.seconds < cfg.minSpeech))
      && (p.outcome.FallbackSpeech? <==> k.audio.Some? && k.speech == Some(SpeechRaises))
      && (p.outcome.FallbackTranscription? <==> k.heard == Some(NoAnswer))
      && (p.outcome.FallbackSummary? <==> Answers(k.heard) && k.said == Some(NoAnswer))
      && (p.outcome.Message? <==> Answers(k.heard) && Answers(k.said))
      && (p.outcome.Message? ==> p.providers == Providers(Some(k.heard.value.provider), Some(k.said.value.provider)))
      && (p.outcome.FallbackSummary? ==> p.providers == Providers(Some(k.heard.value.provider), None))
  {
    var d := EventAllowed(cfg, moves, id, i, After(cfg, moves).value.history[i].e);
  }

  /** The fallback of a give-up, in every run: if the item's metadata was read since it was last asked for, it names the
      item's line; and if no email was offered since, it carries the recording that was fetched, if there was one. */
  lemma FallbackIsRight(cfg: Settings, moves: seq<Move>, id: Id, i: nat, p: Pending)
    requires cfg.Valid() && After(cfg, moves).Some? && i < |After(cfg, moves).value.history|
    requires After(cfg, moves).value.history[i] == Call(id, SendCalled(p)) && p.outcome.FallbackFailedRepeatedly?
    ensures var k := Known(After(cfg, moves).value.history[..i], id);
      && (k.meta.Some? && Tidy(k.meta.value) ==> p.meta.line == k.meta.value.line)
      && (k.meta.Some? && !k.offered ==>
            p.attachments == if k.audio.Some? then [Attachment(id + ".wav", k.audio.value)] else [])
  {
    var d := EventAllowed(cfg, moves, id, i, SendCalled(p));
  }

  /** The transcription chain is asked only for a recording with enough speech, in the caller's language and with the
      languages of the line's menu; the summary chain only for a transcript, and for a summary in the mailbox's language. */
  lemma ProvidersAreAskedRightly(cfg: Settings, moves: seq<Move>, id: Id, i: nat)
    requires cfg.Valid() && After(cfg, moves).Some? && i < |After(cfg, moves).value.history|
    requires var m := After(cfg, moves).value.history[i]; m.Call? && m.id == id
    ensures var h := After(cfg, moves).value.history; var k := Known(h[..i], id); var e := h[i].e;
      && (e.TranscribeCalled? ==>
            && Spoke(cfg.minSpeech, k) && k.meta.Some? && k.meta.value.lang == Some(e.lang)
            && LineOf(cfg, k.meta).Some? && e.candidates == LineOf(cfg, k.meta).value.menu)
      && (e.SummariseCalled? ==>
            && Answers(k.heard) && e.transcript == k.heard.value.text
            && LineOf(cfg, k.meta).Some? && e.language == LineOf(cfg, k.meta).value.emailLanguage)
  {
    var d := EventAllowed(cfg, moves, id, i, After(cfg, moves).value.history[i].e);
  }

  /** The call log, in every run: an outcome is written of an email that was accepted, with that email's metadata,
      providers and message id; a late ack of the same one; a failed send of an email that was offered. */
  lemma LogIsTrue(cfg: Settings, moves: seq<Move>, id: Id, i: nat) returns (p: Pending, mid: string)
    requires cfg.Valid() && After(cfg, moves).Some? && i < |After(cfg, moves).value.history|
    requires var m := After(cfg, moves).value.history[i]; m.Call? && m.id == id && m.e.Recorded?
    ensures var h := After(cfg, moves).value.history; var e := h[i].e;
      && e.meta == p.meta
      && (e.entry.SendFailed? ==> Call(id, SendCalled(p)) in h[..i] && e.providers == p.providers && e.noted == None)
      && (!e.entry.SendFailed? ==> Call(id, Accepted(p, mid)) in h[..i] && e.noted == Some(mid))
      && (e.entry.Sent? ==> e.entry.outcome == p.outcome && e.providers == p.providers)
      && (e.entry.AckedAfterRetry? ==> e.providers == NO_PROVIDERS)
  {
    var e := After(cfg, moves).value.history[i].e;
    var d := EventAllowed(cfg, moves, id, i, e);
    if e.entry.SendFailed? {
      p, mid := d.sent.value, "";
    } else {
      p, mid := d.accepted.value.0, d.accepted.value.1;
    }
  }

  // ---- nothing is dropped ----

  /** When a first attempt composes an email: unless the line is unknown, the recording unreadable, its language unknown,
      a provider chain or rendering raises. */
  lemma ComposesUnless(cfg: Settings, id: Id, meta: Meta, wav: Option<Bytes>, o: Oracle)
    ensures var quiet := wav.None? || (o.speech.Seconds? && o.speech.seconds < cfg.minSpeech);
      Compose(cfg, id, meta, wav, o).Ready? <==>
        && LineOf(cfg, Some(meta)).Some? && (wav.Some? ==> o.wavReadable) && o.render.Rendered?
        && (quiet || o.speech.SpeechRaises?
            || (&& meta.lang.Some? && !o.transcribe.ProviderRaises?
                && (o.transcribe.Answered? ==> !o.summarise.ProviderRaises?)))
  {
  }

  /** A first attempt for which everything works delivers an ordinary email and acks the item. */
  lemma FirstAttemptDelivers(cfg: Settings, s: Slot, id: Id, meta: Meta, wav: Option<Bytes>, o: Oracle) returns (p: Pending)
    requires cfg.Valid() && o.Valid() && s.sent.None? && s.pending.None? && o.get == Got(meta, wav)
    requires Compose(cfg, id, meta, wav, o).Ready? && o.send.Accepts? && o.ack.Removes?
    ensures var out := Process(cfg, s, id, o);
      && out.verdict.Acked? && Accepted(p, o.send.mid) in out.calls && JsonRemoved in out.calls
      && !p.outcome.FallbackFailedRepeatedly?
  {
    p := Compose(cfg, id, meta, wav, o).p;
    var calls := Process(cfg, s, id, o).calls;
    var d := Deliver(cfg, s, id, p, o.send, o.ack).calls;
    assert d[1] == Accepted(p, o.send.mid);
    assert Removals(2)[1] == JsonRemoved;
    assert d[1] in calls;
  }
}
