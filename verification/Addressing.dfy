/**
  Whose mailbox an item reaches, and in what form: over every run, each email sent for an item is the one that its
  published metadata calls for.
*/
module Addressing {
  import opened Common
  import opened Config
  import opened Text
  import opened Machine
  import opened Protocol
  import opened Delivery
  import Spooling

  /** Metadata as vm-finalize writes it. */
  predicate Named(meta: Meta) {
    meta.line.Some? && Spooling.LineArgOk(meta.line.value)
  }

  /** The configuration as the loader lets it through, as far as addresses are concerned. */
  predicate Loaded(cfg: Settings) {
    cfg.Valid() && forall l | l in cfg.lines :: l.id != "?"
  }

  /** A configuration that the loader accepted is such a one. */
  lemma AcceptedIsLoaded(cfg: Settings)
    requires LinesOk(cfg.lines) && cfg.maxFailures >= 1
    ensures Loaded(cfg)
  {
    forall l | l in cfg.lines ensures l.id != "?" {
      assert LineOk(l);
      assert "?"[0] == '?';
    }
  }

  /** The mailbox of the named line, or of the first line when no line has that name. */
  function AddressOf(cfg: Settings, line: Option<string>): string
    requires cfg.Valid()
  {
    (if line.Some? then LineWithId(cfg.lines, line.value) else None).GetOr(cfg.lines[0]).mailbox
  }

  /** What producers published of an item: its metadata, and its recording if there is one. */
  datatype Published = Published(meta: Meta, audio: Option<Bytes>)

  /** The attachments are this recording. */
  predicate Carries(id: Id, atts: seq<Attachment>, audio: Option<Bytes>) {
    audio.Some? && atts == [Attachment(id + ".wav", audio.value)]
  }

  /** What the outcomes of `_pipeline` carry: a message is its transcript and summary, a missed call is nothing, and every
      fallback comes with the recording. */
  predicate Complete(id: Id, audio: Option<Bytes>, p: Pending) {
    match p.outcome
    case Message => p.attachments == [] && p.providers.transcript.Some? && p.providers.summary.Some?
    case Missed => p.attachments == [] && p.providers == NO_PROVIDERS
    case FallbackSummary => Carries(id, p.attachments, audio) && p.providers.transcript.Some? && p.providers.summary.None?
    case _ => Carries(id, p.attachments, audio) && p.providers == NO_PROVIDERS
  }

  /** What a fallback after repeated failures carries: nothing or the recording; when the metadata could not be read,
      perhaps only the beginning of it. */
  predicate Salvaged(id: Id, audio: Option<Bytes>, p: Pending) {
    || p.attachments == []
    || Carries(id, p.attachments, audio)
    || (p.meta.line == Some("?") && audio.Some? &&
        exists n | 0 <= n <= |audio.value| :: Carries(id, p.attachments, Some(audio.value[..n])))
  }

  /** An email of the item: it goes to the mailbox of the item's own line, and unless it announces a missed call the item
      has a recording. Only the fallback of an item that failed repeatedly may go to the first line instead: when no line
      has the item's name, or when its metadata could not be read. Whatever is attached is the published recording. */
  predicate Right(cfg: Settings, id: Id, pub: Published, p: Pending)
    requires cfg.Valid()
  {
    && p.to == AddressOf(cfg, p.meta.line)
    && (if p.outcome.FallbackFailedRepeatedly? then
          p.meta.id == id && (p.meta.line == pub.meta.line || p.meta.line == Some("?")) && Salvaged(id, pub.audio, p)
        else
          && p.meta == pub.meta && p.meta.line.Some? && LineWithId(cfg.lines, p.meta.line.value).Some?
          && Complete(id, pub.audio, p) && (!p.outcome.Missed? ==> p.meta.hasAudio == Some(true)))
  }

  /** A fetch finds what was published: all of it, or not the recording; one that raises leaves a beginning of it. */
  predicate Finds(o: Oracle, pub: Published) {
    if o.get.Got? then
      o.get.meta == pub.meta && (o.get.wav.Some? ==> o.get.wav == pub.audio && pub.meta.hasAudio == Some(true))
    else o.onDisk.Some? ==> pub.audio.Some? && o.onDisk.value <= pub.audio.value
  }

  predicate EffectRight(cfg: Settings, id: Id, pub: Published, e: Effect)
    requires cfg.Valid()
  {
    && (e.SendCalled? || e.Accepted? ==> Right(cfg, id, pub, e.p))
    && (e.Fetched? ==> e.meta == pub.meta && (e.audio.Some? ==> e.audio == pub.audio))
  }

  predicate AllRight(cfg: Settings, id: Id, pub: Published, calls: seq<Effect>)
    requires cfg.Valid()
  {
    forall e | e in calls :: EffectRight(cfg, id, pub, e)
  }

  predicate SlotRight(cfg: Settings, id: Id, pub: Published, s: Slot)
    requires cfg.Valid()
  {
    s.pending.Some? ==> Right(cfg, id, pub, s.pending.value)
  }

  predicate OutRight(cfg: Settings, id: Id, pub: Published, out: Out)
    requires cfg.Valid()
  {
    AllRight(cfg, id, pub, out.calls) && SlotRight(cfg, id, pub, out.slot)
  }

  // ---- cleaning leaves a line name alone ----

  lemma CleanIsKept(s: string)
    requires s != "" && |s| <= 64 && forall c | c in s :: !IsSpace(c)
    ensures Clean(s) == s
  {
    SplitWord(s, "");
    assert s + "" == s;
  }

  // ---- every call of process ----

  lemma AckSendsNothing(cfg: Settings, s: Slot, id: Id, retry: bool, a: AckAnswer)
    requires a.Valid()
    ensures var out := Ack(cfg, s, id, retry, a);
      out.slot.pending == s.pending && forall e | e in out.calls :: !e.SendCalled? && !e.Accepted? && !e.Fetched?
  {
  }

  lemma DeliverRight(cfg: Settings, s: Slot, id: Id, p: Pending, snd: SendAnswer, a: AckAnswer, pub: Published)
    requires cfg.Valid() && a.Valid() && Right(cfg, id, pub, p)
    ensures OutRight(cfg, id, pub, Deliver(cfg, s, id, p, snd, a))
  {
    if snd.Accepts? {
      AckSendsNothing(cfg, s.(pending := None, sent := Some(Delivered(p.meta, snd.mid)), failures := 0, giveUpAlert := false),
                      id, false, a);
    }
  }

  /** The metadata and attachments a give-up starts from. */
  predicate Starts(id: Id, known: Option<Meta>, atts: seq<Attachment>, pub: Published) {
    && (known.Some? ==> known.value.line in {None, Some("?"), pub.meta.line})
    && (|| atts == [] || Carries(id, atts, pub.audio)
        || ((known.None? || known.value.line != pub.meta.line) && pub.audio.Some? &&
            exists n | 0 <= n <= |pub.audio.value| :: Carries(id, atts, Some(pub.audio.value[..n]))))
  }

  lemma FallbackRight(cfg: Settings, id: Id, known: Option<Meta>, email: Email, atts: seq<Attachment>, pub: Published)
    requires Loaded(cfg) && Named(pub.meta) && Starts(id, known, atts, pub)
    ensures Right(cfg, id, pub, FallbackEmail(cfg, id, known, email, atts))
  {
    CleanIsKept("?");
    CleanIsKept(pub.meta.line.value);
  }

  lemma GiveUpRight(cfg: Settings, s: Slot, id: Id, known: Option<Meta>, kept: Option<seq<Attachment>>, o: Oracle,
                    pub: Published)
    requires Loaded(cfg) && o.Valid() && Named(pub.meta)
    requires var atts := FallbackAttachments(id, kept, o); atts.Some? ==> Starts(id, known, atts.value, pub)
    ensures OutRight(cfg, id, pub, GiveUp(cfg, s, id, known, kept, o))
  {
    var atts := FallbackAttachments(id, kept, o);
    if atts.Some? && o.fallback.Rendered? {
      FallbackRight(cfg, id, known, o.fallback.email, atts.value, pub);
      DeliverRight(cfg, s.(failures := 0, pending := None, giveUpAlert := true), id,
                   FallbackEmail(cfg, id, known, o.fallback.email, atts.value), o.sendAgain, o.ack, pub);
    }
  }

  lemma FailedRight(cfg: Settings, s: Slot, id: Id, known: Option<Meta>, kept: Option<seq<Attachment>>, o: Oracle,
                    pub: Published)
    requires Loaded(cfg) && o.Valid() && Named(pub.meta) && SlotRight(cfg, id, pub, s)
    requires var atts := FallbackAttachments(id, kept, o); atts.Some? ==> Starts(id, known, atts.value, pub)
    ensures OutRight(cfg, id, pub, Failed(cfg, s, id, known, kept, o))
  {
    GiveUpRight(cfg, s, id, known, kept, o, pub);
  }

  lemma ComposeRight(cfg: Settings, id: Id, wav: Option<Bytes>, o: Oracle, pub: Published)
    requires cfg.Valid() && (wav.Some? ==> wav == pub.audio && pub.meta.hasAudio == Some(true))
    ensures var c := Compose(cfg, id, pub.meta, wav, o);
      AllRight(cfg, id, pub, c.calls) && (c.Ready? ==> Right(cfg, id, pub, c.p))
  {
  }

  /** The work directory holds the recording, all of it when the fetch returned. */
  lemma OnDiskStarts(id: Id, o: Oracle, pub: Published)
    requires o.Valid() && Finds(o, pub)
    ensures var atts := FallbackAttachments(id, None, o);
      atts.Some? ==> Starts(id, if o.get.Got? then Some(pub.meta) else None, atts.value, pub)
  {
    if o.onDisk.Some? && !o.get.Got? {
      var n := |o.onDisk.value|;
      assert pub.audio.value[..n] == o.onDisk.value;
    }
  }

  lemma PipelineRight(cfg: Settings, s: Slot, id: Id, wav: Option<Bytes>, o: Oracle, pub: Published)
    requires cfg.Valid() && o.Valid() && s.pending.None?
    requires wav.Some? ==> wav == pub.audio && pub.meta.hasAudio == Some(true)
    ensures OutRight(cfg, id, pub, Pipeline(cfg, s, id, pub.meta, wav, o))
  {
    var c := Compose(cfg, id, pub.meta, wav, o);
    ComposeRight(cfg, id, wav, o, pub);
    if c.Ready? {
      DeliverRight(cfg, s, id, c.p, o.send, o.ack, pub);
    }
  }

  lemma FreshRight(cfg: Settings, s: Slot, id: Id, o: Oracle, pub: Published)
    requires Loaded(cfg) && o.Valid() && Named(pub.meta) && s.pending.None? && Finds(o, pub)
    ensures OutRight(cfg, id, pub, ProcessFresh(cfg, s, id, o))
  {
    OnDiskStarts(id, o, pub);
    match o.get {
      case GetSpoolError =>
      case GetRaises => FailedRight(cfg, s, id, None, None, o, pub);
      case Got(_, wav) =>
        PipelineRight(cfg, s, id, wav, o, pub);
        FailedRight(cfg, Pipeline(cfg, s, id, pub.meta, wav, o).slot, id, Some(pub.meta), None, o, pub);
    }
  }

  /** The email that is cached can start a give-up. */
  lemma PendingStarts(cfg: Settings, id: Id, p: Pending, pub: Published)
    requires cfg.Valid() && Right(cfg, id, pub, p) && Named(pub.meta)
    ensures Starts(id, Some(p.meta), p.attachments, pub)
  {
    assert '?' !in pub.meta.line.value && "?"[0] == '?';
  }

  lemma ResendRight(cfg: Settings, s: Slot, id: Id, o: Oracle, pub: Published)
    requires Loaded(cfg) && o.Valid() && Named(pub.meta) && s.sent.None? && s.pending.Some? && SlotRight(cfg, id, pub, s)
    ensures OutRight(cfg, id, pub, Process(cfg, s, id, o))
  {
    var p := s.pending.value;
    var r := Deliver(cfg, s, id, p, o.send, o.ack);
    DeliverRight(cfg, s, id, p, o.send, o.ack, pub);
    if r.verdict.Raised? {
      assert r.slot.pending == Some(p);
      PendingStarts(cfg, id, p, pub);
      FailedRight(cfg, r.slot, id, Some(p.meta), Some(p.attachments), o, pub);
    }
  }

  /** One call of `process` sends only right emails, and keeps a right one. */
  lemma ProcessRight(cfg: Settings, s: Slot, id: Id, o: Oracle, pub: Published)
    requires Loaded(cfg) && o.Valid() && Named(pub.meta) && SlotRight(cfg, id, pub, s)
    requires IsFresh(s) ==> Finds(o, pub)
    ensures OutRight(cfg, id, pub, Process(cfg, s, id, o))
  {
    if s.sent.Some? {
      AckSendsNothing(cfg, s, id, true, o.ack);
    } else if s.pending.Some? {
      ResendRight(cfg, s, id, o, pub);
    } else {
      FreshRight(cfg, s, id, o, pub);
    }
  }

  // ---- every run ----

  predicate WasPublished(h: seq<Mark>, id: Id, pub: Published) {
    Posted(id, pub.meta) in h && (pub.audio.Some? ==> Moved(id, pub.audio.value) in h)
  }

  /** What was published of the item makes the event right. */
  ghost predicate HasRight(cfg: Settings, h: seq<Mark>, id: Id, e: Effect)
    requires cfg.Valid()
  {
    exists pub :: WasPublished(h, id, pub) && EffectRight(cfg, id, pub, e)
  }

  predicate Matters(e: Effect) {
    e.SendCalled? || e.Accepted? || e.Fetched?
  }

  ghost predicate EffectsRight(cfg: Settings, h: seq<Mark>, id: Id, calls: seq<Effect>)
    requires cfg.Valid()
  {
    forall e | e in calls && Matters(e) :: HasRight(cfg, h, id, e)
  }

  ghost predicate HistoryRight(cfg: Settings, h: seq<Mark>, id: Id)
    requires cfg.Valid()
  {
    forall e | Call(id, e) in h && Matters(e) :: HasRight(cfg, h, id, e)
  }

  ghost predicate PendingRight(cfg: Settings, h: seq<Mark>, id: Id, s: Slot)
    requires cfg.Valid()
  {
    s.pending.Some? ==> HasRight(cfg, h, id, SendCalled(s.pending.value))
  }

  /** What is remembered and about to happen is right too, and the files are the published ones. */
  ghost predicate Addressed(cfg: Settings, s: System, id: Id)
    requires cfg.Valid()
  {
    && HistoryRight(cfg, s.history, id)
    && (id in s.jsons ==> Posted(id, s.jsons[id]) in s.history)
    && (id in s.wavs ==> Moved(id, s.wavs[id]) in s.history)
    && PendingRight(cfg, s.history, id, SlotIn(s.slots, id))
    && (s.mode.Fetching? && s.mode.id == id ==> Posted(id, s.mode.meta) in s.history)
    && (s.mode.Working? && s.mode.id == id ==>
          EffectsRight(cfg, s.history, id, s.mode.todo) && PendingRight(cfg, s.history, id, s.mode.after))
  }

  lemma HasRightGrows(cfg: Settings, h: seq<Mark>, m: Mark, id: Id, e: Effect)
    requires cfg.Valid() && HasRight(cfg, h, id, e)
    ensures HasRight(cfg, h + [m], id, e)
  {
    var pub :| WasPublished(h, id, pub) && EffectRight(cfg, id, pub, e);
    assert WasPublished(h + [m], id, pub);
  }

  lemma AllGrow(cfg: Settings, h: seq<Mark>, m: Mark, id: Id)
    requires cfg.Valid()
    ensures forall e | HasRight(cfg, h, id, e) :: HasRight(cfg, h + [m], id, e)
  {
    forall e | HasRight(cfg, h, id, e) ensures HasRight(cfg, h + [m], id, e) {
      HasRightGrows(cfg, h, m, id, e);
    }
  }

  lemma HistoryGrows(cfg: Settings, h: seq<Mark>, m: Mark, id: Id)
    requires cfg.Valid() && HistoryRight(cfg, h, id)
    requires m.Call? && m.id == id && Matters(m.e) ==> HasRight(cfg, h, id, m.e)
    ensures HistoryRight(cfg, h + [m], id)
  {
    AllGrow(cfg, h, m, id);
    forall e | Call(id, e) in h + [m] && Matters(e) ensures HasRight(cfg, h + [m], id, e) {
      assert Call(id, e) in h || Call(id, e) == m;
    }
  }

  /** A mark that is not an email or a fetch of the item's. */
  lemma MarkKeeps(cfg: Settings, s: System, m: Mark, id: Id)
    requires cfg.Valid() && Addressed(cfg, s, id)
    requires m.Call? && m.id == id && Matters(m.e) ==> HasRight(cfg, s.history, id, m.e)
    ensures Addressed(cfg, s.(history := s.history + [m]), id)
  {
    HistoryGrows(cfg, s.history, m, id);
    AllGrow(cfg, s.history, m, id);
  }

  lemma EmitKeeps(cfg: Settings, s: System, id: Id)
    requires cfg.Valid() && Addressed(cfg, s, id) && Enabled(cfg, s, Emit)
    ensures Addressed(cfg, Apply(cfg, s, Emit), id)
  {
    MarkKeeps(cfg, s, Call(s.mode.id, s.mode.todo[0]), id);
  }

  /** What was published of an item that is taken up, so that its email so far is right and a fetch finds it. */
  lemma WhatIsPublished(cfg: Settings, s: System, id: Id, o: Oracle) returns (pub: Published)
    requires cfg.Valid() && Inv(cfg, s) && Addressed(cfg, s, id) && Enabled(cfg, s, Attend(o))
    requires id == if s.mode.Polling? then s.mode.queue[0] else s.mode.id
    ensures WasPublished(s.history, id, pub) && SlotRight(cfg, id, pub, SlotIn(s.slots, id))
    ensures IsFresh(SlotIn(s.slots, id)) ==> Finds(o, pub)
  {
    var slot := SlotIn(s.slots, id);
    assert Good(cfg, s, id);
    if slot.pending.Some? {
      var e := SendCalled(slot.pending.value);
      pub :| WasPublished(s.history, id, pub) && EffectRight(cfg, id, pub, e);
    } else {
      pub := Published(if s.mode.Fetching? then s.mode.meta else s.jsons[id], WavIn(s, id));
    }
  }

  lemma AttendKeeps(cfg: Settings, s: System, id: Id, o: Oracle)
    requires Loaded(cfg) && Inv(cfg, s) && Addressed(cfg, s, id) && Enabled(cfg, s, Attend(o))
    requires forall meta | Posted(id, meta) in s.history :: Named(meta)
    ensures Addressed(cfg, Apply(cfg, s, Attend(o)), id)
  {
    if id == (if s.mode.Polling? then s.mode.queue[0] else s.mode.id) {
      var pub := WhatIsPublished(cfg, s, id, o);
      ProcessRight(cfg, SlotIn(s.slots, id), id, o, pub);
      OutIsRight(cfg, s.history, id, pub, Process(cfg, SlotIn(s.slots, id), id, o));
    }
  }

  lemma OutIsRight(cfg: Settings, h: seq<Mark>, id: Id, pub: Published, out: Out)
    requires cfg.Valid() && WasPublished(h, id, pub) && OutRight(cfg, id, pub, out)
    ensures EffectsRight(cfg, h, id, out.calls) && PendingRight(cfg, h, id, out.slot)
  {
    if out.slot.pending.Some? {
      assert EffectRight(cfg, id, pub, SendCalled(out.slot.pending.value));
    }
  }

  lemma MoveWavKeeps(cfg: Settings, s: System, id: Id, k: Id, audio: Bytes)
    requires cfg.Valid() && Addressed(cfg, s, id) && Enabled(cfg, s, MoveWav(k, audio))
    ensures Addressed(cfg, Apply(cfg, s, MoveWav(k, audio)), id)
  {
    MarkKeeps(cfg, s, Moved(k, audio), id);
  }

  lemma MoveJsonKeeps(cfg: Settings, s: System, id: Id, k: Id, meta: Meta)
    requires cfg.Valid() && Addressed(cfg, s, id) && Enabled(cfg, s, MoveJson(k, meta))
    ensures Addressed(cfg, Apply(cfg, s, MoveJson(k, meta)), id)
  {
    MarkKeeps(cfg, s, Posted(k, meta), id);
  }

  lemma CrashKeeps(cfg: Settings, s: System, id: Id)
    requires cfg.Valid() && Addressed(cfg, s, id)
    ensures Addressed(cfg, Apply(cfg, s, Crashes), id)
  {
    MarkKeeps(cfg, s, Crash, id);
  }

  lemma MoveKeepsAddresses(cfg: Settings, s: System, id: Id, m: Move)
    requires Loaded(cfg) && Inv(cfg, s) && Addressed(cfg, s, id) && Enabled(cfg, s, m)
    requires forall meta | Posted(id, meta) in s.history :: Named(meta)
    ensures Addressed(cfg, Apply(cfg, s, m), id)
  {
    match m
    case MoveWav(k, audio) => MoveWavKeeps(cfg, s, id, k, audio);
    case MoveJson(k, meta) => MoveJsonKeeps(cfg, s, id, k, meta);
    case Attend(o) => AttendKeeps(cfg, s, id, o);
    case Emit => EmitKeeps(cfg, s, id);
    case Crashes => CrashKeeps(cfg, s, id);
    case _ =>
  }

  lemma {:induction false} RunKeepsAddresses(cfg: Settings, moves: seq<Move>, id: Id)
    requires Loaded(cfg) && After(cfg, moves).Some?
    requires forall m | m in moves && m.MoveJson? :: Named(m.meta)
    ensures var s := After(cfg, moves).value;
      Addressed(cfg, s, id) && forall meta | Posted(id, meta) in s.history :: Named(meta)
    decreases |moves|
  {
    if moves != [] {
      var before := moves[..|moves| - 1];
      var m := moves[|moves| - 1];
      assert m in moves && forall k | k in before :: k in moves;
      RunKeepsAddresses(cfg, before, id);
      RunKeeps(cfg, before);
      MoveKeepsAddresses(cfg, After(cfg, before).value, id, m);
    }
  }

  /** Every email accepted for an item, in every run, is right for what was published of it: its metadata and, byte for
      byte, its recording. */
  lemma EmailsAreRight(cfg: Settings, moves: seq<Move>, id: Id, p: Pending, mid: string) returns (pub: Published)
    requires Loaded(cfg) && After(cfg, moves).Some?
    requires forall m | m in moves && m.MoveJson? :: Named(m.meta)
    requires Call(id, Accepted(p, mid)) in After(cfg, moves).value.history
    ensures WasPublished(After(cfg, moves).value.history, id, pub) && Right(cfg, id, pub, p)
  {
    RunKeepsAddresses(cfg, moves, id);
    var h := After(cfg, moves).value.history;
    var e := Accepted(p, mid);
    assert HasRight(cfg, h, id, e);
    pub :| WasPublished(h, id, pub) && EffectRight(cfg, id, pub, e);
  }

  /** Every fetch, in every run, returns the published metadata and, if it returns a recording, the published one. */
  lemma FetchesAreRight(cfg: Settings, moves: seq<Move>, id: Id, meta: Meta, audio: Option<Bytes>)
    requires Loaded(cfg) && After(cfg, moves).Some?
    requires forall m | m in moves && m.MoveJson? :: Named(m.meta)
    requires Call(id, Fetched(meta, audio)) in After(cfg, moves).value.history
    ensures WasPublished(After(cfg, moves).value.history, id, Published(meta, audio))
  {
    RunKeepsAddresses(cfg, moves, id);
    var h := After(cfg, moves).value.history;
    var e := Fetched(meta, audio);
    assert HasRight(cfg, h, id, e);
    var pub :| WasPublished(h, id, pub) && EffectRight(cfg, id, pub, e);
  }

  // ---- an item is published once ----

  /** Marks of producers for an item: none before its id is taken, and each kind at most once. */
  ghost predicate Once(s: System, id: Id) {
    && (id !in s.used ==> forall a :: Moved(id, a) !in s.history)
    && (id !in s.used || id in s.moved ==> forall m :: Posted(id, m) !in s.history)
    && (forall a, b | Moved(id, a) in s.history && Moved(id, b) in s.history :: a == b)
    && (forall m, n | Posted(id, m) in s.history && Posted(id, n) in s.history :: m == n)
    && (id in s.moved ==> id in s.used)
  }

  lemma {:induction false} PublishedOnce(cfg: Settings, moves: seq<Move>, id: Id)
    requires cfg.Valid() && After(cfg, moves).Some?
    ensures Once(After(cfg, moves).value, id)
    decreases |moves|
  {
    if moves != [] {
      PublishedOnce(cfg, moves[..|moves| - 1], id);
      StaysOnce(cfg, After(cfg, moves[..|moves| - 1]).value, id, moves[|moves| - 1]);
    }
  }

  lemma StaysOnce(cfg: Settings, s: System, id: Id, m: Move)
    requires cfg.Valid() && Once(s, id) && Enabled(cfg, s, m)
    ensures Once(Apply(cfg, s, m), id)
  {
  }

  /** So there is just one thing an email can carry: all that was published of an item is the same in every email. */
  lemma OneRecording(cfg: Settings, moves: seq<Move>, id: Id, a: Published, b: Published)
    requires cfg.Valid() && After(cfg, moves).Some?
    requires var h := After(cfg, moves).value.history; WasPublished(h, id, a) && WasPublished(h, id, b)
    ensures a.meta == b.meta && (a.audio.Some? && b.audio.Some? ==> a.audio == b.audio)
  {
    PublishedOnce(cfg, moves, id);
  }
}
