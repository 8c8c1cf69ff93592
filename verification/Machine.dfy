/**
  The per-item state machine of aivoicemail/processor.py, as functions.

  `Slot` is everything a Processor remembers about one item. The outside world is an `Oracle` that fixes what every
  call made while the item is processed answers: a value, None, a SendError, or any other exception. `Process` gives
  the next slot, the result, and the calls made, in order. `Processor.dfy` proves the class against these functions;
  the theorems about them are in `Keeps.dfy`, `Delivery.dfy` and `Addressing.dfy`.
*/
module Machine {
  import opened Common
  import opened Config
  import opened Text

  type Id = string
  type Bytes = seq<bv8>

  datatype Meta = Meta(id: Id, line: Option<string>, lang: Option<string>, hasAudio: Option<bool>)
  datatype Attachment = Attachment(name: string, content: Bytes)
  datatype Email = Email(subject: string, text: string)
  datatype Providers = Providers(transcript: Option<string>, summary: Option<string>)

  datatype Outcome =
    | Message | Missed | FallbackSpeech | FallbackTranscription | FallbackSummary | FallbackFailedRepeatedly

  /** The outcomes the call log knows: those of an email, and two more. */
  datatype Entry = Sent(outcome: Outcome) | SendFailed | AckedAfterRetry

  /** A rendered email waiting to be accepted by the mail server. */
  datatype Pending = Pending(meta: Meta, outcome: Outcome, to: string, email: Email,
                             attachments: seq<Attachment>, providers: Providers)

  datatype Delivered = Delivered(meta: Meta, mid: string)

  datatype Slot = Slot(sent: Option<Delivered>, pending: Option<Pending>, failures: nat,
                       giveUpAlert: bool, sendFailedLogged: bool)

  const EMPTY: Slot := Slot(None, None, 0, false, false)
  const NO_PROVIDERS := Providers(None, None)

  datatype Settings = Settings(lines: seq<Line>, maxFailures: int, minSpeech: real, alerter: bool) {
    /** What config.load guarantees: at least one line, a positive limit. */
    predicate Valid() {
      |lines| > 0 && maxFailures >= 1
    }
  }

  /** The calls a Processor makes, and the two counters it keeps, in the order they happen. */
  datatype Effect =
    | Began
    | GetCalled
    | Fetched(meta: Meta, audio: Option<Bytes>)
    | SpeechChecked(found: SpeechAnswer)
    | TranscribeCalled(lang: string, candidates: seq<string>, heard: ProviderAnswer)
    | SummariseCalled(transcript: string, language: string, said: ProviderAnswer)
    | SendCalled(p: Pending)
    | Refused
    | Accepted(p: Pending, mid: string)
    | Recorded(meta: Meta, entry: Entry, providers: Providers, noted: Option<string>)
    | FailureCounted(count: nat)
    | GaveUp
    | AckCalled
    | WavRemoved
    | JsonRemoved
    | AckFailureCounted(count: nat)
    | GiveUpAlerted
    | AckAlerted

  datatype GetAnswer = Got(meta: Meta, wav: Option<Bytes>) | GetSpoolError | GetRaises
  datatype SpeechAnswer = Seconds(seconds: real) | SpeechRaises
  datatype ProviderAnswer = Answered(text: string, provider: string) | NoAnswer | ProviderRaises
  datatype RenderAnswer = Rendered(email: Email) | RenderRaises
  datatype SendAnswer = Accepts(mid: string) | RaisesSendError | SendRaises

  /** ack either removes both files, or raises after removing the first `removed` of them. Over SSH the remote side
      may have removed both and the answer still be lost. */
  datatype AckAnswer = Removes | AckRaises(removed: nat) {
    predicate Valid() {
      this.AckRaises? ==> removed <= 2
    }
  }

  datatype Oracle = Oracle(get: GetAnswer, wavReadable: bool, speech: SpeechAnswer, transcribe: ProviderAnswer,
                           summarise: ProviderAnswer, render: RenderAnswer, send: SendAnswer, ack: AckAnswer,
                           onDisk: Option<Bytes>, diskReadable: bool, fallback: RenderAnswer, sendAgain: SendAnswer)
  {
    /** A fetch that returns leaves in the work directory just what it returned. */
    predicate Valid() {
      ack.Valid() && (get.Got? ==> onDisk == get.wav)
    }
  }

  datatype Verdict = Acked | Retry | Raised
  datatype Out = Out(slot: Slot, calls: seq<Effect>, verdict: Verdict)

  /** What `ack` removes, WAV before JSON. */
  function Removals(n: nat): seq<Effect>
    requires n <= 2
  {
    [WavRemoved, JsonRemoved][..n]
  }

  /** `_ack_failed`: count, and tell the operator when the count reaches the limit. */
  function AckFailed(cfg: Settings, s: Slot): Out {
    var n := s.failures + 1;
    Out(s.(failures := n),
        [AckFailureCounted(n)] + (if n == cfg.maxFailures && cfg.alerter then [AckAlerted] else []),
        Retry)
  }

  /** `_ack`. */
  function Ack(cfg: Settings, s: Slot, id: Id, retry: bool, a: AckAnswer): Out
    requires a.Valid()
  {
    match a
    case AckRaises(n) =>
      var r := AckFailed(cfg, s);
      Out(r.slot, [AckCalled] + Removals(n) + r.calls, r.verdict)
    case Removes =>
      var d := s.sent.GetOr(Delivered(Meta(id, None, None, None), ""));
      Out(s.(sent := None, sendFailedLogged := false),
          [AckCalled] + Removals(2) +
          (if retry
           then [Recorded(d.meta, AckedAfterRetry, NO_PROVIDERS, if s.sent.Some? then Some(d.mid) else None)] else []),
          Acked)
  }

  /** `_deliver` after the mail server accepted: from here on the item may only ever be acked. */
  function AfterAccept(cfg: Settings, s: Slot, id: Id, p: Pending, mid: string, a: AckAnswer): Out
    requires a.Valid()
  {
    var alerts := if s.giveUpAlert && cfg.alerter then [GiveUpAlerted] else [];
    var r := Ack(cfg, s.(pending := None, sent := Some(Delivered(p.meta, mid)), failures := 0, giveUpAlert := false),
                 id, false, a);
    Out(r.slot, [Accepted(p, mid), Recorded(p.meta, Sent(p.outcome), p.providers, Some(mid))] + alerts + r.calls, r.verdict)
  }

  /** `_deliver`: cache the email, send it, then ack. */
  function Deliver(cfg: Settings, s: Slot, id: Id, p: Pending, snd: SendAnswer, a: AckAnswer): Out
    requires a.Valid()
  {
    var cached := s.(pending := Some(p));
    match snd
    case SendRaises => Out(cached, [SendCalled(p)], Raised)
    case RaisesSendError =>
      if s.sendFailedLogged then Out(cached, [SendCalled(p), Refused], Retry)
      else Out(cached.(sendFailedLogged := true),
               [SendCalled(p), Refused, Recorded(p.meta, SendFailed, p.providers, None)], Retry)
    case Accepts(mid) =>
      var r := AfterAccept(cfg, cached, id, p, mid, a);
      Out(r.slot, [SendCalled(p)] + r.calls, r.verdict)
  }

  datatype Composed = Ready(p: Pending, calls: seq<Effect>) | Broken(calls: seq<Effect>)

  function Finish(r: RenderAnswer, meta: Meta, outcome: Outcome, to: string, attachments: seq<Attachment>,
                  providers: Providers, calls: seq<Effect>): Composed {
    match r
    case Rendered(email) => Ready(Pending(meta, outcome, to, email, attachments, providers), calls)
    case RenderRaises => Broken(calls)
  }

  /** The part of `_pipeline` before `_deliver`: speech check, then the two provider chains, choosing the email. */
  function Compose(cfg: Settings, id: Id, meta: Meta, wav: Option<Bytes>, o: Oracle): Composed {
    var found := if meta.line.Some? then LineWithId(cfg.lines, meta.line.value) else None;
    if found.None? || (wav.Some? && !o.wavReadable) then Broken([])
    else
      var line := found.value;
      var attachment := if wav.Some? then [Attachment(id + ".wav", wav.value)] else [];
      var checked := if wav.Some? then [SpeechChecked(o.speech)] else [];
      if wav.None? then Finish(o.render, meta, Missed, line.mailbox, [], NO_PROVIDERS, checked)
      else if o.speech.SpeechRaises? then
        Finish(o.render, meta, FallbackSpeech, line.mailbox, attachment, NO_PROVIDERS, checked)
      else if o.speech.seconds < cfg.minSpeech then
        Finish(o.render, meta, Missed, line.mailbox, [], NO_PROVIDERS, checked)
      else if meta.lang.None? then Broken(checked)
      else
        var heard := checked + [TranscribeCalled(meta.lang.value, line.menu, o.transcribe)];
        match o.transcribe
        case ProviderRaises => Broken(heard)
        case NoAnswer => Finish(o.render, meta, FallbackTranscription, line.mailbox, attachment, NO_PROVIDERS, heard)
        case Answered(transcript, listener) =>
          var asked := heard + [SummariseCalled(transcript, line.emailLanguage, o.summarise)];
          match o.summarise
          case ProviderRaises => Broken(asked)
          case NoAnswer =>
            Finish(o.render, meta, FallbackSummary, line.mailbox, attachment, Providers(Some(listener), None), asked)
          case Answered(_, writer) =>
            Finish(o.render, meta, Message, line.mailbox, [], Providers(Some(listener), Some(writer)), asked)
  }

  function Pipeline(cfg: Settings, s: Slot, id: Id, meta: Meta, wav: Option<Bytes>, o: Oracle): Out
    requires o.Valid()
  {
    match Compose(cfg, id, meta, wav, o)
    case Broken(calls) => Out(s, calls, Raised)
    case Ready(p, calls) =>
      var r := Deliver(cfg, s, id, p, o.send, o.ack);
      Out(r.slot, calls + r.calls, r.verdict)
  }

  /** `" ".join(str(value).split())[:64] or "?"`. */
  function Clean(s: string): string {
    var joined := Join(Split(s));
    var cut := if |joined| > 64 then joined[..64] else joined;
    if cut == "" then "?" else cut
  }

  /** The fallback's attachments: those of the cached email when there was one, else the WAV still in the work
      directory. None when reading it raises. */
  function FallbackAttachments(id: Id, kept: Option<seq<Attachment>>, o: Oracle): Option<seq<Attachment>> {
    if kept.Some? then kept
    else if o.onDisk.None? then Some([])
    else if o.diskReadable then Some([Attachment(id + ".wav", o.onDisk.value)])
    else None
  }

  function FallbackEmail(cfg: Settings, id: Id, meta: Option<Meta>, email: Email, atts: seq<Attachment>): Pending
    requires cfg.Valid()
  {
    var name := if meta.Some? then meta.value.line else None;
    var found := if name.Some? then LineWithId(cfg.lines, name.value) else None;
    Pending(Meta(id, Some(Clean(name.GetOr("?"))), None, None), FallbackFailedRepeatedly,
            found.GetOr(cfg.lines[0]).mailbox, email, atts, NO_PROVIDERS)
  }

  /** `_give_up`: reset first, then send what there is. Never raises. */
  function GiveUp(cfg: Settings, s: Slot, id: Id, meta: Option<Meta>, kept: Option<seq<Attachment>>, o: Oracle): Out
    requires cfg.Valid() && o.Valid()
  {
    var reset := s.(failures := 0, pending := None);
    var atts := FallbackAttachments(id, kept, o);
    if atts.None? || o.fallback.RenderRaises? then Out(reset, [GaveUp], Retry)
    else
      var p := FallbackEmail(cfg, id, meta, o.fallback.email, atts.value);
      var r := Deliver(cfg, reset.(giveUpAlert := true), id, p, o.sendAgain, o.ack);
      Out(r.slot, [GaveUp] + r.calls, if r.verdict.Raised? then Retry else r.verdict)
  }

  /** The exception handlers: a delivered item only has its ack retried; any other one is counted and given up on
      once the limit is reached. `kept` holds the attachments of an email cached by an earlier call. */
  function Failed(cfg: Settings, s: Slot, id: Id, meta: Option<Meta>, kept: Option<seq<Attachment>>, o: Oracle): Out
    requires cfg.Valid() && o.Valid()
  {
    if s.sent.Some? then AckFailed(cfg, s)
    else
      var n := s.failures + 1;
      if n < cfg.maxFailures then Out(s.(failures := n), [FailureCounted(n)], Retry)
      else
        var r := GiveUp(cfg, s, id, meta, kept, o);
        Out(r.slot, [FailureCounted(n)] + r.calls, r.verdict)
  }

  /** `_retry_saved` around an attempt that already ran: only a genuine success clears the counter. */
  function RetrySaved(cfg: Settings, r: Out, id: Id, o: Oracle): Out
    requires cfg.Valid() && o.Valid()
  {
    if r.verdict.Raised? then
      var p := r.slot.pending;
      var f := Failed(cfg, r.slot, id,
                      Some(if p.Some? then p.value.meta else Meta(id, None, None, None)),
                      Some(if p.Some? then p.value.attachments else []), o);
      Out(f.slot, [Began] + r.calls + f.calls, f.verdict)
    else
      Out(if r.verdict.Acked? then r.slot.(failures := 0) else r.slot, [Began] + r.calls, r.verdict)
  }

  /** A first attempt, or one after nothing was cached: fetch, run the pipeline, clear the counter unless it raised. */
  function ProcessFresh(cfg: Settings, s: Slot, id: Id, o: Oracle): Out
    requires cfg.Valid() && o.Valid()
  {
    match o.get
    case GetSpoolError => Out(s, [Began, GetCalled], Retry)
    case GetRaises =>
      var f := Failed(cfg, s, id, None, None, o);
      Out(f.slot, [Began, GetCalled] + f.calls, f.verdict)
    case Got(meta, wav) =>
      var r := Pipeline(cfg, s, id, meta, wav, o);
      var before := [Began, GetCalled, Fetched(meta, wav)] + r.calls;
      if r.verdict.Raised? then
        var f := Failed(cfg, r.slot, id, Some(meta), None, o);
        Out(f.slot, before + f.calls, f.verdict)
      else Out(r.slot.(failures := 0), before, r.verdict)
  }

  function Process(cfg: Settings, s: Slot, id: Id, o: Oracle): Out
    requires cfg.Valid() && o.Valid()
  {
    if s.sent.Some? then RetrySaved(cfg, Ack(cfg, s, id, true, o.ack), id, o)
    else if s.pending.Some? then RetrySaved(cfg, Deliver(cfg, s, id, s.pending.value, o.send, o.ack), id, o)
    else ProcessFresh(cfg, s, id, o)
  }
}
