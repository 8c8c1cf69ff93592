/**
  What the delivery protocol promises about one item, as six small automata over the item's events.

  None of them looks at a Processor. Each reads the events of one item (publication by vm-finalize, the calls a worker
  makes, worker crashes) and goes to its Bad state on the first event that breaks its promise.
*/
module Watch {
  import opened Common
  import opened Machine

  datatype Event = WavPublished | JsonPublished(meta: Meta) | Did(e: Effect) | Crashed

  /** Deliveries. `now` counts the emails accepted since the last crash, `total` all of them; `hits` counts the crashes
      that found the item delivered with its JSON still in ready/. Bad: an email for an item already delivered or
      no longer in ready/, or an ack (or a removal) without exactly one delivery before it. */
  datatype Mail = Mail(posted: bool, json: bool, now: nat, total: nat, hits: nat) | MailBad

  function MailStep(m: Mail, ev: Event): Mail {
    if m.MailBad? then m
    else match ev
      case JsonPublished(_) => if m.posted then MailBad else m.(posted := true, json := true)
      case Did(Accepted(_, _)) => if m.now == 0 && m.json then m.(now := 1, total := m.total + 1) else MailBad
      case Did(AckCalled) => if m.now == 1 then m else MailBad
      case Did(WavRemoved) => if m.now == 1 then m else MailBad
      case Did(JsonRemoved) => if m.now == 1 then m.(json := false) else MailBad
      case Crashed => m.(hits := m.hits + (if m.json && m.now > 0 then 1 else 0), now := 0)
      case _ => m
  }

  /** The call log of one worker process: optionally send-failed, then one delivered outcome with the id the server
      gave, then optionally acked-after-retry with the same id. Everything else is Bad. */
  datatype Book = Book(failed: bool, accepted: Option<(Outcome, string)>, delivered: bool, acked: bool) | BookBad

  const BLANK: Book := Book(false, None, false, false)

  function BookStep(b: Book, ev: Event): Book {
    if b.BookBad? then b
    else match ev
      case Did(Accepted(p, mid)) => b.(accepted := Some((p.outcome, mid)))
      case Did(Recorded(_, SendFailed, _, mid)) =>
        if !b.failed && !b.delivered && mid.None? then b.(failed := true) else BookBad
      case Did(Recorded(_, AckedAfterRetry, _, mid)) =>
        if b.delivered && !b.acked && b.accepted.Some? && mid == Some(b.accepted.value.1) then b.(acked := true)
        else BookBad
      case Did(Recorded(_, Sent(outcome), _, mid)) =>
        if !b.delivered && b.accepted.Some? && mid.Some? && b.accepted.value == (outcome, mid.value)
        then b.(delivered := true) else BookBad
      case Crashed => BLANK
      case _ => b
  }

  /** The cached email. While one is cached no fetch, transcription or summary runs and every send is exactly it;
      giving up on it (in a later call than the one that cached it) keeps its attachments; after delivery nothing is
      sent or fetched again. */
  datatype Cache =
    | Fresh
    | Cached(p: Pending, early: bool)
    | Dropped(kept: Option<seq<Attachment>>)
    | Finished
    | CacheBad

  function CacheStep(c: Cache, ev: Event): Cache {
    if c.CacheBad? then c
    else match ev
      case Did(Began) => if c.Cached? then c.(early := false) else if c.Dropped? then Fresh else c
      case Did(GetCalled) => if c.Fresh? then c else CacheBad
      case Did(Fetched(_, _)) => if c.Fresh? then c else CacheBad
      case Did(SpeechChecked(_)) => if c.Fresh? then c else CacheBad
      case Did(TranscribeCalled(_, _, _)) => if c.Fresh? then c else CacheBad
      case Did(SummariseCalled(_, _, _)) => if c.Fresh? then c else CacheBad
      case Did(SendCalled(q)) => (
        match c
        case Fresh => Cached(q, true)
        case Cached(p, _) => if p == q then c else CacheBad
        case Dropped(kept) => if kept.Some? && kept.value != q.attachments then CacheBad else Cached(q, true)
        case _ => CacheBad)
      case Did(Accepted(q, _)) => if c.Cached? && c.p == q then Finished else CacheBad
      case Did(GaveUp) => (
        match c
        case Fresh => Dropped(None)
        case Cached(p, early) => Dropped(if early then None else Some(p.attachments))
        case _ => CacheBad)
      case Crashed => Fresh
      case _ => c
  }

  /** Escalation: a give-up happens exactly on a failure numbered max, and the number of a failure is the failures counted
      since the last give-up less those that a refusal cleared. Only a refusal in a call that fetched (`fetched`) clears
      them; `spent` is how many it cleared. Nothing is counted after delivery. */
  datatype Strikes = Strikes(count: nat, spent: nat, fetched: bool, due: bool, over: bool) | StrikesBad

  const NO_STRIKES: Strikes := Strikes(0, 0, false, false, false)

  function StrikesStep(max: int, k: Strikes, ev: Event): Strikes {
    if k.StrikesBad? then k
    else match ev
      case Crashed => NO_STRIKES
      case Did(GaveUp) => if k.due then NO_STRIKES.(fetched := k.fetched) else StrikesBad
      case Did(FailureCounted(n)) =>
        if k.due || k.over || n > max || n + k.spent != k.count + 1 then StrikesBad
        else k.(count := k.count + 1, due := n == max)
      case Did(Began) => if k.due then StrikesBad else k.(fetched := false)
      case Did(GetCalled) => if k.due then StrikesBad else k.(fetched := true)
      case Did(Refused) =>
        if k.due || k.over || (k.fetched && k.spent > 0) then StrikesBad
        else if k.fetched then k.(spent := k.count) else k
      case Did(Accepted(_, _)) => if k.due then StrikesBad else k.(over := true)
      case _ => if k.due then StrikesBad else k
  }

  /** The "ack failing" alert: at most one per item and process when the limit is at least 2. */
  datatype Alarm = Alarm(raised: nat) | AlarmBad

  function AlarmStep(max: int, a: Alarm, ev: Event): Alarm {
    if a.AlarmBad? then a
    else match ev
      case Did(AckAlerted) => if max >= 2 && a.raised >= 1 then AlarmBad else Alarm(a.raised + 1)
      case Crashed => Alarm(0)
      case _ => a
  }

  /** The item's two files. Bad: a fetch whose audio disagrees with the metadata although no crash came between the
      removal of the WAV and it; a JSON removed while its WAV is still there; a JSON published without its WAV. */
  datatype Shelf = Shelf(wav: bool, json: Option<Meta>, posted: bool, cut: bool, crashed: bool) | ShelfBad

  function ShelfStep(s: Shelf, ev: Event): Shelf {
    if s.ShelfBad? then s
    else match ev
      case WavPublished => if s.wav || s.posted then ShelfBad else s.(wav := true)
      case JsonPublished(m) =>
        if !s.posted && m.hasAudio == Some(s.wav) then s.(json := Some(m), posted := true) else ShelfBad
      case Did(WavRemoved) => if s.json.Some? || s.cut then s.(wav := false, cut := true) else ShelfBad
      case Did(JsonRemoved) => if s.wav then ShelfBad else s.(json := None)
      case Did(Fetched(m, audio)) =>
        if s.json == Some(m) && (s.cut ==> s.crashed) && audio.Some? == (m.hasAudio == Some(true) && !s.cut) then s
        else ShelfBad
      case Crashed => s.(crashed := true)
      case _ => s
  }

  datatype Watch = Watch(mail: Mail, book: Book, cache: Cache, strikes: Strikes, alarm: Alarm, shelf: Shelf)
  {
    predicate Ok() {
      !mail.MailBad? && !book.BookBad? && !cache.CacheBad? && !strikes.StrikesBad? && !alarm.AlarmBad? &&
      !shelf.ShelfBad?
    }
  }

  const START: Watch := Watch(Mail(false, false, 0, 0, 0), BLANK, Fresh, NO_STRIKES, Alarm(0),
                              Shelf(false, None, false, false, false))

  function Step(max: int, w: Watch, ev: Event): Watch {
    Watch(MailStep(w.mail, ev), BookStep(w.book, ev), CacheStep(w.cache, ev), StrikesStep(max, w.strikes, ev),
          AlarmStep(max, w.alarm, ev), ShelfStep(w.shelf, ev))
  }

  function Replay(max: int, w: Watch, calls: seq<Effect>): Watch
    decreases |calls|
  {
    if calls == [] then w else Replay(max, Step(max, w, Did(calls[0])), calls[1..])
  }

  lemma {:induction false} ReplayAppend(max: int, w: Watch, a: seq<Effect>, b: seq<Effect>)
    ensures Replay(max, w, a + b) == Replay(max, Replay(max, w, a), b)
    decreases |a|
  {
    if a == [] {
      assert a + b == b;
    } else {
      assert (a + b)[1..] == a[1..] + b;
      ReplayAppend(max, Step(max, w, Did(a[0])), a[1..], b);
    }
  }

  lemma Replay1(max: int, w: Watch, a: Effect)
    ensures Replay(max, w, [a]) == Step(max, w, Did(a))
  {
  }

  lemma Replay2(max: int, w: Watch, a: Effect, b: Effect)
    ensures Replay(max, w, [a, b]) == Step(max, Step(max, w, Did(a)), Did(b))
  {
    assert [a, b][1..] == [b];
    Replay1(max, Step(max, w, Did(a)), b);
  }

  lemma Replay3(max: int, w: Watch, a: Effect, b: Effect, c: Effect)
    ensures Replay(max, w, [a, b, c]) == Step(max, Step(max, Step(max, w, Did(a)), Did(b)), Did(c))
  {
    assert [a, b, c][1..] == [b, c];
    Replay2(max, Step(max, w, Did(a)), b, c);
  }

  /** A broken promise stays broken. */
  lemma {:induction false} ReplayOk(max: int, w: Watch, calls: seq<Effect>)
    requires Replay(max, w, calls).Ok()
    ensures w.Ok()
    decreases |calls|
  {
    if calls != [] {
      ReplayOk(max, Step(max, w, Did(calls[0])), calls[1..]);
    }
  }
}
