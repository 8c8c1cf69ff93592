/**
  What a worker does for an item between two times it takes it up is what one call of `process` does. With this every
  fact about one call holds at every point of every run; here, when a fallback keeps the attachments of the email it
  replaces.
*/
module Calls {
  import opened Common
  import opened Machine
  import opened Protocol
  import opened Delivery

  // ---- one call ----

  /** Calls that open nothing, look nothing up, send nothing and give nothing up. */
  predicate Closing(calls: seq<Effect>) {
    forall e | e in calls :: !e.Began? && !e.Fetched? && !e.SendCalled? && !e.GaveUp?
  }

  lemma DeliverSendsOnce(cfg: Settings, s: Slot, id: Id, p: Pending, snd: SendAnswer, a: AckAnswer)
    requires a.Valid()
    ensures var r := Deliver(cfg, s, id, p, snd, a);
      && r.calls != [] && r.calls[0] == SendCalled(p) && Closing(r.calls[1..])
      && (r.verdict.Raised? ==> r.calls == [SendCalled(p)])
  {
    if snd.Accepts? {
      AcceptCloses(cfg, s.(pending := Some(p)), id, p, snd.mid, a);
    }
  }

  lemma AckCloses(cfg: Settings, s: Slot, id: Id, retry: bool, a: AckAnswer)
    requires a.Valid()
    ensures Closing(Ack(cfg, s, id, retry, a).calls)
  {
  }

  lemma AcceptCloses(cfg: Settings, s: Slot, id: Id, p: Pending, mid: string, a: AckAnswer)
    requires a.Valid()
    ensures Closing(AfterAccept(cfg, s, id, p, mid, a).calls)
  {
    var taken := s.(pending := None, sent := Some(Delivered(p.meta, mid)), failures := 0, giveUpAlert := false);
    AckCloses(cfg, taken, id, false, a);
  }

  /** The calls of an exception handler: nothing of interest, or a counted failure, a give-up and perhaps a fallback. */
  predicate Handled(calls: seq<Effect>, kept: seq<Attachment>) {
    || Closing(calls)
    || (&& |calls| >= 2 && calls[0].FailureCounted? && calls[1] == GaveUp
        && (|calls| > 2 ==> calls[2].SendCalled? && Closing(calls[3..]) && calls[2].p.attachments == kept))
  }

  /** The attachments a fallback has when none are handed to it. */
  function OnHand(id: Id, o: Oracle): seq<Attachment> {
    if o.onDisk.Some? then [Attachment(id + ".wav", o.onDisk.value)] else []
  }

  lemma FailedIsHandled(cfg: Settings, s: Slot, id: Id, meta: Option<Meta>, kept: Option<seq<Attachment>>, o: Oracle)
    requires cfg.Valid() && o.Valid()
    ensures Handled(Failed(cfg, s, id, meta, kept, o).calls, kept.GetOr(OnHand(id, o)))
  {
    var atts := FallbackAttachments(id, kept, o);
    if s.sent.None? && s.failures + 1 >= cfg.maxFailures && atts.Some? && o.fallback.Rendered? {
      var reset := s.(failures := 0, pending := None, giveUpAlert := true);
      var p := FallbackEmail(cfg, id, meta, o.fallback.email, atts.value);
      DeliverSendsOnce(cfg, reset, id, p, o.sendAgain, o.ack);
      var sent := Deliver(cfg, reset, id, p, o.sendAgain, o.ack).calls;
      var calls := Failed(cfg, s, id, meta, kept, o).calls;
      assert calls == [FailureCounted(s.failures + 1)] + ([GaveUp] + sent);
      SentIsHandled(calls, sent, p.attachments);
    }
  }

  lemma SentIsHandled(calls: seq<Effect>, sent: seq<Effect>, kept: seq<Attachment>)
    requires |calls| >= 2 && calls[0].FailureCounted? && calls == [calls[0]] + ([GaveUp] + sent)
    requires sent != [] && sent[0].SendCalled? && sent[0].p.attachments == kept && Closing(sent[1..])
    ensures Handled(calls, kept)
  {
    assert calls[3..] == sent[1..];
  }

  /** The opening of a call. */
  predicate Leads(lead: seq<Effect>) {
    && lead != [] && lead[0] == Began
    && forall k | 0 < k < |lead| :: !lead[k].Began? && !lead[k].SendCalled? && !lead[k].GaveUp?
  }

  /** The shape of one call: an opening without sends, perhaps one send, and the exception handler. The recording the
      call fetched, if any, is the one the fallback would find. */
  predicate Shape(calls: seq<Effect>, lead: seq<Effect>, send: seq<Effect>, tail: seq<Effect>, kept: seq<Attachment>) {
    && calls == lead + send + tail && Leads(lead)
    && (send == [] || (|send| == 1 && send[0].SendCalled?)) && Handled(tail, kept)
  }

  /** The recording that a call fetched. */
  function FetchedIn(lead: seq<Effect>): Option<Bytes> {
    if |lead| > 2 && lead[2].Fetched? then lead[2].audio else None
  }

  /** How the attachments of the email relate to those a fallback of the same call would have. */
  predicate KeptAs(lead: seq<Effect>, send: seq<Effect>, kept: seq<Attachment>) {
    && (forall k | 0 <= k < |lead| && lead[k].Fetched? :: k == 2)
    && (send != [] && send[0].SendCalled? ==>
          (send[0].p.attachments == kept <==>
             FetchedIn(lead).None? || (!send[0].p.outcome.Message? && !send[0].p.outcome.Missed?)))
  }

  lemma ResendShape(cfg: Settings, s: Slot, id: Id, o: Oracle)
    returns (lead: seq<Effect>, send: seq<Effect>, tail: seq<Effect>, kept: seq<Attachment>)
    requires cfg.Valid() && o.Valid() && s.sent.None? && s.pending.Some?
    ensures Shape(Process(cfg, s, id, o).calls, lead, send, tail, kept) && KeptAs(lead, send, kept)
  {
    var p := s.pending.value;
    var r := Deliver(cfg, s, id, p, o.send, o.ack);
    DeliverSendsOnce(cfg, s, id, p, o.send, o.ack);
    lead, send, kept := [Began], [SendCalled(p)], p.attachments;
    FirstApart([Began], r.calls);
    if r.verdict.Raised? {
      tail := Failed(cfg, r.slot, id, Some(p.meta), Some(kept), o).calls;
      FailedIsHandled(cfg, r.slot, id, Some(p.meta), Some(kept), o);
    } else {
      tail := r.calls[1..];
    }
  }

  lemma FirstApart(before: seq<Effect>, calls: seq<Effect>)
    requires calls != []
    ensures before + calls == before + [calls[0]] + calls[1..]
  {
  }

  lemma PipelineShape(cfg: Settings, s: Slot, id: Id, meta: Meta, wav: Option<Bytes>, o: Oracle)
    returns (asked: seq<Effect>, send: seq<Effect>, rest: seq<Effect>)
    requires cfg.Valid() && o.Valid() && s.sent.None?
    ensures forall e | e in asked :: e.SpeechChecked? || e.TranscribeCalled? || e.SummariseCalled?
    ensures var r := Pipeline(cfg, s, id, meta, wav, o);
      r.calls == asked + send + rest && Closing(rest) && (r.verdict.Raised? ==> rest == [])
    ensures send == [] || (|send| == 1 && send[0].SendCalled? && ComposedFrom(id, wav, send[0].p))
  {
    var c := Compose(cfg, id, meta, wav, o);
    asked, send, rest := c.calls, [], [];
    ComposeLooksOnly(cfg, id, meta, wav, o);
    if c.Ready? {
      DeliverSendsOnce(cfg, s, id, c.p, o.send, o.ack);
      var calls := Deliver(cfg, s, id, c.p, o.send, o.ack).calls;
      send, rest := [SendCalled(c.p)], calls[1..];
      FirstApart(asked, calls);
    }
  }

  /** The attachments of an email as `_pipeline` composes it. */
  predicate ComposedFrom(id: Id, wav: Option<Bytes>, p: Pending) {
    p.attachments ==
    if p.outcome.Message? || p.outcome.Missed? || wav.None? then [] else [Attachment(id + ".wav", wav.value)]
  }

  lemma ComposeLooksOnly(cfg: Settings, id: Id, meta: Meta, wav: Option<Bytes>, o: Oracle)
    ensures var c := Compose(cfg, id, meta, wav, o);
      && (forall e | e in c.calls :: e.SpeechChecked? || e.TranscribeCalled? || e.SummariseCalled?)
      && (c.Ready? ==> ComposedFrom(id, wav, c.p))
  {
  }

  lemma RaisedShape(cfg: Settings, s: Slot, id: Id, o: Oracle)
    returns (lead: seq<Effect>, send: seq<Effect>, tail: seq<Effect>)
    requires cfg.Valid() && o.Valid() && s.sent.None? && s.pending.None? && !o.get.Got?
    ensures var kept := OnHand(id, o);
      Shape(Process(cfg, s, id, o).calls, lead, send, tail, kept) && KeptAs(lead, send, kept)
  {
    lead, send, tail := [Began, GetCalled], [], [];
    if o.get.GetRaises? {
      tail := Failed(cfg, s, id, None, None, o).calls;
      FailedIsHandled(cfg, s, id, None, None, o);
    }
    assert lead + send + tail == lead + tail;
    assert Shape(Process(cfg, s, id, o).calls, lead, send, tail, OnHand(id, o));
  }

  lemma GotShape(cfg: Settings, s: Slot, id: Id, meta: Meta, wav: Option<Bytes>, o: Oracle)
    returns (lead: seq<Effect>, send: seq<Effect>, tail: seq<Effect>)
    requires cfg.Valid() && o.Valid() && s.sent.None? && s.pending.None? && o.get == Got(meta, wav)
    ensures var kept := OnHand(id, o);
      Shape(Process(cfg, s, id, o).calls, lead, send, tail, kept) && KeptAs(lead, send, kept)
  {
    var asked, rest;
    asked, send, rest := PipelineShape(cfg, s, id, meta, wav, o);
    lead := [Began, GetCalled, Fetched(meta, wav)] + asked;
    tail := GotTail(cfg, s, id, meta, wav, o, asked, send, rest);
    LeadKept(id, meta, wav, asked, send);
    assert OnHand(id, o) == if wav.Some? then [Attachment(id + ".wav", wav.value)] else [];
    assert Shape(Process(cfg, s, id, o).calls, lead, send, tail, OnHand(id, o));
  }

  lemma FetchedThenFails(cfg: Settings, s: Slot, id: Id, meta: Meta, wav: Option<Bytes>, o: Oracle)
    requires cfg.Valid() && o.Valid() && s.sent.None? && s.pending.None? && o.get == Got(meta, wav)
    requires Pipeline(cfg, s, id, meta, wav, o).verdict.Raised?
    ensures var r := Pipeline(cfg, s, id, meta, wav, o);
      Process(cfg, s, id, o).calls == [Began, GetCalled, Fetched(meta, wav)] + r.calls
                                      + Failed(cfg, r.slot, id, Some(meta), None, o).calls
  {
  }

  lemma FetchedThenReturns(cfg: Settings, s: Slot, id: Id, meta: Meta, wav: Option<Bytes>, o: Oracle)
    requires cfg.Valid() && o.Valid() && s.sent.None? && s.pending.None? && o.get == Got(meta, wav)
    requires !Pipeline(cfg, s, id, meta, wav, o).verdict.Raised?
    ensures Process(cfg, s, id, o).calls
      == [Began, GetCalled, Fetched(meta, wav)] + Pipeline(cfg, s, id, meta, wav, o).calls
  {
  }

  lemma Regroup(head: seq<Effect>, asked: seq<Effect>, send: seq<Effect>, rest: seq<Effect>, tail: seq<Effect>)
    ensures head + (asked + send + rest) == head + asked + send + rest
    ensures rest == [] ==> head + (asked + send + rest) + tail == head + asked + send + tail
  {
  }

  /** The calls after the send. */
  lemma GotTail(cfg: Settings, s: Slot, id: Id, meta: Meta, wav: Option<Bytes>, o: Oracle, asked: seq<Effect>,
                send: seq<Effect>, rest: seq<Effect>)
    returns (tail: seq<Effect>)
    requires cfg.Valid() && o.Valid() && s.sent.None? && s.pending.None? && o.get == Got(meta, wav)
    requires var r := Pipeline(cfg, s, id, meta, wav, o);
      r.calls == asked + send + rest && Closing(rest) && (r.verdict.Raised? ==> rest == [])
    ensures Process(cfg, s, id, o).calls == [Began, GetCalled, Fetched(meta, wav)] + asked + send + tail
    ensures Handled(tail, OnHand(id, o))
  {
    var r := Pipeline(cfg, s, id, meta, wav, o);
    var head := [Began, GetCalled, Fetched(meta, wav)];
    tail := rest;
    if r.verdict.Raised? {
      tail := Failed(cfg, r.slot, id, Some(meta), None, o).calls;
      FailedIsHandled(cfg, r.slot, id, Some(meta), None, o);
      FetchedThenFails(cfg, s, id, meta, wav, o);
    } else {
      FetchedThenReturns(cfg, s, id, meta, wav, o);
    }
    Regroup(head, asked, send, rest, tail);
  }

  lemma LeadKept(id: Id, meta: Meta, wav: Option<Bytes>, asked: seq<Effect>, send: seq<Effect>)
    requires forall e | e in asked :: e.SpeechChecked? || e.TranscribeCalled? || e.SummariseCalled?
    requires send == [] || (|send| == 1 && send[0].SendCalled? && ComposedFrom(id, wav, send[0].p))
    ensures Leads([Began, GetCalled, Fetched(meta, wav)] + asked)
    ensures KeptAs([Began, GetCalled, Fetched(meta, wav)] + asked, send,
                   if wav.Some? then [Attachment(id + ".wav", wav.value)] else [])
  {
    var lead := [Began, GetCalled, Fetched(meta, wav)] + asked;
    assert forall k | 3 <= k < |lead| :: lead[k] == asked[k - 3] && asked[k - 3] in asked;
  }

  /** Every call of `process` has the shape. */
  lemma ProcessShape(cfg: Settings, s: Slot, id: Id, o: Oracle)
    returns (lead: seq<Effect>, send: seq<Effect>, tail: seq<Effect>, kept: seq<Attachment>)
    requires cfg.Valid() && o.Valid()
    ensures Shape(Process(cfg, s, id, o).calls, lead, send, tail, kept) && KeptAs(lead, send, kept)
  {
    if s.sent.Some? {
      lead, send, kept := [Began], [], [];
      tail := Ack(cfg, s, id, true, o.ack).calls;
      AckCloses(cfg, s, id, true, o.ack);
    } else if s.pending.Some? {
      lead, send, tail, kept := ResendShape(cfg, s, id, o);
    } else {
      kept := OnHand(id, o);
      if o.get.Got? {
        lead, send, tail := GotShape(cfg, s, id, o.get.meta, o.get.wav, o);
      } else {
        lead, send, tail := RaisedShape(cfg, s, id, o);
      }
    }
  }

  /** The calls have the shape of one call. */
  ghost predicate Shaped(calls: seq<Effect>) {
    exists lead, send, tail, kept :: Shape(calls, lead, send, tail, kept) && KeptAs(lead, send, kept)
  }

  lemma ProcessIsShaped(cfg: Settings, s: Slot, id: Id, o: Oracle)
    requires cfg.Valid() && o.Valid()
    ensures Shaped(Process(cfg, s, id, o).calls)
  {
    var lead, send, tail, kept := ProcessShape(cfg, s, id, o);
  }

  lemma BeganFirst(calls: seq<Effect>)
    requires Shaped(calls)
    ensures calls != [] && calls[0] == Began && forall k | 0 < k < |calls| :: calls[k] != Began
  {
    var lead, send, tail, kept :| Shape(calls, lead, send, tail, kept) && KeptAs(lead, send, kept);
    assert forall k | 0 <= k < |tail| :: tail[k] in tail && (k >= 3 ==> tail[3..][k - 3] == tail[k]);
  }

  // ---- every call of every run ----

  /** What the present worker process did for the item since it last took it up. */
  function Since(h: seq<Mark>, id: Id): seq<Effect>
    decreases |h|
  {
    if h == [] || h[|h| - 1].Crash? then []
    else
      var m := h[|h| - 1];
      if m == Call(id, Began) then [Began]
      else Since(h[..|h| - 1], id) + (if m.Call? && m.id == id then [m.e] else [])
  }

  lemma SinceNext(h: seq<Mark>, m: Mark, id: Id)
    ensures Since(h + [m], id) ==
            if m.Crash? then [] else if m == Call(id, Began) then [Began]
            else Since(h, id) + (if m.Call? && m.id == id then [m.e] else [])
  {
    assert (h + [m])[..|h|] == h;
  }

  /** The calls of some call of `process` for the item. */
  ghost predicate Whole(cfg: Settings, id: Id, calls: seq<Effect>)
    requires cfg.Valid()
  {
    exists slot, o: Oracle :: o.Valid() && calls == Process(cfg, slot, id, o).calls
  }

  type Test = seq<Effect> -> bool

  ghost predicate Opens(whole: Test, part: seq<Effect>) {
    part == [] || exists full :: whole(full) && part <= full
  }

  /** The calls made since, with those still to be made, are one whole call. */
  ghost predicate Tracked(whole: Test, s: System, id: Id) {
    && Opens(whole, Since(s.history, id))
    && (s.mode.Working? && s.mode.id == id ==>
          exists full :: whole(full) &&
            (full == s.mode.todo || (Since(s.history, id) != [] && full == Since(s.history, id) + s.mode.todo)))
  }

  lemma EmitKeepsTrack(cfg: Settings, whole: Test, s: System, id: Id)
    requires cfg.Valid() && Tracked(whole, s, id) && Enabled(cfg, s, Emit) && forall calls | whole(calls) :: Shaped(calls)
    ensures Tracked(whole, Apply(cfg, s, Emit), id)
  {
    var e := s.mode.todo[0];
    SinceNext(s.history, Call(s.mode.id, e), id);
    if s.mode.id == id {
      var since := Since(s.history, id);
      var full :| whole(full) && (full == s.mode.todo || (since != [] && full == since + s.mode.todo));
      BeganFirst(full);
      OneFurther(full, since, s.mode.todo);
    }
  }

  /** The first of the calls still to be made joins those already made. */
  lemma OneFurther(full: seq<Effect>, since: seq<Effect>, todo: seq<Effect>)
    requires full != [] && full[0] == Began && (forall k | 0 < k < |full| :: full[k] != Began) && todo != []
    requires full == todo || (since != [] && full == since + todo)
    ensures full == (if todo[0] == Began then [Began] else since + [todo[0]]) + todo[1..]
  {
    if full != todo {
      assert full[|since|] == todo[0];
    }
  }

  lemma AttendKeepsTrack(cfg: Settings, whole: Test, s: System, id: Id, o: Oracle)
    requires cfg.Valid() && Tracked(whole, s, id) && Enabled(cfg, s, Attend(o))
    requires forall slot :: whole(Process(cfg, slot, id, o).calls)
    ensures Tracked(whole, Apply(cfg, s, Attend(o)), id)
  {
  }

  lemma MarkKeepsTrack(whole: Test, s: System, id: Id, m: Mark)
    requires Tracked(whole, s, id) && !m.Crash? && !m.Call?
    ensures Tracked(whole, s.(history := s.history + [m]), id)
  {
    SinceNext(s.history, m, id);
    assert Since(s.history + [m], id) == Since(s.history, id);
  }

  lemma MoveKeepsTrack(cfg: Settings, whole: Test, s: System, id: Id, m: Move)
    requires cfg.Valid() && Tracked(whole, s, id) && Enabled(cfg, s, m) && !m.Attend?
    requires forall calls | whole(calls) :: Shaped(calls)
    ensures Tracked(whole, Apply(cfg, s, m), id)
  {
    match m
    case MoveWav(k, audio) => MarkKeepsTrack(whole, s, id, Moved(k, audio));
    case MoveJson(k, meta) => MarkKeepsTrack(whole, s, id, Posted(k, meta));
    case Crashes => SinceNext(s.history, Crash, id);
    case Emit => EmitKeepsTrack(cfg, whole, s, id);
    case _ =>
  }

  lemma WholeIsShaped(cfg: Settings, id: Id, calls: seq<Effect>)
    requires cfg.Valid() && Whole(cfg, id, calls)
    ensures Shaped(calls)
  {
    var slot, o: Oracle :| o.Valid() && calls == Process(cfg, slot, id, o).calls;
    ProcessIsShaped(cfg, slot, id, o);
  }

  lemma {:induction false} CallsAreTracked(cfg: Settings, whole: Test, moves: seq<Move>, id: Id)
    requires cfg.Valid() && After(cfg, moves).Some? && (forall calls | whole(calls) :: Shaped(calls))
    requires forall slot, o: Oracle | o.Valid() :: whole(Process(cfg, slot, id, o).calls)
    ensures Tracked(whole, After(cfg, moves).value, id)
    decreases |moves|
  {
    if moves != [] {
      var m := moves[|moves| - 1];
      CallsAreTracked(cfg, whole, moves[..|moves| - 1], id);
      if m.Attend? {
        AttendKeepsTrack(cfg, whole, After(cfg, moves[..|moves| - 1]).value, id, m.o);
      } else {
        MoveKeepsTrack(cfg, whole, After(cfg, moves[..|moves| - 1]).value, id, m);
      }
    }
  }

  /** At every point of every run, what the worker did for an item since it last took it up is a beginning of one call of
      `process`. */
  lemma EveryCallIsProcess(cfg: Settings, moves: seq<Move>, id: Id)
    requires cfg.Valid() && After(cfg, moves).Some?
    ensures Opens(calls => Whole(cfg, id, calls), Since(After(cfg, moves).value.history, id))
  {
    var whole := (calls: seq<Effect>) => Whole(cfg, id, calls);
    forall calls | whole(calls) ensures Shaped(calls) {
      WholeIsShaped(cfg, id, calls);
    }
    CallsAreTracked(cfg, whole, moves, id);
  }

  /** Every beginning of a history is the history of a run. */
  lemma {:induction false} PrefixIsARun(cfg: Settings, moves: seq<Move>, k: nat) returns (part: seq<Move>)
    requires cfg.Valid() && After(cfg, moves).Some? && k <= |After(cfg, moves).value.history|
    ensures After(cfg, part).Some? && After(cfg, part).value.history == After(cfg, moves).value.history[..k]
    decreases |moves|
  {
    var h := After(cfg, moves).value.history;
    part := moves;
    if k < |h| {
      var before := After(cfg, moves[..|moves| - 1]).value.history;
      OneMark(cfg, After(cfg, moves[..|moves| - 1]).value, moves[|moves| - 1]);
      part := PrefixIsARun(cfg, moves[..|moves| - 1], k);
      assert before[..k] == h[..k];
    } else {
      assert h[..k] == h;
    }
  }

  lemma OneMark(cfg: Settings, s: System, m: Move)
    requires cfg.Valid() && Enabled(cfg, s, m)
    ensures s.history <= Apply(cfg, s, m).history && |Apply(cfg, s, m).history| <= |s.history| + 1
  {
  }

  // ---- positions in a call and in the history ----

  /** The worker neither restarts nor takes the item up again between these points. */
  predicate SameCall(h: seq<Mark>, id: Id, lo: nat, hi: nat)
    requires lo <= hi <= |h|
  {
    forall k | lo <= k < hi :: !h[k].Crash? && h[k] != Call(id, Began)
  }

  lemma {:induction false} SinceGrows(h: seq<Mark>, id: Id, lo: nat, hi: nat)
    requires lo <= hi <= |h| && SameCall(h, id, lo, hi)
    ensures Since(h[..lo], id) <= Since(h[..hi], id)
    decreases hi
  {
    if lo < hi {
      SinceGrows(h, id, lo, hi - 1);
      assert h[..hi] == h[..hi - 1] + [h[hi - 1]];
      SinceNext(h[..hi - 1], h[hi - 1], id);
    }
  }

  /** Where an event of the present call stands in it. */
  lemma PlaceInCall(h: seq<Mark>, id: Id, k: nat, hi: nat)
    requires k < hi <= |h| && SameCall(h, id, k, hi) && h[k].Call? && h[k].id == id
    ensures var n := |Since(h[..k], id)|; n < |Since(h[..hi], id)| && Since(h[..hi], id)[n] == h[k].e
  {
    assert h[..k + 1] == h[..k] + [h[k]];
    SinceNext(h[..k], h[k], id);
    SinceGrows(h, id, k + 1, hi);
  }

  /** Where an event of the present call stands in the history. */
  lemma {:induction false} PlaceInHistory(h: seq<Mark>, id: Id, hi: nat, n: nat) returns (k: nat)
    requires hi <= |h| && 0 < n < |Since(h[..hi], id)|
    ensures k < hi && h[k] == Call(id, Since(h[..hi], id)[n]) && SameCall(h, id, k, hi) && |Since(h[..k], id)| == n
    decreases hi
  {
    assert h[..hi] == h[..hi - 1] + [h[hi - 1]];
    SinceNext(h[..hi - 1], h[hi - 1], id);
    if n < |Since(h[..hi - 1], id)| {
      k := PlaceInHistory(h, id, hi - 1, n);
    } else {
      k := hi - 1;
    }
  }

  // ---- the attachments of a fallback ----

  /** The call that gives up at g fetched a recording before i. */
  predicate FetchedRecording(h: seq<Mark>, id: Id, i: nat, g: nat)
    requires i <= g <= |h|
  {
    exists k | 0 <= k < i ::
      h[k].Call? && h[k].id == id && h[k].e.Fetched? && h[k].e.audio.Some? && SameCall(h, id, k, g)
  }

  /** Where a handler's give-up and its fallback stand. */
  lemma HandledAt(tail: seq<Effect>, kept: seq<Attachment>, k: nat)
    requires Handled(tail, kept) && k < |tail|
    ensures tail[k] == GaveUp ==> k == 1
    ensures tail[k].SendCalled? ==> k == 2 && tail[1] == GaveUp && tail[k].p.attachments == kept
  {
    assert tail[k] in tail;
    assert k >= 3 ==> tail[3..][k - 3] == tail[k] && tail[k] in tail[3..];
  }

  /** A give-up inside the call: the email before it is the one the call sent, the one after it the fallback. */
  lemma GiveUpInShape(calls: seq<Effect>, lead: seq<Effect>, send: seq<Effect>, tail: seq<Effect>, kept: seq<Attachment>,
                      a: nat, g: nat, j: nat)
    requires Shape(calls, lead, send, tail, kept) && a < g < j < |calls|
    requires calls[a].SendCalled? && calls[g] == GaveUp && calls[j].SendCalled?
    ensures a == |lead| && send == [calls[a]] && calls[j].p.attachments == kept
  {
    PartOf(calls, lead, send, tail, a);
    PartOf(calls, lead, send, tail, g);
    PartOf(calls, lead, send, tail, j);
    var n := |lead| + |send|;
    HandledAt(tail, kept, g - n);
    HandledAt(tail, kept, j - n);
    if a >= n {
      HandledAt(tail, kept, a - n);
    }
  }

  lemma PartOf(calls: seq<Effect>, lead: seq<Effect>, send: seq<Effect>, tail: seq<Effect>, k: nat)
    requires calls == lead + send + tail && Leads(lead) && k < |calls|
    requires send == [] || (|send| == 1 && send[0].SendCalled?)
    requires calls[k].SendCalled? || calls[k] == GaveUp
    ensures k >= |lead| && (k < |lead| + |send| ==> k == |lead| && send == [calls[k]])
    ensures k >= |lead| + |send| ==> tail[k - |lead| - |send|] == calls[k]
  {
    assert forall m | 0 <= m < |lead| :: calls[m] == lead[m];
  }

  lemma SameCallGiveUp(whole: Test, h: seq<Mark>, id: Id, i: nat, g: nat, j: nat)
    requires i < g < j < |h| && IsSend(h[i], id) && h[g] == Call(id, GaveUp) && IsSend(h[j], id)
    requires SameCall(h, id, i, j + 1) && Opens(whole, Since(h[..j + 1], id))
    requires forall calls | whole(calls) :: Shaped(calls)
    ensures h[j].e.p.attachments == h[i].e.p.attachments <==>
              !FetchedRecording(h, id, i, g) || (!h[i].e.p.outcome.Message? && !h[i].e.p.outcome.Missed?)
  {
    var now := Since(h[..j + 1], id);
    var a, b, c := Places(h, id, i, g, j);
    var full :| whole(full) && now <= full;
    var lead, send, tail, kept :| Shape(full, lead, send, tail, kept) && KeptAs(lead, send, kept);
    GiveUpInShape(full, lead, send, tail, kept, a, b, c);
    FetchIsInLead(h, id, i, g, j, lead);
  }

  /** The three events in the call. */
  lemma Places(h: seq<Mark>, id: Id, i: nat, g: nat, j: nat) returns (a: nat, b: nat, c: nat)
    requires i < g < j < |h| && IsSend(h[i], id) && h[g] == Call(id, GaveUp) && IsSend(h[j], id)
    requires SameCall(h, id, i, j + 1)
    ensures var now := Since(h[..j + 1], id);
      a == |Since(h[..i], id)| && a < b < c < |now| && now[a] == h[i].e && now[b] == GaveUp && now[c] == h[j].e
  {
    a, b, c := |Since(h[..i], id)|, |Since(h[..g], id)|, |Since(h[..j], id)|;
    PlaceBefore(h, id, i, g, j + 1);
    PlaceBefore(h, id, g, j, j + 1);
  }

  lemma PlaceBefore(h: seq<Mark>, id: Id, lo: nat, hi: nat, now: nat)
    requires lo < hi < now <= |h| && SameCall(h, id, lo, now)
    requires h[lo].Call? && h[lo].id == id && h[hi].Call? && h[hi].id == id
    ensures var m, n, calls := |Since(h[..lo], id)|, |Since(h[..hi], id)|, Since(h[..now], id);
      m < n < |calls| && calls[m] == h[lo].e && calls[n] == h[hi].e
  {
    PlaceInCall(h, id, lo, now);
    PlaceInCall(h, id, hi, now);
    PlaceInCall(h, id, lo, hi);
  }

  /** The fetch of the call, seen in the call and in the history. */
  lemma FetchIsInLead(h: seq<Mark>, id: Id, i: nat, g: nat, j: nat, lead: seq<Effect>)
    requires i < g < j < |h| && SameCall(h, id, i, j + 1) && |lead| == |Since(h[..i], id)| && IsSend(h[i], id)
    requires lead <= Since(h[..j + 1], id) && forall k | 0 <= k < |lead| && lead[k].Fetched? :: k == 2
    ensures FetchedIn(lead).Some? <==> FetchedRecording(h, id, i, g)
  {
    if FetchedIn(lead).Some? {
      LeadIsInHistory(h, id, i, g, j, lead);
    }
    if k :| 0 <= k < i && h[k].Call? && h[k].id == id && h[k].e.Fetched? && h[k].e.audio.Some? && SameCall(h, id, k, g) {
      PlaceInCall(h, id, k, j + 1);
      PlaceInCall(h, id, k, i);
    }
  }

  lemma LeadIsInHistory(h: seq<Mark>, id: Id, i: nat, g: nat, j: nat, lead: seq<Effect>)
    requires i < g < j < |h| && SameCall(h, id, i, j + 1) && |lead| == |Since(h[..i], id)|
    requires lead <= Since(h[..j + 1], id) && FetchedIn(lead).Some?
    ensures FetchedRecording(h, id, i, g)
  {
    var k := PlaceInHistory(h, id, j + 1, 2);
    if k >= i {
      SinceGrows(h, id, i, k);
    }
    assert h[k].e.audio.Some? && SameCall(h, id, k, g);
  }

  /** When a fallback keeps the attachments of the email it replaces: exactly when the call that gives up did not itself
      fetch a recording for an email that goes without it. In particular an email that an earlier call cached is replaced
      by one with the same attachments. */
  lemma FallbackKeepsAttachmentsIff(cfg: Settings, moves: seq<Move>, id: Id, i: nat, g: nat, j: nat)
    requires cfg.Valid() && After(cfg, moves).Some? && i < g < j < |After(cfg, moves).value.history|
    requires var h := After(cfg, moves).value.history;
      && IsSend(h[i], id) && h[g] == Call(id, GaveUp) && IsSend(h[j], id)
      && Steady(h, id, i, g) && Steady(h, id, g + 1, j) && SameCall(h, id, g, j)
    ensures var h := After(cfg, moves).value.history;
      h[j].e.p.attachments == h[i].e.p.attachments <==>
        !FetchedRecording(h, id, i, g) || (!h[i].e.p.outcome.Message? && !h[i].e.p.outcome.Missed?)
  {
    var h := After(cfg, moves).value.history;
    if b :| i < b < g && h[b] == Call(id, Began) {
      FallbackKeepsAttachments(cfg, moves, id, i, b, g, j);
    } else {
      var part := PrefixIsARun(cfg, moves, j + 1);
      EveryCallIsProcess(cfg, part, id);
      forall calls | Whole(cfg, id, calls) ensures Shaped(calls) {
        WholeIsShaped(cfg, id, calls);
      }
      SameCallGiveUp(calls => Whole(cfg, id, calls), h, id, i, g, j);
    }
  }
}
