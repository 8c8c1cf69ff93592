/**
  class Processor of aivoicemail/processor.py, with its five collections updated in place.

  An exception that leaves a Python method is the verdict Raised; `made` is every call made to the outside world, in
  order. Each method is proved to do to the item's slot what the function of the same name in Machine.dfy says, to make
  exactly those calls, and to leave every other item alone. `_log_call` swallows whatever the call log raises, so it
  only shows as a call made. So do the two alerts, which are best effort: without an alerter nothing happens, and
  whatever the alerter raises is swallowed.
*/
module Processing {
  import opened Common
  import opened Config
  import M = Machine

  type Id = M.Id

  class Processor {
    const cfg: M.Settings
    var sentPendingAck: map<Id, M.Delivered>
    var pendingSend: map<Id, M.Pending>
    var failures: map<Id, nat>
    var giveupAlertPending: set<Id>
    var sendFailedLogged: set<Id>

    ghost predicate Valid()
      reads this
    {
      cfg.Valid() && forall id | id in failures :: failures[id] > 0
    }

    /** Everything remembered about one item. */
    function SlotOf(id: Id): M.Slot
      reads this
    {
      M.Slot(if id in sentPendingAck then Some(sentPendingAck[id]) else None,
             if id in pendingSend then Some(pendingSend[id]) else None,
             if id in failures then failures[id] else 0,
             id in giveupAlertPending, id in sendFailedLogged)
    }

    /** The ids that appear in any of the five collections. */
    ghost function Known(): set<Id>
      reads this
    {
      sentPendingAck.Keys + pendingSend.Keys + failures.Keys + giveupAlertPending + sendFailedLogged
    }

    lemma KnownIsNotEmpty(id: Id)
      requires Valid()
      ensures id in Known() <==> SlotOf(id) != M.EMPTY
    {
    }

    /** Every other item is as it was, in all five collections. */
    twostate predicate Elsewhere(id: Id)
      reads this
    {
      && sentPendingAck - {id} == old(sentPendingAck - {id})
      && pendingSend - {id} == old(pendingSend - {id})
      && failures - {id} == old(failures - {id})
      && giveupAlertPending - {id} == old(giveupAlertPending - {id})
      && sendFailedLogged - {id} == old(sendFailedLogged - {id})
    }

    twostate lemma ElsewhereKeepsSlots(id: Id)
      requires Elsewhere(id)
      ensures forall k | k != id :: SlotOf(k) == old(SlotOf(k))
    {
      assert forall k :: k in sentPendingAck - {id} <==> k in sentPendingAck && k != id;
      assert forall k :: k in pendingSend - {id} <==> k in pendingSend && k != id;
      assert forall k :: k in failures - {id} <==> k in failures && k != id;
      assert forall k :: k in giveupAlertPending - {id} <==> k in giveupAlertPending && k != id;
      assert forall k :: k in sendFailedLogged - {id} <==> k in sendFailedLogged && k != id;
    }

    /** The item's slot is now `slot`, and nothing else changed. */
    twostate predicate Did(id: Id, slot: M.Slot)
      reads this
    {
      Valid() && SlotOf(id) == slot && Elsewhere(id)
    }

    constructor (cfg: M.Settings)
      requires cfg.Valid()
      ensures Valid() && this.cfg == cfg && Known() == {}
    {
      this.cfg := cfg;
      sentPendingAck, pendingSend, failures := map[], map[], map[];
      giveupAlertPending, sendFailedLogged := {}, {};
    }

    method BumpFailures(id: Id) returns (count: nat, ghost made: seq<M.Effect>)
      requires Valid()
      modifies this
      ensures count == old(SlotOf(id)).failures + 1 && made == [M.FailureCounted(count)]
      ensures Did(id, old(SlotOf(id)).(failures := count))
    {
      count := (if id in failures then failures[id] else 0) + 1;
      failures := failures[id := count];
      made := [M.FailureCounted(count)];
    }

    method AckFailed(id: Id) returns (v: M.Verdict, ghost made: seq<M.Effect>)
      requires Valid()
      modifies this
      ensures var out := M.AckFailed(cfg, old(SlotOf(id))); Did(id, out.slot) && made == out.calls && v == out.verdict
    {
      var count := (if id in failures then failures[id] else 0) + 1;
      failures := failures[id := count];
      made := [M.AckFailureCounted(count)];
      if count == cfg.maxFailures && cfg.alerter {
        made := made + [M.AckAlerted];
      }
      v := M.Retry;
    }

    method Ack(id: Id, retry: bool, a: M.AckAnswer) returns (v: M.Verdict, ghost made: seq<M.Effect>)
      requires Valid() && a.Valid()
      modifies this
      ensures var out := M.Ack(cfg, old(SlotOf(id)), id, retry, a);
        Did(id, out.slot) && made == out.calls && v == out.verdict
    {
      if a.AckRaises? {
        ghost var more;
        v, more := AckFailed(id);
        made := [M.AckCalled] + M.Removals(a.removed) + more;
        return;
      }
      var meta, mid := M.Meta(id, None, None, None), None;
      if id in sentPendingAck {
        meta, mid := sentPendingAck[id].meta, Some(sentPendingAck[id].mid);
        sentPendingAck := sentPendingAck - {id};
      }
      sendFailedLogged := sendFailedLogged - {id};
      made := [M.AckCalled] + M.Removals(2)
        + (if retry then [M.Recorded(meta, M.AckedAfterRetry, M.NO_PROVIDERS, mid)] else []);
      v := M.Acked;
    }

    method Deliver(id: Id, pending: M.Pending, snd: M.SendAnswer, a: M.AckAnswer)
      returns (v: M.Verdict, ghost made: seq<M.Effect>)
      requires Valid() && a.Valid()
      modifies this
      ensures var out := M.Deliver(cfg, old(SlotOf(id)), id, pending, snd, a);
        Did(id, out.slot) && made == out.calls && v == out.verdict
    {
      pendingSend := pendingSend[id := pending];
      if snd.SendRaises? {
        return M.Raised, [M.SendCalled(pending)];
      }
      if snd.RaisesSendError? {
        made := [M.SendCalled(pending), M.Refused];
        if id !in sendFailedLogged {
          sendFailedLogged := sendFailedLogged + {id};
          made := [M.SendCalled(pending), M.Refused, M.Recorded(pending.meta, M.SendFailed, pending.providers, None)];
        }
        return M.Retry, made;
      }
      v, made := Accepted(id, pending, snd.mid, a);
      made := [M.SendCalled(pending)] + made;
    }

    /** `_deliver` from the line after the mail server accepted the email. */
    method Accepted(id: Id, pending: M.Pending, mid: string, a: M.AckAnswer)
      returns (v: M.Verdict, ghost made: seq<M.Effect>)
      requires Valid() && a.Valid()
      modifies this
      ensures var out := M.AfterAccept(cfg, old(SlotOf(id)), id, pending, mid, a);
        Did(id, out.slot) && made == out.calls && v == out.verdict
    {
      pendingSend := pendingSend - {id};
      sentPendingAck := sentPendingAck[id := M.Delivered(pending.meta, mid)];
      failures := failures - {id};
      ghost var alerts := [];
      if id in giveupAlertPending {
        giveupAlertPending := giveupAlertPending - {id};
        if cfg.alerter {
          alerts := [M.GiveUpAlerted];
        }
      }
      ghost var acking;
      v, acking := Ack(id, false, a);
      made := [M.Accepted(pending, mid), M.Recorded(pending.meta, M.Sent(pending.outcome), pending.providers, Some(mid))]
        + alerts + acking;
    }

    method Pipeline(id: Id, meta: M.Meta, wav: Option<M.Bytes>, o: M.Oracle)
      returns (v: M.Verdict, ghost made: seq<M.Effect>)
      requires Valid() && o.Valid()
      modifies this
      ensures var out := M.Pipeline(cfg, old(SlotOf(id)), id, meta, wav, o);
        Did(id, out.slot) && made == out.calls && v == out.verdict
    {
      var found := if meta.line.Some? then LineWithId(cfg.lines, meta.line.value) else None;
      if found.None? || (wav.Some? && !o.wavReadable) {
        return M.Raised, [];
      }
      var line := found.value;
      var attachment := if wav.Some? then [M.Attachment(id + ".wav", wav.value)] else [];
      made := if wav.Some? then [M.SpeechChecked(o.speech)] else [];
      if wav.Some? && o.speech.SpeechRaises? {
        v, made := Render(id, o, made, meta, M.FallbackSpeech, line.mailbox, attachment, M.NO_PROVIDERS);
        return;
      }
      if wav.None? || o.speech.seconds < cfg.minSpeech {
        v, made := Render(id, o, made, meta, M.Missed, line.mailbox, [], M.NO_PROVIDERS);
        return;
      }
      if meta.lang.None? {
        return M.Raised, made;
      }
      made := made + [M.TranscribeCalled(meta.lang.value, line.menu, o.transcribe)];
      if o.transcribe.ProviderRaises? {
        return M.Raised, made;
      }
      if o.transcribe.NoAnswer? {
        v, made := Render(id, o, made, meta, M.FallbackTranscription, line.mailbox, attachment, M.NO_PROVIDERS);
        return;
      }
      var heardBy := Some(o.transcribe.provider);
      made := made + [M.SummariseCalled(o.transcribe.text, line.emailLanguage, o.summarise)];
      if o.summarise.ProviderRaises? {
        return M.Raised, made;
      }
      if o.summarise.NoAnswer? {
        v, made := Render(id, o, made, meta, M.FallbackSummary, line.mailbox, attachment, M.Providers(heardBy, None));
        return;
      }
      v, made := Render(id, o, made, meta, M.Message, line.mailbox, [],
                        M.Providers(heardBy, Some(o.summarise.provider)));
    }

    /** Rendering (which may raise) and then `_deliver`, the last line of every branch of `_pipeline`. */
    method Render(id: Id, o: M.Oracle, ghost before: seq<M.Effect>, meta: M.Meta, outcome: M.Outcome, to: string,
                  attachments: seq<M.Attachment>, providers: M.Providers)
      returns (v: M.Verdict, ghost made: seq<M.Effect>)
      requires Valid() && o.Valid()
      modifies this
      ensures o.render.RenderRaises? ==> Did(id, old(SlotOf(id))) && made == before && v == M.Raised
      ensures o.render.Rendered? ==>
                var p := M.Pending(meta, outcome, to, o.render.email, attachments, providers);
                var out := M.Deliver(cfg, old(SlotOf(id)), id, p, o.send, o.ack);
                Did(id, out.slot) && made == before + out.calls && v == out.verdict
    {
      if o.render.RenderRaises? {
        return M.Raised, before;
      }
      var pending := M.Pending(meta, outcome, to, o.render.email, attachments, providers);
      v, made := Deliver(id, pending, o.send, o.ack);
      made := before + made;
    }

    method GiveUp(id: Id, meta: Option<M.Meta>, kept: Option<seq<M.Attachment>>, o: M.Oracle)
      returns (v: M.Verdict, ghost made: seq<M.Effect>)
      requires Valid() && o.Valid()
      modifies this
      ensures var out := M.GiveUp(cfg, old(SlotOf(id)), id, meta, kept, o);
        Did(id, out.slot) && made == out.calls && v == out.verdict
    {
      failures := failures - {id};
      pendingSend := pendingSend - {id};
      var attachments := kept;
      if attachments.None? {
        if o.onDisk.Some? && !o.diskReadable {
          return M.Retry, [M.GaveUp];
        }
        attachments := Some(if o.onDisk.Some? then [M.Attachment(id + ".wav", o.onDisk.value)] else []);
      }
      if o.fallback.RenderRaises? {
        return M.Retry, [M.GaveUp];
      }
      var pending := M.FallbackEmail(cfg, id, meta, o.fallback.email, attachments.value);
      giveupAlertPending := giveupAlertPending + {id};
      v, made := Deliver(id, pending, o.sendAgain, o.ack);
      if v == M.Raised {
        v := M.Retry;
      }
      made := [M.GaveUp] + made;
    }

    /** The handler of both `except Exception` clauses. */
    method Failed(id: Id, meta: Option<M.Meta>, kept: Option<seq<M.Attachment>>, o: M.Oracle)
      returns (v: M.Verdict, ghost made: seq<M.Effect>)
      requires Valid() && o.Valid()
      modifies this
      ensures var out := M.Failed(cfg, old(SlotOf(id)), id, meta, kept, o);
        Did(id, out.slot) && made == out.calls && v == out.verdict
    {
      if id in sentPendingAck {
        v, made := AckFailed(id);
        return;
      }
      var count;
      count, made := BumpFailures(id);
      if count < cfg.maxFailures {
        return M.Retry, made;
      }
      ghost var rest;
      GiveUpForgetsCount(old(SlotOf(id)), id, meta, kept, o, count);
      v, rest := GiveUp(id, meta, kept, o);
      made := made + rest;
    }

    /** `_give_up` resets the counter first, so the count just made does not matter to it. */
    lemma GiveUpForgetsCount(s: M.Slot, id: Id, meta: Option<M.Meta>, kept: Option<seq<M.Attachment>>, o: M.Oracle,
                             count: nat)
      requires cfg.Valid() && o.Valid()
      ensures M.GiveUp(cfg, s.(failures := count), id, meta, kept, o) == M.GiveUp(cfg, s, id, meta, kept, o)
    {
    }

    /** `_retry_saved` with the ack-only or the send-only retry. */
    method RetrySaved(id: Id, o: M.Oracle) returns (v: M.Verdict, ghost made: seq<M.Effect>)
      requires Valid() && o.Valid() && (id in sentPendingAck || id in pendingSend)
      modifies this
      ensures var out := M.Process(cfg, old(SlotOf(id)), id, o);
        Did(id, out.slot) && made == out.calls && v == out.verdict
    {
      if id in sentPendingAck {
        v, made := Ack(id, true, o.ack);
      } else {
        v, made := Deliver(id, pendingSend[id], o.send, o.ack);
      }
      made := [M.Began] + made;
      if v == M.Raised {
        var meta, attachments := M.Meta(id, None, None, None), [];
        if id in pendingSend {
          meta, attachments := pendingSend[id].meta, pendingSend[id].attachments;
        }
        ghost var more;
        v, more := Failed(id, Some(meta), Some(attachments), o);
        made := made + more;
        return;
      }
      if v == M.Acked {
        failures := failures - {id};
      }
    }

    method Process(id: Id, o: M.Oracle) returns (v: M.Verdict, ghost made: seq<M.Effect>)
      requires Valid() && o.Valid()
      modifies this
      ensures var out := M.Process(cfg, old(SlotOf(id)), id, o);
        Did(id, out.slot) && made == out.calls && v == out.verdict
    {
      if id in sentPendingAck || id in pendingSend {
        v, made := RetrySaved(id, o);
        return;
      }
      ghost var more;
      match o.get {
        case GetSpoolError =>
          v, made := M.Retry, [M.Began, M.GetCalled];
        case GetRaises =>
          v, more := Failed(id, None, None, o);
          made := [M.Began, M.GetCalled] + more;
        case Got(meta, wav) =>
          v, more := Pipeline(id, meta, wav, o);
          made := [M.Began, M.GetCalled, M.Fetched(meta, wav)] + more;
          if v == M.Raised {
            v, more := Failed(id, Some(meta), None, o);
            made := made + more;
          } else {
            failures := failures - {id};
          }
      }
    }

    /** `evict`: forget every item the spool no longer lists. */
    method Evict(keep: set<Id>)
      requires Valid()
      modifies this
      ensures Valid()
      ensures forall id :: SlotOf(id) == (if id in keep then old(SlotOf(id)) else M.EMPTY)
    {
      sentPendingAck := Forget(sentPendingAck, keep);
      pendingSend := Forget(pendingSend, keep);
      failures := Forget(failures, keep);
      sendFailedLogged := sendFailedLogged * keep;
      giveupAlertPending := giveupAlertPending * keep;
    }
  }

  /** The inner loop of `evict`: delete the stale keys of one dictionary. */
  method Forget<V>(state: map<Id, V>, keep: set<Id>) returns (r: map<Id, V>)
    ensures r.Keys == state.Keys * keep
    ensures forall id | id in r :: r[id] == state[id]
  {
    r := state;
    var stale := state.Keys - keep;
    while stale != {}
      invariant stale <= state.Keys - keep && r.Keys == state.Keys * keep + stale
      invariant forall id | id in r :: r[id] == state[id]
      decreases stale
    {
      var id :| id in stale;
      r := r - {id};
      stale := stale - {id};
    }
  }
}
