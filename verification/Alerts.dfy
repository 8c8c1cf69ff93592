/** Operator alerts, at most one per kind and hour: aivoicemail/alerts.py. */
module Alerts {

  const REPEAT_SECONDS: real := 3600.0

  datatype Kind = Stale | SpoolUnreachable | StaleOrphan | ProcessingFailed | AckFailing

  /** What the mailer does with an alert: accept it, raise SendError, or raise anything else. */
  datatype MailAnswer = Takes | Refuses | Explodes

  datatype Verdict = Sent | NotSent | Raised

  /** One call of `notify`. */
  datatype Note = Note(kind: Kind, now: real, answer: MailAnswer)

  type Times = map<Kind, real>

  predicate TooSoon(last: Times, kind: Kind, now: real) {
    kind in last && now - last[kind] < REPEAT_SECONDS
  }

  function Outcome(last: Times, n: Note): Verdict {
    if TooSoon(last, n.kind, n.now) || n.answer.Refuses? then NotSent
    else if n.answer.Explodes? then Raised
    else Sent
  }

  function Remember(last: Times, n: Note): Times {
    if Outcome(last, n).Sent? then last[n.kind := n.now] else last
  }

  function RememberAll(last: Times, notes: seq<Note>): Times
    decreases |notes|
  {
    if notes == [] then last
    else Remember(RememberAll(last, notes[..|notes| - 1]), notes[|notes| - 1])
  }

  /** The kind was last sent at the same time, or still never. */
  predicate Same(before: Times, after: Times, kind: Kind) {
    (kind in before <==> kind in after) && (kind in before ==> before[kind] == after[kind])
  }

  lemma RememberNext(last: Times, notes: seq<Note>, k: nat)
    requires k < |notes|
    ensures notes[..0] == [] && RememberAll(last, notes[..0]) == last
    ensures RememberAll(last, notes[..k + 1]) == Remember(RememberAll(last, notes[..k]), notes[k])
  {
    assert notes[..k + 1][..k] == notes[..k];
  }

  /** The times at which an alert of this kind was sent, starting from a fresh Alerter. */
  function SentTimes(notes: seq<Note>, kind: Kind): seq<real>
    decreases |notes|
  {
    if notes == [] then []
    else
      var before := notes[..|notes| - 1];
      var n := notes[|notes| - 1];
      SentTimes(before, kind)
      + (if n.kind == kind && Outcome(RememberAll(map[], before), n).Sent? then [n.now] else [])
  }

  function OfKind(notes: seq<Note>, kind: Kind): seq<Note>
    decreases |notes|
  {
    if notes == [] then []
    else OfKind(notes[..|notes| - 1], kind)
         + (if notes[|notes| - 1].kind == kind then [notes[|notes| - 1]] else [])
  }

  lemma {:induction false} LastSent(notes: seq<Note>, kind: Kind)
    ensures var last := RememberAll(map[], notes); var ts := SentTimes(notes, kind);
      (kind in last <==> ts != []) && (ts != [] ==> last[kind] == ts[|ts| - 1])
    decreases |notes|
  {
    if notes != [] {
      LastSent(notes[..|notes| - 1], kind);
    }
  }

  /** Spacing: whatever the clock values, also going backwards, alerts i < j of one kind are at least (j - i) hours
      apart, so k of them span at least k - 1 hours. */
  lemma {:induction false} Spacing(notes: seq<Note>, kind: Kind, i: nat, j: nat)
    requires i <= j < |SentTimes(notes, kind)|
    ensures var ts := SentTimes(notes, kind); ts[j] - ts[i] >= (j - i) as real * 3600.0
    decreases |notes|
  {
    if notes != [] {
      var before := notes[..|notes| - 1];
      LastSent(before, kind);
      var shorter := SentTimes(before, kind);
      if j < |shorter| {
        Spacing(before, kind, i, j);
      } else if i < j {
        Spacing(before, kind, i, j - 1);
      }
    }
  }

  /** Independence: what happens to alerts of one kind does not depend on the calls for other kinds. */
  lemma {:induction false} KindsAreIndependent(notes: seq<Note>, kind: Kind)
    ensures SentTimes(OfKind(notes, kind), kind) == SentTimes(notes, kind)
    decreases |notes|
  {
    if notes != [] {
      var before := notes[..|notes| - 1];
      var n := notes[|notes| - 1];
      KindsAreIndependent(before, kind);
      if n.kind == kind {
        OneMore(OfKind(before, kind), n, kind);
        SameOutcome(before, OfKind(before, kind), n);
      } else {
        assert OfKind(notes, kind) == OfKind(before, kind);
      }
    }
  }

  lemma OneMore(notes: seq<Note>, n: Note, kind: Kind)
    ensures SentTimes(notes + [n], kind)
      == SentTimes(notes, kind) + (if n.kind == kind && Outcome(RememberAll(map[], notes), n).Sent? then [n.now] else [])
  {
    assert (notes + [n])[..|notes|] == notes;
  }

  lemma SameOutcome(notes: seq<Note>, others: seq<Note>, n: Note)
    requires SentTimes(notes, n.kind) == SentTimes(others, n.kind)
    ensures Outcome(RememberAll(map[], notes), n) == Outcome(RememberAll(map[], others), n)
  {
    LastSent(notes, n.kind);
    LastSent(others, n.kind);
  }

  /** No alert is lost to the spacing: for a suppressed one an alert of its kind was sent, less than an hour before its own
      clock reading (after it, when the clock was set back). */
  lemma {:induction false} SuppressedOnlyWithinTheHour(notes: seq<Note>, n: Note)
    requires n.answer.Takes? && Outcome(RememberAll(map[], notes), n).NotSent?
    ensures exists t :: t in SentTimes(notes, n.kind) && n.now - t < 3600.0
  {
    LastSent(notes, n.kind);
    var ts := SentTimes(notes, n.kind);
    assert ts[|ts| - 1] in ts;
  }

  lemma {:induction false} OthersLeave(last: Times, notes: seq<Note>, kind: Kind)
    requires forall n | n in notes :: n.kind != kind
    ensures Same(last, RememberAll(last, notes), kind)
    decreases |notes|
  {
    if notes != [] {
      assert notes[|notes| - 1] in notes;
      OthersLeave(last, notes[..|notes| - 1], kind);
    }
  }

  /** Of notes with one clock reading, one that the mailer takes leaves its kind sent within the hour. */
  lemma {:induction false} TakenIsRemembered(last: Times, notes: seq<Note>, n: Note)
    requires n in notes && n.answer.Takes? && forall m | m in notes && m.kind == n.kind :: m == n
    ensures var after := RememberAll(last, notes); n.kind in after && n.now - after[n.kind] < 3600.0
    decreases |notes|
  {
    var k := |notes| - 1;
    if notes[k] != n {
      assert notes == notes[..k] + [notes[k]];
      TakenIsRemembered(last, notes[..k], n);
    }
  }

  class Alerter {
    const staleMinutes: int
    const unreachableMinutes: int
    var lastSent: Times

    constructor (staleMinutes: int, unreachableMinutes: int)
      ensures lastSent == map[] && this.staleMinutes == staleMinutes && this.unreachableMinutes == unreachableMinutes
    {
      this.staleMinutes, this.unreachableMinutes, lastSent := staleMinutes, unreachableMinutes, map[];
    }

    method Notify(kind: Kind, now: real, answer: MailAnswer) returns (v: Verdict)
      modifies this
      ensures v == Outcome(old(lastSent), Note(kind, now, answer))
      ensures lastSent == Remember(old(lastSent), Note(kind, now, answer))
    {
      if kind in lastSent {
        if now - lastSent[kind] < REPEAT_SECONDS {
          return NotSent;
        }
      }
      match answer {
        case Refuses =>
          v := NotSent;
        case Explodes =>
          v := Raised;
        case Takes =>
          lastSent := lastSent[kind := now];
          v := Sent;
      }
    }

    /** `check`: the conditions that raise an alert, in order; the first exception leaves the method. A kind whose condition
        holds and whose alert the mailer takes was sent within the hour, one whose condition does not hold keeps its time,
        and only an alert whose condition holds can raise. */
    method Check(mtimes: seq<int>, lastOk: real, now: real, orphans: nat, answers: Kind -> MailAnswer)
      returns (raised: bool)
      modifies this
      ensures var due := Due(mtimes, lastOk, now, orphans, answers);
        if raised then exists k | 0 <= k < |due| ::
            lastSent == RememberAll(old(lastSent), due[..k]) && Outcome(lastSent, due[k]).Raised?
        else lastSent == RememberAll(old(lastSent), due)
      ensures !raised ==> forall kind ::
                answers(kind).Takes? && Reason(kind, mtimes, lastOk, now, orphans) ==>
                  kind in lastSent && now - lastSent[kind] < 3600.0
      ensures forall kind :: !Reason(kind, mtimes, lastOk, now, orphans) ==> Same(old(lastSent), lastSent, kind)
      ensures raised ==> exists kind :: answers(kind).Explodes? && Reason(kind, mtimes, lastOk, now, orphans)
    {
      ghost var due := Due(mtimes, lastOk, now, orphans, answers);
      ghost var k := 0;
      if AnyStale(mtimes, now) {
        RememberNext(old(lastSent), due, 0);
        var v := Notify(Stale, now, answers(Stale));
        if v == Raised {
          DueMeans(old(lastSent), mtimes, lastOk, now, orphans, answers, k);
          return true;
        }
        k := k + 1;
      }
      if Over(now - lastOk, unreachableMinutes) {
        RememberNext(old(lastSent), due, k);
        var v := Notify(SpoolUnreachable, now, answers(SpoolUnreachable));
        if v == Raised {
          DueMeans(old(lastSent), mtimes, lastOk, now, orphans, answers, k);
          return true;
        }
        k := k + 1;
      }
      if orphans > 0 {
        RememberNext(old(lastSent), due, k);
        var v := Notify(StaleOrphan, now, answers(StaleOrphan));
        if v == Raised {
          DueMeans(old(lastSent), mtimes, lastOk, now, orphans, answers, k);
          return true;
        }
        k := k + 1;
      }
      assert due[..k] == due;
      DueMeans(old(lastSent), mtimes, lastOk, now, orphans, answers, k);
      DueIsTaken(old(lastSent), mtimes, lastOk, now, orphans, answers);
      raised := false;
    }

    /** What there is to report: an item that waits too long, a spool that was not listed for too long, orphans. */
    predicate Reason(kind: Kind, mtimes: seq<int>, lastOk: real, now: real, orphans: nat) {
      match kind
      case Stale => exists m | m in mtimes :: now - m as real > 60.0 * staleMinutes as real
      case SpoolUnreachable => now - lastOk > 60.0 * unreachableMinutes as real
      case StaleOrphan => orphans > 0
      case _ => false
    }

    /** What the first k due alerts leave alone, and what the next one is. */
    lemma DueMeans(last: Times, mtimes: seq<int>, lastOk: real, now: real, orphans: nat, answers: Kind -> MailAnswer, k: nat)
      requires k <= |Due(mtimes, lastOk, now, orphans, answers)|
      ensures var due := Due(mtimes, lastOk, now, orphans, answers);
        && (forall kind :: !Reason(kind, mtimes, lastOk, now, orphans) ==> Same(last, RememberAll(last, due[..k]), kind))
        && (k < |due| ==> Reason(due[k].kind, mtimes, lastOk, now, orphans) && due[k].answer == answers(due[k].kind))
    {
      var due := Due(mtimes, lastOk, now, orphans, answers);
      DueKinds(mtimes, lastOk, now, orphans, answers);
      forall kind | !Reason(kind, mtimes, lastOk, now, orphans) ensures Same(last, RememberAll(last, due[..k]), kind) {
        OthersLeave(last, due[..k], kind);
      }
    }

    /** What is due has a reason, and what has a reason is due. */
    lemma DueKinds(mtimes: seq<int>, lastOk: real, now: real, orphans: nat, answers: Kind -> MailAnswer)
      ensures var due := Due(mtimes, lastOk, now, orphans, answers);
        && (forall n | n in due :: Reason(n.kind, mtimes, lastOk, now, orphans) && n == Note(n.kind, now, answers(n.kind)))
        && (forall kind | Reason(kind, mtimes, lastOk, now, orphans) :: Note(kind, now, answers(kind)) in due)
    {
      var due := Due(mtimes, lastOk, now, orphans, answers);
      var stale, late := AnyStale(mtimes, now), Over(now - lastOk, unreachableMinutes);
      assert stale <==> Reason(Stale, mtimes, lastOk, now, orphans);
      assert late <==> Reason(SpoolUnreachable, mtimes, lastOk, now, orphans);
      assert stale ==> due[0] == Note(Stale, now, answers(Stale));
      assert late ==> due[if stale then 1 else 0] == Note(SpoolUnreachable, now, answers(SpoolUnreachable));
      assert orphans > 0 ==> due[|due| - 1] == Note(StaleOrphan, now, answers(StaleOrphan));
    }

    lemma DueIsTaken(last: Times, mtimes: seq<int>, lastOk: real, now: real, orphans: nat, answers: Kind -> MailAnswer)
      ensures var after := RememberAll(last, Due(mtimes, lastOk, now, orphans, answers));
        forall kind :: answers(kind).Takes? && Reason(kind, mtimes, lastOk, now, orphans) ==>
          kind in after && now - after[kind] < 3600.0
    {
      var due := Due(mtimes, lastOk, now, orphans, answers);
      DueKinds(mtimes, lastOk, now, orphans, answers);
      forall kind | answers(kind).Takes? && Reason(kind, mtimes, lastOk, now, orphans)
        ensures var after := RememberAll(last, due); kind in after && now - after[kind] < 3600.0
      {
        TakenIsRemembered(last, due, Note(kind, now, answers(kind)));
      }
    }

    static predicate Over(seconds: real, minutes: int) {
      seconds > (minutes * 60) as real
    }

    /** Some waiting item is too old. */
    predicate AnyStale(mtimes: seq<int>, now: real) {
      exists mtime | mtime in mtimes :: Over(now - mtime as real, staleMinutes)
    }

    function Due(mtimes: seq<int>, lastOk: real, now: real, orphans: nat, answers: Kind -> MailAnswer): seq<Note> {
      (if AnyStale(mtimes, now) then [Note(Stale, now, answers(Stale))] else [])
      + (if Over(now - lastOk, unreachableMinutes)
         then [Note(SpoolUnreachable, now, answers(SpoolUnreachable))] else [])
      + (if orphans > 0 then [Note(StaleOrphan, now, answers(StaleOrphan))] else [])
    }
  }
}
