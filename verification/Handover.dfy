/**
  From the telephone to the spool: what a call hands to vm-finalize is what vm-finalize publishes.
*/
module Handover {
  import opened Common
  import opened Text
  import opened Config
  import opened Dialplan
  import opened Generate
  import opened CallFlow
  import opened HangUps
  import M = Machine
  import P = Protocol
  import opened Spooling

  /** What the dialplan hands over, vm-finalize accepts: the line's id, and its languages, "auto" included. */
  lemma ArgumentsAreAccepted(l: Line, lang: string)
    requires LineOk(l) && l.id != "" && LangOf(l, lang)
    ensures LineArgOk(l.id) && LangArgOk(lang)
  {
    assert forall i | 0 < i < |l.id| :: l.id[i] == l.id[1..][i - 1] && l.id[i] in l.id[1..];
    assert forall c | c in l.id :: exists i | 0 <= i < |l.id| :: l.id[i] == c;
    assert |l.menu| == 1 ==> l.menu[0] in l.menu;
  }

  /** A channel id as Asterisk makes it. */
  predicate IsUnique(s: string) {
    forall c | c in s :: IsDigit(c) || c == '.'
  }

  /** The end of a call to a line, whenever its caller hangs up (`n` steps into the dialplan): its handler runs vm-finalize
      for each row of arguments. If the caller heard anything the item is published, for the line he called; with the
      recording if there is one, and then in the language in which it was announced. */
  method EndOfCall(spool: Spool, lines: seq<Line>, call: Incoming, key: Key, l: Line, n: nat, id: M.Id,
                   ghost cfg: M.Settings, ghost s: P.System)
    returns (e: Ending)
    requires Accepted(lines) && l in lines && Calls(call.number, l) && ValidKey(key) && IsUnique(call.unique)
    requires cfg.Valid() && P.Inv(cfg, s) && spool.Shows(s) && id !in s.used
    modifies spool
    ensures e == HungUp(Plan(lines), call, key, n, 2) && e.Ended?
    ensures e.ch.handed == [] ==> e.ch.played == [] && e.ch.takes == [] && unchanged(spool)
    ensures e.ch.handed != [] ==>
              && id in spool.jsons && spool.jsons[id] == M.Meta(id, Some(l.id), Some(e.ch.lang), Some(id in spool.wavs))
              && (id in spool.wavs <==>
                    e.ch.recorded && call.unique in old(spool.tmp) && |old(spool.tmp)[call.unique]| > 44)
              && (id in spool.wavs ==> spool.wavs[id] == old(spool.tmp)[call.unique])
  {
    e := HungUp(Plan(lines), call, key, n, 2);
    HangUpAnywhere(lines, call, key, l, n, 2);
    assert LineOk(l);
    RunHandler(spool, e, call, l, id, cfg, s);
  }

  method RunHandler(spool: Spool, e: Ending, call: Incoming, l: Line, id: M.Id, ghost cfg: M.Settings, ghost s: P.System)
    requires HandedOnce(e, call, l) && LineOk(l) && l.id != "" && IsUnique(call.unique)
    requires cfg.Valid() && P.Inv(cfg, s) && spool.Shows(s) && id !in s.used
    modifies spool
    ensures e.ch.handed == [] ==> e.ch.played == [] && e.ch.takes == [] && unchanged(spool)
    ensures e.ch.handed != [] ==>
              && id in spool.jsons && spool.jsons[id] == M.Meta(id, Some(l.id), Some(e.ch.lang), Some(id in spool.wavs))
              && (id in spool.wavs <==>
                    e.ch.recorded && call.unique in old(spool.tmp) && |old(spool.tmp)[call.unique]| > 44)
              && (id in spool.wavs ==> spool.wavs[id] == old(spool.tmp)[call.unique])
  {
    if e.ch.handed != [] {
      ArgumentsAreAccepted(l, e.ch.lang);
      ghost var _ := spool.Finalize(id, e.ch.handed[0], Never, cfg, s);
      assert KeepOnly(call.unique, c => IsDigit(c) || c == '.') == call.unique;
    }
  }

  /** A call that is not cut short: the item says the line called and the language chosen. */
  lemma WholeCallIsHandedOver(lines: seq<Line>, call: Incoming, key: Key, l: Line, fuel: nat)
    requires Accepted(lines) && l in lines && Calls(call.number, l) && ValidKey(key) && fuel >= |lines| + ENOUGH
    ensures var e := HungUp(Plan(lines), call, key, fuel, fuel);
      e == Call(Plan(lines), call, key, fuel) && RecordedOn(e, call, l, key) && LangArgOk(Chosen(l, key))
  {
    CallReachesItsLine(lines, call, key, l, fuel);
    DialReaches(lines, call, key, l, fuel);
    assert LineOk(l);
    ArgumentsAreAccepted(l, Chosen(l, key));
  }
}
