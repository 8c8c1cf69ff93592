/**
  The spool directory and those who write to it: asterisk/bin/vm-finalize (the producer) and
  aivoicemail/spool/local.py (the worker's side).

  The ghost arguments are a state of Protocol.dfy that shows the same files: each operation is a step of the protocol, or
  gives an answer that the protocol allows.
*/
module Spooling {
  import opened Common
  import opened Text
  import opened Config
  import opened ListWire
  import M = Machine
  import opened Protocol
  import opened Cycle
  import opened Weaving

  /** The first command of vm-finalize that fails (`set -e` ends the script there). */
  datatype Stop = Never | AtMove | AtJson

  /** What keeps a `get` from returning the item: the JSON or the WAV cannot be read, or is not what it should be (a
      symlink, a directory, other JSON), the work directory cannot be made, or writing the WAV there stops early. */
  datatype GetFault =
    Nothing | JsonUnreadable | JsonBroken | WavUnreadable | WavBroken | NoDest | WriteStops(written: nat)

  predicate LineArgOk(s: string) {
    1 <= |s| <= 16 && forall c | c in s :: IsLower(c) || IsDigit(c)
  }

  predicate LangArgOk(s: string) {
    s == "auto" || LangOk(s)
  }

  function Holds(dir: map<string, M.Bytes>, name: string): Option<M.Bytes> {
    if name in dir then Some(dir[name]) else None
  }

  lemma RemovalsAre(n: nat)
    requires n <= 2
    ensures (M.WavRemoved in M.Removals(n) <==> n >= 1) && (M.JsonRemoved in M.Removals(n) <==> n == 2)
  {
    assert M.Removals(1) == [M.WavRemoved] && M.Removals(2) == [M.WavRemoved, M.JsonRemoved];
  }

  /** The moves of a producer that publishes a fresh item, or stops before the JSON. */
  lemma PublishesOrLess(cfg: M.Settings, s: System, id: M.Id, audio: Option<M.Bytes>, meta: Option<M.Meta>)
    returns (moves: seq<Move>)
    requires cfg.Valid() && Inv(cfg, s) && id !in s.used
    requires meta.Some? ==> meta.value.id == id && meta.value.hasAudio == Some(audio.Some?)
    ensures moves == (if audio.Some? then [MoveWav(id, audio.value)] else [])
                     + (if meta.Some? then [MoveJson(id, meta.value)] else [])
    ensures id !in s.wavs && id !in s.jsons && Go(cfg, s, moves).Some?
    ensures var t := Go(cfg, s, moves).value;
      && t.wavs == (if audio.Some? then s.wavs[id := audio.value] else s.wavs)
      && t.jsons == (if meta.Some? then s.jsons[id := meta.value] else s.jsons)
  {
    assert Good(cfg, s, id);
    moves := if audio.Some? then [MoveWav(id, audio.value)] else [];
    if audio.Some? {
      Go1(cfg, s, MoveWav(id, audio.value));
    }
    if meta.Some? {
      GoOn(cfg, s, moves, MoveJson(id, meta.value));
      moves := moves + [MoveJson(id, meta.value)];
    }
  }

  class Spool {
    var tmp: map<string, M.Bytes>
    var wavs: map<M.Id, M.Bytes>
    var jsons: map<M.Id, M.Meta>

    /** The protocol's view of ready/. */
    ghost predicate Shows(s: System)
      reads this
    {
      wavs == s.wavs && jsons == s.jsons
    }

    /** vm-finalize with its arguments LINE LANG CALLER DID START_EPOCH UNIQUEID RECORDED, for a fresh uuid `id`: refuse bad
        arguments, move the recording if there is one, write the JSON last. Its effects on ready/ are moves of a producer. */
    method Finalize(id: M.Id, args: seq<string>, stop: Stop, ghost cfg: M.Settings, ghost s: System)
      returns (ghost moves: seq<Move>)
      requires cfg.Valid() && Inv(cfg, s) && Shows(s) && id !in s.used
      modifies this
      ensures |args| < 7 || !LineArgOk(args[0]) || !LangArgOk(args[1]) ==> unchanged(this) && moves == []
      ensures forall k | k != id :: (k in wavs <==> k in old(wavs)) && (k in jsons <==> k in old(jsons))
      ensures |args| >= 7 && LineArgOk(args[0]) && LangArgOk(args[1]) && stop.Never? ==>
                var name := KeepOnly(args[5], c => IsDigit(c) || c == '.');
                && id in jsons && jsons[id] == M.Meta(id, Some(args[0]), Some(args[1]), Some(id in wavs))
                && name !in tmp && (id in wavs <==> args[6] == "1" && name in old(tmp) && |old(tmp)[name]| > 44)
                && (id in wavs ==> wavs[id] == old(tmp)[name])
      ensures |args| >= 7 ==>
                var name := KeepOnly(args[5], c => IsDigit(c) || c == '.');
                && (forall k | k != name :: Holds(tmp, k) == Holds(old(tmp), k))
                && (name in old(tmp) && args[6] == "1" && |old(tmp)[name]| > 44 ==>
                      Some(old(tmp)[name]) == if id in wavs then Some(wavs[id]) else Holds(tmp, name))
      ensures id in jsons ==> jsons[id].hasAudio == Some(id in wavs)
      ensures moves == (if id in wavs then [MoveWav(id, wavs[id])] else [])
                       + (if id in jsons then [MoveJson(id, jsons[id])] else [])
      ensures Go(cfg, s, moves).Some? && Shows(Go(cfg, s, moves).value)
    {
      moves := PublishesOrLess(cfg, s, id, None, None);
      if |args| < 7 { return; }
      var line, lang, uid, recorded := args[0], args[1], args[5], args[6];
      if !LineArgOk(line) { return; }
      if !LangArgOk(lang) { return; }
      var wav := KeepOnly(uid, c => IsDigit(c) || c == '.');
      var hasAudio := false;
      ghost var audio := None;
      if recorded == "1" && wav in tmp && |tmp[wav]| > 44 {
        hasAudio := true;
        if stop.AtMove? { return; }
        audio := Some(tmp[wav]);
        wavs := wavs[id := tmp[wav]];
        tmp := tmp - {wav};
      } else {
        if stop.AtMove? { return; }
        tmp := tmp - {wav};
      }
      if stop.AtJson? {
        moves := PublishesOrLess(cfg, s, id, audio, None);
        return;
      }
      jsons := jsons[id := M.Meta(id, Some(line), Some(lang), Some(hasAudio))];
      moves := PublishesOrLess(cfg, s, id, audio, Some(jsons[id]));
    }

    /** `LocalSpool.get`: the JSON first, then the WAV, which is copied to the work directory; `left` is the copy. Faults of
        the directory are SpoolErrors, to be retried; faults of the content raise and count towards a give-up. What it
        answers is what the protocol lets a fetch answer. */
    method Get(id: M.Id, fault: GetFault, ghost s: System) returns (r: M.GetAnswer, left: Option<M.Bytes>)
      requires Shows(s)
      ensures r.GetSpoolError? <==>
                || !IdOk(id) || fault.JsonUnreadable? || (!fault.JsonBroken? && id !in jsons)
                || (fault.WavUnreadable? && jsons[id].id == id && id in wavs)
      ensures r.GetRaises? <==>
                && IdOk(id)
                && (|| fault.JsonBroken?
                    || (&& !fault.JsonUnreadable? && id in jsons
                        && (|| jsons[id].id != id || fault.NoDest?
                            || (id in wavs && (fault.WavBroken? || (fault.WriteStops? && fault.written < |wavs[id]|))))))
      ensures r.Got? ==> r.meta == jsons[id] && r.wav == (if id in wavs then Some(wavs[id]) else None) && left == r.wav
      ensures left.Some? ==> id in wavs && left.value <= wavs[id]
      ensures forall o: M.Oracle | o.get == r && o.onDisk == left && id in jsons :: Faithful(s, id, o)
    {
      left := None;
      if !IdOk(id) {
        return M.GetSpoolError, left;
      }
      if fault.JsonUnreadable? {
        return M.GetSpoolError, left;
      }
      if fault.JsonBroken? {
        return M.GetRaises, left;
      }
      if id !in jsons {
        return M.GetSpoolError, left;
      }
      if jsons[id].id != id {
        return M.GetRaises, left;
      }
      var data := None;
      if id in wavs {
        if fault.WavUnreadable? {
          return M.GetSpoolError, left;
        }
        if fault.WavBroken? {
          return M.GetRaises, left;
        }
        data := Some(wavs[id]);
      }
      if fault.NoDest? {
        return M.GetRaises, left;
      }
      if data.Some? {
        if fault.WriteStops? && fault.written < |data.value| {
          return M.GetRaises, Some(data.value[..fault.written]);
        }
        left := data;
      }
      r := M.Got(jsons[id], data);
    }

    /** `LocalSpool.ack`: unlink the WAV, then the JSON; `failsAt` is the first unlink that fails. The files left are those
        the protocol leaves when these removals are made. */
    method Ack(id: M.Id, failsAt: Option<nat>, ghost s: System) returns (r: M.AckAnswer)
      requires Shows(s)
      modifies this
      ensures r.Valid() && (r.Removes? <==> IdOk(id) && (failsAt.None? || failsAt.value >= 2))
      ensures r.AckRaises? ==> if IdOk(id) then Some(r.removed) == failsAt else r.removed == 0
      ensures var n := if r.Removes? then 2 else r.removed;
        && wavs == (if n >= 1 then old(wavs) - {id} else old(wavs))
        && jsons == (if n >= 2 then old(jsons) - {id} else old(jsons))
        && Shows(Emitted(s.(mode := Working(id, M.Removals(n), M.EMPTY, []))))
      ensures tmp == old(tmp)
    {
      RemovalsAre(0);
      RemovalsAre(1);
      RemovalsAre(2);
      if !IdOk(id) {
        return M.AckRaises(0);
      }
      for k := 0 to 2
        invariant failsAt.Some? ==> failsAt.value >= k
        invariant wavs == (if k >= 1 then old(wavs) - {id} else old(wavs))
        invariant jsons == (if k >= 2 then old(jsons) - {id} else old(jsons))
        invariant tmp == old(tmp)
      {
        if failsAt == Some(k) {
          return M.AckRaises(k);
        }
        if k == 0 {
          wavs := wavs - {id};
        } else {
          jsons := jsons - {id};
        }
      }
      r := M.Removes;
    }
  }
}
