/**
  The delivery protocol as a step system: any number of vm-finalize producers, one worker cycling list / evict /
  process, and an environment that picks every answer and every crash.

  A producer moves a WAV and then a JSON into ready/, as two steps. The worker's directory scan has a start and an end, a
  fetch reads the JSON and then looks for the WAV, and the calls of one `process` happen one step at a time, so producers
  interleave with all of them and a crash can fall between any two, also between the two removals of an ack.
*/
module Protocol {
  import opened Common
  import opened Machine
  import opened Watch
  import opened Keeps

  datatype Mark = Moved(id: Id, audio: Bytes) | Posted(id: Id, meta: Meta) | Call(id: Id, e: Effect) | Crash

  datatype Mode =
    | Idle
    | Scanning(base: set<Id>)
    | Polling(queue: seq<Id>)
    | Fetching(id: Id, meta: Meta, queue: seq<Id>)
    | Working(id: Id, todo: seq<Effect>, after: Slot, queue: seq<Id>)

  /** `used` are the ids producers have taken, `moved` those whose WAV is in ready/ and whose JSON is not there yet. */
  datatype System = System(wavs: map<Id, Bytes>, jsons: map<Id, Meta>, moved: set<Id>, used: set<Id>,
                           slots: map<Id, Slot>, mode: Mode, history: seq<Mark>)

  datatype Move =
    | MoveWav(id: Id, audio: Bytes)
    | MoveJson(id: Id, meta: Meta)
    | ScanStart
    | ScanEnd(listing: seq<Id>)
    | ScanFails
    | ReadMeta
    | Attend(o: Oracle)
    | Emit
    | Finish
    | Rest
    | Crashes

  const INIT: System := System(map[], map[], {}, {}, map[], Idle, [])

  function SlotIn(slots: map<Id, Slot>, id: Id): Slot {
    if id in slots then slots[id] else EMPTY
  }

  /** The collections hold nothing for an item whose slot is empty. */
  function Put(slots: map<Id, Slot>, id: Id, s: Slot): (r: map<Id, Slot>)
    ensures SlotIn(r, id) == s
    ensures forall k | k != id :: SlotIn(r, k) == SlotIn(slots, k)
  {
    if s == EMPTY then slots - {id} else slots[id := s]
  }

  /** `evict`. */
  function Evict(slots: map<Id, Slot>, keep: seq<Id>): map<Id, Slot> {
    map id | id in slots && id in keep :: slots[id]
  }

  predicate Distinct(ids: seq<Id>) {
    forall i, j | 0 <= i < j < |ids| :: ids[i] != ids[j]
  }

  predicate IsFresh(s: Slot) {
    s.sent.None? && s.pending.None?
  }

  /** The WAV of an item in ready/. */
  function WavIn(s: System, id: Id): Option<Bytes> {
    if id in s.wavs then Some(s.wavs[id]) else None
  }

  /** A fetch that raises may leave the beginning of the WAV, or all of it, in the work directory. */
  predicate LeavesPart(s: System, id: Id, o: Oracle) {
    o.onDisk.Some? ==> id in s.wavs && o.onDisk.value <= s.wavs[id]
  }

  predicate Enabled(cfg: Settings, s: System, m: Move) {
    match m
    case MoveWav(id, _) => id !in s.used
    case MoveJson(id, meta) =>
      meta.id == id && meta.hasAudio == Some(id in s.moved) && (id in s.moved || id !in s.used)
    case ScanStart => s.mode.Idle?
    case ScanEnd(listing) =>
      s.mode.Scanning? && Distinct(listing) && s.mode.base <= (set id | id in listing) <= s.jsons.Keys
    case ScanFails => s.mode.Scanning?
    case ReadMeta =>
      s.mode.Polling? && s.mode.queue != [] && IsFresh(SlotIn(s.slots, s.mode.queue[0])) && s.mode.queue[0] in s.jsons
    case Attend(o) =>
      o.Valid() && (
        match s.mode
        case Polling(queue) =>
          queue != [] && (IsFresh(SlotIn(s.slots, queue[0])) ==> !o.get.Got? && LeavesPart(s, queue[0], o))
        case Fetching(id, meta, _) =>
          if o.get.Got? then o.get.meta == meta && o.get.wav == WavIn(s, id) else LeavesPart(s, id, o)
        case _ => false)
    case Emit => s.mode.Working? && s.mode.todo != []
    case Finish => s.mode.Working? && s.mode.todo == []
    case Rest => s.mode.Polling? && s.mode.queue == []
    case Crashes => true
  }

  function Start(cfg: Settings, s: System, id: Id, queue: seq<Id>, o: Oracle): System
    requires cfg.Valid() && o.Valid()
  {
    var out := Process(cfg, SlotIn(s.slots, id), id, o);
    s.(mode := Working(id, out.calls, out.slot, queue))
  }

  function Apply(cfg: Settings, s: System, m: Move): System
    requires cfg.Valid() && Enabled(cfg, s, m)
  {
    match m
    case MoveWav(id, audio) =>
      s.(wavs := s.wavs[id := audio], moved := s.moved + {id}, used := s.used + {id},
         history := s.history + [Moved(id, audio)])
    case MoveJson(id, meta) =>
      s.(jsons := s.jsons[id := meta], moved := s.moved - {id}, used := s.used + {id},
         history := s.history + [Posted(id, meta)])
    case ScanStart => s.(mode := Scanning(s.jsons.Keys))
    case ScanEnd(listing) => s.(mode := Polling(listing), slots := Evict(s.slots, listing))
    case ScanFails => s.(mode := Idle)
    case ReadMeta =>
      var id := s.mode.queue[0];
      s.(mode := Fetching(id, s.jsons[id], s.mode.queue[1..]))
    case Attend(o) =>
      if s.mode.Polling? then Start(cfg, s, s.mode.queue[0], s.mode.queue[1..], o)
      else Start(cfg, s, s.mode.id, s.mode.queue, o)
    case Emit =>
      var id := s.mode.id;
      var e := s.mode.todo[0];
      s.(wavs := if e.WavRemoved? then s.wavs - {id} else s.wavs,
         jsons := if e.JsonRemoved? then s.jsons - {id} else s.jsons,
         mode := s.mode.(todo := s.mode.todo[1..]),
         history := s.history + [Call(id, e)])
    case Finish => s.(mode := Polling(s.mode.queue), slots := Put(s.slots, s.mode.id, s.mode.after))
    case Rest => s.(mode := Idle)
    case Crashes => s.(mode := Idle, slots := map[], history := s.history + [Crash])
  }

  /** The system after a sequence of moves from `s`; None when one of them was not enabled. */
  function Go(cfg: Settings, s: System, moves: seq<Move>): Option<System>
    requires cfg.Valid()
    decreases |moves|
  {
    if moves == [] then Some(s)
    else
      var before := Go(cfg, s, moves[..|moves| - 1]);
      var m := moves[|moves| - 1];
      if before.Some? && Enabled(cfg, before.value, m) then Some(Apply(cfg, before.value, m)) else None
  }

  /** A run: the moves taken since nothing had happened. */
  function After(cfg: Settings, moves: seq<Move>): Option<System>
    requires cfg.Valid()
  {
    Go(cfg, INIT, moves)
  }

  function See(max: int, w: Watch, m: Mark, id: Id): Watch {
    match m
    case Crash => Step(max, w, Crashed)
    case Moved(k, _) => if k == id then Step(max, w, WavPublished) else w
    case Posted(k, meta) => if k == id then Step(max, w, JsonPublished(meta)) else w
    case Call(k, e) => if k == id then Step(max, w, Did(e)) else w
  }

  /** What was observed of one item. */
  function Observe(max: int, history: seq<Mark>, id: Id): Watch
    decreases |history|
  {
    if history == [] then START
    else See(max, Observe(max, history[..|history| - 1], id), history[|history| - 1], id)
  }

  lemma ObserveLast(max: int, history: seq<Mark>, m: Mark, id: Id)
    ensures Observe(max, history + [m], id) == See(max, Observe(max, history, id), m, id)
  {
  }

  predicate QueueOk(s: System) {
    match s.mode
    case Polling(queue) => Distinct(queue)
    case Fetching(id, _, queue) => Distinct([id] + queue)
    case Working(id, _, _, queue) => Distinct([id] + queue)
    case _ => true
  }

  /** The directory is what the item's events made it. */
  predicate FilesMatch(s: System, id: Id, w: Watch) {
    && w.shelf.Shelf?
    && (id in s.wavs <==> w.shelf.wav)
    && w.shelf.json == (if id in s.jsons then Some(s.jsons[id]) else None)
    && (id in s.moved <==> w.shelf.wav && !w.shelf.posted)
    && (id in s.used <==> w.shelf.wav || w.shelf.posted)
  }

  predicate Unpublished(slot: Slot, w: Watch) {
    slot == EMPTY && w == START.(shelf := Shelf(w.shelf.Shelf? && w.shelf.wav, None, false, false,
                                                w.shelf.Shelf? && w.shelf.crashed))
  }

  predicate Good(cfg: Settings, s: System, id: Id) {
    var w := Observe(cfg.maxFailures, s.history, id);
    var slot := SlotIn(s.slots, id);
    && FilesMatch(s, id, w)
    && (!w.shelf.posted ==> Unpublished(slot, w))
    && (if s.mode.Working? && s.mode.id == id then
          Always(cfg.maxFailures, w) && Agrees(cfg.maxFailures, s.mode.after, Replay(cfg.maxFailures, w, s.mode.todo))
          && w.shelf.posted
        else
          Agrees(cfg.maxFailures, slot, w))
    && (match s.mode
        case Scanning(base) => (id in base ==> id in s.jsons) && (id in s.jsons && id !in base ==> slot == EMPTY)
        case Polling(queue) => id in queue ==> id in s.jsons
        case Fetching(k, meta, queue) =>
          (id in queue ==> id in s.jsons)
          && (id == k ==> IsFresh(slot) && id in s.jsons && s.jsons[id] == meta)
        case Working(k, _, _, queue) => id in queue ==> id in s.jsons
        case _ => true)
  }

  ghost predicate Inv(cfg: Settings, s: System) {
    QueueOk(s) && forall id :: Good(cfg, s, id)
  }

  lemma NotQueued(id: Id, queue: seq<Id>)
    requires Distinct([id] + queue)
    ensures id !in queue && Distinct(queue)
  {
    forall i | 0 <= i < |queue| ensures queue[i] != id {
      assert ([id] + queue)[0] == id && ([id] + queue)[i + 1] == queue[i];
    }
    assert ([id] + queue)[1..] == queue;
  }

  // ---- every move keeps the invariant ----

  lemma EmitKeepsAlways(max: int, w: Watch, e: Effect)
    requires Always(max, w) && Step(max, w, Did(e)).Ok()
    ensures Always(max, Step(max, w, Did(e)))
  {
  }

  lemma CrashKeeps(max: int, w: Watch)
    requires max >= 1 && Always(max, w)
    ensures Agrees(max, EMPTY, Step(max, w, Crashed))
  {
  }

  lemma MoveWavKeeps(cfg: Settings, s: System, id: Id, k: Id, audio: Bytes)
    requires cfg.Valid() && Inv(cfg, s) && Enabled(cfg, s, MoveWav(k, audio))
    ensures Good(cfg, Apply(cfg, s, MoveWav(k, audio)), id)
  {
    assert Good(cfg, s, id);
    ObserveLast(cfg.maxFailures, s.history, Moved(k, audio), id);
  }

  lemma MoveJsonKeeps(cfg: Settings, s: System, id: Id, k: Id, meta: Meta)
    requires cfg.Valid() && Inv(cfg, s) && Enabled(cfg, s, MoveJson(k, meta))
    ensures Good(cfg, Apply(cfg, s, MoveJson(k, meta)), id)
  {
    assert Good(cfg, s, id);
    if id == k {
      MoveJsonKeepsSelf(cfg, s, id, meta);
    } else {
      MoveJsonKeepsOthers(cfg, s, id, k, meta);
    }
  }

  lemma MoveJsonKeepsSelf(cfg: Settings, s: System, id: Id, meta: Meta)
    requires cfg.Valid() && Good(cfg, s, id) && Enabled(cfg, s, MoveJson(id, meta))
    ensures Good(cfg, Apply(cfg, s, MoveJson(id, meta)), id)
  {
    ObserveLast(cfg.maxFailures, s.history, Posted(id, meta), id);
  }

  lemma MoveJsonKeepsOthers(cfg: Settings, s: System, id: Id, k: Id, meta: Meta)
    requires cfg.Valid() && Good(cfg, s, id) && Enabled(cfg, s, MoveJson(k, meta)) && id != k
    ensures Good(cfg, Apply(cfg, s, MoveJson(k, meta)), id)
  {
    ObserveLast(cfg.maxFailures, s.history, Posted(k, meta), id);
  }

  lemma ScanEndKeeps(cfg: Settings, s: System, id: Id, listing: seq<Id>)
    requires cfg.Valid() && Inv(cfg, s) && Enabled(cfg, s, ScanEnd(listing))
    ensures Good(cfg, Apply(cfg, s, ScanEnd(listing)), id)
  {
    assert Good(cfg, s, id);
    assert id in listing <==> id in set k | k in listing;
  }

  lemma AttendKeeps(cfg: Settings, s: System, id: Id, o: Oracle)
    requires cfg.Valid() && Inv(cfg, s) && Enabled(cfg, s, Attend(o))
    ensures Good(cfg, Apply(cfg, s, Attend(o)), id)
  {
    assert Good(cfg, s, id);
    var k := if s.mode.Polling? then s.mode.queue[0] else s.mode.id;
    if id == k {
      ProcessKeeps(cfg, SlotIn(s.slots, id), id, o, Observe(cfg.maxFailures, s.history, id));
    }
  }

  lemma EmitKeepsSelf(cfg: Settings, s: System)
    requires cfg.Valid() && QueueOk(s) && Enabled(cfg, s, Emit) && Good(cfg, s, s.mode.id)
    ensures Good(cfg, Apply(cfg, s, Emit), s.mode.id)
  {
    var max := cfg.maxFailures;
    var id := s.mode.id;
    var e := s.mode.todo[0];
    var w := Observe(max, s.history, id);
    ObserveLast(max, s.history, Call(id, e), id);
    ReplayOk(max, Step(max, w, Did(e)), s.mode.todo[1..]);
    EmitKeepsAlways(max, w, e);
    EmitKeepsFiles(max, s, w);
    NotQueued(id, s.mode.queue);
  }

  lemma EmitKeepsFiles(max: int, s: System, w: Watch)
    requires s.mode.Working? && s.mode.todo != []
    requires FilesMatch(s, s.mode.id, w) && w.shelf.posted && Step(max, w, Did(s.mode.todo[0])).Ok()
    ensures var e := s.mode.todo[0]; var id := s.mode.id;
      FilesMatch(s.(wavs := if e.WavRemoved? then s.wavs - {id} else s.wavs,
                    jsons := if e.JsonRemoved? then s.jsons - {id} else s.jsons), id, Step(max, w, Did(e)))
      && Step(max, w, Did(e)).shelf.posted
  {
  }

  lemma EmitKeeps(cfg: Settings, s: System, id: Id)
    requires cfg.Valid() && Inv(cfg, s) && Enabled(cfg, s, Emit)
    ensures Good(cfg, Apply(cfg, s, Emit), id)
  {
    assert Good(cfg, s, id);
    if id == s.mode.id {
      EmitKeepsSelf(cfg, s);
    } else {
      EmitKeepsOthers(cfg, s, id);
    }
  }

  lemma EmitKeepsOthers(cfg: Settings, s: System, id: Id)
    requires cfg.Valid() && Enabled(cfg, s, Emit) && Good(cfg, s, id) && id != s.mode.id
    ensures Good(cfg, Apply(cfg, s, Emit), id)
  {
    ObserveLast(cfg.maxFailures, s.history, Call(s.mode.id, s.mode.todo[0]), id);
  }

  lemma CrashesKeeps(cfg: Settings, s: System, id: Id)
    requires cfg.Valid() && Inv(cfg, s)
    ensures Good(cfg, Apply(cfg, s, Crashes), id)
  {
    assert Good(cfg, s, id);
    ObserveLast(cfg.maxFailures, s.history, Crash, id);
    CrashKeeps(cfg.maxFailures, Observe(cfg.maxFailures, s.history, id));
  }

  lemma QuietKeeps(cfg: Settings, s: System, id: Id, m: Move)
    requires cfg.Valid() && Inv(cfg, s) && Enabled(cfg, s, m)
    requires m.ScanStart? || m.ScanFails? || m.ReadMeta? || m.Finish? || m.Rest?
    ensures Good(cfg, Apply(cfg, s, m), id)
  {
    assert Good(cfg, s, id);
    if m.ReadMeta? {
      assert Good(cfg, s, s.mode.queue[0]);
    }
  }

  lemma QueueKeeps(cfg: Settings, s: System, m: Move)
    requires cfg.Valid() && QueueOk(s) && Enabled(cfg, s, m)
    ensures QueueOk(Apply(cfg, s, m))
  {
    if s.mode.Polling? && s.mode.queue != [] {
      assert [s.mode.queue[0]] + s.mode.queue[1..] == s.mode.queue;
    }
    if s.mode.Working? {
      assert ([s.mode.id] + s.mode.queue)[1..] == s.mode.queue;
    }
  }

  lemma MoveKeeps(cfg: Settings, s: System, m: Move)
    requires cfg.Valid() && Inv(cfg, s) && Enabled(cfg, s, m)
    ensures Inv(cfg, Apply(cfg, s, m))
  {
    QueueKeeps(cfg, s, m);
    forall id ensures Good(cfg, Apply(cfg, s, m), id) {
      match m
      case MoveWav(k, audio) => MoveWavKeeps(cfg, s, id, k, audio);
      case MoveJson(k, meta) => MoveJsonKeeps(cfg, s, id, k, meta);
      case ScanEnd(listing) => ScanEndKeeps(cfg, s, id, listing);
      case Attend(o) => AttendKeeps(cfg, s, id, o);
      case Emit => EmitKeeps(cfg, s, id);
      case Crashes => CrashesKeeps(cfg, s, id);
      case _ => QuietKeeps(cfg, s, id, m);
    }
  }

  lemma {:induction false} RunKeeps(cfg: Settings, moves: seq<Move>)
    requires cfg.Valid() && After(cfg, moves).Some?
    ensures Inv(cfg, After(cfg, moves).value)
    decreases |moves|
  {
    if moves == [] {
      forall id ensures Good(cfg, INIT, id) {
        assert Observe(cfg.maxFailures, [], id) == START;
      }
    } else {
      RunKeeps(cfg, moves[..|moves| - 1]);
      MoveKeeps(cfg, After(cfg, moves[..|moves| - 1]).value, moves[|moves| - 1]);
    }
  }

  /** What holds of every item after every run. */
  lemma Observed(cfg: Settings, moves: seq<Move>, id: Id)
    requires cfg.Valid() && After(cfg, moves).Some?
    ensures var s := After(cfg, moves).value; var w := Observe(cfg.maxFailures, s.history, id);
      Always(cfg.maxFailures, w) && FilesMatch(s, id, w)
  {
    RunKeeps(cfg, moves);
    assert Good(cfg, After(cfg, moves).value, id);
  }
}
