/**
  The part of the Asterisk dialplan language that asterisk/etc/extensions.conf and the generated include use: statements,
  how they load into extensions, and how a call runs through them.
*/
module Dialplan {
  import opened Common
  import opened Text
  import opened Config

  datatype Var = VmLine | VmDid | VmLang

  /** What a shell command may be given. */
  datatype Arg = TheLine | TheLang | TheCaller | TheDid | TheStart | TheUnique | WasRecorded

  datatype App =
    | SetRaw(skip: nat)                          // Set(VM_RAW=${EXTEN:skip})
    | SetDigits                                  // Set(D=${FILTER(0123456789,${VM_RAW})})
    | RejectUnlessPlain(target: nat)             // GotoIf($[${LEN(${D})} = 0 | ${LEN(${D})} != ${LEN(${VM_RAW})}]?...)
    | SetAccount                                 // Set(CHANNEL(accountcode)=${D})
    | SetCaller                                  // Set(VM_CID=${FILTER(0123456789+,${CALLERID(num)})})
    | GotoIfNumber(did: string, ctx: string)     // GotoIf($["${D}" = "did"]?ctx,s,1)
    | Goto(ctx: string, exten: string)
    | SetVar(v: Var, value: string)
    | SetStart                                   // Set(VM_START=${EPOCH})
    | PushHandler(ctx: string)                   // Set(CHANNEL(hangup_handler_push)=ctx,s,1)
    | Answer
    | Pause                                      // Wait(0.5)
    | Playback(prompt: string)
    | PlaybackThanks                             // Playback(vm/${VM_LINE}-thanks-${VM_LANG})
    | Background(prompt: string)
    | WaitExten
    | SetRecorded                                // Set(VM_RECORDED=1)
    | Record                                     // Record(<tmp>/${UNIQUEID}.wav,...)
    | Hangup
    | System(args: seq<Arg>)                     // System(/usr/local/bin/vm-finalize '${...}' ...)
    | Return

  datatype Stmt = Blank | Header(ctx: string) | Exten(exten: string, app: App) | Same(app: App)

  /** One extension of a context with its priorities in order. */
  datatype Block = Block(ctx: string, exten: string, apps: seq<App>)

  /** Reading one statement: an `exten =>` line opens an extension, a `same =>` line continues the last one. */
  function LoadOne(blocks: seq<Block>, ctx: string, s: Stmt): (seq<Block>, string) {
    match s
    case Blank => (blocks, ctx)
    case Header(c) => (blocks, c)
    case Exten(e, app) => (blocks + [Block(ctx, e, [app])], ctx)
    case Same(app) =>
      if blocks == [] then (blocks, ctx)
      else
        var last := blocks[|blocks| - 1];
        (blocks[..|blocks| - 1] + [last.(apps := last.apps + [app])], ctx)
  }

  function Load(stmts: seq<Stmt>, blocks: seq<Block>, ctx: string): (seq<Block>, string) {
    if stmts == [] then (blocks, ctx)
    else
      var (b, c) := LoadOne(blocks, ctx, stmts[0]);
      Load(stmts[1..], b, c)
  }

  /** The extension that a context and a name select: the first one defined. */
  function Find(blocks: seq<Block>, ctx: string, exten: string): Option<seq<App>> {
    if blocks == [] then None
    else if blocks[0].ctx == ctx && blocks[0].exten == exten then Some(blocks[0].apps)
    else Find(blocks[1..], ctx, exten)
  }

  /** No extension is defined twice. */
  predicate UniqueKeys(blocks: seq<Block>) {
    forall i, j | 0 <= i < j < |blocks| :: blocks[i].ctx != blocks[j].ctx || blocks[i].exten != blocks[j].exten
  }

  // ---- running a call ----

  /** The caller's key press, if any: while the menu plays or in the pause after it. */
  datatype Key = Silent | During(c: char) | AfterMenu(c: char)

  predicate IsDtmf(c: char) {
    IsDigit(c) || c in "*#ABCD"
  }

  predicate ValidKey(k: Key) {
    k.Silent? || IsDtmf(k.c)
  }

  /** A call as it comes in: the number called, the caller's, the time and the channel's own id. */
  datatype Incoming = Incoming(number: string, caller: string, epoch: string, unique: string)

  /** A recording, with the variables set at its time, what the caller had heard, and the name of its file. */
  datatype Take = Take(line: string, did: string, lang: string, heard: seq<string>, file: string)

  /** `handed` are the arguments of the shell commands run. */
  datatype Channel = Channel(from: Incoming, raw: string, digits: string, account: string, caller: string, line: string,
                             did: string, lang: string, start: string, answered: bool, recorded: bool,
                             handlers: seq<string>, played: seq<string>, takes: seq<Take>, handed: seq<seq<string>>)

  function Ring(call: Incoming): Channel {
    Channel(call, "", "", "", "", "", "", "", "", false, false, [], [], [], [])
  }

  predicate InNumber(c: char) {
    IsDigit(c) || c == '+'
  }

  function Value(ch: Channel, a: Arg): string {
    match a
    case TheLine => ch.line
    case TheLang => ch.lang
    case TheCaller => ch.caller
    case TheDid => ch.did
    case TheStart => ch.start
    case TheUnique => ch.from.unique
    case WasRecorded => if ch.recorded then "1" else "0"
  }

  function Values(ch: Channel, args: seq<Arg>): (r: seq<string>)
    ensures |r| == |args| && forall i | 0 <= i < |r| :: r[i] == Value(ch, args[i])
  {
    seq(|args|, i requires 0 <= i < |args| => Value(ch, args[i]))
  }

  datatype Ending = Ended(ch: Channel) | StillRunning(ch: Channel)

  function DigitsOf(s: string): (r: string)
    ensures |r| <= |s| && (|r| == |s| ==> r == s)
    ensures (forall c | c in s :: IsDigit(c)) ==> r == s
    ensures forall c | c in r :: IsDigit(c)
  {
    if s == "" then "" else (if IsDigit(s[0]) then [s[0]] else []) + DigitsOf(s[1..])
  }

  predicate Plain(app: App) {
    || app.SetRaw? || app.SetDigits? || app.SetAccount? || app.SetCaller? || app.SetVar? || app.SetStart?
    || app.PushHandler? || app.Answer? || app.Pause? || app.Playback? || app.PlaybackThanks? || app.SetRecorded?
    || app.Record? || app.System?
  }

  /** What an application that does not jump does to the channel. */
  function Effect(app: App, ch: Channel): Channel
    requires Plain(app)
  {
    match app
    case SetRaw(skip) => ch.(raw := if skip <= |ch.from.number| then ch.from.number[skip..] else "")
    case SetDigits => ch.(digits := DigitsOf(ch.raw))
    case SetAccount => ch.(account := ch.digits)
    case SetCaller => ch.(caller := KeepOnly(ch.from.caller, InNumber))
    case SetStart => ch.(start := ch.from.epoch)
    case PushHandler(ctx) => ch.(handlers := ch.handlers + [ctx])
    case Answer => ch.(answered := true)
    case Pause => ch
    case SetRecorded => ch.(recorded := true)
    case System(args) => ch.(handed := ch.handed + [Values(ch, args)])
    case SetVar(v, value) => (
      match v
      case VmLine => ch.(line := value)
      case VmDid => ch.(did := value)
      case VmLang => ch.(lang := value))
    case Playback(p) => ch.(played := ch.played + [p])
    case PlaybackThanks => ch.(played := ch.played + [ch.line + "-thanks-" + ch.lang])
    case Record => ch.(takes := ch.takes + [Take(ch.line, ch.did, ch.lang, ch.played, ch.from.unique)])
  }

  /** The extension a pressed key selects: the key itself, or `i` when there is no such extension. */
  function Pressed(plan: seq<Block>, ctx: string, c: char): string {
    if Find(plan, ctx, [c]).Some? then [c] else "i"
  }

  /** The call at priority `prio` (from 0) of an extension, for at most `fuel` more priorities. Running off the end of an
      extension, or into one that does not exist, ends the call. */
  function Run(plan: seq<Block>, key: Key, ctx: string, exten: string, prio: nat, ch: Channel, fuel: nat): Ending
    decreases fuel
  {
    if fuel == 0 then StillRunning(ch)
    else
      var found := Find(plan, ctx, exten);
      if found.None? || prio >= |found.value| then Ended(ch)
      else
        var app := found.value[prio];
        if Plain(app) then Run(plan, key, ctx, exten, prio + 1, Effect(app, ch), fuel - 1)
        else
          match app
          case RejectUnlessPlain(target) =>
            Run(plan, key, ctx, exten, if ch.digits == "" || |ch.digits| != |ch.raw| then target else prio + 1, ch,
                fuel - 1)
          case GotoIfNumber(did, c) =>
            if ch.digits == did then Run(plan, key, c, "s", 0, ch, fuel - 1)
            else Run(plan, key, ctx, exten, prio + 1, ch, fuel - 1)
          case Goto(c, e) => Run(plan, key, c, e, 0, ch, fuel - 1)
          case Background(p) =>
            var heard := ch.(played := ch.played + [p]);
            if key.During? then Run(plan, key, ctx, Pressed(plan, ctx, key.c), 0, heard, fuel - 1)
            else Run(plan, key, ctx, exten, prio + 1, heard, fuel - 1)
          case WaitExten =>
            Run(plan, key, ctx, if key.AfterMenu? then Pressed(plan, ctx, key.c) else "t", 0, ch, fuel - 1)
          case _ => Ended(ch)
  }

  const PLUS_NUMBER := "_+X."
  const NUMBER := "_X."
  const ANYTHING := "_[\U{1}-~]!"

  /** The pattern of [from-trunk] that a called number matches, the most specific one; None is a 404. */
  function Pattern(number: string): Option<string> {
    if |number| >= 3 && number[0] == '+' && IsDigit(number[1]) then Some(PLUS_NUMBER)
    else if |number| >= 2 && IsDigit(number[0]) then Some(NUMBER)
    else if |number| >= 1 && '\U{1}' <= number[0] <= '~' then Some(ANYTHING)
    else None
  }

  /** A call up to the moment it ends. */
  function Dial(plan: seq<Block>, call: Incoming, key: Key, fuel: nat): Ending {
    match Pattern(call.number)
    case None => Ended(Ring(call))
    case Some(p) => Run(plan, key, "from-trunk", p, 0, Ring(call), fuel)
  }

  /** The handlers pushed on the channel, the last one first. */
  function HangUp(plan: seq<Block>, handlers: seq<string>, ch: Channel, fuel: nat): Ending
    decreases |handlers|
  {
    if handlers == [] then Ended(ch)
    else
      var n := |handlers| - 1;
      match Run(plan, Silent, handlers[n], "s", 0, ch, fuel)
      case Ended(next) => HangUp(plan, handlers[..n], next, fuel)
      case StillRunning(next) => StillRunning(next)
  }

  /** A whole call: until it ends, and what is done then. */
  function Call(plan: seq<Block>, call: Incoming, key: Key, fuel: nat): Ending {
    match Dial(plan, call, key, fuel)
    case Ended(ch) => HangUp(plan, ch.handlers, ch, fuel)
    case StillRunning(ch) => StillRunning(ch)
  }

  // ---- lemmas about loading and finding ----

  lemma {:induction false} LoadAppend(a: seq<Stmt>, b: seq<Stmt>, blocks: seq<Block>, ctx: string)
    ensures var (mid, c) := Load(a, blocks, ctx); Load(a + b, blocks, ctx) == Load(b, mid, c)
    decreases |a|
  {
    if a == [] {
      assert a + b == b;
    } else {
      var (m, c) := LoadOne(blocks, ctx, a[0]);
      assert (a + b)[1..] == a[1..] + b;
      LoadAppend(a[1..], b, m, c);
    }
  }

  /** An extension as statements. */
  function Stanza(exten: string, apps: seq<App>): seq<Stmt>
    requires apps != []
    decreases |apps|
  {
    if |apps| == 1 then [Exten(exten, apps[0])]
    else Stanza(exten, apps[..|apps| - 1]) + [Same(apps[|apps| - 1])]
  }

  lemma {:induction false} StanzaAt(exten: string, apps: seq<App>)
    requires apps != []
    ensures var s := Stanza(exten, apps);
      |s| == |apps| && s[0] == Exten(exten, apps[0]) && forall k | 0 < k < |s| :: s[k] == Same(apps[k])
    decreases |apps|
  {
    if |apps| > 1 {
      StanzaAt(exten, apps[..|apps| - 1]);
    }
  }

  lemma {:induction false} LoadStanza(exten: string, apps: seq<App>, blocks: seq<Block>, ctx: string)
    requires apps != []
    ensures Load(Stanza(exten, apps), blocks, ctx) == (blocks + [Block(ctx, exten, apps)], ctx)
    decreases |apps|
  {
    var n := |apps| - 1;
    if n == 0 {
      assert apps == [apps[0]];
      LoadSingle(Exten(exten, apps[0]), blocks, ctx);
    } else {
      LoadStanza(exten, apps[..n], blocks, ctx);
      LoadAppend(Stanza(exten, apps[..n]), [Same(apps[n])], blocks, ctx);
      var most := blocks + [Block(ctx, exten, apps[..n])];
      LoadSingle(Same(apps[n]), most, ctx);
      assert most[..|most| - 1] == blocks;
      assert apps[..n] + [apps[n]] == apps;
    }
  }

  /** A context as statements. */
  function Context(ctx: string, extens: seq<Block>): seq<Stmt>
    requires forall b | b in extens :: b.apps != []
    decreases |extens|
  {
    if extens == [] then [Header(ctx)]
    else
      var last := extens[|extens| - 1];
      Context(ctx, extens[..|extens| - 1]) + Stanza(last.exten, last.apps)
  }

  lemma {:induction false} LoadContext(ctx: string, extens: seq<Block>, blocks: seq<Block>, before: string)
    requires forall b | b in extens :: b.apps != [] && b.ctx == ctx
    ensures Load(Context(ctx, extens), blocks, before) == (blocks + extens, ctx)
    decreases |extens|
  {
    if extens == [] {
      LoadSingle(Header(ctx), blocks, before);
      assert blocks + extens == blocks;
    } else {
      var n := |extens| - 1;
      var last := extens[n];
      assert last in extens;
      LoadContext(ctx, extens[..n], blocks, before);
      LoadAppend(Context(ctx, extens[..n]), Stanza(last.exten, last.apps), blocks, before);
      LoadStanza(last.exten, last.apps, blocks + extens[..n], ctx);
      assert (blocks + extens[..n]) + [last] == blocks + extens;
    }
  }

  lemma LoadSingle(s: Stmt, blocks: seq<Block>, ctx: string)
    ensures Load([s], blocks, ctx) == LoadOne(blocks, ctx, s)
  {
  }

  lemma {:induction false} FindMember(blocks: seq<Block>, b: Block)
    requires UniqueKeys(blocks) && b in blocks
    ensures Find(blocks, b.ctx, b.exten) == Some(b.apps)
    decreases |blocks|
  {
    var i :| 0 <= i < |blocks| && blocks[i] == b;
    if i > 0 {
      assert blocks[1..][i - 1] == b;
      FindMember(blocks[1..], b);
    }
  }

  lemma {:induction false} FindNothing(blocks: seq<Block>, ctx: string, exten: string)
    requires forall b | b in blocks :: b.ctx != ctx || b.exten != exten
    ensures Find(blocks, ctx, exten) == None
    decreases |blocks|
  {
    if blocks != [] {
      assert blocks[0] in blocks;
      FindNothing(blocks[1..], ctx, exten);
    }
  }

  lemma UniqueAppend(a: seq<Block>, b: seq<Block>)
    requires UniqueKeys(a) && UniqueKeys(b)
    requires forall x, y | x in a && y in b :: x.ctx != y.ctx || x.exten != y.exten
    ensures UniqueKeys(a + b)
  {
  }

  // ---- lemmas about running ----

  /** The channel after a row of applications that do not jump. */
  function Effects(apps: seq<App>, ch: Channel): Channel
    requires forall a | a in apps :: Plain(a)
    decreases |apps|
  {
    if apps == [] then ch else Effects(apps[1..], Effect(apps[0], ch))
  }

  lemma {:induction false} RunPlain(plan: seq<Block>, key: Key, ctx: string, exten: string, prio: nat, upTo: nat,
                                    ch: Channel, fuel: nat)
    requires Find(plan, ctx, exten).Some?
    requires var apps := Find(plan, ctx, exten).value;
      prio <= upTo <= |apps| && (forall a | a in apps[prio..upTo] :: Plain(a)) && fuel >= upTo - prio
    ensures var apps := Find(plan, ctx, exten).value;
      Run(plan, key, ctx, exten, prio, ch, fuel) ==
      Run(plan, key, ctx, exten, upTo, Effects(apps[prio..upTo], ch), fuel - (upTo - prio))
    decreases upTo - prio
  {
    var apps := Find(plan, ctx, exten).value;
    if prio < upTo {
      assert apps[prio..upTo][0] == apps[prio] && apps[prio] in apps[prio..upTo];
      assert apps[prio..upTo][1..] == apps[prio + 1..upTo];
      RunPlain(plan, key, ctx, exten, prio + 1, upTo, Effect(apps[prio], ch), fuel - 1);
    }
  }
}
