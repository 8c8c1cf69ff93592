/** The dialplan generator: `extensions_lines` and `_line_context` of aivoicemail/generate.py, and the hand-written
    asterisk/etc/extensions.conf that includes its output. */
module Generate {
  import opened Common
  import opened Text
  import opened Config
  import opened Dialplan

  function NoticeName(id: string, lang: string): string {
    id + "-notice-" + lang
  }

  function ThanksName(id: string, lang: string): string {
    id + "-thanks-" + lang
  }

  function MenuName(id: string): string {
    id + "-menu"
  }

  function LineCtx(id: string): string {
    "line-" + id
  }

  predicate LangOrAutoOk(s: string) {
    s == "auto" || LangOk(s)
  }

  /** The values `_check` lets through to the generated file. */
  predicate Writable(l: Line) {
    LineIdOk(l.id) && DidOk(l.did) && (forall m | m in l.menu :: LangOrAutoOk(m)) && LangOrAutoOk(l.defaultLanguage)
  }

  /** The generator refuses a configuration that the loader accepted exactly when a line has an empty id or did. */
  lemma RefusedOnlyWhenEmpty(lines: seq<Line>)
    requires LinesOk(lines)
    ensures (forall l | l in lines :: Writable(l)) <==> (forall l | l in lines :: l.id != "" && l.did != "")
  {
  }

  // ---- what the generated include means, extension by extension ----

  function Opening(l: Line, lang: string): seq<App> {
    [SetVar(VmLine, l.id), SetVar(VmDid, l.did), SetVar(VmLang, lang), SetStart, PushHandler("vm-finalize"), Answer,
     Pause]
  }

  const TO_RECORD: App := Goto("vm-record", "s")

  /** Choose a language, say its notice, record. */
  function Choice(id: string, lang: string): seq<App> {
    [SetVar(VmLang, lang), Playback(NoticeName(id, lang)), TO_RECORD]
  }

  /** The extensions of the menu keys 1 to n. */
  function KeyBlocks(l: Line, n: nat): (r: seq<Block>)
    requires n <= |l.menu|
    ensures |r| == n
    ensures forall k | 0 <= k < n :: r[k] == Block(LineCtx(l.id), Str(k + 1), Choice(l.id, l.menu[k]))
  {
    if n == 0 then []
    else KeyBlocks(l, n - 1) + [Block(LineCtx(l.id), Str(n), Choice(l.id, l.menu[n - 1]))]
  }

  function StartApps(l: Line): seq<App>
    requires l.menu != []
  {
    if l.HasMenu() then Opening(l, "auto") + [Background(MenuName(l.id)), WaitExten]
    else Opening(l, l.menu[0]) + [Playback(NoticeName(l.id, l.menu[0])), TO_RECORD]
  }

  function TimeoutApps(l: Line): seq<App> {
    if l.defaultLanguage == "auto" then [Playback(NoticeName(l.id, "auto")), TO_RECORD]
    else Choice(l.id, l.defaultLanguage)
  }

  function LineBlocks(l: Line): seq<Block>
    requires l.menu != []
  {
    var ctx := LineCtx(l.id);
    [Block(ctx, "s", StartApps(l))]
    + (if l.HasMenu()
       then KeyBlocks(l, |l.menu|) + [Block(ctx, "t", TimeoutApps(l)), Block(ctx, "i", [Goto(ctx, "t")])]
       else [])
  }

  function AllLineBlocks(lines: seq<Line>): seq<Block>
    requires forall l | l in lines :: l.menu != []
    decreases |lines|
  {
    if lines == [] then []
    else AllLineBlocks(lines[..|lines| - 1]) + LineBlocks(lines[|lines| - 1])
  }

  function Lookups(lines: seq<Line>): (r: seq<App>)
    ensures |r| == |lines|
    ensures forall k | 0 <= k < |r| :: r[k] == GotoIfNumber(lines[k].did, LineCtx(lines[k].id))
  {
    seq(|lines|, k requires 0 <= k < |lines| => GotoIfNumber(lines[k].did, LineCtx(lines[k].id)))
  }

  const RECORD_APPS: seq<App> := [SetRecorded, Record, PlaybackThanks, Hangup]

  /** The extensions of the generated file. */
  function GeneratedBlocks(lines: seq<Line>): seq<Block>
    requires forall l | l in lines :: l.menu != []
  {
    [Block("did-lookup", "s", Lookups(lines) + [Hangup])] + AllLineBlocks(lines)
    + [Block("vm-record", "s", RECORD_APPS)]
  }

  const FROM_TRUNK: seq<Block> := [
    Block("from-trunk", PLUS_NUMBER, [SetRaw(1), Goto("from-trunk-check", "s")]),
    Block("from-trunk", NUMBER, [SetRaw(0), Goto("from-trunk-check", "s")]),
    Block("from-trunk", ANYTHING, [Hangup])]

  const CHECK_APPS: seq<App> := [
    SetDigits, RejectUnlessPlain(5), SetAccount, SetCaller, Goto("did-lookup", "s"), Hangup]

  const CHECK: seq<Block> := [Block("from-trunk-check", "s", CHECK_APPS)]

  const FINALIZE_APPS: seq<App> := [
    System([TheLine, TheLang, TheCaller, TheDid, TheStart, TheUnique, WasRecorded]), Return]

  const FINALIZE: seq<Block> := [Block("vm-finalize", "s", FINALIZE_APPS)]

  const TRUNK_STMTS: seq<Stmt> := [
    Header("from-trunk"),
    Exten(PLUS_NUMBER, SetRaw(1)),
    Same(Goto("from-trunk-check", "s")),
    Exten(NUMBER, SetRaw(0)),
    Same(Goto("from-trunk-check", "s")),
    Exten(ANYTHING, Hangup)]

  const CHECK_STMTS: seq<Stmt> := [
    Header("from-trunk-check"),
    Exten("s", SetDigits),
    Same(RejectUnlessPlain(5)),                                              // ?reject, the sixth priority
    Same(SetAccount),
    Same(SetCaller),
    Same(Goto("did-lookup", "s")),
    Same(Hangup)]                                                            // n(reject)

  const FINALIZE_STMTS: seq<Stmt> := [
    Header("vm-finalize"),
    Exten("s", System([TheLine, TheLang, TheCaller, TheDid, TheStart, TheUnique, WasRecorded])),
    Same(Return)]

  /** extensions.conf up to its `#include`, line by line without the comments. */
  function BaseStmts(): seq<Stmt> {
    [Header("globals"), Blank] + TRUNK_STMTS + ([Blank] + CHECK_STMTS) + ([Blank] + FINALIZE_STMTS) + [Blank]
  }

  function BaseBlocks(): seq<Block> {
    FROM_TRUNK + CHECK + FINALIZE
  }

  /** The loaded dialplan. */
  function Plan(lines: seq<Line>): seq<Block>
    requires forall l | l in lines :: l.menu != []
  {
    BaseBlocks() + GeneratedBlocks(lines)
  }

  // ---- the generator ----

  /** `_line_context`: the statements of one line, or the ValueError. They load as LineBlocks says, whatever was loaded
      before. */
  method LineContext(l: Line) returns (r: Result<seq<Stmt>, ()>)
    requires l.menu != []
    ensures r.Success? <==> Writable(l)
    ensures r.Success? ==> forall blocks, ctx ::
                Load(r.value, blocks, ctx) == (blocks + LineBlocks(l), LineCtx(l.id))
  {
    if !LineIdOk(l.id) || !DidOk(l.did) {
      return Failure(());
    }
    for k := 0 to |l.menu|
      invariant forall i | 0 <= i < k :: LangOrAutoOk(l.menu[i])
    {
      if !LangOrAutoOk(l.menu[k]) {
        return Failure(());
      }
    }
    if !LangOrAutoOk(l.defaultLanguage) {
      return Failure(());
    }
    var ctx := LineCtx(l.id);
    var lang := if l.HasMenu() then "auto" else l.menu[0];
    var out := [Header(ctx), Exten("s", SetVar(VmLine, l.id)), Same(SetVar(VmDid, l.did)), Same(SetVar(VmLang, lang)),
                Same(SetStart), Same(PushHandler("vm-finalize")), Same(Answer), Same(Pause)];
    if !l.HasMenu() {
      out := out + [Same(Playback(NoticeName(l.id, lang))), Same(TO_RECORD)];
      StartLoads(l, out);
      return Success(out);
    }
    out := out + [Same(Background(MenuName(l.id))), Same(WaitExten)];
    StartLoads(l, out);
    ghost var start := out;
    for digit := 0 to |l.menu|
      invariant out == start + KeyStmts(l, digit)
    {
      var lang := l.menu[digit];
      out := out + [Exten(Str(digit + 1), SetVar(VmLang, lang)), Same(Playback(NoticeName(l.id, lang))), Same(TO_RECORD)];
    }
    ghost var keys := out;
    if l.defaultLanguage == "auto" {
      out := out + [Exten("t", Playback(NoticeName(l.id, "auto")))];
    } else {
      out := out + [Exten("t", SetVar(VmLang, l.defaultLanguage)), Same(Playback(NoticeName(l.id, l.defaultLanguage)))];
    }
    out := out + [Same(TO_RECORD), Exten("i", Goto(ctx, "t"))];
    EndStmtsAre(l);
    assert out == keys + EndStmts(l);
    MenuLoads(l, start);
    return Success(out);
  }

  /** The [did-lookup] context: one comparison per line, in order. */
  method LookupSection(lines: seq<Line>) returns (r: Result<seq<Stmt>, ()>)
    requires lines != []
    ensures r.Success? <==> forall l | l in lines :: LineIdOk(l.id) && DidOk(l.did)
    ensures r.Success? ==> r.value == [Header("did-lookup")] + Stanza("s", Lookups(lines) + [Hangup])
  {
    var out := [Header("did-lookup")];
    for i := 0 to |lines|
      invariant forall k | 0 <= k < i :: LineIdOk(lines[k].id) && DidOk(lines[k].did)
      invariant |out| == i + 1 && out[0] == Header("did-lookup")
      invariant forall k | 1 <= k < |out| :: out[k] == if k == 1 then Exten("s", Lookups(lines)[0]) else Same(Lookups(lines)[k - 1])
    {
      if !LineIdOk(lines[i].id) || !DidOk(lines[i].did) {
        assert lines[i] in lines;
        return Failure(());
      }
      var app := GotoIfNumber(lines[i].did, LineCtx(lines[i].id));
      out := out + [if i == 0 then Exten("s", app) else Same(app)];
    }
    LookupStmts(lines, out);
    out := out + [Same(Hangup)];
    return Success(out);
  }

  lemma LookupStmts(lines: seq<Line>, out: seq<Stmt>)
    requires lines != [] && |out| == |lines| + 1 && out[0] == Header("did-lookup")
    requires forall k | 1 <= k < |out| ::
               out[k] == if k == 1 then Exten("s", Lookups(lines)[0]) else Same(Lookups(lines)[k - 1])
    ensures out + [Same(Hangup)] == [Header("did-lookup")] + Stanza("s", Lookups(lines) + [Hangup])
  {
    StanzaAt("s", Lookups(lines) + [Hangup]);
  }

  /** `extensions_lines`: the generated include, or the ValueError when some value may not be written. Loaded after
      extensions.conf it is the dialplan Plan describes. */
  method ExtensionsLines(lines: seq<Line>) returns (r: Result<seq<Stmt>, ()>)
    requires lines != [] && forall l | l in lines :: l.menu != []
    ensures r.Success? <==> forall l | l in lines :: Writable(l)
    ensures r.Success? ==> Load(BaseStmts() + r.value, [], "").0 == Plan(lines)
  {
    var lookup := LookupSection(lines);
    if lookup.Failure? {
      return lookup;
    }
    var out := [Blank] + lookup.value;
    LookupLoads(lines);
    for i := 0 to |lines|
      invariant forall k | 0 <= k < i :: Writable(lines[k])
      invariant Load(BaseStmts() + out, [], "").0 == LoadedSoFar(lines, i)
    {
      assert lines[i] in lines;
      var one := LineContext(lines[i]);
      if one.Failure? {
        return one;
      }
      LoadNext(lines, i, out, one.value);
      out := out + ([Blank] + one.value);
    }
    var tail := [Blank, Header("vm-record"), Exten("s", SetRecorded), Same(Record), Same(PlaybackThanks),
                 Same(Hangup)];
    LoadEnd(lines, out, tail);
    out := out + tail;
    return Success(out);
  }

  function LoadedSoFar(lines: seq<Line>, i: nat): seq<Block>
    requires i <= |lines| && forall l | l in lines :: l.menu != []
  {
    BaseBlocks() + ([Block("did-lookup", "s", Lookups(lines) + [Hangup])] + AllLineBlocks(lines[..i]))
  }

  lemma LoadedNext(lines: seq<Line>, i: nat)
    requires i < |lines| && forall l | l in lines :: l.menu != []
    ensures LoadedSoFar(lines, i + 1) == LoadedSoFar(lines, i) + LineBlocks(lines[i])
  {
    assert lines[..i + 1][..i] == lines[..i];
  }

  lemma LoadNext(lines: seq<Line>, i: nat, out: seq<Stmt>, one: seq<Stmt>)
    requires i < |lines| && forall l | l in lines :: l.menu != []
    requires Load(BaseStmts() + out, [], "").0 == LoadedSoFar(lines, i)
    requires forall blocks, ctx :: Load(one, blocks, ctx) == (blocks + LineBlocks(lines[i]), LineCtx(lines[i].id))
    ensures Load(BaseStmts() + (out + ([Blank] + one)), [], "").0 == LoadedSoFar(lines, i + 1)
  {
    LoadMore(BaseStmts(), out, one, lines[i]);
    LoadedNext(lines, i);
  }

  lemma LoadEnd(lines: seq<Line>, out: seq<Stmt>, tail: seq<Stmt>)
    requires forall l | l in lines :: l.menu != []
    requires Load(BaseStmts() + out, [], "").0 == LoadedSoFar(lines, |lines|)
    requires tail == [Blank, Header("vm-record"), Exten("s", SetRecorded), Same(Record),
                      Same(PlaybackThanks), Same(Hangup)]
    ensures Load(BaseStmts() + (out + tail), [], "").0 == Plan(lines)
  {
    LoadTail(BaseStmts(), out, tail);
    assert lines[..|lines|] == lines;
  }

  // ---- how the statements load ----

  function KeyStmts(l: Line, n: nat): seq<Stmt>
    requires n <= |l.menu|
  {
    if n == 0 then []
    else KeyStmts(l, n - 1) + [Exten(Str(n), SetVar(VmLang, l.menu[n - 1])), Same(Playback(NoticeName(l.id, l.menu[n - 1]))),
                               Same(TO_RECORD)]
  }

  function EndStmts(l: Line): seq<Stmt> {
    Stanza("t", TimeoutApps(l)) + Stanza("i", [Goto(LineCtx(l.id), "t")])
  }

  /** Loading the header of a context and one extension. */
  lemma HeadedLoads(ctx: string, exten: string, apps: seq<App>, blocks: seq<Block>, before: string)
    requires apps != []
    ensures Load([Header(ctx)] + Stanza(exten, apps), blocks, before) == (blocks + [Block(ctx, exten, apps)], ctx)
  {
    LoadSingle(Header(ctx), blocks, before);
    LoadAppend([Header(ctx)], Stanza(exten, apps), blocks, before);
    LoadStanza(exten, apps, blocks, ctx);
  }

  lemma StartLoads(l: Line, out: seq<Stmt>)
    requires l.menu != [] && |out| == 10 && out[0] == Header(LineCtx(l.id))
    requires out[1] == Exten("s", StartApps(l)[0]) && forall k | 2 <= k < 10 :: out[k] == Same(StartApps(l)[k - 1])
    ensures forall blocks, ctx ::
              Load(out, blocks, ctx) == (blocks + [Block(LineCtx(l.id), "s", StartApps(l))], LineCtx(l.id))
    ensures !l.HasMenu() ==> LineBlocks(l) == [Block(LineCtx(l.id), "s", StartApps(l))]
  {
    StanzaAt("s", StartApps(l));
    assert out == [Header(LineCtx(l.id))] + Stanza("s", StartApps(l));
    forall blocks, ctx ensures
        Load(out, blocks, ctx) == (blocks + [Block(LineCtx(l.id), "s", StartApps(l))], LineCtx(l.id)) {
      HeadedLoads(LineCtx(l.id), "s", StartApps(l), blocks, ctx);
    }
  }

  lemma {:induction false} KeysLoad(l: Line, n: nat, blocks: seq<Block>)
    requires n <= |l.menu|
    ensures Load(KeyStmts(l, n), blocks, LineCtx(l.id)) == (blocks + KeyBlocks(l, n), LineCtx(l.id))
    decreases n
  {
    if n == 0 {
      assert blocks + [] == blocks;
    } else {
      KeysLoad(l, n - 1, blocks);
      KeyLoads(l, n, blocks, blocks + KeyBlocks(l, n - 1));
      Regroup(blocks, KeyBlocks(l, n - 1), [Block(LineCtx(l.id), Str(n), Choice(l.id, l.menu[n - 1]))]);
    }
  }

  lemma KeyLoads(l: Line, n: nat, blocks: seq<Block>, before: seq<Block>)
    requires 0 < n <= |l.menu| && Load(KeyStmts(l, n - 1), blocks, LineCtx(l.id)) == (before, LineCtx(l.id))
    ensures Load(KeyStmts(l, n), blocks, LineCtx(l.id))
      == (before + [Block(LineCtx(l.id), Str(n), Choice(l.id, l.menu[n - 1]))], LineCtx(l.id))
  {
    var apps := Choice(l.id, l.menu[n - 1]);
    StanzaAt(Str(n), apps);
    assert KeyStmts(l, n) == KeyStmts(l, n - 1) + Stanza(Str(n), apps);
    LoadAppend(KeyStmts(l, n - 1), Stanza(Str(n), apps), blocks, LineCtx(l.id));
    LoadStanza(Str(n), apps, before, LineCtx(l.id));
  }

  lemma Regroup(a: seq<Block>, b: seq<Block>, c: seq<Block>)
    ensures a + b + c == a + (b + c)
  {
  }

  lemma EndLoads(l: Line, blocks: seq<Block>)
    ensures var ctx := LineCtx(l.id);
      Load(EndStmts(l), blocks, ctx)
      == (blocks + [Block(ctx, "t", TimeoutApps(l)), Block(ctx, "i", [Goto(ctx, "t")])], ctx)
  {
    var ctx := LineCtx(l.id);
    LoadStanza("t", TimeoutApps(l), blocks, ctx);
    LoadAppend(Stanza("t", TimeoutApps(l)), Stanza("i", [Goto(ctx, "t")]), blocks, ctx);
    LoadStanza("i", [Goto(ctx, "t")], blocks + [Block(ctx, "t", TimeoutApps(l))], ctx);
    assert (blocks + [Block(ctx, "t", TimeoutApps(l))]) + [Block(ctx, "i", [Goto(ctx, "t")])]
        == blocks + [Block(ctx, "t", TimeoutApps(l)), Block(ctx, "i", [Goto(ctx, "t")])];
  }

  lemma MenuLoads(l: Line, start: seq<Stmt>)
    requires l.HasMenu()
    requires forall blocks, ctx ::
               Load(start, blocks, ctx) == (blocks + [Block(LineCtx(l.id), "s", StartApps(l))], LineCtx(l.id))
    ensures forall blocks, ctx ::
              Load(start + KeyStmts(l, |l.menu|) + EndStmts(l), blocks, ctx) == (blocks + LineBlocks(l), LineCtx(l.id))
  {
    var keys := KeyStmts(l, |l.menu|);
    forall blocks, ctx ensures
        Load(start + keys + EndStmts(l), blocks, ctx) == (blocks + LineBlocks(l), LineCtx(l.id)) {
      var b1 := blocks + [Block(LineCtx(l.id), "s", StartApps(l))];
      LoadAppend(start, keys, blocks, ctx);
      KeysLoad(l, |l.menu|, b1);
      var b2 := b1 + KeyBlocks(l, |l.menu|);
      LoadAppend(start + keys, EndStmts(l), blocks, ctx);
      EndLoads(l, b2);
      assert b2 + [Block(LineCtx(l.id), "t", TimeoutApps(l)), Block(LineCtx(l.id), "i", [Goto(LineCtx(l.id), "t")])]
          == blocks + LineBlocks(l);
    }
  }

  /** The statements that end a menu line's context. */
  lemma EndStmtsAre(l: Line)
    ensures EndStmts(l) ==
            (if l.defaultLanguage == "auto" then [Exten("t", Playback(NoticeName(l.id, "auto")))]
             else [Exten("t", SetVar(VmLang, l.defaultLanguage)), Same(Playback(NoticeName(l.id, l.defaultLanguage)))])
            + [Same(TO_RECORD), Exten("i", Goto(LineCtx(l.id), "t"))]
  {
    StanzaAt("t", TimeoutApps(l));
    StanzaAt("i", [Goto(LineCtx(l.id), "t")]);
  }

  /** extensions.conf, extension by extension. */
  lemma BaseLoads()
    ensures Load(BaseStmts(), [], "") == (BaseBlocks(), "vm-finalize")
  {
    var b := [Header("globals"), Blank] + TRUNK_STMTS + ([Blank] + CHECK_STMTS);
    var c := b + ([Blank] + FINALIZE_STMTS);
    TrunkAndCheckLoad();
    FinalizeIsContext();
    NextContext(b, "vm-finalize", FINALIZE, FROM_TRUNK + CHECK, "from-trunk-check");
    LoadAppend(c, [Blank], [], "");
    LoadSingle(Blank, BaseBlocks(), "vm-finalize");
  }

  lemma TrunkAndCheckLoad()
    ensures Load([Header("globals"), Blank] + TRUNK_STMTS + ([Blank] + CHECK_STMTS), [], "")
      == (FROM_TRUNK + CHECK, "from-trunk-check")
  {
    var top := [Header("globals")];
    var a := top + ([Blank] + TRUNK_STMTS);
    LoadSingle(Header("globals"), [], "");
    TrunkIsContext();
    CheckIsContext();
    NextContext(top, "from-trunk", FROM_TRUNK, [], "globals");
    assert a == [Header("globals"), Blank] + TRUNK_STMTS && [] + FROM_TRUNK == FROM_TRUNK;
    NextContext(a, "from-trunk-check", CHECK, FROM_TRUNK, "from-trunk");
  }

  lemma TwoStanza(exten: string, a: App, b: App)
    ensures Stanza(exten, [a, b]) == [Exten(exten, a), Same(b)]
  {
    StanzaAt(exten, [a, b]);
  }

  lemma OneExten(ctx: string, b: Block)
    requires b.apps != []
    ensures Context(ctx, [b]) == [Header(ctx)] + Stanza(b.exten, b.apps)
  {
    assert [b][..0] == [];
  }

  lemma TrunkIsContext()
    ensures TRUNK_STMTS == Context("from-trunk", FROM_TRUNK)
  {
    var p, n, x := FROM_TRUNK[0], FROM_TRUNK[1], FROM_TRUNK[2];
    TwoStanza(PLUS_NUMBER, SetRaw(1), Goto("from-trunk-check", "s"));
    TwoStanza(NUMBER, SetRaw(0), Goto("from-trunk-check", "s"));
    assert Stanza(ANYTHING, [Hangup]) == [Exten(ANYTHING, Hangup)];
    OneExten("from-trunk", p);
    assert FROM_TRUNK[..2] == [p, n] && [p, n][..1] == [p];
    assert Context("from-trunk", [p, n]) == Context("from-trunk", [p]) + Stanza(n.exten, n.apps);
    assert Context("from-trunk", FROM_TRUNK) == Context("from-trunk", [p, n]) + Stanza(x.exten, x.apps);
  }

  lemma CheckIsContext()
    ensures CHECK_STMTS == Context("from-trunk-check", CHECK)
  {
    OneExten("from-trunk-check", CHECK[0]);
    StanzaAt("s", CHECK_APPS);
    assert CHECK == [CHECK[0]];
  }

  lemma FinalizeIsContext()
    ensures FINALIZE_STMTS == Context("vm-finalize", FINALIZE)
  {
    OneExten("vm-finalize", FINALIZE[0]);
    TwoStanza("s", FINALIZE[0].apps[0], FINALIZE[0].apps[1]);
    assert FINALIZE == [FINALIZE[0]];
  }

  lemma NextContext(stmts: seq<Stmt>, ctx: string, extens: seq<Block>, blocks: seq<Block>, last: string)
    requires (forall b | b in extens :: b.apps != [] && b.ctx == ctx) && Load(stmts, [], "") == (blocks, last)
    ensures Load(stmts + ([Blank] + Context(ctx, extens)), [], "") == (blocks + extens, ctx)
  {
    LoadAppend(stmts, [Blank] + Context(ctx, extens), [], "");
    LoadAppend([Blank], Context(ctx, extens), blocks, last);
    LoadSingle(Blank, blocks, last);
    LoadContext(ctx, extens, blocks, last);
  }

  lemma LookupLoads(lines: seq<Line>)
    requires lines != [] && forall l | l in lines :: l.menu != []
    ensures Load(BaseStmts() + ([Blank] + ([Header("did-lookup")] + Stanza("s", Lookups(lines) + [Hangup]))), [], "").0
            == LoadedSoFar(lines, 0)
  {
    var apps := Lookups(lines) + [Hangup];
    var head := [Header("did-lookup")] + Stanza("s", apps);
    BaseLoads();
    LoadAppend(BaseStmts(), [Blank] + head, [], "");
    LoadAppend([Blank], head, BaseBlocks(), "vm-finalize");
    LoadSingle(Blank, BaseBlocks(), "vm-finalize");
    HeadedLoads("did-lookup", "s", apps, BaseBlocks(), "vm-finalize");
    assert LoadedSoFar(lines, 0) == BaseBlocks() + [Block("did-lookup", "s", apps)];
  }

  lemma LoadMore(base: seq<Stmt>, out: seq<Stmt>, one: seq<Stmt>, l: Line)
    requires l.menu != []
    requires forall blocks, ctx :: Load(one, blocks, ctx) == (blocks + LineBlocks(l), LineCtx(l.id))
    ensures Load(base + (out + ([Blank] + one)), [], "").0 == Load(base + out, [], "").0 + LineBlocks(l)
  {
    var (blocks, ctx) := Load(base + out, [], "");
    assert base + (out + ([Blank] + one)) == (base + out) + ([Blank] + one);
    LoadAppend(base + out, [Blank] + one, [], "");
    LoadAppend([Blank], one, blocks, ctx);
    LoadSingle(Blank, blocks, ctx);
  }

  lemma LoadTail(base: seq<Stmt>, out: seq<Stmt>, tail: seq<Stmt>)
    requires tail == [Blank, Header("vm-record"), Exten("s", SetRecorded), Same(Record),
                      Same(PlaybackThanks), Same(Hangup)]
    ensures Load(base + (out + tail), [], "").0 == Load(base + out, [], "").0 + [Block("vm-record", "s", RECORD_APPS)]
  {
    var (blocks, ctx) := Load(base + out, [], "");
    StanzaAt("s", RECORD_APPS);
    var rest := [Header("vm-record")] + Stanza("s", RECORD_APPS);
    assert tail == [Blank] + rest;
    assert base + (out + tail) == (base + out) + tail;
    LoadAppend(base + out, tail, [], "");
    LoadAppend([Blank], rest, blocks, ctx);
    LoadSingle(Blank, blocks, ctx);
    HeadedLoads("vm-record", "s", RECORD_APPS, blocks, ctx);
  }
}
