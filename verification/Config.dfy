/** The lines of a loaded configuration: aivoicemail/config.py. */
module Config {
  import opened Common
  import opened T = Text

  datatype Line = Line(id: string, did: string, mailbox: string, emailLanguage: string, menu: seq<string>,
                       defaultLanguage: string, privacyUrl: string)
  {
    predicate HasMenu() {
      |menu| > 1
    }
  }

  const MAX_MENU := 9

  /** LINE_ID_RE. */
  predicate LineIdOk(s: string) {
    1 <= |s| <= 16 && IsLower(s[0]) && forall c | c in s[1..] :: IsLower(c) || IsDigit(c)
  }

  /** DID_RE. */
  predicate DidOk(s: string) {
    6 <= |s| <= 15 && forall c | c in s :: IsDigit(c)
  }

  /** LANG_RE. */
  predicate LangOk(s: string) {
    |s| == 2 && IsLower(s[0]) && IsLower(s[1])
  }

  /** `Config.line`: the first line with this id. */
  function LineWithId(lines: seq<Line>, id: string): (r: Option<Line>)
    ensures r.Some? ==> r.value in lines && r.value.id == id
    ensures r.None? ==> forall l | l in lines :: l.id != id
  {
    if lines == [] then None
    else if lines[0].id == id then Some(lines[0])
    else LineWithId(lines[1..], id)
  }

  // ---- reading the [[line]] tables ----

  /** A TOML value; OtherType is every type these tables do not use. */
  datatype Value = Text(s: string) | Array(items: seq<Value>) | Table(t: map<string, Value>) | OtherType

  datatype Problem =
    | NoLines | NotATable(line: nat) | UnknownKey(line: nat, key: string) | Required(line: nat, key: string)
    | WrongType(line: nat, key: string) | Invalid(line: nat, key: string) | Duplicate(key: string, value: string)

  const LINE_KEYS := {"id", "did", "mailbox", "email_language", "menu", "default_language", "privacy_url"}

  predicate HasText(t: map<string, Value>, key: string, optional: bool) {
    if key in t then t[key].Text? else optional
  }

  function TextOf(t: map<string, Value>, key: string, default: string): string {
    if key in t && t[key].Text? then t[key].s else default
  }

  predicate HasTexts(t: map<string, Value>, key: string) {
    key in t && t[key].Array? && forall v | v in t[key].items :: v.Text?
  }

  function TextsOf(t: map<string, Value>, key: string): (r: seq<string>)
    ensures HasTexts(t, key) ==> |r| == |t[key].items| && forall i | 0 <= i < |r| :: r[i] == t[key].items[i].s
  {
    if HasTexts(t, key) then
      seq(|t[key].items|, i requires 0 <= i < |t[key].items| => assert t[key].items[i] in t[key].items; t[key].items[i].s)
    else []
  }

  predicate AllDistinct(s: seq<string>) {
    forall i, j | 0 <= i < j < |s| :: s[i] != s[j]
  }

  /** What the loader wants of the texts of one [[line]] table. An empty id, did or mailbox passes. */
  predicate TextsOk(t: map<string, Value>) {
    && HasText(t, "id", false) && (TextOf(t, "id", "") != "" ==> LineIdOk(TextOf(t, "id", "")))
    && HasText(t, "did", false) && (TextOf(t, "did", "") != "" ==> DidOk(TextOf(t, "did", "")))
    && HasText(t, "mailbox", false) && (TextOf(t, "mailbox", "") != "" ==> '@' in TextOf(t, "mailbox", ""))
    && HasText(t, "email_language", true) && LangOk(TextOf(t, "email_language", "en"))
  }

  /** What the loader wants of one [[line]] table. */
  predicate TableOk(t: map<string, Value>) {
    && t.Keys <= LINE_KEYS && TextsOk(t)
    && HasTexts(t, "menu")
    && (var menu := TextsOf(t, "menu");
        && 1 <= |menu| <= MAX_MENU && AllDistinct(menu) && (forall l | l in menu :: LangOk(l))
        && HasText(t, "default_language", true)
        && (|menu| > 1 ==> TextOf(t, "default_language", "auto") in ["auto"] + menu))
    && HasText(t, "privacy_url", true)
  }

  function LineFrom(t: map<string, Value>, privacyDefault: string): Line {
    var menu := TextsOf(t, "menu");
    Line(TextOf(t, "id", ""), TextOf(t, "did", ""), TextOf(t, "mailbox", ""), TextOf(t, "email_language", "en"), menu,
         if |menu| == 1 then menu[0] else TextOf(t, "default_language", "auto"),
         TextOf(t, "privacy_url", privacyDefault))
  }

  /** The entry of a table under a key, or the default when there is none. */
  predicate IsEntry(value: string, t: map<string, Value>, key: string, default: string) {
    if key in t then t[key] == Text(value) else value == default
  }

  /** Each field of the line is the table's entry of its own name; a line with one language has it as its default. */
  predicate Mirrors(l: Line, t: map<string, Value>, privacyDefault: string) {
    && "id" in t && t["id"] == Text(l.id) && "did" in t && t["did"] == Text(l.did)
    && "mailbox" in t && t["mailbox"] == Text(l.mailbox)
    && IsEntry(l.emailLanguage, t, "email_language", "en")
    && "menu" in t && t["menu"].Array? && |t["menu"].items| == |l.menu|
    && (forall i | 0 <= i < |l.menu| :: t["menu"].items[i] == Text(l.menu[i]))
    && (if |l.menu| == 1 then l.defaultLanguage == l.menu[0] else IsEntry(l.defaultLanguage, t, "default_language", "auto"))
    && IsEntry(l.privacyUrl, t, "privacy_url", privacyDefault)
  }

  lemma FieldsMirror(t: map<string, Value>, privacyDefault: string)
    requires TableOk(t)
    ensures Mirrors(LineFrom(t, privacyDefault), t, privacyDefault)
  {
    assert forall i | 0 <= i < |t["menu"].items| :: t["menu"].items[i] in t["menu"].items;
  }

  /** The [[line]] table that says what a line is. */
  function TableOf(l: Line): map<string, Value> {
    map["id" := Text(l.id), "did" := Text(l.did), "mailbox" := Text(l.mailbox), "email_language" := Text(l.emailLanguage),
        "menu" := Array(seq(|l.menu|, i requires 0 <= i < |l.menu| => Text(l.menu[i]))),
        "default_language" := Text(l.defaultLanguage), "privacy_url" := Text(l.privacyUrl)]
  }

  /** Every well-formed line can be configured: its table is accepted and reads back as the line. */
  lemma TableReadsBack(l: Line, privacyDefault: string)
    requires LineOk(l)
    ensures TableOk(TableOf(l)) && LineFrom(TableOf(l), privacyDefault) == l
  {
    var t := TableOf(l);
    assert TextsOf(t, "menu") == l.menu;
    assert t.Keys == LINE_KEYS;
  }

  /** No two lines share a non-empty id or did. */
  predicate NoClash(lines: seq<Line>) {
    forall i, j | 0 <= i < j < |lines| ::
      (lines[i].id != "" ==> lines[i].id != lines[j].id) && (lines[i].did != "" ==> lines[i].did != lines[j].did)
  }

  predicate TablesOk(items: seq<Value>) {
    forall i | 0 <= i < |items| :: items[i].Table? && TableOk(items[i].t)
  }

  /** The line of every table. */
  function LinesFrom(items: seq<Value>, privacyDefault: string): (r: seq<Line>)
    requires TablesOk(items)
    ensures |r| == |items| && forall i | 0 <= i < |r| :: r[i] == LineFrom(items[i].t, privacyDefault)
  {
    seq(|items|, i requires 0 <= i < |items| && items[i].Table? => LineFrom(items[i].t, privacyDefault))
  }

  predicate RawOk(raw: Value, privacyDefault: string) {
    raw.Array? && raw.items != [] && TablesOk(raw.items) && NoClash(LinesFrom(raw.items, privacyDefault))
  }

  /** One line of a configuration the loader accepted. */
  predicate LineOk(l: Line) {
    && (l.id == "" || LineIdOk(l.id)) && (l.did == "" || DidOk(l.did))
    && (l.mailbox == "" || '@' in l.mailbox) && LangOk(l.emailLanguage)
    && 1 <= |l.menu| <= 9 && AllDistinct(l.menu) && (forall m | m in l.menu :: LangOk(m))
    && (if l.HasMenu() then l.defaultLanguage in ["auto"] + l.menu else l.defaultLanguage == l.menu[0])
  }

  predicate LinesOk(lines: seq<Line>) {
    |lines| > 0 && (forall l | l in lines :: LineOk(l)) && NoClash(lines)
  }

  /** `_Reader`: problems are collected, never raised. */
  class Reader {
    var problems: seq<Problem>

    constructor ()
      ensures problems == []
    {
      problems := [];
    }

    method Check(ok: bool, p: Problem)
      modifies this
      ensures problems == (if ok then old(problems) else old(problems) + [p])
    {
      if !ok {
        problems := problems + [p];
      }
    }

    /** `get(table, key, where, str, default)`, followed by `or ""` where there is no default. */
    method Get(t: map<string, Value>, line: nat, key: string, default: Option<string>) returns (r: string)
      modifies this
      ensures |problems| >= |old(problems)|
      ensures |problems| == |old(problems)| <==> HasText(t, key, default.Some?)
      ensures r == TextOf(t, key, default.GetOr(""))
    {
      r := default.GetOr("");
      if key !in t {
        Check(default.Some?, Required(line, key));
        return;
      }
      if !t[key].Text? {
        Check(false, WrongType(line, key));
        return;
      }
      r := t[key].s;
    }

    /** `strings(table, key, where)`. */
    method Strings(t: map<string, Value>, line: nat, key: string) returns (r: seq<string>)
      modifies this
      ensures |problems| >= |old(problems)|
      ensures |problems| == |old(problems)| <==> HasTexts(t, key)
      ensures r == TextsOf(t, key)
    {
      if key !in t {
        Check(false, Required(line, key));
        return [];
      }
      if !HasTexts(t, key) {
        Check(false, WrongType(line, key));
        return [];
      }
      r := TextsOf(t, key);
    }

    /** `known`. */
    method Known(t: map<string, Value>, line: nat)
      modifies this
      ensures |problems| >= |old(problems)|
      ensures |problems| == |old(problems)| <==> t.Keys <= LINE_KEYS
    {
      var todo := t.Keys;
      while todo != {}
        invariant todo <= t.Keys && |problems| >= |old(problems)|
        invariant |problems| == |old(problems)| <==> t.Keys - todo <= LINE_KEYS
        decreases todo
      {
        var key :| key in todo;
        assert t.Keys - (todo - {key}) == (t.Keys - todo) + {key};
        Check(key in LINE_KEYS, UnknownKey(line, key));
        todo := todo - {key};
      }
      assert t.Keys - {} == t.Keys;
    }

    /** The menu checks of one line. */
    method Menu(t: map<string, Value>, line: nat) returns (menu: seq<string>)
      modifies this
      ensures |problems| >= |old(problems)| && menu == TextsOf(t, "menu")
      ensures |problems| == |old(problems)| <==>
                HasTexts(t, "menu") && 1 <= |menu| <= MAX_MENU && AllDistinct(menu) && forall l | l in menu :: LangOk(l)
    {
      menu := Strings(t, line, "menu");
      Check(!("menu" in t && menu == []), Invalid(line, "menu"));
      Check(|menu| <= MAX_MENU, Invalid(line, "menu"));
      Check(AllDistinct(menu), Invalid(line, "menu"));
      Langs(menu, line);
    }

    method Langs(menu: seq<string>, line: nat)
      modifies this
      ensures |problems| >= |old(problems)|
      ensures |problems| == |old(problems)| <==> forall l | l in menu :: LangOk(l)
    {
      for k := 0 to |menu|
        invariant |problems| >= |old(problems)|
        invariant |problems| == |old(problems)| <==> forall i | 0 <= i < k :: LangOk(menu[i])
      {
        Check(LangOk(menu[k]), Invalid(line, "menu"));
      }
    }

    /** The texts of one line. */
    method Texts(t: map<string, Value>, line: nat) returns (id: string, did: string, mailbox: string, language: string)
      modifies this
      ensures |problems| >= |old(problems)|
      ensures |problems| == |old(problems)| <==> TextsOk(t)
      ensures id == TextOf(t, "id", "") && did == TextOf(t, "did", "")
      ensures mailbox == TextOf(t, "mailbox", "") && language == TextOf(t, "email_language", "en")
    {
      id := Get(t, line, "id", None);
      Check(id == "" || LineIdOk(id), Invalid(line, "id"));
      did := Get(t, line, "did", None);
      Check(did == "" || DidOk(did), Invalid(line, "did"));
      mailbox := Get(t, line, "mailbox", None);
      Check(mailbox == "" || '@' in mailbox, Invalid(line, "mailbox"));
      language := Get(t, line, "email_language", Some("en"));
      Check(LangOk(language), Invalid(line, "email_language"));
    }

    /** One turn of the loop of `_lines`. */
    method OneLine(t: map<string, Value>, line: nat, privacyDefault: string) returns (l: Line)
      modifies this
      ensures |problems| >= |old(problems)| && l == LineFrom(t, privacyDefault)
      ensures |problems| == |old(problems)| <==> TableOk(t)
    {
      Known(t, line);
      var id, did, mailbox, language := Texts(t, line);
      var menu := Menu(t, line);
      var default := Get(t, line, "default_language", Some("auto"));
      Check(|menu| > 1 ==> default == "auto" || default in menu, Invalid(line, "default_language"));
      if |menu| == 1 {
        default := menu[0];
      }
      var privacy := Get(t, line, "privacy_url", Some(privacyDefault));
      l := Line(id, did, mailbox, language, menu, default, privacy);
    }

    /** The check for duplicate ids or dids. */
    method Duplicates(values: seq<string>, key: string)
      modifies this
      ensures |problems| >= |old(problems)|
      ensures |problems| == |old(problems)| <==>
                forall i, j | 0 <= i < j < |values| :: values[i] != "" ==> values[i] != values[j]
    {
      for j := 0 to |values|
        invariant |problems| >= |old(problems)|
        invariant |problems| == |old(problems)| <==>
                    forall i, k | 0 <= i < k < j :: values[i] != "" ==> values[i] != values[k]
      {
        var again := values[j] != "" && values[j] in values[..j];
        if again {
          var i :| 0 <= i < j && values[..j][i] == values[j];
          assert values[i] == values[j];
        } else {
          forall i | 0 <= i < j && values[i] != "" ensures values[i] != values[j] {
            assert values[..j][i] == values[i];
          }
        }
        Check(!again, Duplicate(key, values[j]));
      }
    }

    /** The loop of `_lines`. */
    method ReadTables(items: seq<Value>, privacyDefault: string) returns (lines: seq<Line>)
      modifies this
      ensures |problems| >= |old(problems)|
      ensures |problems| == |old(problems)| <==> TablesOk(items)
      ensures TablesOk(items) ==> lines == LinesFrom(items, privacyDefault)
    {
      lines := [];
      for i := 0 to |items|
        invariant |problems| >= |old(problems)|
        invariant |problems| == |old(problems)| <==> TablesOk(items[..i])
        invariant TablesOk(items[..i]) ==> lines == LinesFrom(items[..i], privacyDefault)
      {
        assert items[..i + 1] == items[..i] + [items[i]];
        if items[i].Table? {
          var l := OneLine(items[i].t, i + 1, privacyDefault);
          lines := lines + [l];
        } else {
          Check(false, NotATable(i + 1));
        }
        TablesSoFar(items, i);
      }
      assert items[..|items|] == items;
    }

    lemma TablesSoFar(items: seq<Value>, i: nat)
      requires i < |items|
      ensures TablesOk(items[..i + 1]) <==> TablesOk(items[..i]) && items[i].Table? && TableOk(items[i].t)
    {
    }

    /** `_lines`: no problem is recorded exactly when the tables meet the conditions, and then there is a well-formed
        line for every table, in order. */
    method Lines(raw: Value, privacyDefault: string) returns (lines: seq<Line>)
      modifies this
      ensures |problems| >= |old(problems)|
      ensures |problems| == |old(problems)| <==> RawOk(raw, privacyDefault)
      ensures RawOk(raw, privacyDefault) ==> LinesOk(lines) && lines == LinesFrom(raw.items, privacyDefault)
      ensures RawOk(raw, privacyDefault) ==> forall i | 0 <= i < |lines| :: Mirrors(lines[i], raw.items[i].t, privacyDefault)
    {
      if !raw.Array? || raw.items == [] {
        Check(false, NoLines);
        return [];
      }
      lines := ReadTables(raw.items, privacyDefault);
      label read:
      var ids := seq(|lines|, i requires 0 <= i < |lines| => lines[i].id);
      var dids := seq(|lines|, i requires 0 <= i < |lines| => lines[i].did);
      Duplicates(ids, "id");
      Duplicates(dids, "did");
      assert forall i | 0 <= i < |lines| :: ids[i] == lines[i].id && dids[i] == lines[i].did;
      assert |problems| == |old@read(problems)| <==> NoClash(lines);
      if TablesOk(raw.items) {
        AllLinesOk(raw.items, privacyDefault);
        forall i | 0 <= i < |lines| ensures Mirrors(lines[i], raw.items[i].t, privacyDefault) {
          FieldsMirror(raw.items[i].t, privacyDefault);
        }
      }
    }
  }

  lemma AllLinesOk(items: seq<Value>, privacyDefault: string)
    requires TablesOk(items)
    ensures forall l | l in LinesFrom(items, privacyDefault) :: LineOk(l)
  {
  }
}
