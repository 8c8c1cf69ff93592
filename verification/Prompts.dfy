/** The recorded prompts and the transparency check: aivoicemail/prompts.py. */
module Prompts {
  import opened Common
  import opened Config
  import opened Generate
  import opened Text

  /** PROMPT_KEYS. */
  datatype TextKey = MenuOption | NoticeText | NoticeShort | AfterTone | ThanksText | ThanksShort

  /** A template as `load_templates` lets it through: a text under every key. */
  datatype Template = Template(transparency: seq<string>, text: TextKey -> string)

  type Templates = map<string, Template>

  datatype Segment = Segment(lang: string, text: string, breakMs: Option<nat>)

  datatype Kind = Notice | Thanks | Menu | NoticeAuto | ThanksAuto

  datatype Prompt = Prompt(name: string, line: string, kind: Kind, segments: seq<Segment>, sentenceMs: Option<nat>)

  /** The part of the configuration besides its lines: [company].name and [tts].sentence_ms. */
  datatype Settings = Settings(company: string, sentenceMs: nat)

  const MENU_INTRO_BREAK_MS := 350
  const MENU_OPTION_BREAK_MS := 450
  const MENU_LAST_BREAK_MS := 200

  // ---- fill ----

  type Values = seq<(string, string)>

  /** Every placeholder replaced, one after the other. */
  function Filled(text: string, values: Values): string
    decreases |values|
  {
    if values == [] then text else Filled(Replace(text, "{" + values[0].0 + "}", values[0].1), values[1..])
  }

  /** `fill`. */
  method Fill(text: string, values: Values) returns (r: string)
    ensures r == Filled(text, values)
  {
    r := text;
    for i := 0 to |values|
      invariant Filled(r, values[i..]) == Filled(text, values)
    {
      assert values[i..][0] == values[i] && values[i..][1..] == values[i + 1..];
      r := Replace(r, "{" + values[i].0 + "}", values[i].1);
    }
  }

  function LineValues(s: Settings, l: Line): Values {
    [("company", s.company), ("privacy_url", l.privacyUrl)]
  }

  // ---- what fill says ----

  /** A text as its author sees it: words, and places where a value goes. */
  datatype Piece = Words(words: string) | Slot(key: string)

  predicate Proper(p: Piece) {
    match p
    case Words(words) => '{' !in words
    case Slot(key) => '{' !in key && '}' !in key
  }

  function Written(p: Piece): string {
    match p
    case Words(words) => words
    case Slot(key) => "{" + key + "}"
  }

  function Shown(ps: seq<Piece>): string {
    if ps == [] then "" else Written(ps[0]) + Shown(ps[1..])
  }

  /** The same text when these values are said. */
  function Said(ps: seq<Piece>, said: map<string, string>): string {
    if ps == [] then ""
    else (if ps[0].Slot? && ps[0].key in said then said[ps[0].key] else Written(ps[0])) + Said(ps[1..], said)
  }

  function Put(ps: seq<Piece>, key: string, value: string): (r: seq<Piece>)
    ensures |r| == |ps| && forall i | 0 <= i < |r| :: r[i] == if ps[i] == Slot(key) then Words(value) else ps[i]
  {
    if ps == [] then [] else [if ps[0] == Slot(key) then Words(value) else ps[0]] + Put(ps[1..], key, value)
  }

  lemma {:induction false} ReplaceSkips(a: string, b: string, old_: string, new_: string)
    requires '{' !in a && old_ != "" && old_[0] == '{'
    ensures Replace(a + b, old_, new_) == a + Replace(b, old_, new_)
    decreases |a|
  {
    if a == "" {
      assert a + b == b;
    } else {
      assert (a + b)[0] == a[0] && (a + b)[1..] == a[1..] + b;
      assert a[0] in a && a == [a[0]] + a[1..];
      ReplaceSkips(a[1..], b, old_, new_);
    }
  }

  /** A place for one key is not taken for that of another. */
  lemma OtherSlot(key: string, other: string, rest: string)
    requires '}' !in key && '}' !in other && StartsWith("{" + other + "}" + rest, "{" + key + "}")
    ensures key == other
  {
    var text := "{" + other + "}" + rest;
    var part := "{" + key + "}";
    assert forall i | 0 <= i < |part| :: text[i] == part[i];
    assert forall i | 0 <= i < |key| :: part[i + 1] == key[i] && key[i] in key;
    assert forall i | 0 <= i < |other| :: text[i + 1] == other[i] && other[i] in other;
    assert text[|other| + 1] == '}' && part[|key| + 1] == '}';
    assert |key| == |other|;
    assert forall i | 0 <= i < |key| :: key[i] == part[i + 1] == text[i + 1] == other[i];
  }

  lemma ReplaceSlot(key: string, other: string, value: string, rest: string)
    requires '{' !in other && '}' !in other && '}' !in key
    ensures Replace("{" + other + "}" + rest, "{" + key + "}", value)
            == (if key == other then value else "{" + other + "}") + Replace(rest, "{" + key + "}", value)
  {
    var old_ := "{" + key + "}";
    var text := "{" + other + "}" + rest;
    if key == other {
      assert text[|old_|..] == rest;
    } else {
      if StartsWith(text, old_) {
        OtherSlot(key, other, rest);
      }
      assert text[0] == '{' && text[1..] == (other + "}") + rest;
      ReplaceSkips(other + "}", rest, old_, value);
      assert "{" + other + "}" == ['{'] + (other + "}");
    }
  }

  /** Replacing a placeholder fills exactly the places for it. */
  lemma {:induction false} ReplaceShown(ps: seq<Piece>, key: string, value: string)
    requires (forall p | p in ps :: Proper(p)) && '}' !in key
    ensures Replace(Shown(ps), "{" + key + "}", value) == Shown(Put(ps, key, value))
    decreases |ps|
  {
    if ps != [] {
      assert ps[0] in ps;
      ReplaceShown(ps[1..], key, value);
      match ps[0]
      case Words(words) => ReplaceSkips(words, Shown(ps[1..]), "{" + key + "}", value);
      case Slot(other) => ReplaceSlot(key, other, value, Shown(ps[1..]));
    }
  }

  lemma {:induction false} SaidIsShown(ps: seq<Piece>)
    ensures Said(ps, map[]) == Shown(ps)
    decreases |ps|
  {
    if ps != [] {
      SaidIsShown(ps[1..]);
    }
  }

  lemma {:induction false} SaidPut(ps: seq<Piece>, key: string, value: string, said: map<string, string>)
    requires key !in said
    ensures Said(Put(ps, key, value), said) == Said(ps, said[key := value])
    decreases |ps|
  {
    if ps != [] {
      assert Put(ps, key, value)[1..] == Put(ps[1..], key, value);
      SaidPut(ps[1..], key, value, said);
    }
  }

  lemma PutProper(ps: seq<Piece>, key: string, value: string)
    requires (forall p | p in ps :: Proper(p)) && '{' !in value
    ensures forall p | p in Put(ps, key, value) :: Proper(p)
  {
  }

  /** What `fill` says of a text: the company name where {company} stands and the URL where {privacy_url} stands, and
      otherwise the text, provided the company name has no opening brace (a placeholder in it would be filled too). */
  lemma FillSays(ps: seq<Piece>, s: Settings, l: Line)
    requires (forall p | p in ps :: Proper(p)) && '{' !in s.company
    ensures Filled(Shown(ps), LineValues(s, l)) == Said(ps, map["company" := s.company, "privacy_url" := l.privacyUrl])
  {
    FillTwo(ps, "company", s.company, "privacy_url", l.privacyUrl);
    assert map[]["privacy_url" := l.privacyUrl]["company" := s.company]
        == map["company" := s.company, "privacy_url" := l.privacyUrl];
  }

  lemma FillTwo(ps: seq<Piece>, k1: string, v1: string, k2: string, v2: string)
    requires (forall p | p in ps :: Proper(p)) && '{' !in v1 && k1 != k2 && '}' !in k1 && '}' !in k2
    ensures Filled(Shown(ps), [(k1, v1), (k2, v2)]) == Said(ps, map[][k2 := v2][k1 := v1])
  {
    var one := Put(ps, k1, v1);
    FilledTwo(Shown(ps), k1, v1, k2, v2);
    ReplaceShown(ps, k1, v1);
    PutProper(ps, k1, v1);
    ReplaceShown(one, k2, v2);
    SaidTwo(ps, k1, v1, k2, v2);
  }

  lemma FilledTwo(text: string, k1: string, v1: string, k2: string, v2: string)
    ensures Filled(text, [(k1, v1), (k2, v2)]) == Replace(Replace(text, "{" + k1 + "}", v1), "{" + k2 + "}", v2)
  {
    assert [(k1, v1), (k2, v2)][1..] == [(k2, v2)];
    FilledOne(Replace(text, "{" + k1 + "}", v1), k2, v2);
  }

  lemma FilledOne(text: string, key: string, value: string)
    ensures Filled(text, [(key, value)]) == Replace(text, "{" + key + "}", value)
  {
    assert [(key, value)][1..] == [];
  }

  lemma SaidTwo(ps: seq<Piece>, k1: string, v1: string, k2: string, v2: string)
    requires k1 != k2
    ensures Shown(Put(Put(ps, k1, v1), k2, v2)) == Said(ps, map[][k2 := v2][k1 := v1])
  {
    var one := Put(ps, k1, v1);
    SaidIsShown(Put(one, k2, v2));
    SaidPut(one, k2, v2, map[]);
    SaidPut(ps, k1, v1, map[][k2 := v2]);
  }

  // ---- the texts ----

  /** A text of a language's template, with the line's values. */
  function Spoken(ts: Templates, values: Values, lang: string, key: TextKey): string
    requires lang in ts
  {
    Filled(ts[lang].text(key), values)
  }

  // ---- the prompt list ----

  /** Which prompt of a line; the language of a notice or thanks may be "auto". */
  datatype Place = OfMenu | OfNotice(lang: string) | OfThanks(lang: string)

  function NameOf(id: string, p: Place): string {
    match p
    case OfMenu => MenuName(id)
    case OfNotice(lang) => NoticeName(id, lang)
    case OfThanks(lang) => ThanksName(id, lang)
  }

  function NoticesOf(menu: seq<string>): (r: seq<Place>)
    ensures |r| == |menu| && forall i | 0 <= i < |r| :: r[i] == OfNotice(menu[i])
  {
    seq(|menu|, i requires 0 <= i < |menu| => OfNotice(menu[i]))
  }

  function ThanksOf(menu: seq<string>): (r: seq<Place>)
    ensures |r| == |menu| && forall i | 0 <= i < |r| :: r[i] == OfThanks(menu[i])
  {
    seq(|menu|, i requires 0 <= i < |menu| => OfThanks(menu[i]))
  }

  /** The prompts of one line, in order. */
  function Places(l: Line): seq<Place>
    requires l.menu != []
  {
    if !l.HasMenu() then [OfNotice(l.menu[0]), OfThanks(l.menu[0])]
    else
      var auto := l.defaultLanguage == "auto";
      [OfMenu] + NoticesOf(l.menu) + (if auto then [OfNotice("auto")] else [])
      + ThanksOf(l.menu) + (if auto then [OfThanks("auto")] else [])
  }

  /** `_names`. */
  function Names(l: Line): (r: seq<string>)
    requires l.menu != []
    ensures |r| == |Places(l)| && forall i | 0 <= i < |r| :: r[i] == NameOf(l.id, Places(l)[i])
  {
    var places := Places(l);
    seq(|places|, i requires 0 <= i < |places| => NameOf(l.id, places[i]))
  }

  /** `prompt_names`. */
  function PromptNames(lines: seq<Line>): seq<string>
    requires forall l | l in lines :: l.menu != []
    decreases |lines|
  {
    if lines == [] then [] else PromptNames(lines[..|lines| - 1]) + Names(lines[|lines| - 1])
  }

  // ---- what the prompts say ----

  /** Every menu language of the line has a template. */
  predicate Covered(ts: Templates, l: Line) {
    forall m | m in l.menu :: m in ts
  }

  predicate AllCovered(ts: Templates, lines: seq<Line>) {
    forall l | l in lines :: l.menu != [] && Covered(ts, l)
  }

  /** The templates a prompt needs are there. */
  predicate Sayable(ts: Templates, l: Line, p: Place) {
    if p.OfMenu? || p.lang == "auto" then l.menu != [] && Covered(ts, l) else p.lang in ts
  }

  function OptionSegment(ts: Templates, values: Values, l: Line, i: nat): Segment
    requires i < |l.menu| && l.menu[i] in ts
  {
    Segment(l.menu[i], Filled(Spoken(ts, values, l.menu[i], MenuOption), [("digit", Str(i + 1))]),
            Some(if i + 1 == |l.menu| then MENU_LAST_BREAK_MS else MENU_OPTION_BREAK_MS))
  }

  function Options(ts: Templates, values: Values, l: Line, n: nat): (r: seq<Segment>)
    requires n <= |l.menu| && Covered(ts, l)
    ensures |r| == n
  {
    if n == 0 then [] else Options(ts, values, l, n - 1) + [OptionSegment(ts, values, l, n - 1)]
  }

  /** One text in each of these languages. */
  function InEach(ts: Templates, values: Values, menu: seq<string>, key: TextKey): (r: seq<Segment>)
    requires forall m | m in menu :: m in ts
    ensures |r| == |menu|
    ensures forall i {:trigger r[i]} | 0 <= i < |r| ::
              menu[i] in ts && r[i] == Segment(menu[i], Spoken(ts, values, menu[i], key), None)
    decreases |menu|
  {
    if menu == [] then []
    else
      var n := |menu| - 1;
      InEach(ts, values, menu[..n], key) + [Segment(menu[n], Spoken(ts, values, menu[n], key), None)]
  }

  function Segments(s: Settings, ts: Templates, l: Line, p: Place): seq<Segment>
    requires Sayable(ts, l, p)
  {
    var values := LineValues(s, l);
    match p
    case OfMenu =>
      [Segment(l.menu[0], s.company + ".", Some(MENU_INTRO_BREAK_MS))] + Options(ts, values, l, |l.menu|)
    case OfNotice(lang) =>
      if lang == "auto" then
        var last := l.menu[|l.menu| - 1];
        InEach(ts, values, l.menu, NoticeShort) + [Segment(last, Spoken(ts, values, last, AfterTone), None)]
      else [Segment(lang, Spoken(ts, values, lang, NoticeText), None)]
    case OfThanks(lang) =>
      if lang == "auto" then InEach(ts, values, l.menu, ThanksShort)
      else [Segment(lang, Spoken(ts, values, lang, ThanksText), None)]
  }

  function KindOf(p: Place): Kind {
    match p
    case OfMenu => Menu
    case OfNotice(lang) => if lang == "auto" then NoticeAuto else Notice
    case OfThanks(lang) => if lang == "auto" then ThanksAuto else Thanks
  }

  /** The prompt at a place. */
  function PromptFor(s: Settings, ts: Templates, l: Line, p: Place): Prompt
    requires Sayable(ts, l, p)
  {
    Prompt(NameOf(l.id, p), l.id, KindOf(p), Segments(s, ts, l, p), if p.OfNotice? then Some(s.sentenceMs) else None)
  }

  lemma PlacesSayable(ts: Templates, l: Line)
    requires l.menu != [] && Covered(ts, l)
    ensures forall p | p in Places(l) :: Sayable(ts, l, p)
  {
  }

  /** The prompts of one line, in the order of their names. */
  function LinePrompts(s: Settings, ts: Templates, l: Line): (r: seq<Prompt>)
    requires l.menu != [] && Covered(ts, l)
    ensures |r| == |Places(l)|
    ensures forall i | 0 <= i < |r| :: Sayable(ts, l, Places(l)[i]) && r[i] == PromptFor(s, ts, l, Places(l)[i])
  {
    var places := Places(l);
    PlacesSayable(ts, l);
    seq(|places|, i requires 0 <= i < |places| && Sayable(ts, l, places[i]) => PromptFor(s, ts, l, places[i]))
  }

  function AllPrompts(s: Settings, ts: Templates, lines: seq<Line>): seq<Prompt>
    requires AllCovered(ts, lines)
    decreases |lines|
  {
    if lines == [] then []
    else AllPrompts(s, ts, lines[..|lines| - 1]) + LinePrompts(s, ts, lines[|lines| - 1])
  }

  // ---- building them ----

  /** A prompt's name says which prompt of its line it is. */
  lemma NameTellsPlace(id: string, p: Place, q: Place)
    requires NameOf(id, p) == NameOf(id, q)
    ensures p == q
  {
    var name := NameOf(id, p);
    var n := |id|;
    assert name[n + 1] == if p.OfMenu? then 'm' else if p.OfNotice? then 'n' else 't';
    assert name[n + 1] == if q.OfMenu? then 'm' else if q.OfNotice? then 'n' else 't';
    if !p.OfMenu? {
      assert name[n + 8..] == p.lang && name[n + 8..] == q.lang;
    }
  }

  /** The prompts made so far. */
  ghost predicate Made(made: map<string, Prompt>, s: Settings, ts: Templates, l: Line, places: set<Place>) {
    forall p | p in places ::
      Sayable(ts, l, p) && NameOf(l.id, p) in made && made[NameOf(l.id, p)] == PromptFor(s, ts, l, p)
  }

  lemma MakeOne(made: map<string, Prompt>, s: Settings, ts: Templates, l: Line, places: set<Place>, p: Place)
    requires Made(made, s, ts, l, places) && Sayable(ts, l, p)
    ensures Made(made[NameOf(l.id, p) := PromptFor(s, ts, l, p)], s, ts, l, places + {p})
  {
    forall q | q in places && NameOf(l.id, q) == NameOf(l.id, p) ensures q == p {
      NameTellsPlace(l.id, q, p);
    }
  }

  /** The places of the first k languages. */
  ghost function LangPlaces(menu: seq<string>, k: nat): set<Place>
    requires k <= |menu|
  {
    (set i | 0 <= i < k :: OfNotice(menu[i])) + (set i | 0 <= i < k :: OfThanks(menu[i]))
  }

  lemma LangPlacesNext(menu: seq<string>, k: nat)
    requires k < |menu|
    ensures LangPlaces(menu, k + 1) == LangPlaces(menu, k) + {OfNotice(menu[k])} + {OfThanks(menu[k])}
  {
  }

  /** One language of the loop over the menu: its notice and its thanks. */
  method MakeLang(s: Settings, ts: Templates, l: Line, lang: string, before: map<string, Prompt>, ghost places: set<Place>)
    returns (made: map<string, Prompt>)
    requires lang in ts && lang != "auto" && Made(before, s, ts, l, places)
    ensures Made(made, s, ts, l, places + {OfNotice(lang)} + {OfThanks(lang)})
  {
    var notice := Fill(ts[lang].text(NoticeText), LineValues(s, l));
    made := before[NoticeName(l.id, lang) :=
      Prompt(NoticeName(l.id, lang), l.id, Notice, [Segment(lang, notice, None)], Some(s.sentenceMs))];
    MakeOne(before, s, ts, l, places, OfNotice(lang));
    ghost var half := made;
    assert NameOf(l.id, OfNotice(lang)) == NoticeName(l.id, lang);
    assert made == before[NameOf(l.id, OfNotice(lang)) := PromptFor(s, ts, l, OfNotice(lang))];
    var thanks := Fill(ts[lang].text(ThanksText), LineValues(s, l));
    made := made[ThanksName(l.id, lang) := Prompt(ThanksName(l.id, lang), l.id, Thanks, [Segment(lang, thanks, None)], None)];
    MakeOne(half, s, ts, l, places + {OfNotice(lang)}, OfThanks(lang));
    assert NameOf(l.id, OfThanks(lang)) == ThanksName(l.id, lang);
    assert made == half[NameOf(l.id, OfThanks(lang)) := PromptFor(s, ts, l, OfThanks(lang))];
  }

  /** What a line with a menu adds: the menu, and the prompts that speak every language. */
  method MakeMenu(s: Settings, ts: Templates, l: Line, before: map<string, Prompt>, ghost places: set<Place>)
    returns (made: map<string, Prompt>)
    requires l.menu != [] && Covered(ts, l) && Made(before, s, ts, l, places)
    ensures Made(made, s, ts, l, places + {OfMenu} + {OfNotice("auto")} + {OfThanks("auto")})
  {
    var menu := MenuSegments(s, ts, l);
    var auto := EachLanguage(s, ts, l, NoticeShort);
    var last := l.menu[|l.menu| - 1];
    var tone := Fill(ts[last].text(AfterTone), LineValues(s, l));
    auto := auto + [Segment(last, tone, None)];
    var thanks := EachLanguage(s, ts, l, ThanksShort);
    var m := Prompt(MenuName(l.id), l.id, Menu, menu, None);
    var n := Prompt(NoticeName(l.id, "auto"), l.id, NoticeAuto, auto, Some(s.sentenceMs));
    var t := Prompt(ThanksName(l.id, "auto"), l.id, ThanksAuto, thanks, None);
    assert m == PromptFor(s, ts, l, OfMenu);
    assert n == PromptFor(s, ts, l, OfNotice("auto"));
    assert t == PromptFor(s, ts, l, OfThanks("auto"));
    MakeOne(before, s, ts, l, places, OfMenu);
    made := before[m.name := m];
    MakeOne(made, s, ts, l, places + {OfMenu}, OfNotice("auto"));
    made := made[n.name := n];
    MakeOne(made, s, ts, l, places + {OfMenu} + {OfNotice("auto")}, OfThanks("auto"));
    made := made[t.name := t];
  }

  /** The segments of the menu prompt. */
  method MenuSegments(s: Settings, ts: Templates, l: Line) returns (segs: seq<Segment>)
    requires l.menu != [] && Covered(ts, l)
    ensures segs == Segments(s, ts, l, OfMenu)
  {
    var values := LineValues(s, l);
    ghost var intro := [Segment(l.menu[0], s.company + ".", Some(MENU_INTRO_BREAK_MS))];
    segs := [Segment(l.menu[0], s.company + ".", Some(MENU_INTRO_BREAK_MS))];
    for k := 0 to |l.menu|
      invariant segs == intro + Options(ts, values, l, k)
    {
      var text := Fill(ts[l.menu[k]].text(MenuOption), values);
      text := Fill(text, [("digit", Str(k + 1))]);
      segs := segs + [Segment(l.menu[k], text,
                              Some(if k + 1 == |l.menu| then MENU_LAST_BREAK_MS else MENU_OPTION_BREAK_MS))];
    }
  }

  /** `[Segment(lang, text(lang, key)) for lang in line.menu]`. */
  method EachLanguage(s: Settings, ts: Templates, l: Line, key: TextKey) returns (segs: seq<Segment>)
    requires Covered(ts, l)
    ensures segs == InEach(ts, LineValues(s, l), l.menu, key)
  {
    segs := [];
    for k := 0 to |l.menu|
      invariant segs == InEach(ts, LineValues(s, l), l.menu[..k], key)
    {
      var text := Fill(ts[l.menu[k]].text(key), LineValues(s, l));
      assert l.menu[..k + 1][..k] == l.menu[..k];
      segs := segs + [Segment(l.menu[k], text, None)];
    }
    assert l.menu[..|l.menu|] == l.menu;
  }

  /** The loop body of `build_prompts`: the prompts of one line, or the KeyError. */
  method BuildLine(s: Settings, ts: Templates, l: Line) returns (r: Result<seq<Prompt>, string>)
    requires l.menu != [] && forall m | m in l.menu :: LangOk(m)
    ensures r.Success? <==> Covered(ts, l)
    ensures r.Success? ==> r.value == LinePrompts(s, ts, l)
  {
    var made: map<string, Prompt> := map[];
    for k := 0 to |l.menu|
      invariant forall i | 0 <= i < k :: l.menu[i] in ts
      invariant Made(made, s, ts, l, LangPlaces(l.menu, k))
    {
      if l.menu[k] !in ts {
        return Failure(l.menu[k]);
      }
      assert LangOk(l.menu[k]);
      made := MakeLang(s, ts, l, l.menu[k], made, LangPlaces(l.menu, k));
      LangPlacesNext(l.menu, k);
    }
    ghost var places := LangPlaces(l.menu, |l.menu|);
    if l.HasMenu() {
      made := MakeMenu(s, ts, l, made, places);
      places := places + {OfMenu} + {OfNotice("auto")} + {OfThanks("auto")};
    }
    MadeAll(s, ts, l, made, places);
    var out := Collect(made, Names(l), LinePrompts(s, ts, l));
    return Success(out);
  }

  /** `[made[name] for name in _names(line)]`. */
  method Collect(made: map<string, Prompt>, names: seq<string>, ghost wanted: seq<Prompt>) returns (out: seq<Prompt>)
    requires |wanted| == |names| && forall k | 0 <= k < |names| :: names[k] in made && made[names[k]] == wanted[k]
    ensures out == wanted
  {
    out := [];
    for k := 0 to |names|
      invariant |out| == k && forall i | 0 <= i < k :: out[i] == wanted[i]
    {
      out := out + [made[names[k]]];
    }
  }

  lemma MadeHas(s: Settings, ts: Templates, l: Line, made: map<string, Prompt>, places: set<Place>, k: nat)
    requires l.menu != [] && Covered(ts, l) && Made(made, s, ts, l, places) && LangPlaces(l.menu, |l.menu|) <= places
    requires (l.HasMenu() ==> {OfMenu, OfNotice("auto"), OfThanks("auto")} <= places) && k < |Names(l)|
    ensures Names(l)[k] in made && made[Names(l)[k]] == LinePrompts(s, ts, l)[k]
  {
  }

  lemma MadeAll(s: Settings, ts: Templates, l: Line, made: map<string, Prompt>, places: set<Place>)
    requires l.menu != [] && Covered(ts, l) && Made(made, s, ts, l, places) && LangPlaces(l.menu, |l.menu|) <= places
    requires l.HasMenu() ==> {OfMenu, OfNotice("auto"), OfThanks("auto")} <= places
    ensures forall k | 0 <= k < |Names(l)| :: Names(l)[k] in made && made[Names(l)[k]] == LinePrompts(s, ts, l)[k]
  {
    forall k | 0 <= k < |Names(l)| ensures Names(l)[k] in made && made[Names(l)[k]] == LinePrompts(s, ts, l)[k] {
      MadeHas(s, ts, l, made, places, k);
    }
  }

  lemma AllPromptsNext(s: Settings, ts: Templates, lines: seq<Line>, k: nat)
    requires k < |lines| && AllCovered(ts, lines[..k]) && lines[k].menu != [] && Covered(ts, lines[k])
    ensures AllCovered(ts, lines[..k + 1])
    ensures AllPrompts(s, ts, lines[..k + 1]) == AllPrompts(s, ts, lines[..k]) + LinePrompts(s, ts, lines[k])
  {
    assert lines[..k + 1] == lines[..k] + [lines[k]];
    assert lines[..k + 1][..k] == lines[..k];
  }

  /** `build_prompts`: it raises exactly when some menu language has no template; otherwise every prompt of every line is
      there, in the order of the prompt list. */
  method BuildPrompts(s: Settings, ts: Templates, lines: seq<Line>) returns (r: Result<seq<Prompt>, string>)
    requires forall l | l in lines :: l.menu != [] && forall m | m in l.menu :: LangOk(m)
    ensures r.Success? <==> AllCovered(ts, lines)
    ensures r.Success? ==> r.value == AllPrompts(s, ts, lines)
  {
    var out := [];
    for k := 0 to |lines|
      invariant AllCovered(ts, lines[..k])
      invariant out == AllPrompts(s, ts, lines[..k])
    {
      var one := BuildLine(s, ts, lines[k]);
      if one.Failure? {
        return one;
      }
      AllPromptsNext(s, ts, lines, k);
      out := out + one.value;
    }
    assert lines[..|lines|] == lines;
    return Success(out);
  }

  predicate Named(ps: seq<Prompt>, names: seq<string>) {
    |ps| == |names| && forall i | 0 <= i < |ps| :: ps[i].name == names[i]
  }

  /** The built prompts carry the names of the prompt list, in its order. */
  lemma {:induction false} BuiltUnderTheirNames(s: Settings, ts: Templates, lines: seq<Line>)
    requires AllCovered(ts, lines)
    ensures Named(AllPrompts(s, ts, lines), PromptNames(lines))
    decreases |lines|
  {
    if lines != [] {
      var before := lines[..|lines| - 1];
      var l := lines[|lines| - 1];
      BuiltUnderTheirNames(s, ts, before);
      LineUnderNames(s, ts, l);
      NamedTogether(AllPrompts(s, ts, before), PromptNames(before), LinePrompts(s, ts, l), Names(l));
    }
  }

  lemma LineUnderNames(s: Settings, ts: Templates, l: Line)
    requires l.menu != [] && Covered(ts, l)
    ensures Named(LinePrompts(s, ts, l), Names(l))
  {
  }

  lemma NamedTogether(ps: seq<Prompt>, names: seq<string>, more: seq<Prompt>, others: seq<string>)
    requires Named(ps, names) && Named(more, others)
    ensures Named(ps + more, names + others)
  {
  }

  /** The prompts of every line are among them. */
  lemma {:induction false} BuiltForEveryLine(s: Settings, ts: Templates, lines: seq<Line>, l: Line, p: Place)
    requires AllCovered(ts, lines) && l in lines && p in Places(l)
    ensures Sayable(ts, l, p) && PromptFor(s, ts, l, p) in AllPrompts(s, ts, lines)
    decreases |lines|
  {
    var n := |lines| - 1;
    if l == lines[n] {
      var i :| 0 <= i < |Places(l)| && Places(l)[i] == p;
      assert LinePrompts(s, ts, l)[i] == PromptFor(s, ts, l, p);
    } else {
      var i :| 0 <= i < |lines| && lines[i] == l;
      assert lines[..n][i] == l;
      BuiltForEveryLine(s, ts, lines[..n], l, p);
    }
  }

  // ---- names are distinct ----

  function Suffix(p: Place): string {
    match p
    case OfMenu => "menu"
    case OfNotice(lang) => "notice-" + lang
    case OfThanks(lang) => "thanks-" + lang
  }

  lemma NameHasId(id: string, p: Place)
    ensures NameOf(id, p) == id + "-" + Suffix(p)
  {
  }

  lemma IdHasNoDash(id: string)
    requires LineIdOk(id)
    ensures '-' !in id
  {
    forall i | 0 <= i < |id| ensures id[i] != '-' {
      assert i > 0 ==> id[i] == id[1..][i - 1] && id[i] in id[1..];
    }
  }

  lemma NotShorter(a: string, b: string, x: string, y: string)
    requires '-' !in b && a + "-" + x == b + "-" + y
    ensures |a| >= |b|
  {
    var s := a + "-" + x;
    assert s[|a|] == '-';
    forall i | 0 <= i < |b| ensures s[i] != '-' {
      assert s[i] == b[i] && b[i] in b;
    }
  }

  /** A line id ends at the first dash of a prompt name. */
  lemma SplitsAtTheDash(a: string, b: string, x: string, y: string)
    requires '-' !in a && '-' !in b && a + "-" + x == b + "-" + y
    ensures a == b && x == y
  {
    NotShorter(a, b, x, y);
    NotShorter(b, a, y, x);
    var s := a + "-" + x;
    assert s[..|a|] == a && s[..|b|] == b && s[|a| + 1..] == x && s[|b| + 1..] == y;
  }

  /** A prompt's name says which line it belongs to, and which of its prompts it is. */
  lemma NameTellsLine(a: string, b: string, p: Place, q: Place)
    requires LineIdOk(a) && LineIdOk(b) && NameOf(a, p) == NameOf(b, q)
    ensures a == b && p == q
  {
    IdHasNoDash(a);
    IdHasNoDash(b);
    NameHasId(a, p);
    NameHasId(b, q);
    SplitsAtTheDash(a, b, Suffix(p), Suffix(q));
    NameTellsPlace(a, p, q);
  }

  lemma LinesDiffer(a: string, b: string, p: Place, q: Place)
    requires LineIdOk(a) && LineIdOk(b) && a != b
    ensures NameOf(a, p) != NameOf(b, q)
  {
    if NameOf(a, p) == NameOf(b, q) {
      NameTellsLine(a, b, p, q);
    }
  }

  predicate Differ(places: seq<Place>) {
    forall i, j | 0 <= i < j < |places| :: places[i] != places[j]
  }

  lemma PlacesDiffer(l: Line)
    requires LineOk(l)
    ensures Differ(Places(l))
  {
    if l.HasMenu() {
      var langs := if l.defaultLanguage == "auto" then l.menu + ["auto"] else l.menu;
      LanguagesDiffer(l);
      NoticesDiffer(langs);
      MenuDiffersFromThem(NoticesOf(langs), ThanksOf(langs));
      PlacesAre(l.menu, l.defaultLanguage == "auto");
    }
  }

  lemma PlacesAre(menu: seq<string>, auto: bool)
    ensures var langs := if auto then menu + ["auto"] else menu;
      [OfMenu] + NoticesOf(menu) + (if auto then [OfNotice("auto")] else []) + ThanksOf(menu)
      + (if auto then [OfThanks("auto")] else [])
      == [OfMenu] + NoticesOf(langs) + ThanksOf(langs)
  {
    if auto {
      assert NoticesOf(menu + ["auto"]) == NoticesOf(menu) + [OfNotice("auto")];
      assert ThanksOf(menu + ["auto"]) == ThanksOf(menu) + [OfThanks("auto")];
      Regroup([OfMenu], NoticesOf(menu), [OfNotice("auto")], ThanksOf(menu), [OfThanks("auto")]);
    }
  }

  lemma Regroup(a: seq<Place>, b: seq<Place>, c: seq<Place>, d: seq<Place>, e: seq<Place>)
    ensures a + b + c + d + e == a + (b + c) + (d + e)
  {
  }

  lemma LanguagesDiffer(l: Line)
    requires LineOk(l)
    ensures AllDistinct(if l.defaultLanguage == "auto" then l.menu + ["auto"] else l.menu)
  {
    forall i | 0 <= i < |l.menu| ensures l.menu[i] != "auto" {
      assert LangOk(l.menu[i]);
    }
  }

  lemma NoticesDiffer(langs: seq<string>)
    requires AllDistinct(langs)
    ensures Differ(NoticesOf(langs)) && Differ(ThanksOf(langs))
  {
  }

  lemma MenuDiffersFromThem(notices: seq<Place>, thanks: seq<Place>)
    requires Differ(notices) && Differ(thanks)
    requires (forall p | p in notices :: p.OfNotice?) && (forall p | p in thanks :: p.OfThanks?)
    ensures Differ([OfMenu] + notices + thanks)
  {
    assert forall i | 0 <= i < |notices| :: notices[i] in notices;
    assert forall i | 0 <= i < |thanks| :: thanks[i] in thanks;
  }

  /** A name of a line's list is that of one of its prompts. */
  lemma NamedPlace(l: Line, name: string) returns (p: Place)
    requires l.menu != [] && name in Names(l)
    ensures p in Places(l) && name == NameOf(l.id, p)
  {
    var i :| 0 <= i < |Names(l)| && Names(l)[i] == name;
    p := Places(l)[i];
  }

  lemma {:induction false} NameOfSomeLine(lines: seq<Line>, name: string) returns (l: Line)
    requires (forall l | l in lines :: l.menu != []) && name in PromptNames(lines)
    ensures l in lines && name in Names(l)
    decreases |lines|
  {
    l := lines[|lines| - 1];
    if name !in Names(l) {
      l := NameOfSomeLine(lines[..|lines| - 1], name);
    }
  }

  lemma {:induction false} NamesAreListed(lines: seq<Line>, l: Line, name: string)
    requires (forall l | l in lines :: l.menu != []) && l in lines && name in Names(l)
    ensures name in PromptNames(lines)
    decreases |lines|
  {
    var n := |lines| - 1;
    if l != lines[n] {
      var i :| 0 <= i < |lines| && lines[i] == l;
      assert lines[..n][i] == l;
      NamesAreListed(lines[..n], l, name);
    }
  }

  /** No two prompts of a configuration share a name, so none overwrites another. */
  lemma {:induction false} PromptNamesDistinct(lines: seq<Line>)
    requires (forall l | l in lines :: l.menu != [] && LineOk(l) && LineIdOk(l.id)) && NoClash(lines)
    ensures AllDistinct(PromptNames(lines))
    decreases |lines|
  {
    if lines != [] {
      var n := |lines| - 1;
      var last := lines[n];
      PromptNamesDistinct(lines[..n]);
      LineNamesDistinct(last);
      forall name | name in PromptNames(lines[..n]) ensures name !in Names(last) {
        NotInTwoLines(lines[..n], last, name);
      }
      DistinctAppend(PromptNames(lines[..n]), Names(last));
    }
  }

  lemma LineNamesDistinct(l: Line)
    requires l.menu != [] && LineOk(l)
    ensures AllDistinct(Names(l))
  {
    PlacesDiffer(l);
    forall i, j | 0 <= i < j < |Names(l)| ensures Names(l)[i] != Names(l)[j] {
      if Names(l)[i] == Names(l)[j] {
        NameTellsPlace(l.id, Places(l)[i], Places(l)[j]);
      }
    }
  }

  lemma NotInTwoLines(lines: seq<Line>, last: Line, name: string)
    requires forall l | l in lines :: l.menu != [] && LineIdOk(l.id) && l.id != last.id
    requires last.menu != [] && LineIdOk(last.id)
    ensures name in PromptNames(lines) ==> name !in Names(last)
  {
    if name in PromptNames(lines) {
      var l := NameOfSomeLine(lines, name);
      var p := NamedPlace(l, name);
      forall q | q in Places(last) ensures NameOf(last.id, q) != name {
        LinesDiffer(l.id, last.id, p, q);
      }
    }
  }

  lemma DistinctAppend(a: seq<string>, b: seq<string>)
    requires AllDistinct(a) && AllDistinct(b) && forall x | x in a :: x !in b
    ensures AllDistinct(a + b)
  {
    forall i, j | 0 <= i < j < |a + b| ensures (a + b)[i] != (a + b)[j] {
      if i < |a| <= j {
        assert a[i] in a && b[j - |a|] in b;
      }
    }
  }

  // ---- the transparency check ----

  datatype Problem = NoTemplate(line: string, lang: string) | Lacks(line: string, lang: string, key: TextKey, element: string)

  /** The phrases that a text lacks, up to letter case. */
  function Missing(fold: string -> string, line: string, lang: string, key: TextKey, spoken: string, values: Values,
                   phrases: seq<string>): seq<Problem>
    decreases |phrases|
  {
    if phrases == [] then []
    else
      var n := |phrases| - 1;
      var element := Filled(phrases[n], values);
      Missing(fold, line, lang, key, spoken, values, phrases[..n])
      + (if Contains(spoken, fold(element)) then [] else [Lacks(line, lang, key, element)])
  }

  predicate SaysEverything(fold: string -> string, spoken: string, values: Values, phrases: seq<string>) {
    forall phrase | phrase in phrases :: Contains(fold(spoken), fold(Filled(phrase, values)))
  }

  lemma {:induction false} NothingMissing(fold: string -> string, line: string, lang: string, key: TextKey, spoken: string,
                                          values: Values, phrases: seq<string>)
    ensures Missing(fold, line, lang, key, fold(spoken), values, phrases) == []
            <==> SaysEverything(fold, spoken, values, phrases)
    decreases |phrases|
  {
    if phrases != [] {
      var n := |phrases| - 1;
      NothingMissing(fold, line, lang, key, spoken, values, phrases[..n]);
      assert phrases == phrases[..n] + [phrases[n]];
    }
  }

  predicate ChecksShort(l: Line) {
    l.HasMenu() && l.defaultLanguage == "auto"
  }

  /** What is reported of one language of a line. */
  function LangReport(fold: string -> string, s: Settings, ts: Templates, l: Line, lang: string): seq<Problem> {
    if lang !in ts then [NoTemplate(l.id, lang)]
    else
      var values := LineValues(s, l);
      Missing(fold, l.id, lang, NoticeText, fold(Spoken(ts, values, lang, NoticeText)), values, ts[lang].transparency)
      + (if ChecksShort(l) then
           Missing(fold, l.id, lang, NoticeShort, fold(Spoken(ts, values, lang, NoticeShort)), values, ts[lang].transparency)
         else [])
  }

  /** The reports of several languages in a row. */
  function InARow(report: string -> seq<Problem>, langs: seq<string>): seq<Problem>
    decreases |langs|
  {
    if langs == [] then [] else InARow(report, langs[..|langs| - 1]) + report(langs[|langs| - 1])
  }

  lemma {:induction false} InARowEmpty(report: string -> seq<Problem>, langs: seq<string>)
    ensures InARow(report, langs) == [] <==> forall lang | lang in langs :: report(lang) == []
    decreases |langs|
  {
    if langs != [] {
      var n := |langs| - 1;
      InARowEmpty(report, langs[..n]);
      assert langs == langs[..n] + [langs[n]];
    }
  }

  function LineReport(fold: string -> string, s: Settings, ts: Templates, l: Line): seq<Problem> {
    InARow(lang => LangReport(fold, s, ts, l, lang), l.menu)
  }

  function Report(fold: string -> string, s: Settings, ts: Templates, lines: seq<Line>): seq<Problem>
    decreases |lines|
  {
    if lines == [] then []
    else
      var n := |lines| - 1;
      Report(fold, s, ts, lines[..n]) + LineReport(fold, s, ts, lines[n])
  }

  /** The innermost loop: the phrases of one text. */
  method PhraseProblems(fold: string -> string, line: string, lang: string, key: TextKey, spoken: string, values: Values,
                        phrases: seq<string>)
    returns (problems: seq<Problem>)
    ensures problems == Missing(fold, line, lang, key, spoken, values, phrases)
  {
    problems := [];
    for k := 0 to |phrases|
      invariant problems == Missing(fold, line, lang, key, spoken, values, phrases[..k])
    {
      var element := Fill(phrases[k], values);
      if !Contains(spoken, fold(element)) {
        problems := problems + [Lacks(line, lang, key, element)];
      }
      assert phrases[..k + 1][..k] == phrases[..k];
    }
    assert phrases[..|phrases|] == phrases;
  }

  /** `transparency_problems`. */
  method TransparencyProblems(fold: string -> string, s: Settings, ts: Templates, lines: seq<Line>)
    returns (problems: seq<Problem>)
    ensures problems == Report(fold, s, ts, lines)
  {
    problems := [];
    for k := 0 to |lines|
      invariant problems == Report(fold, s, ts, lines[..k])
    {
      var found := LineProblems(fold, s, ts, lines[k]);
      assert lines[..k + 1][..k] == lines[..k];
      problems := problems + found;
    }
    assert lines[..|lines|] == lines;
  }

  /** The loops over the languages and texts of one line. */
  method LineProblems(fold: string -> string, s: Settings, ts: Templates, l: Line) returns (problems: seq<Problem>)
    ensures problems == LineReport(fold, s, ts, l)
  {
    ghost var report := (lang: string) => LangReport(fold, s, ts, l, lang);
    problems := [];
    for k := 0 to |l.menu|
      invariant problems == InARow(report, l.menu[..k])
    {
      var found := LangProblems(fold, s, ts, l, l.menu[k]);
      assert l.menu[..k + 1][..k] == l.menu[..k];
      problems := problems + found;
    }
    assert l.menu[..|l.menu|] == l.menu;
  }

  /** One language: no template, or the phrases its texts lack. */
  method LangProblems(fold: string -> string, s: Settings, ts: Templates, l: Line, lang: string)
    returns (problems: seq<Problem>)
    ensures problems == LangReport(fold, s, ts, l, lang)
  {
    if lang !in ts {
      return [NoTemplate(l.id, lang)];
    }
    var values := LineValues(s, l);
    var keys := [NoticeText] + (if ChecksShort(l) then [NoticeShort] else []);
    ghost var first :=
      Missing(fold, l.id, lang, NoticeText, fold(Spoken(ts, values, lang, NoticeText)), values, ts[lang].transparency);
    problems := [];
    for j := 0 to |keys|
      invariant j == 0 ==> problems == []
      invariant j == 1 ==> problems == first
      invariant j == 2 ==> problems == LangReport(fold, s, ts, l, lang)
    {
      var spoken := Fill(ts[lang].text(keys[j]), values);
      var more := PhraseProblems(fold, l.id, lang, keys[j], fold(spoken), values, ts[lang].transparency);
      problems := problems + more;
    }
  }

  /** A line whose notices say what they must in every language of the menu. */
  predicate LineTransparent(fold: string -> string, s: Settings, ts: Templates, l: Line) {
    forall lang | lang in l.menu :: LangTransparent(fold, s, ts, l, lang)
  }

  predicate LangTransparent(fold: string -> string, s: Settings, ts: Templates, l: Line, lang: string) {
    var values := LineValues(s, l);
    && lang in ts
    && SaysEverything(fold, Spoken(ts, values, lang, NoticeText), values, ts[lang].transparency)
    && (ChecksShort(l) ==> SaysEverything(fold, Spoken(ts, values, lang, NoticeShort), values, ts[lang].transparency))
  }

  lemma LangReportEmpty(fold: string -> string, s: Settings, ts: Templates, l: Line, lang: string)
    ensures LangReport(fold, s, ts, l, lang) == [] <==> LangTransparent(fold, s, ts, l, lang)
  {
    if lang in ts {
      var values := LineValues(s, l);
      var t := ts[lang].transparency;
      NothingMissing(fold, l.id, lang, NoticeText, Spoken(ts, values, lang, NoticeText), values, t);
      NothingMissing(fold, l.id, lang, NoticeShort, Spoken(ts, values, lang, NoticeShort), values, t);
    }
  }

  lemma LineReportIsTransparency(fold: string -> string, s: Settings, ts: Templates, l: Line)
    ensures LineReport(fold, s, ts, l) == [] <==> LineTransparent(fold, s, ts, l)
  {
    var report := (lang: string) => LangReport(fold, s, ts, l, lang);
    InARowEmpty(report, l.menu);
    forall lang | lang in l.menu ensures report(lang) == [] <==> LangTransparent(fold, s, ts, l, lang) {
      LangReportEmpty(fold, s, ts, l, lang);
    }
    assert LineReport(fold, s, ts, l) == InARow(report, l.menu);
  }

  /** Nothing is reported exactly when every line's notices contain, in every language of its menu, every transparency
      phrase of that language; where the "auto" notice can be played, so do the short notices it is made of. */
  lemma {:induction false} ReportIsTransparency(fold: string -> string, s: Settings, ts: Templates, lines: seq<Line>)
    ensures Report(fold, s, ts, lines) == [] <==> forall l | l in lines :: LineTransparent(fold, s, ts, l)
    decreases |lines|
  {
    if lines != [] {
      var n := |lines| - 1;
      ReportIsTransparency(fold, s, ts, lines[..n]);
      LineReportIsTransparency(fold, s, ts, lines[n]);
      assert lines == lines[..n] + [lines[n]];
    }
  }

  /** What is wrong with a line: a language of its menu without a template, or a notice that does not say a phrase. */
  ghost predicate IsWrong(fold: string -> string, s: Settings, ts: Templates, l: Line, lang: string, p: Problem) {
    match p
    case NoTemplate(line, other) => line == l.id && other == lang && lang !in ts
    case Lacks(line, other, key, element) =>
      && line == l.id && other == lang && lang in ts && (key.NoticeText? || (key.NoticeShort? && ChecksShort(l)))
      && exists phrase :: && phrase in ts[lang].transparency && element == Filled(phrase, LineValues(s, l))
                          && !Contains(fold(Filled(ts[lang].text(key), LineValues(s, l))), fold(element))
  }

  lemma {:induction false} InMissing(fold: string -> string, line: string, lang: string, key: TextKey, spoken: string,
                                     values: Values, phrases: seq<string>, p: Problem)
    ensures p in Missing(fold, line, lang, key, spoken, values, phrases) <==>
              exists phrase :: && phrase in phrases && p == Lacks(line, lang, key, Filled(phrase, values))
                               && !Contains(spoken, fold(Filled(phrase, values)))
    decreases |phrases|
  {
    if phrases != [] {
      var n := |phrases| - 1;
      InMissing(fold, line, lang, key, spoken, values, phrases[..n], p);
      assert phrases[n] in phrases && forall phrase | phrase in phrases[..n] :: phrase in phrases;
      assert forall phrase | phrase in phrases :: phrase in phrases[..n] || phrase == phrases[n];
    }
  }

  lemma InLangReport(fold: string -> string, s: Settings, ts: Templates, l: Line, lang: string, p: Problem)
    ensures p in LangReport(fold, s, ts, l, lang) <==> IsWrong(fold, s, ts, l, lang, p)
  {
    if lang in ts {
      var values := LineValues(s, l);
      var t := ts[lang].transparency;
      InMissing(fold, l.id, lang, NoticeText, fold(Spoken(ts, values, lang, NoticeText)), values, t, p);
      InMissing(fold, l.id, lang, NoticeShort, fold(Spoken(ts, values, lang, NoticeShort)), values, t, p);
    }
  }

  lemma {:induction false} InRow(report: string -> seq<Problem>, langs: seq<string>, p: Problem)
    ensures p in InARow(report, langs) <==> exists lang :: lang in langs && p in report(lang)
    decreases |langs|
  {
    if langs != [] {
      var n := |langs| - 1;
      InRow(report, langs[..n], p);
      assert langs == langs[..n] + [langs[n]];
    }
  }

  lemma InLineReport(fold: string -> string, s: Settings, ts: Templates, l: Line, p: Problem)
    ensures p in LineReport(fold, s, ts, l) <==> exists lang :: lang in l.menu && IsWrong(fold, s, ts, l, lang, p)
  {
    var report := (lang: string) => LangReport(fold, s, ts, l, lang);
    InRow(report, l.menu, p);
    forall lang | lang in l.menu ensures p in report(lang) <==> IsWrong(fold, s, ts, l, lang, p) {
      InLangReport(fold, s, ts, l, lang, p);
    }
    assert LineReport(fold, s, ts, l) == InARow(report, l.menu);
  }

  /** The report says what is wrong, all of it and nothing else. */
  lemma {:induction false} ReportIsTrue(fold: string -> string, s: Settings, ts: Templates, lines: seq<Line>, p: Problem)
    ensures p in Report(fold, s, ts, lines) <==>
              exists l, lang :: l in lines && lang in l.menu && IsWrong(fold, s, ts, l, lang, p)
    decreases |lines|
  {
    if lines != [] {
      var n := |lines| - 1;
      ReportIsTrue(fold, s, ts, lines[..n], p);
      InLineReport(fold, s, ts, lines[n], p);
      assert lines == lines[..n] + [lines[n]];
    }
  }

  // ---- what the built prompts say ----

  /** A prompt of a line, as it is built: the notice and the thanks of a language say its texts; those for a caller who chose
      none say the short ones in every language of the menu, and what follows the tone in the last. */
  predicate SaysItsTexts(s: Settings, ts: Templates, l: Line, place: Place, p: Prompt)
    requires l.menu != [] && Covered(ts, l)
  {
    var says := (lang: string, key: TextKey) =>
      if lang in ts then Segment(lang, Filled(ts[lang].text(key), LineValues(s, l)), None) else Segment("", "", None);
    match place
    case OfMenu => p.name == l.id + "-menu" && p.kind.Menu? && p.sentenceMs.None?
    case OfNotice(lang) =>
      && p.name == l.id + "-notice-" + lang && p.sentenceMs == Some(s.sentenceMs)
      && (if lang != "auto" then p.kind.Notice? && p.segments == [says(lang, NoticeText)]
          else && p.kind.NoticeAuto? && |p.segments| == |l.menu| + 1
               && (forall i | 0 <= i < |l.menu| :: p.segments[i] == says(l.menu[i], NoticeShort))
               && p.segments[|l.menu|] == says(l.menu[|l.menu| - 1], AfterTone))
    case OfThanks(lang) =>
      && p.name == l.id + "-thanks-" + lang && p.sentenceMs.None?
      && (if lang != "auto" then p.kind.Thanks? && p.segments == [says(lang, ThanksText)]
          else && p.kind.ThanksAuto? && |p.segments| == |l.menu|
               && forall i | 0 <= i < |l.menu| :: p.segments[i] == says(l.menu[i], ThanksShort))
  }

  lemma PromptSays(s: Settings, ts: Templates, lines: seq<Line>, l: Line, place: Place) returns (p: Prompt)
    requires AllCovered(ts, lines) && l in lines && place in Places(l)
    ensures p in AllPrompts(s, ts, lines) && p.line == l.id && SaysItsTexts(s, ts, l, place, p)
  {
    BuiltForEveryLine(s, ts, lines, l, place);
    p := PromptFor(s, ts, l, place);
    var values := LineValues(s, l);
    if !place.OfMenu? && place.lang == "auto" {
      var short := if place.OfNotice? then NoticeShort else ThanksShort;
      assert forall i | 0 <= i < |l.menu| :: p.segments[i] == InEach(ts, values, l.menu, short)[i];
    }
  }
}
