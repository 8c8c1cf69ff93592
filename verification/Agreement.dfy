/**
  The dialplan (aivoicemail/generate.py) and the prompts (aivoicemail/prompts.py) agree: calls play exactly the prompts
  that are recorded, and every recording is announced by a notice that says what it must.
*/
module Agreement {
  import opened Common
  import opened Text
  import opened Config
  import opened Dialplan
  import opened Generate
  import opened CallFlow
  import opened Prompts

  /** All that a call to the line plays, from answer to hangup. */
  function PlayedOn(l: Line, key: Key): seq<string>
    requires l.menu != []
  {
    Heard(l, key) + [ThanksName(l.id, Chosen(l, key))]
  }

  /** The prompts of the chosen language are in the line's list. */
  lemma ChosenIsListed(l: Line, key: Key)
    requires LineOk(l)
    ensures OfNotice(Chosen(l, key)) in Places(l) && OfThanks(Chosen(l, key)) in Places(l)
    ensures l.HasMenu() ==> OfMenu in Places(l)
  {
  }

  /** The key that chooses the i-th language. */
  lemma KeyForEntry(l: Line, i: nat)
    requires l.HasMenu() && i < |l.menu| <= 9
    ensures ValidKey(During(Digit(i + 1))) && Chosen(l, During(Digit(i + 1))) == l.menu[i]
  {
  }

  lemma PlayedOnHas(l: Line, key: Key)
    requires l.menu != []
    ensures NoticeName(l.id, Chosen(l, key)) in PlayedOn(l, key) && ThanksName(l.id, Chosen(l, key)) in PlayedOn(l, key)
    ensures l.HasMenu() ==> MenuName(l.id) in PlayedOn(l, key)
  {
  }

  lemma PlacesOf(l: Line, p: Place)
    requires LineOk(l) && p in Places(l)
    ensures if p.OfMenu? then l.HasMenu() else p.lang in l.menu || (l.HasMenu() && p.lang == "auto" == l.defaultLanguage)
  {
  }

  /** Some key press, or none, plays the prompt at a place of the line's list. */
  lemma PlaceIsPlayed(l: Line, p: Place) returns (key: Key)
    requires LineOk(l) && p in Places(l)
    ensures ValidKey(key) && NameOf(l.id, p) in PlayedOn(l, key)
  {
    PlacesOf(l, p);
    key := Silent;
    if !p.OfMenu? {
      if l.HasMenu() && p.lang in l.menu {
        var i :| 0 <= i < |l.menu| && l.menu[i] == p.lang;
        KeyForEntry(l, i);
        key := During(Digit(i + 1));
      }
      assert Chosen(l, key) == p.lang;
    }
    PlayedOnHas(l, key);
  }

  /** What one call does: it reaches a line, or nothing. */
  lemma OneCall(lines: seq<Line>, call: Incoming, key: Key, fuel: nat) returns (l: Option<Line>)
    requires Accepted(lines) && ValidKey(key) && fuel >= |lines| + ENOUGH
    ensures l.Some? ==> l.value in lines && LineOk(l.value)
    ensures var e := Call(Plan(lines), call, key, fuel);
      e.Ended? &&
      match l
      case None => e.ch.takes == [] && e.ch.played == []
      case Some(m) =>
        && e.ch.takes == [Take(m.id, m.did, Chosen(m, key), Heard(m, key), call.unique)]
        && e.ch.played == PlayedOn(m, key)
  {
    if m :| m in lines && Calls(call.number, m) {
      l := Some(m);
      CallReachesItsLine(lines, call, key, m, fuel);
    } else {
      l := None;
      OtherCallsAreRejected(lines, call, key, fuel);
    }
  }

  lemma PlayedOnIsListed(lines: seq<Line>, l: Line, key: Key, name: string)
    requires (forall l | l in lines :: l.menu != []) && l in lines && LineOk(l) && name in PlayedOn(l, key)
    ensures name in PromptNames(lines)
  {
    ChosenIsListed(l, key);
    var lang := Chosen(l, key);
    var p := if name == NoticeName(l.id, lang) then OfNotice(lang)
             else if name == ThanksName(l.id, lang) then OfThanks(lang) else OfMenu;
    var i :| 0 <= i < |Places(l)| && Places(l)[i] == p;
    assert Names(l)[i] == NameOf(l.id, p) == name;
    NamesAreListed(lines, l, name);
  }

  /** Every prompt that any call plays is in the prompt list. */
  lemma PlayedIsListed(lines: seq<Line>, call: Incoming, key: Key, fuel: nat)
    requires Accepted(lines) && ValidKey(key) && fuel >= |lines| + ENOUGH
    ensures var e := Call(Plan(lines), call, key, fuel);
      e.Ended? && forall name | name in e.ch.played :: name in PromptNames(lines)
  {
    var l := OneCall(lines, call, key, fuel);
    if l.Some? {
      forall name | name in PlayedOn(l.value, key) ensures name in PromptNames(lines) {
        PlayedOnIsListed(lines, l.value, key, name);
      }
    }
  }

  /** Every prompt of the list is played by some call. */
  lemma ListedIsPlayed(lines: seq<Line>, name: string, fuel: nat) returns (call: Incoming, key: Key)
    requires Accepted(lines) && fuel >= |lines| + ENOUGH
    requires name in PromptNames(lines)
    ensures ValidKey(key) && Plays(Call(Plan(lines), call, key, fuel), name)
  {
    var l := NameOfSomeLine(lines, name);
    var p := NamedPlace(l, name);
    key := PlaceIsPlayed(l, p);
    call := Incoming(l.did, "", "", "");
    CallReachesItsLine(lines, call, key, l, fuel);
  }

  /** Some call plays the prompt. */
  ghost predicate IsPlayed(lines: seq<Line>, name: string, fuel: nat)
    requires forall l | l in lines :: l.menu != []
  {
    exists call, key :: ValidKey(key) && Plays(Call(Plan(lines), call, key, fuel), name)
  }

  predicate Plays(e: Ending, name: string) {
    e.Ended? && name in e.ch.played
  }

  /** The prompts that calls play are exactly the prompts of the list. */
  lemma DialplanPlaysThePromptList(lines: seq<Line>, name: string, fuel: nat)
    requires Accepted(lines) && fuel >= |lines| + ENOUGH
    ensures name in PromptNames(lines) <==> IsPlayed(lines, name, fuel)
  {
    if name in PromptNames(lines) {
      var call, key := ListedIsPlayed(lines, name, fuel);
    } else if IsPlayed(lines, name, fuel) {
      SomeCallPlays(lines, name, fuel);
    }
  }

  lemma SomeCallPlays(lines: seq<Line>, name: string, fuel: nat)
    requires Accepted(lines) && fuel >= |lines| + ENOUGH && IsPlayed(lines, name, fuel)
    ensures name in PromptNames(lines)
  {
    var call, key :| ValidKey(key) && Plays(Call(Plan(lines), call, key, fuel), name);
    PlayedIsListed(lines, call, key, fuel);
  }

  // ---- the menu says the keys ----

  /** What the menu says of a key is what the key does: the option in its language, with this character for its digit, and
      every call in which it is pressed, while the menu plays or after it, is recorded in that language. */
  ghost predicate SpeaksKey(lines: seq<Line>, s: Settings, ts: Templates, l: Line, seg: Segment, lang: string, c: char)
    requires (forall m | m in lines :: m.menu != []) && lang in ts
  {
    && seg.lang == lang
    && seg.text == Replace(Filled(ts[lang].text(MenuOption), LineValues(s, l)), "{digit}", [c])
    && forall call: Incoming, key, fuel |
         Calls(call.number, l) && key in {During(c), AfterMenu(c)} && fuel >= |lines| + ENOUGH ::
         RecordedIn(Call(Plan(lines), call, key, fuel), lang)
  }

  predicate RecordedIn(e: Ending, lang: string) {
    e.Ended? && |e.ch.takes| == 1 && e.ch.takes[0].lang == lang
  }

  /** Segment i + 1 of a menu prompt is about language i. */
  ghost predicate OptionIs(lines: seq<Line>, s: Settings, ts: Templates, l: Line, p: Prompt, i: nat)
    requires (forall m | m in lines :: m.menu != []) && i < |l.menu| <= 9
  {
    && i + 1 < |p.segments| && l.menu[i] in ts
    && p.segments[i + 1].breakMs == Some(if i == |l.menu| - 1 then 200 else 450)
    && SpeaksKey(lines, s, ts, l, p.segments[i + 1], l.menu[i], Digit(i + 1))
  }

  /** The menu prompt of a line, as it is built: the company's name, then each language of the menu with the key that
      records in it; pauses of 350 ms, 450 ms between the options and 200 ms at the end. */
  lemma MenuSpeaksTheKeys(s: Settings, ts: Templates, lines: seq<Line>, l: Line) returns (p: Prompt)
    requires Accepted(lines) && l in lines && l.HasMenu() && AllCovered(ts, lines)
    ensures p in AllPrompts(s, ts, lines) && p.name == l.id + "-menu" && p.kind.Menu? && |p.segments| == |l.menu| + 1
    ensures |l.menu| <= 9
    ensures p.segments[0] == Segment(l.menu[0], s.company + ".", Some(350))
    ensures forall i | 0 <= i < |l.menu| :: OptionIs(lines, s, ts, l, p, i)
  {
    assert LineOk(l);
    BuiltForEveryLine(s, ts, lines, l, OfMenu);
    p := PromptFor(s, ts, l, OfMenu);
    forall i | 0 <= i < |l.menu| ensures OptionIs(lines, s, ts, l, p, i) {
      OptionAt(ts, LineValues(s, l), l, |l.menu|, i);
      assert p.segments[i + 1] == Options(ts, LineValues(s, l), l, |l.menu|)[i];
      OptionSpeaksKey(lines, s, ts, l, i);
    }
  }

  lemma {:induction false} OptionAt(ts: Templates, values: Values, l: Line, n: nat, i: nat)
    requires i < n <= |l.menu| && Covered(ts, l)
    ensures Options(ts, values, l, n)[i] == OptionSegment(ts, values, l, i)
    decreases n
  {
    if i < n - 1 {
      OptionAt(ts, values, l, n - 1, i);
    }
  }

  lemma OptionSpeaksKey(lines: seq<Line>, s: Settings, ts: Templates, l: Line, i: nat)
    requires Accepted(lines) && l in lines && l.HasMenu() && i < |l.menu| && l.menu[i] in ts
    ensures SpeaksKey(lines, s, ts, l, OptionSegment(ts, LineValues(s, l), l, i), l.menu[i], Digit(i + 1))
  {
    var c := Digit(i + 1);
    assert LineOk(l);
    KeyName(i + 1);
    FilledOne(Filled(ts[l.menu[i]].text(MenuOption), LineValues(s, l)), "digit", Str(i + 1));
    assert "{" + "digit" + "}" == "{digit}";
    forall call: Incoming, key, fuel | Calls(call.number, l) && key in {During(c), AfterMenu(c)} && fuel >= |lines| + ENOUGH
      ensures RecordedIn(Call(Plan(lines), call, key, fuel), l.menu[i])
    {
      KeyForEntry(l, i);
      assert Chosen(l, key) == l.menu[i] && ValidKey(key);
      CallReachesItsLine(lines, call, key, l, fuel);
    }
  }

  // ---- transparency ----

  /** Some segment in this language says every transparency phrase of the language. */
  predicate Tells(fold: string -> string, s: Settings, ts: Templates, l: Line, segments: seq<Segment>, lang: string) {
    lang in ts && exists seg | seg in segments ::
      seg.lang == lang && SaysEverything(fold, seg.text, LineValues(s, l), ts[lang].transparency)
  }

  /** Before the recording the caller heard this prompt, and it says everything: in each language it speaks, in the
      language of the recording, and where that is left open in every language of the menu. */
  predicate Announces(fold: string -> string, s: Settings, ts: Templates, l: Line, p: Prompt, t: Take) {
    && p.line == l.id == t.line && p.name in t.heard && (p.kind.Notice? || p.kind.NoticeAuto?)
    && (forall seg | seg in p.segments :: Tells(fold, s, ts, l, p.segments, seg.lang))
    && (if t.lang == "auto" then forall m | m in l.menu :: Tells(fold, s, ts, l, p.segments, m)
        else Tells(fold, s, ts, l, p.segments, t.lang))
  }

  /** One of the prompts that are built announces the recording. */
  ghost predicate Announced(fold: string -> string, s: Settings, ts: Templates, lines: seq<Line>, t: Take)
    requires AllCovered(ts, lines)
  {
    exists l, p :: l in lines && p in AllPrompts(s, ts, lines) && Announces(fold, s, ts, l, p, t)
  }

  lemma AutoNoticeTells(fold: string -> string, s: Settings, ts: Templates, l: Line)
    requires LineOk(l) && LineTransparent(fold, s, ts, l) && ChecksShort(l)
    ensures Sayable(ts, l, OfNotice("auto"))
    ensures var segs := Segments(s, ts, l, OfNotice("auto"));
      && (forall m | m in l.menu :: Tells(fold, s, ts, l, segs, m))
      && forall seg | seg in segs :: seg.lang in l.menu
  {
    var segs := Segments(s, ts, l, OfNotice("auto"));
    forall i | 0 <= i < |l.menu| ensures Tells(fold, s, ts, l, segs, l.menu[i]) {
      assert LangTransparent(fold, s, ts, l, l.menu[i]);
      assert segs[i] == InEach(ts, LineValues(s, l), l.menu, NoticeShort)[i];
      assert segs[i] in segs;
    }
    forall i | 0 <= i < |segs| ensures segs[i].lang in l.menu {
      if i < |l.menu| {
        assert segs[i] == InEach(ts, LineValues(s, l), l.menu, NoticeShort)[i];
      }
    }
  }

  lemma NoticeTells(fold: string -> string, s: Settings, ts: Templates, l: Line, lang: string)
    requires LineOk(l) && LineTransparent(fold, s, ts, l) && lang in l.menu
    ensures Sayable(ts, l, OfNotice(lang)) && lang != "auto"
    ensures var segs := Segments(s, ts, l, OfNotice(lang));
      |segs| == 1 && segs[0].lang == lang && Tells(fold, s, ts, l, segs, lang)
  {
  }

  /** The notice of a call announces its recording. */
  lemma NoticeAnnounces(fold: string -> string, s: Settings, ts: Templates, l: Line, key: Key, file: string)
    requires LineOk(l) && LineTransparent(fold, s, ts, l)
    ensures var place := OfNotice(Chosen(l, key));
      Sayable(ts, l, place) &&
      Announces(fold, s, ts, l, PromptFor(s, ts, l, place), Take(l.id, l.did, Chosen(l, key), Heard(l, key), file))
  {
    var lang := Chosen(l, key);
    assert Heard(l, key)[|Heard(l, key)| - 1] == NoticeName(l.id, lang);
    assert lang in l.menu ==> LangOk(lang);
    if lang == "auto" {
      AutoNoticeTells(fold, s, ts, l);
    } else {
      NoticeTells(fold, s, ts, l, lang);
    }
  }

  lemma NoticeIsBuilt(fold: string -> string, s: Settings, ts: Templates, lines: seq<Line>, l: Line, key: Key,
                      file: string)
    requires AllCovered(ts, lines) && l in lines && LineOk(l) && LineTransparent(fold, s, ts, l)
    ensures Announced(fold, s, ts, lines, Take(l.id, l.did, Chosen(l, key), Heard(l, key), file))
  {
    NoticeAnnounces(fold, s, ts, l, key, file);
    ChosenIsListed(l, key);
    BuiltForEveryLine(s, ts, lines, l, OfNotice(Chosen(l, key)));
  }

  /** Transparency end to end: when the check reports nothing, every recording of every call is announced by one of the
      prompts that are built. */
  lemma EveryRecordingIsAnnounced(fold: string -> string, s: Settings, ts: Templates, lines: seq<Line>, call: Incoming,
                                  key: Key, fuel: nat)
    requires Accepted(lines) && ValidKey(key) && fuel >= |lines| + ENOUGH && Report(fold, s, ts, lines) == []
    ensures AllCovered(ts, lines)
    ensures var e := Call(Plan(lines), call, key, fuel);
      e.Ended? && forall t | t in e.ch.takes :: Announced(fold, s, ts, lines, t)
  {
    ReportIsTransparency(fold, s, ts, lines);
    var reached := OneCall(lines, call, key, fuel);
    TakesAnnounced(fold, s, ts, lines, reached, key, call.unique, Call(Plan(lines), call, key, fuel).ch.takes);
  }

  /** What a call that reached this line, or none, recorded. */
  lemma TakesAnnounced(fold: string -> string, s: Settings, ts: Templates, lines: seq<Line>, l: Option<Line>, key: Key,
                       file: string, takes: seq<Take>)
    requires AllCovered(ts, lines) && forall m | m in lines :: LineTransparent(fold, s, ts, m)
    requires l.Some? ==> l.value in lines && LineOk(l.value)
    requires match l
             case None => takes == []
             case Some(m) => takes == [Take(m.id, m.did, Chosen(m, key), Heard(m, key), file)]
    ensures forall t | t in takes :: Announced(fold, s, ts, lines, t)
  {
    if l.Some? {
      NoticeIsBuilt(fold, s, ts, lines, l.value, key, file);
    }
  }
}
