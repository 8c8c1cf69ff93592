/** The transcript delimiter of the summary prompt: `build_prompt` of aivoicemail/llm/schema.py. */
module SummaryPrompt {
  import opened Text

  const CLOSE := "</transcript>"
  const BROKEN := "</ transcript>"

  /** `transcript.replace("</transcript>", "</ transcript>")`. */
  function Safe(transcript: string): string {
    Replace(transcript, CLOSE, BROKEN)
  }

  function UserPrompt(transcript: string): string {
    "<transcript>\n" + Safe(transcript) + "\n" + CLOSE
  }

  lemma InsertionStartsTag(s: string)
    ensures StartsWith(s, CLOSE) ==> Safe(s) != "" && Safe(s)[0] == '<'
  {
  }

  /** `word` (which does not start a tag) at the start of the cleaned text was at the start of the text. */
  lemma {:induction false} SafeKeepsStart(s: string, word: string)
    requires StartsWith(Safe(s), word) && '<' !in word
    ensures StartsWith(s, word)
    decreases |s|
  {
    if word != "" {
      InsertionStartsTag(s);
      assert word[0] in word && Safe(s)[0] != '<';
      if !StartsWith(s, CLOSE) {
        assert Safe(s) == [s[0]] + Safe(s[1..]);
        assert Safe(s)[1..] == Safe(s[1..]);
        SafeKeepsStart(s[1..], word[1..]);
        assert word == [word[0]] + word[1..] && s == [s[0]] + s[1..];
      }
    }
  }

  lemma NoNewStart(s: string)
    requires s != ""
    ensures StartsWith([s[0]] + Safe(s[1..]), CLOSE) ==> StartsWith(s, CLOSE)
  {
    var t := [s[0]] + Safe(s[1..]);
    if StartsWith(t, CLOSE) {
      assert t[1..] == Safe(s[1..]) && CLOSE[1..] <= t[1..];
      SafeKeepsStart(s[1..], CLOSE[1..]);
      assert t[0] == CLOSE[0];
      assert s == [s[0]] + s[1..] && CLOSE == [CLOSE[0]] + CLOSE[1..];
    }
  }

  /** Replacing creates no new delimiter, inside an insertion or across its edges. */
  lemma {:induction false} SafeIsClean(s: string, i: nat)
    requires i <= |Safe(s)|
    ensures !StartsWith(Safe(s)[i..], CLOSE)
    decreases |s|
  {
    if s == "" {
    } else if StartsWith(s, CLOSE) {
      var rest := Safe(s[|CLOSE|..]);
      assert Safe(s) == BROKEN + rest;
      if i < |BROKEN| {
        assert Safe(s)[i..] == BROKEN[i..] + rest;
        BrokenIsClean(i, rest);
      } else {
        SafeIsClean(s[|CLOSE|..], i - |BROKEN|);
        assert Safe(s)[i..] == rest[i - |BROKEN|..];
      }
    } else {
      assert Safe(s) == [s[0]] + Safe(s[1..]);
      if i > 0 {
        SafeIsClean(s[1..], i - 1);
        assert Safe(s)[i..] == Safe(s[1..])[i - 1..];
      } else {
        NoNewStart(s);
        assert Safe(s)[0..] == Safe(s);
      }
    }
  }

  lemma BrokenIsClean(i: nat, rest: string)
    requires i < |BROKEN|
    ensures !StartsWith(BROKEN[i..] + rest, CLOSE)
  {
    var t := BROKEN[i..] + rest;
    assert t[0] == BROKEN[i];
    if i == 0 {
      assert t[2] == ' ' && CLOSE[2] == 't';
    }
  }

  /** A transcript without the delimiter reaches the model as it is. */
  lemma {:induction false} CleanTextIsKept(s: string)
    requires forall i | 0 <= i <= |s| :: !StartsWith(s[i..], CLOSE)
    ensures Safe(s) == s
    decreases |s|
  {
    if s != "" {
      assert s[0..] == s;
      forall i | 0 <= i <= |s[1..]| ensures !StartsWith(s[1..][i..], CLOSE) {
        assert s[1..][i..] == s[i + 1..];
      }
      CleanTextIsKept(s[1..]);
      assert s == [s[0]] + s[1..];
    }
  }

  /** A text without its spaces. */
  function Squeezed(s: string): string {
    if s == "" then "" else (if s[0] == ' ' then "" else [s[0]]) + Squeezed(s[1..])
  }

  lemma {:induction false} SqueezedAppend(a: string, b: string)
    ensures Squeezed(a + b) == Squeezed(a) + Squeezed(b)
    decreases |a|
  {
    if a == "" {
      assert a + b == b;
    } else {
      assert (a + b)[1..] == a[1..] + b;
      SqueezedAppend(a[1..], b);
    }
  }

  lemma Spaced(a: string, b: string)
    ensures Squeezed(a + " " + b) == Squeezed(a + b)
  {
    SqueezedAppend(a + " ", b);
    SqueezedAppend(a, " ");
    SqueezedAppend(a, b);
    assert Squeezed(" ") == Squeezed("");
  }

  lemma Tags() returns (a: string, b: string)
    ensures CLOSE == a + b && BROKEN == a + " " + b
  {
    a, b := CLOSE[..2], CLOSE[2..];
    assert BROKEN[..2] == a && BROKEN[2] == ' ' && BROKEN[3..] == b;
  }

  lemma TagsSqueeze()
    ensures Squeezed(BROKEN) == Squeezed(CLOSE)
  {
    var a, b := Tags();
    Spaced(a, b);
  }

  /** Cleaning a transcript only ever adds spaces: no word is lost, changed or moved. */
  lemma {:induction false} OnlySpacesAreAdded(s: string)
    ensures Squeezed(Safe(s)) == Squeezed(s)
    decreases |s|
  {
    if s == "" {
    } else if StartsWith(s, CLOSE) {
      var rest := s[|CLOSE|..];
      OnlySpacesAreAdded(rest);
      TagsSqueeze();
      SafeTag(s);
      Prefixed(CLOSE, BROKEN, rest, Safe(rest));
    } else {
      OnlySpacesAreAdded(s[1..]);
      assert Safe(s) == [s[0]] + Safe(s[1..]);
    }
  }

  lemma SafeTag(s: string)
    requires StartsWith(s, CLOSE)
    ensures s == CLOSE + s[|CLOSE|..] && Safe(s) == BROKEN + Safe(s[|CLOSE|..])
  {
  }

  lemma Prefixed(a: string, b: string, x: string, y: string)
    requires Squeezed(a) == Squeezed(b) && Squeezed(x) == Squeezed(y)
    ensures Squeezed(a + x) == Squeezed(b + y)
  {
    SqueezedAppend(a, x);
    SqueezedAppend(b, y);
  }

  /** The transcript stands between the two tags: as it is if it does not contain the closing one, else with spaces in
      it. */
  lemma TranscriptStands(transcript: string) returns (safe: string)
    ensures UserPrompt(transcript) == "<transcript>\n" + safe + "\n" + "</transcript>"
    ensures Squeezed(safe) == Squeezed(transcript)
    ensures (forall i | 0 <= i <= |transcript| :: !StartsWith(transcript[i..], "</transcript>")) ==> safe == transcript
  {
    safe := Safe(transcript);
    OnlySpacesAreAdded(transcript);
    if forall i | 0 <= i <= |transcript| :: !StartsWith(transcript[i..], CLOSE) {
      CleanTextIsKept(transcript);
    }
  }

  lemma Differs(t: string, k: nat)
    requires k < |t| && k < |CLOSE| && t[k] != CLOSE[k]
    ensures !StartsWith(t, CLOSE)
  {
  }

  /** Whatever the caller said, the user prompt contains the closing delimiter exactly once, at its very end. */
  lemma DelimiterOnlyAtEnd(transcript: string, i: nat)
    requires i <= |UserPrompt(transcript)|
    ensures StartsWith(UserPrompt(transcript)[i..], "</transcript>") <==> i == |UserPrompt(transcript)| - 13
  {
    var head := "<transcript>\n";
    var safe := Safe(transcript);
    var p := UserPrompt(transcript);
    var t := p[i..];
    var tail := |head| + |safe|;
    assert p[|head| - 1] == '\n' && p[tail] == '\n';
    assert forall k | 0 <= k < |CLOSE| :: CLOSE[k] != '\n';
    if i < |head| {
      Differs(t, |head| - 1 - i);
    } else if i <= tail {
      if tail - i < |CLOSE| {
        Differs(t, tail - i);
      } else {
        var j := i - |head|;
        SafeIsClean(transcript, j);
        assert t[..|CLOSE|] == safe[j..][..|CLOSE|];
      }
    }
    assert p[|p| - |CLOSE|..] == CLOSE;
  }
}
