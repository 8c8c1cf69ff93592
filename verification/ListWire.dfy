/**
  Listing the spool and the text `vm-spool list` prints: aivoicemail/spool/vm_spool.py, spool/ssh.py, spool/local.py.
*/
module ListWire {
  import opened Common
  import opened Text
  import opened Config

  type Id = string

  datatype Item = Item(id: Id, mtime: int, hasAudio: bool)

  /** One directory entry; `regular` is `is_file(follow_symlinks=False)`. */
  datatype Entry = Entry(name: string, regular: bool, mtime: real)

  predicate IsHex(c: char) {
    '0' <= c <= '9' || 'a' <= c <= 'f'
  }

  /** ID_RE: a lower-case uuid. */
  predicate IdOk(s: string) {
    |s| == 36 && forall i | 0 <= i < 36 :: if i in {8, 13, 18, 23} then s[i] == '-' else IsHex(s[i])
  }

  /** `int(mtime)` rounds towards zero. */
  function Truncate(r: real): (t: int)
    ensures if r >= 0.0 then t as real <= r < t as real + 1.0 else t as real - 1.0 < r <= t as real
  {
    if r >= 0.0 then r.Floor else -((-r).Floor)
  }

  predicate UniqueNames(dir: seq<Entry>) {
    forall i, j | 0 <= i < j < |dir| :: dir[i].name != dir[j].name
  }

  predicate HasRegular(dir: seq<Entry>, name: string) {
    exists e | e in dir :: e.name == name && e.regular
  }

  /** `e` is the metadata of the spool item `id`. */
  predicate IsMeta(e: Entry, id: Id) {
    IdOk(id) && e.name == id + ".json" && e.regular
  }

  predicate LexLess(a: string, b: string) {
    if b == "" then false else if a == "" then true else a[0] < b[0] || (a[0] == b[0] && LexLess(a[1..], b[1..]))
  }

  /** Tuple order on (mtime, id); ids are unique, so the third component never decides. */
  predicate Older(a: Item, b: Item) {
    a.mtime < b.mtime || (a.mtime == b.mtime && LexLess(a.id, b.id))
  }

  predicate OldestFirst(items: seq<Item>) {
    forall i, j | 0 <= i < j < |items| :: Older(items[i], items[j])
  }

  lemma {:induction false} LexTrichotomy(a: string, b: string)
    ensures a == b || LexLess(a, b) || LexLess(b, a)
    decreases |a|
  {
    if a != "" && b != "" && a[0] == b[0] {
      LexTrichotomy(a[1..], b[1..]);
      assert a == [a[0]] + a[1..] && b == [b[0]] + b[1..];
    }
  }

  lemma {:induction false} LexTransitive(a: string, b: string, c: string)
    requires LexLess(a, b) && LexLess(b, c)
    ensures LexLess(a, c)
    decreases |a|
  {
    if a != "" && a[0] == b[0] == c[0] {
      LexTransitive(a[1..], b[1..], c[1..]);
    }
  }

  lemma {:induction false} LexIrreflexive(a: string)
    ensures !LexLess(a, a)
    decreases |a|
  {
    if a != "" {
      LexIrreflexive(a[1..]);
    }
  }

  function Insert(x: Item, sorted: seq<Item>): seq<Item> {
    if sorted == [] || Older(x, sorted[0]) then [x] + sorted else [sorted[0]] + Insert(x, sorted[1..])
  }

  /** `sorted(items)`. */
  function Sort(items: seq<Item>): seq<Item> {
    if items == [] then [] else Insert(items[0], Sort(items[1..]))
  }

  lemma {:induction false} InsertKeeps(x: Item, s: seq<Item>)
    requires OldestFirst(s) && forall y | y in s :: y.id != x.id
    ensures var r := Insert(x, s);
      && OldestFirst(r) && |r| == |s| + 1 && forall y :: y in r <==> y == x || y in s
    decreases |s|
  {
    if s == [] {
    } else if Older(x, s[0]) {
      forall j | 0 <= j < |s| ensures Older(x, s[j]) {
        if j > 0 && x.mtime == s[0].mtime == s[j].mtime {
          LexTransitive(x.id, s[0].id, s[j].id);
        }
      }
    } else {
      LexTrichotomy(x.id, s[0].id);
      assert s[0] in s;
      InsertKeeps(x, s[1..]);
      var r := Insert(x, s[1..]);
      forall j | 0 <= j < |r| ensures Older(s[0], r[j]) {
        assert r[j] in r;
        if r[j] in s[1..] {
          var k :| 0 <= k < |s[1..]| && s[1..][k] == r[j];
          assert Older(s[0], s[k + 1]);
        }
      }
      assert s == [s[0]] + s[1..];
    }
  }

  predicate UniqueIds(items: seq<Item>) {
    forall i, j | 0 <= i < j < |items| :: items[i].id != items[j].id
  }

  lemma {:induction false} SortKeeps(items: seq<Item>)
    requires UniqueIds(items)
    ensures OldestFirst(Sort(items)) && |Sort(items)| == |items| && forall y :: y in Sort(items) <==> y in items
    decreases |items|
  {
    if items != [] {
      SortKeeps(items[1..]);
      InsertKeeps(items[0], Sort(items[1..]));
      assert items == [items[0]] + items[1..];
    }
  }

  /** Whether `i` describes an item of the directory. */
  predicate Describes(i: Item, dir: seq<Entry>) {
    && (exists e | e in dir :: IsMeta(e, i.id) && i.mtime == Truncate(e.mtime))
    && i.hasAudio == HasRegular(dir, i.id + ".wav")
  }

  /** The items of the directory, each once, oldest first. */
  ghost predicate IsListing(items: seq<Item>, dir: seq<Entry>) {
    (forall i :: i in items <==> Describes(i, dir)) && OldestFirst(items) && UniqueIds(items)
  }

  /** `list_ready`: the items of the directory, each once, oldest first. */
  method ListReady(dir: seq<Entry>) returns (items: seq<Item>)
    requires UniqueNames(dir)
    ensures IsListing(items, dir)
    ensures forall i, j | 0 <= i < j < |items| :: items[i].mtime <= items[j].mtime
  {
    items := [];
    for n := 0 to |dir|
      invariant forall i :: i in items <==>
                  (exists k | 0 <= k < n :: IsMeta(dir[k], i.id) && i.mtime == Truncate(dir[k].mtime))
                  && i.hasAudio == HasRegular(dir, i.id + ".wav")
      invariant UniqueIds(items)
    {
      var name := dir[n].name;
      var id := if |name| >= 5 && name[|name| - 5..] == ".json" then name[..|name| - 5] else "";
      assert IdOk(id) ==> name == id + ".json";
      if IdOk(id) && dir[n].regular {
        var item := Item(id, Truncate(dir[n].mtime), HasRegular(dir, id + ".wav"));
        forall i | i in items ensures i.id != id {
          var k :| 0 <= k < n && IsMeta(dir[k], i.id);
          assert dir[k].name != dir[n].name;
        }
        items := items + [item];
      } else {
        forall i: Id ensures !IsMeta(dir[n], i) {
        }
      }
    }
    SortKeeps(items);
    forall i ensures i in items <==> Describes(i, dir) {
      if Describes(i, dir) {
        var e :| e in dir && IsMeta(e, i.id) && i.mtime == Truncate(e.mtime);
        var k :| 0 <= k < |dir| && dir[k] == e;
      }
    }
    ghost var listed := items;
    items := Sort(items);
    forall i, j | 0 <= i < j < |items| ensures items[i].id != items[j].id {
      LexIrreflexive(items[i].id);
      assert items[i] in listed && items[j] in listed && Older(items[i], items[j]);
    }
  }

  // ---- the wire format ----

  function PrintLine(i: Item): string {
    i.id + " " + Str(i.mtime) + " " + (if i.hasAudio then "1" else "0")
  }

  /** The standard output of `vm-spool list`. */
  function Print(items: seq<Item>): string {
    if items == [] then "" else PrintLine(items[0]) + "\n" + Print(items[1..])
  }

  /** `cmd_list` for a readable directory. */
  method CmdList(dir: seq<Entry>) returns (text: string)
    requires UniqueNames(dir)
    ensures exists items :: IsListing(items, dir) && text == Print(items)
  {
    var listed := ListReady(dir);
    text := "";
    for n := 0 to |listed|
      invariant text + Print(listed[n..]) == Print(listed)
    {
      PrintNext(listed, n);
      Regroup(text, PrintLine(listed[n]) + "\n", Print(listed[n + 1..]));
      text := text + (PrintLine(listed[n]) + "\n");
    }
    assert text == Print(listed);
  }

  lemma Regroup(a: string, b: string, c: string)
    ensures a + b + c == a + (b + c)
  {
  }

  lemma PrintNext(items: seq<Item>, n: nat)
    requires n < |items|
    ensures Print(items[n..]) == PrintLine(items[n]) + "\n" + Print(items[n + 1..])
  {
    assert items[n..][1..] == items[n + 1..];
  }

  datatype Failure = SpoolError(line: string)

  /** One line of the listing; anything but "<uuid> <digits> <0 or 1>" is an error. */
  function ParseLine(line: string): Result<Item, Failure> {
    var parts := Split(line);
    if |parts| != 3 || !IdOk(parts[0]) || !AllDigits(parts[1]) || parts[2] !in {"0", "1"}
    then Result.Failure(SpoolError(line))
    else Success(Item(parts[0], NumberOf(parts[1]), parts[2] == "1"))
  }

  /** `items` reads the lines one by one, and none of them is refused. */
  predicate Reads(lines: seq<string>, items: seq<Item>) {
    |lines| == |items| && forall i | 0 <= i < |lines| :: ParseLine(lines[i]) == Success(items[i])
  }

  /** `parse_list`: every line in order, or an error naming the first refused line. */
  method ParseList(text: string) returns (r: Result<seq<Item>, Failure>)
    ensures r.Success? ==> Reads(SplitLines(text), r.value)
    ensures r.Failure? ==> exists k | 0 <= k < |SplitLines(text)| ::
                ParseLine(SplitLines(text)[k]) == Result.Failure(r.error)
                && forall j | 0 <= j < k :: ParseLine(SplitLines(text)[j]).Success?
  {
    var lines := SplitLines(text);
    var items := [];
    for n := 0 to |lines|
      invariant Reads(lines[..n], items)
    {
      var one := ParseLine(lines[n]);
      if one.Failure? {
        assert forall j | 0 <= j < n :: lines[..n][j] == lines[j];
        return Result.Failure(one.error);
      }
      items := items + [one.value];
    }
    assert lines[..|lines|] == lines;
    return Success(items);
  }

  lemma IdsAreWords(s: string)
    requires IdOk(s)
    ensures IsWord(s) && forall c | c in s :: !IsBreak(c)
  {
  }

  /** A printed line reads back, unless the time is negative: then it is refused. */
  lemma LineReadsBack(i: Item)
    requires IdOk(i.id)
    ensures ParseLine(PrintLine(i)).Success? <==> i.mtime >= 0
    ensures i.mtime >= 0 ==> ParseLine(PrintLine(i)) == Success(i)
    ensures forall c | c in PrintLine(i) :: !IsBreak(c)
  {
    var flag := if i.hasAudio then "1" else "0";
    NumbersAreWords(i.mtime);
    IdsAreWords(i.id);
    SplitThree(i.id, Str(i.mtime), flag);
    NoBreaks(i.id, Str(i.mtime), flag);
  }

  lemma NoBreaks(a: string, b: string, c: string)
    requires (forall x | x in a :: !IsBreak(x)) && (forall x | x in b :: !IsBreak(x)) && forall x | x in c :: !IsBreak(x)
    ensures forall x | x in a + " " + b + " " + c :: !IsBreak(x)
  {
  }

  lemma {:induction false} PrintedLines(items: seq<Item>)
    requires forall i | i in items :: IdOk(i.id)
    ensures SplitLines(Print(items)) == seq(|items|, n requires 0 <= n < |items| => PrintLine(items[n]))
    decreases |items|
  {
    if items != [] {
      assert items[0] in items;
      LineReadsBack(items[0]);
      SplitFirstLine(PrintLine(items[0]), Print(items[1..]));
      PrintedLines(items[1..]);
    }
  }

  /** Backend agreement: reading what `vm-spool list` printed gives the very list the local backend returns, exactly
      when no time is negative; otherwise the listing is refused as a whole. */
  lemma BackendsAgree(items: seq<Item>, read: seq<Item>)
    requires forall i | i in items :: IdOk(i.id)
    ensures Reads(SplitLines(Print(items)), items) <==> forall i | i in items :: i.mtime >= 0
    ensures Reads(SplitLines(Print(items)), read) ==> read == items
  {
    PrintedLines(items);
    var lines := SplitLines(Print(items));
    forall n | 0 <= n < |items|
      ensures ParseLine(lines[n]).Success? <==> items[n].mtime >= 0
      ensures items[n].mtime >= 0 ==> ParseLine(lines[n]) == Success(items[n])
    {
      assert items[n] in items;
      LineReadsBack(items[n]);
    }
    if Reads(lines, read) {
      assert forall n | 0 <= n < |items| :: ParseLine(lines[n]).Success?;
    }
    if forall i | i in items :: i.mtime >= 0 {
      assert forall n | 0 <= n < |items| :: items[n] in items;
    }
  }

  /** The SSH backend on a directory the local backend lists: the same items in the same order. */
  method ListOverSsh(dir: seq<Entry>) returns (local: seq<Item>, remote: Result<seq<Item>, Failure>)
    requires UniqueNames(dir)
    ensures IsListing(local, dir)
    ensures remote.Success? <==> forall i | i in local :: i.mtime >= 0
    ensures remote.Success? ==> remote.value == local
  {
    var text := CmdList(dir);
    ghost var items :| IsListing(items, dir) && text == Print(items);
    local := ListReady(dir);
    SameList(local, items);
    remote := ParseList(text);
    assert forall i | i in local :: IdOk(i.id) by {
      forall i | i in local ensures IdOk(i.id) {
        var e :| e in dir && IsMeta(e, i.id);
      }
    }
    if remote.Success? {
      BackendsAgree(local, remote.value);
    } else {
      BackendsAgree(local, []);
    }
  }

  lemma NotBothOlder(a: Item, b: Item)
    ensures !(Older(a, b) && Older(b, a))
  {
    LexIrreflexive(a.id);
    if LexLess(a.id, b.id) && LexLess(b.id, a.id) {
      LexTransitive(a.id, b.id, a.id);
    }
  }

  /** The first of a sorted list does not come back. */
  lemma FirstOnce(a: seq<Item>)
    requires OldestFirst(a) && a != []
    ensures a[0] !in a[1..] && forall i | i in a :: i == a[0] || (Older(a[0], i) && i in a[1..])
  {
    forall k | 0 <= k < |a[1..]| ensures a[1..][k] != a[0] {
      assert Older(a[0], a[k + 1]);
      NotBothOlder(a[0], a[0]);
    }
    assert a == [a[0]] + a[1..];
  }

  /** A sorted list without repetition is fixed by its elements. */
  lemma {:induction false} SameList(a: seq<Item>, b: seq<Item>)
    requires OldestFirst(a) && OldestFirst(b) && forall i :: i in a <==> i in b
    ensures a == b
    decreases |a|
  {
    assert a != [] ==> a[0] in a;
    assert b != [] ==> b[0] in b;
    if a != [] {
      FirstOnce(a);
      FirstOnce(b);
      NotBothOlder(a[0], b[0]);
      SameList(a[1..], b[1..]);
      assert a == [a[0]] + a[1..] && b == [b[0]] + b[1..];
    }
  }
}
