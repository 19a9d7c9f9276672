/** Tailing a growing log of lines: what one pass reads from an offset, and why passes made
    at any moments read together what one pass over the finished log reads. */
module LogTail {
  import opened Newlines
  import opened Options

  predicate Space(c: char) {
    c in {' ', '\t', '\n', '\r', '\U{000B}', '\U{000C}'}
  }

  predicate Blank(line: string) {
    forall i :: 0 <= i < |line| ==> Space(line[i])
  }

  /** The row parser: `json.loads` with its exceptions as `None`. */
  datatype Parser<Row> = Parser(decode: string -> Option<Row>) {
    /** White space alone is no row. */
    ghost predicate Sensible() {
      forall s: string :: Blank(s) ==> decode(s).None?
    }
  }

  datatype Item<Row> = Invalid | Parsed(row: Row)

  /** A complete line: blank ones are passed over. */
  function ItemsOf<Row>(p: Parser<Row>, line: string): seq<Item<Row>> {
    if Blank(line) then []
    else
      match p.decode(line)
      case None => [Invalid]
      case Some(row) => [Parsed(row)]
  }

  datatype Pass<Row> = Pass(items: seq<Item<Row>>, used: nat)

  /** One pass over the bytes not yet read: what it reads, and how many bytes that takes. An
      unfinished last line is taken if it already parses and is left for the next pass otherwise. */
  function Read<Row>(p: Parser<Row>, bytes: string): (r: Pass<Row>)
    ensures r.used <= |bytes|
  {
    var end := FindNewline(bytes);
    if bytes == "" then Pass([], 0)
    else if end == |bytes| then
      match p.decode(bytes)
      case None => Pass([], 0)
      case Some(row) => Pass([Parsed(row)], |bytes|)
    else
      var later := Read(p, bytes[end + 1..]);
      Pass(ItemsOf(p, bytes[..end]) + later.items, end + 1 + later.used)
  }

  // ---- passes over a beginning and over the whole ----

  /** A beginning of the line that parses is the whole row, but for trailing white space. */
  ghost predicate PrefixFree<Row>(p: Parser<Row>, line: string) {
    forall k :: 0 <= k <= |line| && p.decode(line[..k]).Some? ==>
      Blank(line[k..]) && p.decode(line) == p.decode(line[..k])
  }

  /** Finished lines, each prefix-free. */
  ghost predicate Clean<Row>(p: Parser<Row>, bytes: string) {
    var end := FindNewline(bytes);
    bytes == "" || (end < |bytes| && PrefixFree(p, bytes[..end]) && Clean(p, bytes[end + 1..]))
  }

  lemma {:induction false} FindNewlineOfPrefix(bytes: string, n: nat)
    requires n <= |bytes|
    ensures FindNewline(bytes[..n]) == if FindNewline(bytes) < n then FindNewline(bytes) else n
  {
    if n > 0 && bytes[0] != '\n' {
      assert bytes[..n][1..] == bytes[1..][..n - 1];
      FindNewlineOfPrefix(bytes[1..], n - 1);
    }
  }

  lemma ReadOne<Row>(p: Parser<Row>, bytes: string, line: string, rest: string)
    requires bytes == line + "\n" + rest && '\n' !in line
    ensures FindNewline(bytes) == |line|
    ensures Read(p, bytes) == Pass(ItemsOf(p, line) + Read(p, rest).items, |line| + 1 + Read(p, rest).used)
    ensures Clean(p, bytes) <==> PrefixFree(p, line) && Clean(p, rest)
  {
    FirstNewline(bytes, |line|);
    assert bytes[..|line|] == line && bytes[|line| + 1..] == rest;
  }

  lemma BlankIsNone<Row>(p: Parser<Row>, line: string)
    requires p.Sensible() && Blank(line)
    ensures PrefixFree(p, line) && ItemsOf(p, line) == []
  {
    forall k | 0 <= k <= |line|
      ensures p.decode(line[..k]).None?
    {
      assert Blank(line[..k]);
    }
  }

  /** After a first pass, one over what was left reads the rest of what one over the whole reads. */
  ghost predicate Splits<Row>(p: Parser<Row>, first: Pass<Row>, left: string, whole: string) {
    && Clean(p, left)
    && Read(p, whole) == Pass(first.items + Read(p, left).items, first.used + Read(p, left).used)
  }

  ghost predicate InTwo<Row>(p: Parser<Row>, early: string, rest: string) {
    Splits(p, Read(p, early), early[Read(p, early).used..] + rest, early + rest)
  }

  /** Nothing is taken yet. */
  lemma NothingYet<Row>(p: Parser<Row>, early: string, rest: string)
    requires Clean(p, early + rest) && Read(p, early) == Pass([], 0)
    ensures InTwo(p, early, rest)
  {
    assert early[0..] == early;
    assert [] + Read(p, early + rest).items == Read(p, early + rest).items;
  }

  lemma ReadUnfinished<Row>(p: Parser<Row>, early: string)
    requires p.Sensible() && '\n' !in early && p.decode(early).Some?
    ensures Read(p, early) == Pass([Parsed(p.decode(early).value)], |early|) && !Blank(early)
  {
    NoNewline(early);
    assert Blank(early) ==> p.decode(early).None?;
    assert Blank("");
  }

  /** The finished line is the row its beginning was. */
  lemma SameRow<Row>(p: Parser<Row>, early: string, line: string)
    requires p.decode(early).Some? && !Blank(early) && PrefixFree(p, early + line)
    ensures ItemsOf(p, early + line) == [Parsed(p.decode(early).value)] && Blank(line)
  {
    var whole := early + line;
    assert whole[..|early|] == early && whole[|early|..] == line;
    BlankPrefix(whole, |early|);
  }

  /** What is left of a line already taken is passed over. */
  lemma RestOfLine<Row>(p: Parser<Row>, line: string, rest: string)
    requires p.Sensible() && Blank(line) && '\n' !in line && Clean(p, rest)
    ensures var left := line + "\n" + rest;
            Clean(p, left) && Read(p, left) == Pass(Read(p, rest).items, |line| + 1 + Read(p, rest).used)
  {
    BlankIsNone(p, line);
    ReadOne(p, line + "\n" + rest, line, rest);
    assert [] + Read(p, rest).items == Read(p, rest).items;
  }

  /** A row is taken before its line is finished; what is left of the line is passed over. */
  lemma TakenEarly<Row>(p: Parser<Row>, early: string, line: string, rest: string)
    requires p.Sensible() && '\n' !in early && '\n' !in line && p.decode(early).Some?
    requires PrefixFree(p, early + line) && Clean(p, rest)
    ensures InTwo(p, early, line + "\n" + rest)
  {
    var left := line + "\n" + rest;
    ReadUnfinished(p, early);
    SameRow(p, early, line);
    RestOfLine(p, line, rest);
    WholeLine(p, early, line, rest);
    AllTaken(early, left);
    Joined(p, early, left, early + left, left);
  }

  lemma WholeLine<Row>(p: Parser<Row>, early: string, line: string, rest: string)
    requires '\n' !in early && '\n' !in line
    ensures var whole := early + (line + "\n" + rest);
            Read(p, whole) == Pass(ItemsOf(p, early + line) + Read(p, rest).items,
                                   |early + line| + 1 + Read(p, rest).used)
  {
    assert early + (line + "\n" + rest) == (early + line) + "\n" + rest;
    ReadLine(p, early + (line + "\n" + rest), early + line, rest);
  }

  lemma AllTaken(early: string, left: string)
    ensures early[|early|..] + left == left
  {
  }

  lemma BlankPrefix(line: string, k: nat)
    requires k <= |line|
    ensures Blank(line) ==> Blank(line[..k])
  {
  }

  lemma Regroup(line: string, early: string, rest: string, k: nat)
    requires k <= |early|
    ensures (line + "\n" + early) + rest == line + "\n" + (early + rest)
    ensures (line + "\n" + early)[|line| + 1 + k..] == early[k..]
  {
  }

  lemma LineFirst<Row>(items: seq<Item<Row>>, used: nat, first: Pass<Row>, left: Pass<Row>)
    ensures Pass(items + (first.items + left.items), used + (first.used + left.used))
            == Pass(items + first.items + left.items, used + first.used + left.used)
  {
    assert items + (first.items + left.items) == items + first.items + left.items;
  }

  lemma ReadLine<Row>(p: Parser<Row>, bytes: string, line: string, rest: string)
    requires bytes == line + "\n" + rest && '\n' !in line
    ensures Read(p, bytes) == Pass(ItemsOf(p, line) + Read(p, rest).items, |line| + 1 + Read(p, rest).used)
  {
    ReadOne(p, bytes, line, rest);
  }

  lemma OneLineMore<Row>(p: Parser<Row>, line: string, early: string, rest: string)
    requires '\n' !in line && InTwo(p, early, rest)
    ensures InTwo(p, line + "\n" + early, rest)
  {
    var first := Read(p, early);
    var left, longer, whole := early[first.used..] + rest, line + "\n" + early, line + "\n" + (early + rest);
    Regroup(line, early, rest, first.used);
    LineSplits(p, line, early, early + rest, first, left);
    assert longer[Read(p, longer).used..] == early[first.used..];
    Joined(p, longer, rest, whole, left);
  }

  lemma LineSplits<Row>(p: Parser<Row>, line: string, early: string, whole: string, first: Pass<Row>, left: string)
    requires '\n' !in line && first == Read(p, early) && Splits(p, first, left, whole)
    ensures Read(p, line + "\n" + early).used == |line| + 1 + first.used
    ensures Splits(p, Read(p, line + "\n" + early), left, line + "\n" + whole)
  {
    ReadLine(p, line + "\n" + early, line, early);
    ReadLine(p, line + "\n" + whole, line, whole);
    LineFirst(ItemsOf(p, line), |line| + 1, first, Read(p, left));
  }

  lemma Joined<Row>(p: Parser<Row>, early: string, rest: string, whole: string, left: string)
    requires whole == early + rest && left == early[Read(p, early).used..] + rest
    requires Splits(p, Read(p, early), left, whole)
    ensures InTwo(p, early, rest)
  {
  }

  /** A pass while only the beginning was there, then a pass over the finished log from where it
      stopped, read what one pass over the finished log reads. */
  lemma {:induction false} ReadInTwo<Row>(p: Parser<Row>, early: string, rest: string)
    requires p.Sensible() && Clean(p, early + rest)
    ensures InTwo(p, early, rest)
    decreases |early|
  {
    var end := FindNewline(early);
    if end < |early| {
      var line, next := early[..end], early[end + 1..];
      assert early == line + "\n" + next;
      ReadOne(p, early + rest, line, next + rest);
      ReadInTwo(p, next, rest);
      OneLineMore(p, line, next, rest);
    } else if early == "" || p.decode(early).None? {
      NothingYet(p, early, rest);
    } else {
      Unfinished(p, early, rest);
    }
  }

  lemma Unfinished<Row>(p: Parser<Row>, early: string, rest: string)
    requires p.Sensible() && Clean(p, early + rest) && early != ""
    requires FindNewline(early) == |early| && p.decode(early).Some?
    ensures InTwo(p, early, rest)
  {
    var bytes, end := early + rest, FindNewline(early + rest);
    assert bytes[..|early|] == early;
    FindNewlineOfPrefix(bytes, |early|);
    EndOfLine(early, rest, end);
    TakenEarly(p, early, bytes[|early|..end], bytes[end + 1..]);
  }

  /** The line that was begun, and what comes after it. */
  lemma EndOfLine(early: string, rest: string, end: nat)
    requires |early| <= end == FindNewline(early + rest) < |early + rest|
    ensures var bytes := early + rest;
            && early + bytes[|early|..end] == bytes[..end] && '\n' !in bytes[..end]
            && rest == bytes[|early|..end] + "\n" + bytes[end + 1..]
  {
    var bytes := early + rest;
    CutLine(bytes, |early|, end);
    assert bytes[..|early|] == early && bytes[|early|..] == rest;
  }

  lemma CutLine(bytes: string, m: nat, end: nat)
    requires m <= end < |bytes| && bytes[end] == '\n'
    ensures bytes[..m] + bytes[m..end] == bytes[..end]
    ensures bytes[m..] == bytes[m..end] + "\n" + bytes[end + 1..]
  {
  }

  /** A finished log is read to its end. */
  lemma {:induction false} ReadsToTheEnd<Row>(p: Parser<Row>, bytes: string)
    requires Clean(p, bytes)
    ensures Read(p, bytes).used == |bytes|
  {
    if bytes != "" {
      ReadsToTheEnd(p, bytes[FindNewline(bytes) + 1..]);
    }
  }
}
