/** The diff-coverage gate, scripts/check-diff-coverage.py: what a diff adds (56-105), which of it is excluded
    (108-139) and how the rest is counted (142-193). A text is the list of its lines. */
module DiffCoverage {
  import opened Options

  // ----- numbers -----

  predicate IsDigit(c: char) { '0' <= c <= '9' }

  function DigitChar(n: nat): (c: char)
    requires n < 10
    ensures IsDigit(c) && DigitValue(c) == n
  {
    "0123456789"[n]
  }

  function Decimal(n: nat): string { if n < 10 then [DigitChar(n)] else Decimal(n / 10) + [DigitChar(n % 10)] }

  function DigitValue(c: char): nat
    requires IsDigit(c)
  {
    c as int - '0' as int
  }

  function Value(s: string): nat
    requires forall c <- s :: IsDigit(c)
  {
    if s == [] then 0 else Value(s[..|s| - 1]) * 10 + DigitValue(s[|s| - 1])
  }

  function Digits(s: string): (n: nat)
    ensures n <= |s| && forall c <- s[..n] :: IsDigit(c)
  {
    if s != [] && IsDigit(s[0]) then
      assert s[..1 + Digits(s[1..])] == [s[0]] + s[1..][..Digits(s[1..])];
      1 + Digits(s[1..])
    else 0
  }

  lemma {:induction false} DecimalIs(n: nat)
    ensures Decimal(n) != [] && (forall c <- Decimal(n) :: IsDigit(c)) && Value(Decimal(n)) == n
    decreases n
  {
    if n >= 10 {
      DecimalIs(n / 10);
      var s := Decimal(n);
      assert s[..|s| - 1] == Decimal(n / 10);
    } else {
      var s := Decimal(n);
      assert s[..|s| - 1] == [];
      assert Value([]) == 0;
    }
  }

  lemma {:induction false} DigitsOf(s: string, rest: string)
    requires (forall c <- s :: IsDigit(c)) && (rest == [] || !IsDigit(rest[0]))
    ensures Digits(s + rest) == |s|
  {
    if s == [] {
      assert s + rest == rest;
    } else {
      assert (s + rest)[1..] == s[1..] + rest;
      DigitsOf(s[1..], rest);
    }
  }

  // ----- sorted() -----

  predicate Sorted(numbers: seq<nat>) { forall i, j | 0 <= i < j < |numbers| :: numbers[i] < numbers[j] }

  predicate Ordered(numbers: seq<nat>) { forall i, j | 0 <= i < j < |numbers| :: numbers[i] <= numbers[j] }

  function Insert(x: nat, numbers: seq<nat>): seq<nat> {
    if numbers == [] || x <= numbers[0] then [x] + numbers else [numbers[0]] + Insert(x, numbers[1..])
  }

  lemma OrderedCons(x: nat, numbers: seq<nat>)
    ensures Ordered([x] + numbers) <==> Ordered(numbers) && forall n <- numbers :: x <= n
  {
    var t := [x] + numbers;
    if Ordered(t) {
      forall i, j | 0 <= i < j < |numbers|
        ensures numbers[i] <= numbers[j]
      {
        assert t[i + 1] <= t[j + 1];
      }
      forall n <- numbers
        ensures x <= n
      {
        var k :| 0 <= k < |numbers| && numbers[k] == n;
        assert t[0] <= t[k + 1];
      }
    } else {
      var i, j :| 0 <= i < j < |t| && t[i] > t[j];
      assert numbers[j - 1] in numbers && t[j] == numbers[j - 1];
      assert i > 0 ==> numbers[i - 1] > numbers[j - 1];
    }
  }

  lemma SortedCons(x: nat, numbers: seq<nat>)
    ensures Sorted([x] + numbers) <==> Sorted(numbers) && forall n <- numbers :: x < n
  {
    var t := [x] + numbers;
    if Sorted(t) {
      forall i, j | 0 <= i < j < |numbers|
        ensures numbers[i] < numbers[j]
      {
        assert t[i + 1] < t[j + 1];
      }
      forall n <- numbers
        ensures x < n
      {
        var k :| 0 <= k < |numbers| && numbers[k] == n;
        assert t[0] < t[k + 1];
      }
    } else {
      var i, j :| 0 <= i < j < |t| && t[i] >= t[j];
      assert numbers[j - 1] in numbers && t[j] == numbers[j - 1];
      assert i > 0 ==> numbers[i - 1] >= numbers[j - 1];
    }
  }

  lemma {:induction false} InsertHas(x: nat, numbers: seq<nat>, n: nat)
    ensures n in Insert(x, numbers) <==> n == x || n in numbers
  {
    if numbers != [] && x > numbers[0] {
      InsertHas(x, numbers[1..], n);
      assert numbers == [numbers[0]] + numbers[1..];
    }
  }

  lemma {:induction false} InsertOrder(x: nat, numbers: seq<nat>)
    requires Ordered(numbers)
    ensures Ordered(Insert(x, numbers))
    ensures Sorted(Insert(x, numbers)) <==> Sorted(numbers) && x !in numbers
  {
    hide Ordered, Sorted;
    OrderedCons(x, numbers);
    SortedCons(x, numbers);
    if numbers != [] {
      var first, rest := numbers[0], numbers[1..];
      assert numbers == [first] + rest;
      OrderedCons(first, rest);
      SortedCons(first, rest);
      InsertOrder(x, rest);
      OrderedCons(first, Insert(x, rest));
      SortedCons(first, Insert(x, rest));
      forall n: nat
        ensures n in Insert(x, rest) <==> n == x || n in rest
      {
        InsertHas(x, rest, n);
      }
    } else {
      assert Ordered(numbers) && Sorted(numbers) by {
        Singles();
      }
    }
  }

  lemma Singles()
    ensures Ordered([]) && Sorted([])
  {
  }

  lemma InsertIs(x: nat, numbers: seq<nat>)
    requires Ordered(numbers)
    ensures Ordered(Insert(x, numbers))
    ensures forall n: nat :: n in Insert(x, numbers) <==> n == x || n in numbers
    ensures Sorted(Insert(x, numbers)) <==> Sorted(numbers) && x !in numbers
  {
    InsertOrder(x, numbers);
    forall n: nat
      ensures n in Insert(x, numbers) <==> n == x || n in numbers
    {
      InsertHas(x, numbers, n);
    }
  }

  /** No number comes twice. */
  predicate Distinct(numbers: seq<nat>) { forall i, j | 0 <= i < j < |numbers| :: numbers[i] != numbers[j] }

  method SortNumbers(numbers: seq<nat>) returns (out: seq<nat>)
    ensures Ordered(out) && forall n: nat :: n in out <==> n in numbers
    ensures Sorted(out) <==> Distinct(numbers)
  {
    out := [];
    for i := 0 to |numbers|
      invariant Ordered(out) && forall n: nat :: n in out <==> n in numbers[..i]
      invariant Sorted(out) <==> Distinct(numbers[..i])
    {
      InsertIs(numbers[i], out);
      assert numbers[..i + 1] == numbers[..i] + [numbers[i]];
      out := Insert(numbers[i], out);
    }
    assert numbers[..|numbers|] == numbers;
  }

  ghost predicate Lists(out: seq<nat>, numbers: set<nat>) { forall n: nat :: n in out <==> n in numbers }

  lemma ListsInsert(out: seq<nat>, numbers: set<nat>, n: nat)
    requires Sorted(out) && Lists(out, numbers) && n !in numbers
    ensures Sorted(Insert(n, out)) && Lists(Insert(n, out), numbers + {n})
  {
    InsertIs(n, out);
  }

  method SortSet(numbers: set<nat>) returns (out: seq<nat>)
    ensures Sorted(out) && Lists(out, numbers)
  {
    out := [];
    var rest := numbers;
    while rest != {}
      invariant rest <= numbers && Sorted(out) && Lists(out, numbers - rest)
      decreases |rest|
    {
      hide Lists;
      var n :| n in rest;
      ListsInsert(out, numbers - rest, n);
      out := Insert(n, out);
      rest := rest - {n};
      assert numbers - rest == (numbers - (rest + {n})) + {n};
    }
    assert numbers - {} == numbers;
  }

  // ----- a hunk header -----

  predicate StartsWith(s: string, prefix: string) { |prefix| <= |s| && s[..|prefix|] == prefix }

  /** \d+ and what follows. */
  function Number(s: string): Option<(nat, string)> {
    var n := Digits(s);
    if n == 0 then None else Some((Value(s[..n]), s[n..]))
  }

  /** (?:,(\d+))? and what follows; 1 when it is not there. */
  function Count(s: string): (nat, string) {
    if s != [] && s[0] == ',' then
      match Number(s[1..])
      case None => (1, s)
      case Some((n, rest)) => (n, rest)
    else (1, s)
  }

  datatype Header = Header(oldCount: nat, start: nat, newCount: nat)

  /** The regular expression of a hunk header. */
  function ParseHeader(raw: string): Option<Header> {
    if !StartsWith(raw, "@@ -") then None
    else
      match Number(raw[4..])
      case None => None
      case Some((_, s1)) =>
        var (oldCount, s2) := Count(s1);
        if !StartsWith(s2, " +") then None
        else
          match Number(s2[2..])
          case None => None
          case Some((start, s3)) =>
            var (newCount, s4) := Count(s3);
            if StartsWith(s4, " @@") then Some(Header(oldCount, start, newCount)) else None
  }

  predicate Numeral(s: string) { s != [] && forall c <- s :: IsDigit(c) }

  /** A range of a header as it is written, and what its numbers are; a count may be left out. */
  datatype Written = Written(start: string, count: Option<string>)
  {
    predicate Ok() { Numeral(start) && (count.Some? ==> Numeral(count.value)) }

    function Text(): string { start + CountText() }

    function CountText(): string { if count.None? then "" else "," + count.value }

    function Count(): nat
      requires Ok()
    {
      if count.None? then 1 else Value(count.value)
    }
  }

  function Joined(before: Written, after: Written, rest: string): string {
    "@@ -" + (before.Text() + (" +" + (after.Text() + (" @@" + rest))))
  }

  lemma NumberOf(s: string, rest: string)
    requires Numeral(s) && (rest == [] || !IsDigit(rest[0]))
    ensures Number(s + rest) == Some((Value(s), rest))
  {
    DigitsOf(s, rest);
    assert (s + rest)[..|s|] == s && (s + rest)[|s|..] == rest;
  }

  lemma RangeOf(r: Written, rest: string)
    requires r.Ok() && rest != [] && rest[0] == ' '
    ensures Number(r.Text() + rest).Some?
    ensures var (start, s) := Number(r.Text() + rest).value; start == Value(r.start) && Count(s) == (r.Count(), rest)
  {
    hide Number;
    if r.count.None? {
      assert r.Text() + rest == r.start + rest;
      NumberOf(r.start, rest);
    } else {
      var more := "," + r.count.value + rest;
      assert r.Text() + rest == r.start + more;
      NumberOf(r.start, more);
      assert more[1..] == r.count.value + rest;
      NumberOf(r.count.value, rest);
    }
  }

  lemma HeaderRead(before: Written, after: Written, rest: string)
    requires before.Ok() && after.Ok()
    ensures ParseHeader(Joined(before, after, rest)) == Some(Header(before.Count(), Value(after.start), after.Count()))
  {
    var s4 := " @@" + rest;
    var s2 := " +" + (after.Text() + s4);
    var raw := Joined(before, after, rest);
    RangeOf(after, s4);
    RangeOf(before, s2);
    assert raw[4..] == before.Text() + s2;
    assert s2[2..] == after.Text() + s4;
    hide Number, Count;
  }

  lemma NumberSplit(s: string) returns (d: string)
    requires Number(s).Some?
    ensures Numeral(d) && s == d + Number(s).value.1
  {
    d := s[..Digits(s)];
  }

  lemma RangeSplit(s: string) returns (r: Written)
    requires Number(s).Some?
    ensures r.Ok() && s == r.Text() + Count(Number(s).value.1).1
  {
    var start := NumberSplit(s);
    var s1 := Number(s).value.1;
    if s1 != [] && s1[0] == ',' && Number(s1[1..]).Some? {
      var count := NumberSplit(s1[1..]);
      r := Written(start, Some(count));
      assert s1 == "," + count + Number(s1[1..]).value.1;
    } else {
      r := Written(start, None);
      assert start + "" == start;
    }
  }

  lemma HeaderSplit(raw: string) returns (before: Written, after: Written, rest: string)
    requires ParseHeader(raw).Some?
    ensures before.Ok() && after.Ok() && raw == Joined(before, after, rest)
  {
    before := RangeSplit(raw[4..]);
    var s2 := Count(Number(raw[4..]).value.1).1;
    after := RangeSplit(s2[2..]);
    var s4 := Count(Number(s2[2..]).value.1).1;
    rest := s4[3..];
    assert s4 == " @@" + rest && s2 == " +" + (after.Text() + s4);
    assert raw == "@@ -" + (before.Text() + s2);
  }

  ghost predicate IsHeader(raw: string) {
    exists before: Written, after: Written, rest: string ::
      before.Ok() && after.Ok() && raw == Joined(before, after, rest)
  }

  /** The pattern takes exactly the lines that read "@@ -n,n +n,n @@", either count left out or not. */
  lemma HeaderExactly(raw: string)
    ensures ParseHeader(raw).Some? <==> IsHeader(raw)
  {
    if ParseHeader(raw).Some? {
      var before, after, rest := HeaderSplit(raw);
    }
    if IsHeader(raw) {
      var before: Written, after: Written, rest: string :|
        before.Ok() && after.Ok() && raw == Joined(before, after, rest);
      HeaderRead(before, after, rest);
    }
  }

  /** A range of a header: a count of one may be left out. */
  datatype Range = Range(start: nat, count: nat, short: bool)
  {
    function Print(): Written { Written(Decimal(start), if count == 1 && short then None else Some(Decimal(count))) }
  }

  function PrintHeader(before: Range, after: Range, context: string): string {
    Joined(before.Print(), after.Print(), context)
  }

  lemma HeaderOf(before: Range, after: Range, context: string)
    ensures ParseHeader(PrintHeader(before, after, context)) == Some(Header(before.count, after.start, after.count))
  {
    DecimalIs(before.start);
    DecimalIs(before.count);
    DecimalIs(after.start);
    DecimalIs(after.count);
    hide Decimal, Joined, ParseHeader;
    HeaderRead(before.Print(), after.Print(), context);
  }

  // ----- parse_diff -----

  datatype Parser = Parser(added: map<string, set<nat>>, cur: Option<string>, oldLeft: int, newLeft: int)

  const START: Parser := Parser(map[], None, 0, 0)

  /** raw.split("\t")[0]. */
  function UpToTab(s: string): string { if s == [] || s[0] == '\t' then [] else [s[0]] + UpToTab(s[1..]) }

  /** range(start, start + count). */
  function Span(start: nat, count: nat): set<nat>
    decreases count
  {
    if count == 0 then {} else {start} + Span(start + 1, count - 1)
  }

  lemma {:induction false} SpanIs(start: nat, count: nat, n: nat)
    ensures n in Span(start, count) <==> start <= n < start + count
    decreases count
  {
    if count > 0 {
      SpanIs(start + 1, count - 1, n);
    }
  }

  function AddTo(added: map<string, set<nat>>, path: string, lines: set<nat>): map<string, set<nat>> {
    added[path := (if path in added then added[path] else {}) + lines]
  }

  function Step(p: Parser, raw: string): Parser {
    if (p.oldLeft != 0 || p.newLeft != 0) && raw != [] && raw[0] in {'+', '-', ' ', '\\'} then
      match raw[0]
      case '+' => p.(newLeft := p.newLeft - 1)
      case '-' => p.(oldLeft := p.oldLeft - 1)
      case ' ' => p.(oldLeft := p.oldLeft - 1, newLeft := p.newLeft - 1)
      case _ => p
    else
      var q := p.(oldLeft := 0, newLeft := 0);
      if StartsWith(raw, "+++ ") then
        var target := UpToTab(raw[4..]);
        if target == "/dev/null" then q.(cur := None)
        else
          var path := if StartsWith(target, "b/") then target[2..] else target;
          q.(cur := Some(path), added := AddTo(q.added, path, {}))
      else if q.cur.Some? && ParseHeader(raw).Some? then
        var h := ParseHeader(raw).value;
        Parser(AddTo(q.added, q.cur.value, Span(h.start, h.newCount)), q.cur, h.oldCount, h.newCount)
      else q
  }

  function Run(p: Parser, lines: seq<string>): Parser
    decreases |lines|
  {
    if lines == [] then p else Run(Step(p, lines[0]), lines[1..])
  }

  method ParseDiff(lines: seq<string>) returns (sorted: map<string, seq<nat>>)
    ensures var added := Run(START, lines).added;
            && sorted.Keys == added.Keys
            && forall path <- added :: Sorted(sorted[path]) && Lists(sorted[path], added[path])
  {
    hide ParseHeader, UpToTab, Span, AddTo;
    var added: map<string, set<nat>> := map[];
    var cur: Option<string> := None;
    var oldLeft: int, newLeft: int := 0, 0;
    for i := 0 to |lines|
      invariant Run(Parser(added, cur, oldLeft, newLeft), lines[i..]) == Run(START, lines)
    {
      assert lines[i..][1..] == lines[i + 1..];
      var raw := lines[i];
      ghost var p := Step(Parser(added, cur, oldLeft, newLeft), raw);
      if (oldLeft != 0 || newLeft != 0) && raw != [] && raw[0] in {'+', '-', ' ', '\\'} {
        if raw[0] == '+' {
          newLeft := newLeft - 1;
        } else if raw[0] == '-' {
          oldLeft := oldLeft - 1;
        } else if raw[0] == ' ' {
          oldLeft, newLeft := oldLeft - 1, newLeft - 1;
        }
      } else {
        oldLeft, newLeft := 0, 0;
        if StartsWith(raw, "+++ ") {
          var target := UpToTab(raw[4..]);
          if target == "/dev/null" {
            cur := None;
          } else {
            var path := if StartsWith(target, "b/") then target[2..] else target;
            cur := Some(path);
            added := AddTo(added, path, {});
          }
        } else if cur.Some? {
          var h := ParseHeader(raw);
          if h.Some? {
            added := AddTo(added, cur.value, Span(h.value.start, h.value.newCount));
            oldLeft, newLeft := h.value.oldCount, h.value.newCount;
          }
        }
      }
      assert Parser(added, cur, oldLeft, newLeft) == p;
    }
    assert lines[|lines|..] == [];
    sorted := map[];
    var paths := added.Keys;
    while paths != {}
      invariant paths <= added.Keys && sorted.Keys == added.Keys - paths
      invariant forall path <- sorted :: Sorted(sorted[path]) && Lists(sorted[path], added[path])
      decreases |paths|
    {
      var path :| path in paths;
      var lines := SortSet(added[path]);
      sorted := sorted[path := lines];
      paths := paths - {path};
    }
  }

  lemma {:induction false} RunAppend(p: Parser, a: seq<string>, b: seq<string>)
    ensures Run(p, a + b) == Run(Run(p, a), b)
    decreases |a|
  {
    hide Step;
    if a == [] {
      assert a + b == b;
    } else {
      assert (a + b)[1..] == a[1..] + b;
      RunAppend(Step(p, a[0]), a[1..], b);
    }
  }

  // ----- a diff as git prints it -----

  /** A line of the body of a hunk, or the note that the file ends without a newline. */
  predicate InBody(raw: string) { raw != [] && raw[0] in {'+', '-', ' ', '\\'} }

  predicate Begun(l: string, c: char) { l != [] && l[0] == c }

  function One(b: bool): nat { if b then 1 else 0 }

  /** The lines of the old and of the new text there are in a body. */
  function Olds(body: seq<string>): nat {
    if body == [] then 0 else One(Begun(body[0], '-') || Begun(body[0], ' ')) + Olds(body[1..])
  }

  function News(body: seq<string>): nat {
    if body == [] then 0 else One(Begun(body[0], '+') || Begun(body[0], ' ')) + News(body[1..])
  }

  datatype Hunk = Hunk(before: Range, after: Range, context: string, body: seq<string>)

  /** A file of the diff: what precedes its +++ line, the new path, if any, and the hunks. */
  datatype Section = Section(preamble: seq<string>, target: Target, hunks: seq<Hunk>)

  /** A path is printed after "b/", or bare as with --no-prefix. */
  datatype Target = NoHunks | Deleted | Path(path: string, bare: bool, tabbed: Option<string>)

  function PrintHunk(h: Hunk): seq<string> { [PrintHeader(h.before, h.after, h.context)] + h.body }

  function PrintHunks(hunks: seq<Hunk>): seq<string> {
    if hunks == [] then [] else PrintHunk(hunks[0]) + PrintHunks(hunks[1..])
  }

  function PrintTarget(t: Target): seq<string> {
    match t
    case NoHunks => []
    case Deleted => ["+++ " + "/dev/null"]
    case Path(path, bare, tabbed) =>
      var name := if bare then path else "b/" + path;
      ["+++ " + (if tabbed.None? then name else name + "\t" + tabbed.value)]
  }

  function PrintSection(s: Section): seq<string> { s.preamble + (PrintTarget(s.target) + PrintHunks(s.hunks)) }

  function PrintDiff(sections: seq<Section>): seq<string> {
    if sections == [] then [] else PrintSection(sections[0]) + PrintDiff(sections[1..])
  }

  /** Neither the file header nor the hunk header of something else. */
  predicate Quiet(raw: string) { !StartsWith(raw, "+++ ") && ParseHeader(raw).None? }

  /** No more lines than the header announces; a hunk cut short has fewer. */
  predicate HunkOk(h: Hunk) {
    && (forall l <- h.body :: InBody(l))
    && Olds(h.body) <= h.before.count && News(h.body) <= h.after.count
  }

  predicate AddsNothing(h: Hunk) { forall l <- h.body :: InBody(l) && !Begun(l, '+') }

  predicate Complete(h: Hunk) { Olds(h.body) == h.before.count && News(h.body) == h.after.count }

  /** git quotes a path that holds a tab, and such a path is not part of this model. */
  predicate SectionOk(s: Section) {
    && (forall l <- s.preamble :: Quiet(l))
    && (forall h <- s.hunks :: HunkOk(h))
    && (s.target.NoHunks? ==> s.hunks == [])
    && (s.target.Deleted? ==> forall h <- s.hunks :: AddsNothing(h))
    && (s.target.Path? ==> '\t' !in s.target.path)
    && (s.target.Path? && s.target.bare ==> !StartsWith(s.target.path, "b/") && s.target.path != "/dev/null")
  }

  /** What ends a file, or begins the next one, shows that no hunk goes on. */
  predicate Ends(s: Section) { s.hunks == [] || s.target.Deleted? || Complete(s.hunks[|s.hunks| - 1]) }

  predicate Begins(s: Section) { s.preamble != [] && !InBody(s.preamble[0]) }

  predicate DiffOk(sections: seq<Section>) {
    && (forall s <- sections :: SectionOk(s))
    && (forall i: nat | i + 1 < |sections| :: Ends(sections[i]) || Begins(sections[i + 1]))
  }

  /** The ranges of a file, one after the other. */
  function HunkLines(hunks: seq<Hunk>): set<nat> {
    if hunks == [] then {} else Span(hunks[0].after.start, hunks[0].after.count) + HunkLines(hunks[1..])
  }

  function Expected(added: map<string, set<nat>>, sections: seq<Section>): map<string, set<nat>>
    decreases |sections|
  {
    if sections == [] then added
    else
      var s := sections[0];
      Expected(if s.target.Path? then AddTo(added, s.target.path, HunkLines(s.hunks)) else added, sections[1..])
  }

  // ----- one hunk -----

  lemma NotHeader(raw: string)
    requires raw != [] && raw[0] != '@'
    ensures ParseHeader(raw).None?
  {
    assert |raw| >= 4 ==> raw[..4][0] == raw[0];
  }

  /** The lines of a body are counted off, whatever they look like: even an added one that reads like the header of a
      file or of a hunk. The note about the missing newline changes nothing, inside a hunk or after it. */
  lemma {:induction false} RunBody(p: Parser, body: seq<string>)
    requires (forall l <- body :: InBody(l)) && Olds(body) <= p.oldLeft && News(body) <= p.newLeft
    ensures Run(p, body) == p.(oldLeft := p.oldLeft - Olds(body), newLeft := p.newLeft - News(body))
    decreases |body|
  {
    if body != [] {
      var l := body[0];
      BodyStep(p, l, Olds(body[1..]), News(body[1..]));
      hide Step;
      assert body == [l] + body[1..];
      RunBody(Step(p, l), body[1..]);
    }
  }

  lemma BodyStep(p: Parser, l: string, olds: nat, news: nat)
    requires InBody(l)
    requires olds + One(Begun(l, '-') || Begun(l, ' ')) <= p.oldLeft
    requires news + One(Begun(l, '+') || Begun(l, ' ')) <= p.newLeft
    ensures Step(p, l) == p.(oldLeft := p.oldLeft - One(Begun(l, '-') || Begun(l, ' ')),
                             newLeft := p.newLeft - One(Begun(l, '+') || Begun(l, ' ')))
  {
    NotHeader(l);
    assert |l| >= 4 ==> l[..4][0] == l[0];
    hide ParseHeader;
  }

  /** The parser between two hunks. */
  predicate Between(p: Parser) { p.oldLeft == 0 && p.newLeft == 0 }

  /** A hunk of a file that is followed, after any other, complete or cut short. */
  lemma RunHunk(p: Parser, h: Hunk, path: string)
    requires HunkOk(h) && p.cur == Some(path)
    ensures Run(p, PrintHunk(h))
         == Parser(AddTo(p.added, path, Span(h.after.start, h.after.count)), p.cur,
                   h.before.count - Olds(h.body), h.after.count - News(h.body))
  {
    var raw := PrintHeader(h.before, h.after, h.context);
    HeaderOf(h.before, h.after, h.context);
    HeaderIsNone(h);
    hide ParseHeader, PrintHeader;
    var q := Step(p, raw);
    assert q == Parser(AddTo(p.added, path, Span(h.after.start, h.after.count)), p.cur, h.before.count, h.after.count);
    RunBody(q, h.body);
    assert PrintHunk(h)[1..] == h.body;
  }

  lemma HeaderIsNone(h: Hunk)
    ensures var raw := PrintHeader(h.before, h.after, h.context);
            raw != [] && raw[0] == '@' && !InBody(raw) && !StartsWith(raw, "+++ ")
  {
    var raw := PrintHeader(h.before, h.after, h.context);
    assert raw[..4][0] == '@';
  }

  /** What matters of it afterwards. */
  lemma AfterHunk(p: Parser, h: Hunk, path: string)
    requires HunkOk(h) && p.cur == Some(path)
    ensures var q := Run(p, PrintHunk(h));
            && q.added == AddTo(p.added, path, Span(h.after.start, h.after.count)) && path in q.added
            && q.cur == Some(path) && (Complete(h) ==> Between(q))
  {
    RunHunk(p, h, path);
    hide PrintHunk, Run, Olds, News, Span;
  }

  lemma {:induction false} RunHunks(p: Parser, hunks: seq<Hunk>, path: string)
    requires (forall h <- hunks :: HunkOk(h)) && p.cur == Some(path) && path in p.added
    ensures var q := Run(p, PrintHunks(hunks));
            && q.added == AddTo(p.added, path, HunkLines(hunks))
            && (Between(p) && hunks == [] ==> Between(q))
            && (hunks != [] && Complete(hunks[|hunks| - 1]) ==> Between(q))
    decreases |hunks|
  {
    if hunks == [] {
      assert p.added[path] + {} == p.added[path];
      assert AddTo(p.added, path, {}) == p.added;
    } else {
      var h, rest := hunks[0], hunks[1..];
      AfterHunk(p, h, path);
      RunAppend(p, PrintHunk(h), PrintHunks(rest));
      AddTwice(p.added, path, Span(h.after.start, h.after.count), HunkLines(rest));
      hide HunkOk, Run, Span, PrintHunk, AddTo, Complete, Between;
      RunHunks(Run(p, PrintHunk(h)), rest, path);
      assert rest != [] ==> rest[|rest| - 1] == hunks[|hunks| - 1];
    }
  }

  lemma AddTwice(added: map<string, set<nat>>, path: string, a: set<nat>, b: set<nat>)
    ensures AddTo(AddTo(added, path, a), path, b) == AddTo(added, path, a + b)
  {
    var was := if path in added then added[path] else {};
    assert was + a + b == was + (a + b);
  }

  // ----- one file, and all of them -----

  lemma {:induction false} RunPreamble(p: Parser, lines: seq<string>)
    requires (forall l <- lines :: Quiet(l)) && (Between(p) || (lines != [] && !InBody(lines[0])))
    ensures Run(p, lines) == p.(oldLeft := 0, newLeft := 0)
    decreases |lines|
  {
    if lines != [] {
      assert Quiet(lines[0]);
      assert Step(p, lines[0]) == p.(oldLeft := 0, newLeft := 0);
      hide Step;
      RunPreamble(p.(oldLeft := 0, newLeft := 0), lines[1..]);
    }
  }

  lemma UpToTabOf(path: string, rest: string)
    requires '\t' !in path
    ensures UpToTab(path) == path && UpToTab(path + "\t" + rest) == path
  {
    if path == [] {
      assert path + "\t" + rest == "\t" + rest;
    } else {
      UpToTabOf(path[1..], rest);
      assert (path + "\t" + rest)[1..] == path[1..] + "\t" + rest;
      assert path == [path[0]] + path[1..];
    }
  }

  lemma FileHeader(p: Parser, rest: string, target: string)
    requires p.oldLeft == 0 && p.newLeft == 0 && UpToTab(rest) == target
    ensures Run(p, ["+++ " + rest])
         == if target == "/dev/null" then p.(cur := None)
            else
              var path := if StartsWith(target, "b/") then target[2..] else target;
              p.(cur := Some(path), added := AddTo(p.added, path, {}))
  {
    hide ParseHeader, UpToTab, AddTo;
    var raw := "+++ " + rest;
    assert raw[..4] == "+++ " && raw[4..] == rest;
    var lines := [raw];
    assert lines[1..] == [];
    assert Run(p, [raw]) == Run(Step(p, raw), []);
  }

  lemma RunTarget(p: Parser, t: Target)
    requires Between(p) && (t.Path? ==> '\t' !in t.path)
    requires t.Path? && t.bare ==> !StartsWith(t.path, "b/") && t.path != "/dev/null"
    ensures Run(p, PrintTarget(t))
         == match t
            case NoHunks => p
            case Deleted => p.(cur := None)
            case Path(path, _, _) => p.(cur := Some(path), added := AddTo(p.added, path, {}))
  {
    hide Step, ParseHeader, UpToTab, AddTo;
    match t {
      case NoHunks =>
      case Deleted =>
        UpToTabOf("/dev/null", "");
        FileHeader(p, "/dev/null", "/dev/null");
      case Path(path, bare, tabbed) =>
        var name := if bare then path else "b/" + path;
        UpToTabOf(name, if tabbed.None? then "" else tabbed.value);
        FileHeader(p, if tabbed.None? then name else name + "\t" + tabbed.value, name);
        if !bare {
          assert name[..2] == "b/" && name[2..] == path && name[0] != "/dev/null"[0];
        }
    }
  }

  /** The hunks of a deleted file are not followed, and their lines are nothing else. */
  lemma {:induction false} RunDeleted(p: Parser, hunks: seq<Hunk>)
    requires (forall h <- hunks :: AddsNothing(h)) && p.cur == None && Between(p)
    ensures Run(p, PrintHunks(hunks)) == p
    decreases |hunks|
  {
    if hunks != [] {
      var h := hunks[0];
      NoneAdded(h);
      RunIgnored(p, PrintHunk(h));
      hide PrintHunk, AddsNothing, Begun;
      RunAppend(p, PrintHunk(h), PrintHunks(hunks[1..]));
      RunDeleted(p, hunks[1..]);
    }
  }

  lemma NoneAdded(h: Hunk)
    requires AddsNothing(h)
    ensures forall l <- PrintHunk(h) :: l != [] && !Begun(l, '+')
  {
    HeaderIsNone(h);
    var raw := PrintHeader(h.before, h.after, h.context);
    hide PrintHeader;
    forall l <- PrintHunk(h)
      ensures l != [] && !Begun(l, '+')
    {
      assert l in [raw] + h.body;
      assert l == raw || l in h.body;
    }
  }

  lemma {:induction false} RunIgnored(p: Parser, lines: seq<string>)
    requires p.cur == None && Between(p) && forall l <- lines :: l != [] && !Begun(l, '+')
    ensures Run(p, lines) == p
    decreases |lines|
  {
    if lines != [] {
      assert lines[0] in lines && lines[0][0] != '+';
      assert forall l <- lines[1..] :: l in lines;
      assert |lines[0]| >= 4 ==> lines[0][..4][0] == lines[0][0];
      RunIgnored(p, lines[1..]);
    }
  }

  lemma RunSection(p: Parser, s: Section)
    requires SectionOk(s) && (Between(p) || Begins(s))
    ensures var q := Run(p, PrintSection(s));
            && (Ends(s) ==> Between(q))
            && q.added == if s.target.Path? then AddTo(p.added, s.target.path, HunkLines(s.hunks)) else p.added
  {
    hide Step, PrintHunks, HunkOk, Quiet, PrintTarget, InBody, Complete;
    RunPreamble(p, s.preamble);
    var p0 := p.(oldLeft := 0, newLeft := 0);
    RunTarget(p0, s.target);
    var p1 := Run(p0, PrintTarget(s.target));
    RunAppend(p, s.preamble, PrintTarget(s.target) + PrintHunks(s.hunks));
    RunAppend(p0, PrintTarget(s.target), PrintHunks(s.hunks));
    match s.target {
      case NoHunks => RunNone(p1);
      case Deleted => RunDeleted(p1, s.hunks);
      case Path(path, _, _) =>
        RunHunks(p1, s.hunks, path);
        AddTwice(p.added, path, {}, HunkLines(s.hunks));
        assert {} + HunkLines(s.hunks) == HunkLines(s.hunks);
    }
  }

  lemma RunNone(p: Parser)
    ensures Run(p, PrintHunks([])) == p
  {
  }

  lemma {:induction false} RunSections(p: Parser, sections: seq<Section>)
    requires DiffOk(sections) && (Between(p) || (sections != [] && Begins(sections[0])))
    ensures Run(p, PrintDiff(sections)).added == Expected(p.added, sections)
    decreases |sections|
  {
    if sections != [] {
      var s, rest := sections[0], sections[1..];
      RunSection(p, s);
      RunAppend(p, PrintSection(s), PrintDiff(rest));
      forall i: nat | i + 1 < |rest|
        ensures Ends(rest[i]) || Begins(rest[i + 1])
      {
        assert Ends(sections[i + 1]) || Begins(sections[i + 1 + 1]);
      }
      assert rest != [] ==> Ends(sections[0]) || Begins(sections[0 + 1]);
      hide Step, PrintSection, SectionOk, HunkLines, Ends, Begins;
      if rest == [] {
        assert Expected(Run(p, PrintSection(s)).added, rest) == Run(p, PrintSection(s)).added;
        assert PrintDiff(rest) == [];
      } else {
        RunSections(Run(p, PrintSection(s)), rest);
      }
    }
  }

  /** Of any diff git prints, and of one with hunks cut short where the next line shows it, the parser finds for every
      path exactly the lines its hunks announce, whatever the lines themselves look like. */
  lemma ParsePrintedDiff(sections: seq<Section>)
    requires DiffOk(sections)
    ensures Run(START, PrintDiff(sections)).added == Expected(map[], sections)
  {
    RunSections(START, sections);
  }

  /** What that map says: a line is added to a path when a hunk of a file of that path covers it. */
  lemma {:induction false} ExpectedIs(added: map<string, set<nat>>, sections: seq<Section>, path: string, n: nat)
    ensures path in Expected(added, sections)
       <==> path in added || exists s <- sections :: s.target.Path? && s.target.path == path
    ensures path in Expected(added, sections) ==>
              (n in Expected(added, sections)[path] <==>
                 (path in added && n in added[path])
                 || exists s <- sections :: s.target.Path? && s.target.path == path && Covers(s.hunks, n))
    decreases |sections|
  {
    if sections != [] {
      var s, rest := sections[0], sections[1..];
      assert sections == [s] + rest;
      CoversIs(s.hunks, n);
      hide Covers, HunkLines;
      ExpectedIs(if s.target.Path? then AddTo(added, s.target.path, HunkLines(s.hunks)) else added, rest, path, n);
    }
  }

  predicate Covers(hunks: seq<Hunk>, n: nat) { exists h <- hunks :: InRange(h, n) }

  predicate InRange(h: Hunk, n: nat) { h.after.start <= n < h.after.start + h.after.count }

  lemma {:induction false} CoversIs(hunks: seq<Hunk>, n: nat)
    ensures n in HunkLines(hunks) <==> Covers(hunks, n)
    decreases |hunks|
  {
    if hunks != [] {
      assert hunks == [hunks[0]] + hunks[1..];
      SpanIs(hunks[0].after.start, hunks[0].after.count, n);
      CoversIs(hunks[1..], n);
      assert Covers(hunks, n) <==> InRange(hunks[0], n) || Covers(hunks[1..], n);
    }
  }

  /** The numbers of the added lines of a hunk: each line of the new text takes one, added or not. */
  function Numbered(body: seq<string>, start: nat): set<nat>
    decreases |body|
  {
    if body == [] then {}
    else if Begun(body[0], '+') then {start} + Numbered(body[1..], start + 1)
    else Numbered(body[1..], if Begun(body[0], ' ') then start + 1 else start)
  }

  /** With -U0 a hunk has no line of context, and the range of a complete one is exactly its added lines. */
  lemma {:induction false} RangeIsAdded(body: seq<string>, start: nat, n: nat)
    requires forall l <- body :: !Begun(l, ' ')
    ensures n in Numbered(body, start) <==> start <= n < start + News(body)
    decreases |body|
  {
    if body != [] {
      var l := body[0];
      assert body == [l] + body[1..];
      RangeIsAdded(body[1..], if Begun(l, '+') then start + 1 else start, n);
    }
  }

  // ----- scan_exclusions -----

  /** The lcov marker found in a line of a source file, and whether a reason follows it. */
  datatype Marker = Plain | ExclLine(reason: bool) | ExclStart(reason: bool) | ExclStop

  /** Line k holds a START that no STOP closes up to line n; lines are counted from 1. */
  predicate Opens(marks: seq<Marker>, k: nat, n: nat)
    requires n <= |marks|
  {
    0 < k <= n && marks[k - 1].ExclStart? && forall j | k <= j < n :: !marks[j].ExclStop?
  }

  /** The first START still open after line n, 0 when there is none. */
  function OpenStart(marks: seq<Marker>, n: nat): nat
    requires n <= |marks|
  {
    if n == 0 || marks[n - 1].ExclStop? then 0
    else if OpenStart(marks, n - 1) == 0 && marks[n - 1].ExclStart? then n
    else OpenStart(marks, n - 1)
  }

  lemma {:induction false} OpenStartIs(marks: seq<Marker>, n: nat, k: nat)
    requires n <= |marks|
    ensures OpenStart(marks, n) > 0 ==> Opens(marks, OpenStart(marks, n), n)
    ensures Opens(marks, k, n) ==> 0 < OpenStart(marks, n) <= k
    decreases n
  {
    if n > 0 {
      OpenStartIs(marks, n - 1, k);
      if Opens(marks, k, n) && k < n {
        assert !marks[n - 1].ExclStop?;
        assert Opens(marks, k, n - 1);
      }
    }
  }

  /** Some START is still open after line n. */
  predicate Open(marks: seq<Marker>, n: nat)
    requires n <= |marks|
  {
    exists k | 0 < k <= n :: Opens(marks, k, n)
  }

  lemma OpenIs(marks: seq<Marker>, n: nat)
    requires n <= |marks|
    ensures Open(marks, n) <==> OpenStart(marks, n) > 0
  {
    OpenStartIs(marks, n, OpenStart(marks, n));
    hide OpenStart;
    if k :| 0 < k <= n && Opens(marks, k, n) {
      OpenStartIs(marks, n, k);
    }
  }

  /** What lcov drops, told from the markers alone. */
  predicate Hidden(marks: seq<Marker>, n: nat) { 0 < n <= |marks| && (!marks[n - 1].Plain? || Open(marks, n - 1)) }

  datatype Problem = NoReason(no: nat) | NeverClosed(no: nat)

  predicate Bare(m: Marker) { m == ExclLine(false) || m == ExclStart(false) }

  /** A line lcov drops: it is marked, or a START above it is still open. */
  predicate Dropped(marks: seq<Marker>, no: nat) {
    0 < no <= |marks| && (marks[no - 1] != Plain || OpenStart(marks, no - 1) > 0)
  }

  lemma DroppedIs(marks: seq<Marker>, no: nat)
    ensures Dropped(marks, no) <==> Hidden(marks, no)
  {
    if 0 < no <= |marks| {
      OpenIs(marks, no - 1);
    }
  }

  function ExcludedOf(marks: seq<Marker>): set<nat> { set no: nat | no <= |marks| && Dropped(marks, no) }

  /** The markers without a reason on added lines, from the top. */
  function BareOnes(marks: seq<Marker>, added: set<nat>): seq<Problem> {
    if marks == [] then []
    else BareOnes(marks[..|marks| - 1], added)
         + (if |marks| in added && Bare(marks[|marks| - 1]) then [NoReason(|marks|)] else [])
  }

  function ProblemsOf(marks: seq<Marker>, added: set<nat>): seq<Problem> {
    var at := OpenStart(marks, |marks|);
    BareOnes(marks, added) + (if at > 0 && exists n <- added :: n >= at then [NeverClosed(at)] else [])
  }

  lemma NoneBare(added: set<nat>)
    ensures BareOnes([], added) == []
  {
  }

  lemma BarePush(marks: seq<Marker>, m: Marker, added: set<nat>)
    ensures BareOnes(marks + [m], added)
         == BareOnes(marks, added) + (if |marks| + 1 in added && Bare(m) then [NoReason(|marks| + 1)] else [])
  {
    assert (marks + [m])[..|marks|] == marks;
  }

  /** What the scan has to find: every line lcov drops, marked itself or below a START that is still open, and
      every marker the diff has to answer for. */
  method ScanExclusions(marks: seq<Marker>, added: set<nat>) returns (excluded: set<nat>, problems: seq<Problem>)
    ensures excluded == ExcludedOf(marks) && problems == ProblemsOf(marks, added)
    ensures forall no: nat :: no in excluded <==> Dropped(marks, no)
    ensures forall no: nat :: NoReason(no) in problems <==> 0 < no <= |marks| && no in added && Bare(marks[no - 1])
    ensures forall no: nat :: NeverClosed(no) in problems <==>
              no == OpenStart(marks, |marks|) && no > 0 && exists n <- added :: n >= no
  {
    hide BareOnes, Bare;
    excluded, problems := {}, [];
    assert BareOnes([], added) == [] by {
      NoneBare(added);
    }
    var openAt := 0;
    for i := 0 to |marks|
      invariant openAt == OpenStart(marks, i)
      invariant problems == BareOnes(marks[..i], added)
      invariant forall no: nat :: no in excluded <==> no <= i && Dropped(marks, no)
      invariant forall no: nat :: NoReason(no) in problems <==> 0 < no <= i && no in added && Bare(marks[no - 1])
      invariant forall no: nat :: NeverClosed(no) !in problems
    {
      var no := i + 1;
      assert marks[..no] == marks[..i] + [marks[i]];
      BarePush(marks[..i], marks[i], added);
      match marks[i] {
        case Plain =>
          if openAt > 0 {
            excluded := excluded + {no};
          }
        case ExclLine(_) =>
          excluded := excluded + {no};
        case ExclStart(_) =>
          openAt := if openAt > 0 then openAt else no;
          excluded := excluded + {no};
        case ExclStop =>
          excluded := excluded + {no};
          openAt := 0;
      }
      if no in added && Bare(marks[i]) {
        problems := problems + [NoReason(no)];
      }
    }
    assert marks[..|marks|] == marks;
    if openAt > 0 && exists n <- added :: n >= openAt {
      problems := problems + [NeverClosed(openAt)];
    }
  }

  // ----- ranges -----

  /** A list of ranges, each from its first to its last number. */
  predicate InRanges(out: seq<(nat, nat)>, n: nat) { exists r <- out :: r.0 <= n <= r.1 }

  lemma InRangesPush(out: seq<(nat, nat)>, r: (nat, nat), n: nat)
    ensures InRanges(out + [r], n) <==> InRanges(out, n) || r.0 <= n <= r.1
  {
    assert (out + [r])[|out|] == r;
  }

  /** No two ranges touch. */
  predicate Apart(out: seq<(nat, nat)>) { forall i, j | 0 <= i < j < |out| :: out[i].1 + 1 < out[j].0 }

  /** The ranges hold the numbers. */
  ghost predicate Cover(out: seq<(nat, nat)>, numbers: seq<nat>) { forall n: nat :: InRanges(out, n) <==> n in numbers }

  predicate Proper(out: seq<(nat, nat)>) { forall r <- out :: r.0 <= r.1 }

  predicate Rising(out: seq<(nat, nat)>) { forall i, j | 0 <= i < j < |out| :: out[i].1 <= out[j].0 }

  predicate EndsWith(out: seq<(nat, nat)>, numbers: seq<nat>) {
    (out == [] <==> numbers == []) && (numbers != [] && out != [] ==> out[|out| - 1].1 == numbers[|numbers| - 1])
  }

  /** The ranges of the ordered numbers seen so far. */
  ghost predicate RangesOf(out: seq<(nat, nat)>, numbers: seq<nat>) {
    Cover(out, numbers) && Proper(out) && Rising(out) && EndsWith(out, numbers) && (Apart(out) <==> Sorted(numbers))
  }

  lemma SortedSnoc(numbers: seq<nat>, n: nat)
    requires Ordered(numbers + [n])
    ensures Sorted(numbers + [n]) <==> Sorted(numbers) && (numbers != [] ==> numbers[|numbers| - 1] < n)
  {
    var t := numbers + [n];
    if Sorted(t) {
      forall i, j | 0 <= i < j < |numbers|
        ensures numbers[i] < numbers[j]
      {
        assert t[i] < t[j];
      }
      assert numbers != [] ==> t[|numbers| - 1] < t[|numbers|];
    } else {
      var i, j :| 0 <= i < j < |t| && t[i] >= t[j];
      assert j == |numbers| ==> t[i] <= t[|numbers| - 1] <= t[j];
    }
  }

  lemma CoverExtends(first: seq<(nat, nat)>, last: (nat, nat), numbers: seq<nat>, n: nat)
    requires Cover(first + [last], numbers) && n == last.1 + 1 && last.0 <= last.1
    ensures Cover(first + [(last.0, n)], numbers + [n])
  {
    forall m: nat
      ensures InRanges(first + [(last.0, n)], m) <==> m in numbers + [n]
    {
      InRangesPush(first, last, m);
      InRangesPush(first, (last.0, n), m);
      assert InRanges(first + [last], m) <==> m in numbers;
      hide InRanges;
    }
  }

  lemma CoverStarts(out: seq<(nat, nat)>, numbers: seq<nat>, n: nat)
    requires Cover(out, numbers)
    ensures Cover(out + [(n, n)], numbers + [n])
  {
    forall m: nat
      ensures InRanges(out + [(n, n)], m) <==> m in numbers + [n]
    {
      InRangesPush(out, (n, n), m);
      assert InRanges(out, m) <==> m in numbers;
      hide InRanges;
    }
  }

  /** Only the first number of a range counts for those before it. */
  lemma SameStarts(first: seq<(nat, nat)>, a: (nat, nat), b: (nat, nat))
    requires a.0 == b.0
    ensures Apart(first + [a]) <==> Apart(first + [b])
    ensures Rising(first + [a]) <==> Rising(first + [b])
  {
    var s, t := first + [a], first + [b];
    assert forall i | 0 <= i < |s| :: s[i].0 == t[i].0;
    assert forall i | 0 <= i < |s| - 1 :: s[i] == t[i];
  }

  /** A new range lies apart from the others if and only if it does from the last one. */
  lemma ApartPush(out: seq<(nat, nat)>, n: nat)
    requires Proper(out) && Rising(out) && (out != [] ==> out[|out| - 1].1 <= n)
    ensures Rising(out + [(n, n)])
    ensures Apart(out + [(n, n)]) <==> Apart(out) && (out != [] ==> out[|out| - 1].1 + 1 < n)
  {
    var t := out + [(n, n)];
    assert forall i | 0 <= i < |out| :: t[i] == out[i];
    forall i | 0 <= i < |out|
      ensures out[i].1 <= out[|out| - 1].1
    {
      assert out[|out| - 1] in out;
    }
    if Apart(t) {
      assert out != [] ==> t[|out| - 1].1 + 1 < t[|out|].0;
      forall i, j | 0 <= i < j < |out|
        ensures out[i].1 + 1 < out[j].0
      {
        assert t[i].1 + 1 < t[j].0;
      }
    }
  }

  lemma RangeExtends(first: seq<(nat, nat)>, last: (nat, nat), numbers: seq<nat>, n: nat)
    requires RangesOf(first + [last], numbers) && n == last.1 + 1 && Ordered(numbers + [n])
    ensures RangesOf(first + [(last.0, n)], numbers + [n])
  {
    var out, now := first + [last], first + [(last.0, n)];
    assert out[|out| - 1] == last && last in out;
    SortedSnoc(numbers, n);
    CoverExtends(first, last, numbers, n);
    SameStarts(first, last, (last.0, n));
    assert Proper(now) by {
      assert forall r <- now :: r == (last.0, n) || r in out;
    }
    hide Cover, Apart, Rising, Proper, Sorted, Ordered;
  }

  lemma RangeStarts(out: seq<(nat, nat)>, numbers: seq<nat>, n: nat)
    requires RangesOf(out, numbers) && (out == [] || n != out[|out| - 1].1 + 1) && Ordered(numbers + [n])
    ensures RangesOf(out + [(n, n)], numbers + [n])
  {
    SortedSnoc(numbers, n);
    if numbers != [] {
      assert (numbers + [n])[|numbers| - 1] <= (numbers + [n])[|numbers|];
    }
    CoverStarts(out, numbers, n);
    ApartPush(out, n);
    assert Proper(out + [(n, n)]) by {
      assert forall r <- out + [(n, n)] :: r == (n, n) || r in out;
    }
    hide Cover, Apart, Rising, Proper, Sorted, Ordered;
  }

  /** The ranges cover exactly the numbers, and no two of them touch, so that there are as few as can be, unless a
      number comes twice. */
  method Ranges(numbers: seq<nat>) returns (out: seq<(nat, nat)>)
    ensures forall n: nat :: InRanges(out, n) <==> n in numbers
    ensures forall r <- out :: r.0 <= r.1
    ensures Apart(out) <==> Distinct(numbers)
  {
    var sorted := SortNumbers(numbers);
    out := [];
    for i := 0 to |sorted|
      invariant RangesOf(out, sorted[..i])
    {
      var n := sorted[i];
      assert sorted[..i + 1] == sorted[..i] + [n];
      hide RangesOf;
      if out != [] && n == out[|out| - 1].1 + 1 {
        assert out == out[..|out| - 1] + [out[|out| - 1]];
        RangeExtends(out[..|out| - 1], out[|out| - 1], sorted[..i], n);
        out := out[..|out| - 1] + [(out[|out| - 1].0, n)];
      } else {
        RangeStarts(out, sorted[..i], n);
        out := out + [(n, n)];
      }
    }
    assert sorted[..|sorted|] == sorted;
  }

  // ----- evaluate -----

  /** A file of the diff, with what the gate knows of it: its source, line by line, and its coverage. */
  datatype File = File(gated: bool, added: seq<nat>, marks: seq<Marker>, trivia: set<nat>, unit: bool,
                       data: Option<map<nat, nat>>)

  datatype Bucket = Excluded | NoData | NonExec | Covered | Uncovered

  function BucketOf(f: File, excluded: set<nat>, n: nat): Bucket {
    if n in excluded then Excluded
    else if f.data.None? then (if f.unit && n !in f.trivia then NoData else NonExec)
    else if n !in f.data.value then NonExec
    else if f.data.value[n] > 0 then Covered
    else Uncovered
  }

  function Filter(f: File, excluded: set<nat>, lines: seq<nat>, b: Bucket): seq<nat> {
    if lines == [] then []
    else Filter(f, excluded, lines[..|lines| - 1], b)
         + (if BucketOf(f, excluded, lines[|lines| - 1]) == b then [lines[|lines| - 1]] else [])
  }

  /** The five heaps of one file. */
  datatype Heaps = Heaps(nonExec: nat, covered: nat, uncovered: seq<nat>, excluded: seq<nat>, nodata: seq<nat>) {
    function Total(): nat { nonExec + covered + |uncovered| + |excluded| + |nodata| }
  }

  function HeapsOf(f: File, excluded: set<nat>, lines: seq<nat>): Heaps {
    Heaps(|Filter(f, excluded, lines, NonExec)|, |Filter(f, excluded, lines, Covered)|,
          Filter(f, excluded, lines, Uncovered), Filter(f, excluded, lines, Excluded),
          Filter(f, excluded, lines, NoData))
  }

  /** Every line lands on exactly one heap. */
  method SortLines(f: File, excluded: set<nat>) returns (h: Heaps)
    ensures h == HeapsOf(f, excluded, f.added) && h.Total() == |f.added|
  {
    h := Heaps(0, 0, [], [], []);
    for i := 0 to |f.added|
      invariant h == HeapsOf(f, excluded, f.added[..i]) && h.Total() == i
    {
      var n := f.added[i];
      assert f.added[..i + 1][..i] == f.added[..i];
      if n in excluded {
        h := h.(excluded := h.excluded + [n]);
      } else if f.data.None? {
        if f.unit && n !in f.trivia {
          h := h.(nodata := h.nodata + [n]);
        } else {
          h := h.(nonExec := h.nonExec + 1);
        }
      } else if n !in f.data.value {
        h := h.(nonExec := h.nonExec + 1);
      } else if f.data.value[n] > 0 {
        h := h.(covered := h.covered + 1);
      } else {
        h := h.(uncovered := h.uncovered + [n]);
      }
    }
    assert f.added[..|f.added|] == f.added;
  }

  /** A problem and the file it was found in. */
  datatype Charge = Charge(file: nat, problem: Problem)

  datatype Result = Result(added: nat, skipped: nat, heaps: seq<Heaps>, problems: seq<Charge>)

  function AddedIn(files: seq<File>, gated: bool): nat {
    if files == [] then 0
    else AddedIn(files[..|files| - 1], gated)
         + (if files[|files| - 1].gated == gated then |files[|files| - 1].added| else 0)
  }

  function Totals(heaps: seq<Heaps>): nat {
    if heaps == [] then 0 else Totals(heaps[..|heaps| - 1]) + heaps[|heaps| - 1].Total()
  }

  /** The files the gate looks at. */
  predicate Counts(f: File) { f.gated && f.added != [] }

  /** The heaps of every file that counts, in order. */
  function HeapsIn(files: seq<File>): seq<Heaps> {
    if files == [] then []
    else
      var f := files[|files| - 1];
      HeapsIn(files[..|files| - 1]) + (if Counts(f) then [HeapsOf(f, ExcludedOf(f.marks), f.added)] else [])
  }

  function Charges(file: nat, problems: seq<Problem>): seq<Charge> {
    seq(|problems|, i requires 0 <= i < |problems| => Charge(file, problems[i]))
  }

  function Lines(f: File): set<nat> { set n | n in f.added }

  function ProblemsIn(files: seq<File>): seq<Charge> {
    if files == [] then []
    else
      var f := files[|files| - 1];
      ProblemsIn(files[..|files| - 1])
      + (if Counts(f) then Charges(|files| - 1, ProblemsOf(f.marks, Lines(f))) else [])
  }

  /** The diff speaks of lines the tree does not have. */
  predicate Stale(f: File) { f.gated && exists n <- f.added :: n > |f.marks| }

  lemma LastIsMost(f: File)
    requires Sorted(f.added)
    ensures Stale(f) <==> f.gated && f.added != [] && f.added[|f.added| - 1] > |f.marks|
  {
    if f.added != [] {
      var last := f.added[|f.added| - 1];
      assert last in f.added;
      forall n <- f.added
        ensures n <= last
      {
        var i :| 0 <= i < |f.added| && f.added[i] == n;
      }
    }
  }

  lemma FilesPush(files: seq<File>, f: File)
    ensures forall gated: bool ::
              AddedIn(files + [f], gated) == AddedIn(files, gated) + (if f.gated == gated then |f.added| else 0)
    ensures HeapsIn(files + [f])
         == HeapsIn(files) + (if Counts(f) then [HeapsOf(f, ExcludedOf(f.marks), f.added)] else [])
    ensures ProblemsIn(files + [f])
         == ProblemsIn(files) + (if Counts(f) then Charges(|files|, ProblemsOf(f.marks, Lines(f))) else [])
  {
    hide HeapsOf, ExcludedOf, ProblemsOf, Charges, Lines;
    assert (files + [f])[..|files|] == files;
  }

  lemma Nothing()
    ensures AddedIn([], true) == AddedIn([], false) == Totals([]) == 0 && HeapsIn([]) == [] && ProblemsIn([]) == []
  {
  }

  lemma TotalsPush(heaps: seq<Heaps>, h: Heaps)
    ensures Totals(heaps + [h]) == Totals(heaps) + h.Total()
  {
    assert (heaps + [h])[..|heaps|] == heaps;
  }

  /** What is counted is what the diff adds, heap by heap and file by file, inside the gate and outside; the input
      is refused exactly when a file of it is stale, which the last of its lines shows. */
  method Evaluate(files: seq<File>) returns (res: Option<Result>)
    requires forall f <- files :: Sorted(f.added)
    ensures res.None? <==> exists f <- files :: Stale(f)
    ensures res.Some? ==> res.value.skipped == AddedIn(files, false)
    ensures res.Some? ==> res.value.added == AddedIn(files, true) == Totals(res.value.heaps)
    ensures res.Some? ==> res.value.heaps == HeapsIn(files) && res.value.problems == ProblemsIn(files)
  {
    hide HeapsOf, ExcludedOf, ProblemsOf, Charges, Stale, Sorted, HeapsIn, ProblemsIn, AddedIn, Totals, Dropped, Bare,
         OpenStart;
    Nothing();
    var r := Result(0, 0, [], []);
    for i := 0 to |files|
      invariant forall j | 0 <= j < i :: !Stale(files[j])
      invariant r.skipped == AddedIn(files[..i], false)
      invariant r.added == AddedIn(files[..i], true) == Totals(r.heaps)
      invariant r.heaps == HeapsIn(files[..i]) && r.problems == ProblemsIn(files[..i])
    {
      var f := files[i];
      assert files[..i + 1] == files[..i] + [f];
      FilesPush(files[..i], f);
      LastIsMost(f);
      if !f.gated {
        r := r.(skipped := r.skipped + |f.added|);
      } else if f.added != [] {
        if f.added[|f.added| - 1] > |f.marks| {
          assert f in files;
          return None;
        }
        var excluded, problems := ScanExclusions(f.marks, Lines(f));
        var h := SortLines(f, excluded);
        TotalsPush(r.heaps, h);
        r := Result(r.added + |f.added|, r.skipped, r.heaps + [h], r.problems + Charges(i, problems));
      }
    }
    assert files[..|files|] == files;
    res := Some(r);
  }

  // ----- the gate -----

  /** The script fails. */
  predicate Fails(heaps: seq<Heaps>, problems: seq<Charge>) {
    (exists h <- heaps :: h.uncovered != [] || h.nodata != []) || problems != []
  }

  /** An added line that was not run, or that nothing is known of. */
  predicate Unrun(f: File, n: nat) {
    && !Hidden(f.marks, n)
    && match f.data
       case None => f.unit && n !in f.trivia
       case Some(data) => n in data && data[n] == 0
  }

  /** An added line with an exclusion without a reason, or below one that is never closed. */
  predicate Unjustified(f: File, n: nat) {
    || (0 < n <= |f.marks| && f.marks[n - 1] in {ExclLine(false), ExclStart(false)})
    || exists k | 0 < k <= n && k <= |f.marks| :: Opens(f.marks, k, |f.marks|)
  }

  lemma {:induction false} FilterIs(f: File, excluded: set<nat>, lines: seq<nat>, b: Bucket, n: nat)
    ensures n in Filter(f, excluded, lines, b) <==> n in lines && BucketOf(f, excluded, n) == b
    decreases |lines|
  {
    if lines != [] {
      hide BucketOf;
      FilterIs(f, excluded, lines[..|lines| - 1], b, n);
      assert lines == lines[..|lines| - 1] + [lines[|lines| - 1]];
    }
  }

  lemma {:induction false} BareOnesIs(marks: seq<Marker>, added: set<nat>)
    ensures BareOnes(marks, added) != [] <==> exists n <- added :: 0 < n <= |marks| && Bare(marks[n - 1])
    decreases |marks|
  {
    if marks != [] {
      hide Bare;
      var shorter := marks[..|marks| - 1];
      BareOnesIs(shorter, added);
      if n: nat :| n in added && 0 < n <= |marks| && Bare(marks[n - 1]) && n != |marks| {
        assert Bare(shorter[n - 1]);
      }
    }
  }

  lemma UnrunIs(f: File)
    ensures var h := HeapsOf(f, ExcludedOf(f.marks), f.added);
            h.uncovered != [] || h.nodata != [] <==> exists n <- f.added :: Unrun(f, n)
  {
    var excluded := ExcludedOf(f.marks);
    var uncovered, nodata := Filter(f, excluded, f.added, Uncovered), Filter(f, excluded, f.added, NoData);
    forall n: nat
      ensures n in uncovered || n in nodata <==> n in f.added && Unrun(f, n)
    {
      FilterIs(f, excluded, f.added, Uncovered, n);
      FilterIs(f, excluded, f.added, NoData, n);
      hide Filter, Hidden;
      assert n in excluded <==> Hidden(f.marks, n) by {
        ExcludedIs(f.marks, n);
      }
      hide ExcludedOf;
    }
    hide Filter, Unrun, ExcludedOf;
    assert uncovered != [] ==> uncovered[0] in uncovered;
    assert nodata != [] ==> nodata[0] in nodata;
  }

  lemma ExcludedIs(marks: seq<Marker>, n: nat)
    ensures n in ExcludedOf(marks) <==> Hidden(marks, n)
  {
    DroppedIs(marks, n);
    hide Hidden;
  }

  lemma UnjustifiedIs(f: File)
    ensures ProblemsOf(f.marks, Lines(f)) != [] <==> exists n <- f.added :: Unjustified(f, n)
  {
    BareOnesIs(f.marks, Lines(f));
    hide BareOnes, OpenStart;
    var at := OpenStart(f.marks, |f.marks|);
    assert forall n :: n in Lines(f) <==> n in f.added;
    assert at > 0 && (exists n <- Lines(f) :: n >= at) <==> exists n <- f.added :: 0 < at <= n;
    forall n <- f.added
      ensures Unjustified(f, n) <==> (0 < n <= |f.marks| && Bare(f.marks[n - 1])) || 0 < at <= n
    {
      OpenStartIs(f.marks, |f.marks|, at);
      if k :| 0 < k <= n && k <= |f.marks| && Opens(f.marks, k, |f.marks|) {
        OpenStartIs(f.marks, |f.marks|, k);
      }
      hide Opens;
    }
    hide Unjustified, Bare;
  }

  /** The gate fails if and only if some gated file of the diff adds a line that was not run or is not known of,
      or one whose exclusion is not justified. */
  lemma {:induction false} GateIsExact(files: seq<File>)
    ensures Fails(HeapsIn(files), ProblemsIn(files))
       <==> exists f <- files :: f.gated && exists n <- f.added :: Unrun(f, n) || Unjustified(f, n)
    decreases |files|
  {
    if files != [] {
      hide HeapsOf, ProblemsOf, ExcludedOf, Unrun, Unjustified;
      var shorter, f := files[..|files| - 1], files[|files| - 1];
      assert files == shorter + [f];
      GateIsExact(shorter);
      UnrunIs(f);
      UnjustifiedIs(f);
      var heaps := HeapsIn(shorter);
      assert forall h <- HeapsIn(files) :: h in heaps || (Counts(f) && h == HeapsOf(f, ExcludedOf(f.marks), f.added));
      assert forall h <- heaps :: h in HeapsIn(files);
      if Counts(f) {
        assert HeapsIn(files)[|heaps|] == HeapsOf(f, ExcludedOf(f.marks), f.added);
      }
    }
  }
}
