/** editDistance() and suggest() of src/lib/ConfigOptions.cpp: the Levenshtein distance in two rows,
    and the option key proposed for an unknown one. */
module EditDistance {

  function Min(x: int, y: int): int { if y < x then y else x }

  function Cost(x: char, y: char): nat { if x == y then 0 else 1 }

  function Last(s: string): char
    requires s != ""
  {
    s[|s| - 1]
  }

  function Front(s: string): string
    requires s != ""
  {
    s[..|s| - 1]
  }

  /** The Levenshtein distance, by its recursive definition on the last characters. */
  function Lev(a: string, b: string): (d: nat)
    decreases |a| + |b|
  {
    if a == "" then |b|
    else if b == "" then |a|
    else Min(Min(Lev(a, Front(b)) + 1, Lev(Front(a), b) + 1), Lev(Front(a), Front(b)) + Cost(Last(a), Last(b)))
  }

  // ----- the two rows -----

  /** Row i of the table: the distances of a[..i] to every prefix of b. */
  ghost predicate IsRow(row: seq<int>, a: string, i: nat, b: string, upTo: nat)
    requires i <= |a|
  {
    |row| == |b| + 1 && upTo <= |row| && forall j :: 0 <= j < upTo ==> row[j] == Lev(a[..i], b[..j])
  }

  lemma {:induction false} Prefixes(s: string, k: nat)
    requires 0 < k <= |s|
    ensures s[..k] != "" && Front(s[..k]) == s[..k - 1] && Last(s[..k]) == s[k - 1]
  {
  }

  lemma {:induction false} Cell(a: string, i: nat, b: string, j: nat)
    requires 0 < i <= |a| && 0 < j <= |b|
    ensures Lev(a[..i], b[..j])
         == Min(Min(Lev(a[..i], b[..j - 1]) + 1, Lev(a[..i - 1], b[..j]) + 1),
                Lev(a[..i - 1], b[..j - 1]) + Cost(a[i - 1], b[j - 1]))
  {
    hide Lev;
    Prefixes(a, i);
    Prefixes(b, j);
    LevStep(a[..i], b[..j]);
  }

  lemma {:induction false} LevStep(a: string, b: string)
    requires a != "" && b != ""
    ensures Lev(a, b) == Min(Min(Lev(a, Front(b)) + 1, Lev(Front(a), b) + 1),
                             Lev(Front(a), Front(b)) + Cost(Last(a), Last(b)))
  {
  }

  method EditDistance(a: string, b: string) returns (d: int)
    ensures d == Lev(a, b)
  {
    hide Lev;
    var prev, cur := new int[|b| + 1], new int[|b| + 1];
    var j := 0;
    while j <= |b|
      invariant 0 <= j <= |b| + 1
      invariant forall k :: 0 <= k < j ==> prev[k] == k
    {
      prev[j] := j;
      j := j + 1;
    }
    forall k | 0 <= k <= |b|
      ensures prev[k] == Lev(a[..0], b[..k])
    {
      LevEmpty(b[..k]);
    }
    var i := 1;
    while i <= |a|
      invariant 1 <= i <= |a| + 1
      invariant IsRow(prev[..], a, i - 1, b, |b| + 1)
    {
      cur[0] := i;
      LevEmpty(a[..i]);
      assert b[..0] == "";
      j := 1;
      while j <= |b|
        invariant 1 <= j <= |b| + 1
        invariant IsRow(prev[..], a, i - 1, b, |b| + 1)
        invariant IsRow(cur[..], a, i, b, j)
      {
        Cell(a, i, b, j);
        assert prev[j] == prev[..][j] && prev[j - 1] == prev[..][j - 1] && cur[j - 1] == cur[..][j - 1];
        var cost := if a[i - 1] == b[j - 1] then 0 else 1;
        cur[j] := Min(Min(cur[j - 1] + 1, prev[j] + 1), prev[j - 1] + cost);
        j := j + 1;
      }
      forall k | 0 <= k < prev.Length { prev[k] := cur[k]; }
      assert prev[..] == cur[..];
      i := i + 1;
    }
    assert a[..|a|] == a && b[..|b|] == b;
    assert prev[|b|] == prev[..][|b|];
    d := prev[|b|];
  }

  lemma {:induction false} LevEmpty(s: string)
    ensures Lev("", s) == |s| && Lev(s, "") == |s|
  {
  }

  // ----- a metric -----

  lemma {:induction false} Symmetric(a: string, b: string)
    ensures Lev(a, b) == Lev(b, a)
    decreases |a| + |b|
  {
    if a != "" && b != "" {
      Symmetric(a, Front(b));
      Symmetric(Front(a), b);
      Symmetric(Front(a), Front(b));
    }
  }

  /** The lengths already cost their difference. */
  lemma {:induction false} LengthBound(a: string, b: string)
    ensures Lev(a, b) >= |a| - |b| && Lev(a, b) >= |b| - |a|
    decreases |a| + |b|
  {
    if a != "" && b != "" {
      LengthBound(a, Front(b));
      LengthBound(Front(a), b);
      LengthBound(Front(a), Front(b));
    }
  }

  lemma {:induction false} ZeroIffEqual(a: string, b: string)
    ensures Lev(a, b) == 0 <==> a == b
    decreases |a| + |b|
  {
    if a != "" && b != "" {
      ZeroIffEqual(Front(a), Front(b));
      assert a == Front(a) + [Last(a)] && b == Front(b) + [Last(b)];
    }
  }

  lemma {:induction false} Triangle(a: string, b: string, c: string)
    ensures Lev(a, c) <= Lev(a, b) + Lev(b, c)
    decreases |a| + |b| + |c|
  {
    if a == "" {
      LengthBound(b, c);
    } else if b == "" {
      LengthBound(a, c);
      UpperBound(a, c);
    } else if c == "" {
      LengthBound(a, b);
    } else {
      var x, y, z := Front(a), Front(b), Front(c);
      if Lev(a, b) == Lev(x, b) + 1 {
        Triangle(x, b, c);
      } else if Lev(b, c) == Lev(b, z) + 1 {
        Triangle(a, b, z);
      } else if Lev(a, b) == Lev(a, y) + 1 {
        TriangleInsert(a, b, c);
      } else if Lev(b, c) == Lev(y, c) + 1 {
        Triangle(x, y, c);
      } else {
        Triangle(x, y, z);
      }
    }
  }

  lemma {:induction false} TriangleInsert(a: string, b: string, c: string)
    requires a != "" && b != "" && c != "" && Lev(a, b) == Lev(a, Front(b)) + 1 && Lev(b, c) != Lev(b, Front(c)) + 1
    ensures Lev(a, c) <= Lev(a, b) + Lev(b, c)
    decreases |a| + |b| + |c|, 0
  {
    if Lev(b, c) == Lev(Front(b), c) + 1 {
      Triangle(a, Front(b), c);
    } else {
      Triangle(a, Front(b), Front(c));
    }
  }

  lemma {:induction false} UpperBound(a: string, b: string)
    ensures Lev(a, b) <= |a| + |b|
    decreases |a| + |b|
  {
    if a != "" && b != "" {
      UpperBound(a, Front(b));
    }
  }

  // ----- the distance is the least number of edits -----

  /** One insertion, deletion or replacement of a character. */
  datatype Edit = Insert(at: nat, c: char) | Delete(at: nat) | Replace(at: nat, c: char)
  {
    predicate Fits(s: string) {
      if Insert? then at <= |s| else at < |s|
    }

    function Apply(s: string): string
      requires Fits(s)
    {
      match this
      case Insert(at, c) => s[..at] + [c] + s[at..]
      case Delete(at) => s[..at] + s[at + 1..]
      case Replace(at, c) => s[..at] + [c] + s[at + 1..]
    }
  }

  ghost predicate OneEdit(s: string, t: string) {
    exists e: Edit :: e.Fits(s) && e.Apply(s) == t
  }

  /** A way from a to b, one edit at a time. */
  ghost predicate IsPath(p: seq<string>, a: string, b: string) {
    && p != [] && p[0] == a && p[|p| - 1] == b
    && forall i :: 0 < i < |p| ==> OneEdit(p[i - 1], p[i])
  }

  lemma {:induction false} CommonTail(u: string, w: string, v: string)
    ensures Lev(u + v, w + v) <= Lev(u, w)
    decreases |v|
  {
    if v == "" {
      assert u + v == u && w + v == w;
    } else {
      var v', x := Front(v), Last(v);
      assert v == v' + [x];
      assert Front(u + v) == u + v' && Front(w + v) == w + v';
      LevStep(u + v, w + v);
      CommonTail(u, w, v');
    }
  }

  lemma {:induction false} LastEdited(u: string, c: char, x: char)
    ensures Lev(u, u + [c]) <= 1 && Lev(u + [c], u) <= 1 && Lev(u + [x], u + [c]) <= 1
  {
    ZeroIffEqual(u, u);
    assert Front(u + [c]) == u && Front(u + [x]) == u;
    if u != "" {
      LevStep(u, u + [c]);
      LevStep(u + [c], u);
    }
    LevStep(u + [x], u + [c]);
  }

  lemma {:induction false} EditCostsOne(s: string, e: Edit)
    requires e.Fits(s)
    ensures Lev(s, e.Apply(s)) <= 1
  {
    var u := s[..e.at];
    match e
    case Insert(at, c) =>
      assert s == u + s[at..];
      LastEdited(u, c, c);
      CommonTail(u, u + [c], s[at..]);
    case Delete(at) =>
      assert s == u + [s[at]] + s[at + 1..];
      LastEdited(u, s[at], s[at]);
      CommonTail(u + [s[at]], u, s[at + 1..]);
    case Replace(at, c) =>
      assert s == u + [s[at]] + s[at + 1..];
      LastEdited(u, c, s[at]);
      CommonTail(u + [s[at]], u + [c], s[at + 1..]);
  }

  /** No way from a to b is shorter than the distance. */
  lemma {:induction false} NoShorterPath(p: seq<string>, a: string, b: string)
    requires IsPath(p, a, b)
    ensures Lev(a, b) <= |p| - 1
    decreases |p|
  {
    if |p| == 1 {
      ZeroIffEqual(a, b);
    } else {
      var m := p[|p| - 2];
      NoShorterPath(p[..|p| - 1], a, m);
      assert OneEdit(m, b);
      var e: Edit :| e.Fits(m) && e.Apply(m) == b;
      EditCostsOne(m, e);
      Triangle(a, m, b);
    }
  }

  lemma {:induction false} Appended(s: string, t: string, x: char)
    requires OneEdit(s, t)
    ensures OneEdit(s + [x], t + [x])
  {
    var e: Edit :| e.Fits(s) && e.Apply(s) == t;
    assert (s + [x])[..e.at] == s[..e.at];
    if e.Insert? {
      assert (s + [x])[e.at..] == s[e.at..] + [x];
    } else {
      assert (s + [x])[e.at + 1..] == s[e.at + 1..] + [x];
    }
    assert e.Fits(s + [x]) && e.Apply(s + [x]) == t + [x];
  }

  lemma {:induction false} Extend(p: seq<string>, a: string, m: string, b: string) returns (q: seq<string>)
    requires IsPath(p, a, m) && OneEdit(m, b)
    ensures IsPath(q, a, b) && |q| == |p| + 1
  {
    q := p + [b];
  }

  lemma {:induction false} Prepend(a: string, m: string, p: seq<string>, b: string) returns (q: seq<string>)
    requires OneEdit(a, m) && IsPath(p, m, b)
    ensures IsPath(q, a, b) && |q| == |p| + 1
  {
    q := [a] + p;
  }

  lemma {:induction false} StayPath(a: string)
    ensures IsPath([a], a, a)
  {
  }

  lemma {:induction false} Carried(p: seq<string>, a: string, b: string, x: char) returns (q: seq<string>)
    requires IsPath(p, a, b)
    ensures IsPath(q, a + [x], b + [x]) && |q| == |p|
  {
    q := seq(|p|, i requires 0 <= i < |p| => p[i] + [x]);
    forall i | 0 < i < |q|
      ensures OneEdit(q[i - 1], q[i])
    {
      Appended(p[i - 1], p[i], x);
    }
  }

  /** And some way is exactly that long: the distance is the least number of edits. */
  lemma {:induction false} ShortestPath(a: string, b: string) returns (p: seq<string>)
    ensures IsPath(p, a, b) && |p| - 1 == Lev(a, b)
    decreases |a| + |b|
  {
    hide Lev, IsPath, OneEdit;
    if a == "" || b == "" {
      LevEmpty(if a == "" then b else a);
    } else {
      LevStep(a, b);
    }
    if a != "" && b == "" { LevEmpty(Front(a)); }
    if a == "" && b != "" { LevEmpty(Front(b)); }
    if a == "" && b == "" {
      p := [""];
      assert IsPath(p, a, b) by { StayPath(a); }
    } else if b != "" && Lev(a, b) == Lev(a, Front(b)) + 1 {
      var q := ShortestPath(a, Front(b));
      InsertLast(b);
      p := Extend(q, a, Front(b), b);
    } else if a != "" && Lev(a, b) == Lev(Front(a), b) + 1 {
      var q := ShortestPath(Front(a), b);
      DeleteLast(a);
      p := Prepend(a, Front(a), q, b);
    } else {
      var q := ShortestPath(Front(a), Front(b));
      p := Carried(q, Front(a), Front(b), Last(a));
      assert Front(a) + [Last(a)] == a && Front(b) + [Last(b)] == b;
      if Last(a) != Last(b) {
        ReplaceLast(Front(b), Last(a), Last(b));
        p := Extend(p, a, Front(b) + [Last(a)], b);
      }
    }
  }

  lemma {:induction false} InsertLast(s: string)
    requires s != ""
    ensures OneEdit(Front(s), s)
  {
    var e := Insert(|s| - 1, Last(s));
    assert e.Fits(Front(s)) && e.Apply(Front(s)) == s;
  }

  lemma {:induction false} DeleteLast(s: string)
    requires s != ""
    ensures OneEdit(s, Front(s))
  {
    var e := Delete(|s| - 1);
    assert e.Fits(s) && e.Apply(s) == Front(s);
  }

  lemma {:induction false} ReplaceLast(u: string, x: char, y: char)
    ensures OneEdit(u + [x], u + [y])
  {
    var e := Replace(|u|, y);
    assert e.Fits(u + [x]) && e.Apply(u + [x]) == u + [y];
  }

  // ----- suggest -----

  /** The first of the keys at the least distance. */
  ghost predicate FirstClosest(table: seq<string>, key: string, i: nat) {
    && i < |table|
    && (forall k :: 0 <= k < |table| ==> Lev(key, table[i]) <= Lev(key, table[k]))
    && (forall k :: 0 <= k < i ==> Lev(key, table[i]) < Lev(key, table[k]))
  }

  /** Close enough to be a typo. */
  predicate Close(key: string, candidate: string) {
    var longest := if |key| < |candidate| then |candidate| else |key|;
    Lev(key, candidate) <= 3 && Lev(key, candidate) * 2 < longest
  }

  /** The first closest key when it is close, nothing otherwise. */
  method Suggest(table: seq<string>, unknownKey: string) returns (best: string)
    ensures unknownKey == "" || table == [] ==> best == ""
    ensures unknownKey != "" && table != [] ==>
              exists i: nat :: FirstClosest(table, unknownKey, i)
                       && best == if Close(unknownKey, table[i]) then table[i] else ""
    ensures best != "" ==> best in table && Close(unknownKey, best)
    ensures best != "" ==> forall k <- table :: Lev(unknownKey, best) <= Lev(unknownKey, k)
  {
    hide Lev;
    best := "";
    if unknownKey == "" { return; }
    var bestDist := -1;
    ghost var at := 0;
    var n := 0;
    while n < |table|
      invariant 0 <= n <= |table|
      invariant bestDist == -1 <==> n == 0
      invariant n > 0 ==> FirstClosest(table[..n], unknownKey, at)
      invariant n > 0 ==> best == table[at] && bestDist == Lev(unknownKey, best)
      invariant n == 0 ==> best == ""
    {
      var d := EditDistance(unknownKey, table[n]);
      if bestDist < 0 || d < bestDist {
        bestDist, best, at := d, table[n], n;
      }
      n := n + 1;
    }
    if bestDist < 0 { return; }
    assert table[..n] == table;
    var longest := if |unknownKey| < |best| then |best| else |unknownKey|;
    if bestDist > 3 || bestDist * 2 >= longest {
      best := "";
    }
  }
}
