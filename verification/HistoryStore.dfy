/** The tables of the history worker, src/bin/calaos_server/HistLogger.cpp: the events with their retention
    (283-325, 383-396) and their pages (327-358), and the push tokens with the row of an approver phone
    (150-233). A table is the sequence of its rows. */
module HistoryStore {

  // ----- texts, as SQLite compares them -----

  /** s <= t, character by character, a prefix first. */
  predicate Le(s: string, t: string) {
    s == [] || (t != [] && (s[0] < t[0] || (s[0] == t[0] && Le(s[1..], t[1..]))))
  }

  lemma {:induction false} LeTotal(s: string, t: string)
    ensures Le(s, t) || Le(t, s)
    ensures Le(s, t) && Le(t, s) ==> s == t
  {
    if s != [] && t != [] && s[0] == t[0] {
      LeTotal(s[1..], t[1..]);
      assert s == [s[0]] + s[1..] && t == [t[0]] + t[1..];
    }
  }

  lemma {:induction false} LeTrans(s: string, t: string, u: string)
    requires Le(s, t) && Le(t, u)
    ensures Le(s, u)
  {
    if s != [] && t[0] == s[0] && u[0] == t[0] {
      LeTrans(s[1..], t[1..], u[1..]);
    }
  }

  /** The first character that differs decides. */
  lemma {:induction false} LeAt(s: string, t: string, n: nat)
    requires n < |s| && n < |t| && s[n] != t[n] && forall k | 0 <= k < n :: s[k] == t[k]
    ensures Le(s, t) <==> s[n] < t[n]
  {
    if n > 0 {
      LeAt(s[1..], t[1..], n - 1);
    }
  }

  /** A row of the day `day` is older than the cutoff exactly when its day is: no time of the cutoff day is. */
  lemma {:induction false} LeDay(day: string, time: string, cutoff: string)
    requires |day| == |cutoff|
    ensures Le(day + " " + time, cutoff) <==> Le(day, cutoff) && day != cutoff
  {
    if day == [] {
      assert day + " " + time == " " + time;
    } else {
      LeDay(day[1..], time, cutoff[1..]);
      assert (day + " " + time)[1..] == day[1..] + " " + time;
      assert day == [day[0]] + day[1..] && cutoff == [cutoff[0]] + cutoff[1..];
    }
  }

  // ----- the retention -----

  datatype Event = Event(uuid: string, createdAt: string)

  /** The rows that DELETE ... WHERE created_at <= cutoff leaves. */
  function Younger(rows: seq<Event>, cutoff: string): seq<Event> {
    if rows == [] then []
    else if Le(rows[0].createdAt, cutoff) then Younger(rows[1..], cutoff)
    else [rows[0]] + Younger(rows[1..], cutoff)
  }

  /** One insert: the row, the cutoff the settings and the clock give just after, "" when SQLite rejects
      them, and whether the DELETE would fail. */
  datatype Insert = Insert(row: Event, cutoff: string, fails: bool)

  datatype Worker = Worker(rows: seq<Event>, lastCutoff: string)

  /** insertEvent() and purgeEvents(). */
  function Lazy(w: Worker, i: Insert): Worker {
    var rows := w.rows + [i.row];
    if i.cutoff == w.lastCutoff then w.(rows := rows)
    else if i.cutoff == "" then Worker(rows, "")
    else if i.fails then w.(rows := rows)
    else Worker(Younger(rows, i.cutoff), i.cutoff)
  }

  /** The retention as it is meant: a DELETE after every insert. */
  function Eager(rows: seq<Event>, i: Insert): seq<Event> {
    if i.cutoff == "" || i.fails then rows + [i.row] else Younger(rows + [i.row], i.cutoff)
  }

  predicate AllYounger(rows: seq<Event>, cutoff: string) { forall r <- rows :: !Le(r.createdAt, cutoff) }

  /** Nothing is left that the last purge would have taken. */
  predicate Purged(w: Worker) { w.lastCutoff == "" || AllYounger(w.rows, w.lastCutoff) }

  lemma {:induction false} YoungerIsPurged(rows: seq<Event>, cutoff: string)
    ensures AllYounger(Younger(rows, cutoff), cutoff)
    ensures AllYounger(rows, cutoff) <==> Younger(rows, cutoff) == rows
    ensures |Younger(rows, cutoff)| <= |rows|
  {
    if rows != [] {
      YoungerIsPurged(rows[1..], cutoff);
      assert rows == [rows[0]] + rows[1..];
    }
  }

  /** One insert leaves the same rows either way, whatever the table holds, except in one case: the purge is skipped
      because the cutoff did not change, and the table or the new row has something older than that cutoff. */
  lemma SameExceptOldRow(w: Worker, i: Insert)
    ensures Lazy(w, i).rows == Eager(w.rows, i)
       <==> !(i.cutoff == w.lastCutoff && i.cutoff != "" && !i.fails && !AllYounger(w.rows + [i.row], i.cutoff))
  {
    YoungerIsPurged(w.rows + [i.row], i.cutoff);
  }

  lemma {:induction false} YoungerConcat(a: seq<Event>, b: seq<Event>, cutoff: string)
    ensures Younger(a + b, cutoff) == Younger(a, cutoff) + Younger(b, cutoff)
  {
    if a == [] {
      assert a + b == b;
    } else {
      assert (a + b)[1..] == a[1..] + b;
      YoungerConcat(a[1..], b, cutoff);
    }
  }

  /** A purge takes the rows up to the cutoff and no other, and what it leaves stays in order. */
  lemma YoungerIs(before: seq<Event>, r: Event, after: seq<Event>, cutoff: string)
    ensures Younger(before + [r] + after, cutoff)
         == Younger(before, cutoff) + (if Le(r.createdAt, cutoff) then [] else [r]) + Younger(after, cutoff)
    ensures Younger([], cutoff) == []
  {
    YoungerConcat(before + [r], after, cutoff);
    YoungerConcat(before, [r], cutoff);
    assert [r][1..] == [];
    hide Le;
    assert Younger([r], cutoff) == if Le(r.createdAt, cutoff) then [] else [r];
  }

  function LazyAll(w: Worker, inserts: seq<Insert>): Worker
    decreases |inserts|
  {
    if inserts == [] then w else LazyAll(Lazy(w, inserts[0]), inserts[1..])
  }

  function EagerAll(rows: seq<Event>, inserts: seq<Insert>): seq<Event>
    decreases |inserts|
  {
    if inserts == [] then rows else EagerAll(Eager(rows, inserts[0]), inserts[1..])
  }

  /** What the inserts alone tell: the cutoff of the last purge, and whether a row older than it came since. */
  datatype Memo = Memo(last: string, owed: bool)

  function Remember(m: Memo, i: Insert): Memo {
    if i.cutoff != m.last && (i.cutoff == "" || !i.fails) then Memo(i.cutoff, false)
    else m.(owed := m.owed || Le(i.row.createdAt, m.last))
  }

  function RememberAll(m: Memo, inserts: seq<Insert>): Memo
    decreases |inserts|
  {
    if inserts == [] then m else RememberAll(Remember(m, inserts[0]), inserts[1..])
  }

  /** The purge is skipped because the cutoff did not change, although it would find a row to delete. */
  predicate Bad(m: Memo, i: Insert) {
    i.cutoff == m.last && i.cutoff != "" && !i.fails && (m.owed || Le(i.row.createdAt, i.cutoff))
  }

  ghost predicate NoneBad(m: Memo, inserts: seq<Insert>) {
    forall k: nat | k < |inserts| :: !Bad(RememberAll(m, inserts[..k]), inserts[k])
  }

  /** The rows are the same after every insert. */
  ghost predicate AlwaysSame(w: Worker, inserts: seq<Insert>) {
    forall n: nat | n <= |inserts| :: LazyAll(w, inserts[..n]).rows == EagerAll(w.rows, inserts[..n])
  }

  predicate Knows(m: Memo, w: Worker) {
    m.last == w.lastCutoff && (m.last != "" ==> (m.owed <==> !AllYounger(w.rows, m.last)))
  }

  lemma AllYoungerPush(rows: seq<Event>, r: Event, cutoff: string)
    ensures AllYounger(rows + [r], cutoff) <==> AllYounger(rows, cutoff) && !Le(r.createdAt, cutoff)
  {
    assert forall x <- rows :: x in rows + [r];
    assert r in rows + [r];
  }

  lemma KnowsNext(m: Memo, w: Worker, i: Insert)
    requires Knows(m, w)
    ensures Knows(Remember(m, i), Lazy(w, i))
    ensures Lazy(w, i).rows == Eager(w.rows, i) <==> !Bad(m, i)
  {
    SameExceptOldRow(w, i);
    AllYoungerPush(w.rows, i.row, m.last);
    YoungerIsPurged(w.rows + [i.row], i.cutoff);
    hide AllYounger, Younger, Le;
  }

  lemma FirstOf<T>(s: seq<T>, n: nat)
    requires 0 < n <= |s|
    ensures s[..n] != [] && s[..n][0] == s[0] && s[..n][1..] == s[1..][..n - 1]
  {
  }

  /** The first insert, and then the others. */
  lemma SameCons(w: Worker, inserts: seq<Insert>)
    requires inserts != [] && Lazy(w, inserts[0]).rows == Eager(w.rows, inserts[0])
    ensures AlwaysSame(w, inserts) <==> AlwaysSame(Lazy(w, inserts[0]), inserts[1..])
  {
    hide Lazy, Eager;
    var rest := inserts[1..];
    forall n: nat | n <= |rest|
      ensures LazyAll(w, inserts[..n + 1]) == LazyAll(Lazy(w, inserts[0]), rest[..n])
      ensures EagerAll(w.rows, inserts[..n + 1]) == EagerAll(Eager(w.rows, inserts[0]), rest[..n])
    {
      FirstOf(inserts, n + 1);
    }
    if AlwaysSame(Lazy(w, inserts[0]), rest) {
      forall n: nat | n <= |inserts|
        ensures LazyAll(w, inserts[..n]).rows == EagerAll(w.rows, inserts[..n])
      {
        if n > 0 {
          FirstOf(inserts, n);
        }
      }
    }
  }

  lemma NoneBadCons(m: Memo, inserts: seq<Insert>)
    requires inserts != []
    ensures NoneBad(m, inserts) <==> !Bad(m, inserts[0]) && NoneBad(Remember(m, inserts[0]), inserts[1..])
  {
    hide Bad, Remember;
    var rest := inserts[1..];
    assert inserts[..0] == [];
    forall k: nat | k < |rest|
      ensures RememberAll(m, inserts[..k + 1]) == RememberAll(Remember(m, inserts[0]), rest[..k])
    {
      FirstOf(inserts, k + 1);
    }
    if NoneBad(m, inserts) {
      assert !Bad(RememberAll(m, inserts[..0]), inserts[0]);
      forall k: nat | k < |rest|
        ensures !Bad(RememberAll(Remember(m, inserts[0]), rest[..k]), rest[k])
      {
        assert !Bad(RememberAll(m, inserts[..k + 1]), inserts[k + 1]);
      }
    } else {
      var k: nat :| k < |inserts| && Bad(RememberAll(m, inserts[..k]), inserts[k]);
      if k > 0 {
        FirstOf(inserts, k);
        assert Bad(RememberAll(Remember(m, inserts[0]), rest[..k - 1]), rest[k - 1]);
      }
    }
  }

  lemma {:induction false} SameUnlessBad(m: Memo, w: Worker, inserts: seq<Insert>)
    requires Knows(m, w)
    ensures AlwaysSame(w, inserts) <==> NoneBad(m, inserts)
    decreases |inserts|
  {
    if inserts != [] {
      var i := inserts[0];
      KnowsNext(m, w, i);
      NoneBadCons(m, inserts);
      hide Lazy, Eager, Remember, Bad, NoneBad, Knows;
      if Lazy(w, i).rows == Eager(w.rows, i) {
        SameCons(w, inserts);
        SameUnlessBad(Remember(m, i), Lazy(w, i), inserts[1..]);
      } else {
        FirstOf(inserts, 1);
        assert LazyAll(w, inserts[..1]).rows != EagerAll(w.rows, inserts[..1]);
      }
    } else {
      assert inserts[..0] == [];
    }
  }

  /** From the start of the worker, on the rows of an earlier run, purging only when the cutoff changes leaves after
      every insert exactly the rows that a DELETE after every insert leaves, if and only if no insert finds the
      cutoff unchanged and a row older than it inserted since, or older itself. */
  lemma LazyIsEagerExactly(rows: seq<Event>, inserts: seq<Insert>)
    ensures AlwaysSame(Worker(rows, ""), inserts) <==> NoneBad(Memo("", false), inserts)
  {
    SameUnlessBad(Memo("", false), Worker(rows, ""), inserts);
  }

  /** Two cutoffs, the second one while the DELETE fails, and the first one again. */
  lemma ThereAndBack(now: Event, past: Event, cutoff: string, earlier: string)
    requires !Le(now.createdAt, cutoff) && Le(past.createdAt, cutoff)
    requires cutoff != "" && earlier != "" && earlier != cutoff
    ensures var i := Insert(now, cutoff, false);
            var inserts := [i, Insert(past, earlier, true), i];
            LazyAll(Worker([], ""), inserts) == Worker([now, past, now], cutoff)
            && EagerAll([], inserts) == [now, now]
  {
    hide Le;
    var i, back := Insert(now, cutoff, false), Insert(past, earlier, true);
    assert [now][1..] == [] && [past, now][1..] == [now] && [now, past, now][1..] == [past, now];
    var w1, w2 := Worker([now], cutoff), Worker([now, past], cutoff);
    assert [] + [now] == [now] && [now] + [past] == [now, past] && [now, past] + [now] == [now, past, now];
    assert Younger([now], cutoff) == [now];
    assert Younger([past, now], cutoff) == Younger([now], cutoff);
    assert Younger([now, past, now], cutoff) == [now, now];
    assert Lazy(Worker([], ""), i) == w1 && Lazy(w1, back) == w2;
    assert Lazy(w2, i) == Worker([now, past, now], cutoff);
    assert Eager([], i) == [now] && Eager([now], back) == [now, past] && Eager([now, past], i) == [now, now];
    hide Lazy, Eager, Younger;
    assert [i][1..] == [] && [back, i][1..] == [i] && [i, back, i][1..] == [back, i];
    assert LazyAll(w2, [i]) == Lazy(w2, i) && LazyAll(w1, [back, i]) == LazyAll(w2, [i]);
    assert EagerAll([now, past], [i]) == Eager([now, past], i);
    assert EagerAll([now], [back, i]) == EagerAll([now, past], [i]);
  }

  /** A run in which they differ, on the third insert. The clock goes back, the DELETE fails meanwhile, and the clock
      is put right: the row of the last century is older than a cutoff that the worker takes for done. No row is
      older than the cutoff it comes with. */
  lemma LazyIsNotEager() returns (inserts: seq<Insert>)
    ensures |inserts| == 3 && forall i <- inserts :: !Le(i.row.createdAt, i.cutoff)
    ensures !AlwaysSame(Worker([], ""), inserts)
  {
    var now, past := "2010-01-01 12:00:00", "1999-01-01 12:00:00";
    var cutoff, earlier := "2000-01-01", "1989-01-01";
    hide Le;
    LeAt(now, cutoff, 2);
    LeAt(past, earlier, 2);
    LeAt(past, cutoff, 0);
    assert cutoff[0] != earlier[0];
    ThereAndBack(Event("a", now), Event("b", past), cutoff, earlier);
    var i := Insert(Event("a", now), cutoff, false);
    inserts := [i, Insert(Event("b", past), earlier, true), i];
    hide LazyAll, EagerAll;
    assert inserts[..3] == inserts;
    assert |LazyAll(Worker([], ""), inserts).rows| == 3 && |EagerAll([], inserts)| == 2;
  }

  /** The cutoff, written as a day is, is no later than the day the row is dated. Midnight between the two, with no day
      to keep, is one way not to be; a cutoff before the year 0 is another. */
  ghost predicate Sane(i: Insert) {
    exists day: string, time: string | DayOf(i, day, time) ::
      i.cutoff == "" || (|i.cutoff| == |day| && Le(i.cutoff, day))
  }

  predicate DayOf(i: Insert, day: string, time: string) { i.row.createdAt == day + " " + time }

  lemma SaneIsYoung(i: Insert)
    requires Sane(i) && i.cutoff != ""
    ensures !Le(i.row.createdAt, i.cutoff)
  {
    var day, time :| DayOf(i, day, time) && |i.cutoff| == |day| && Le(i.cutoff, day);
    LeDay(day, time, i.cutoff);
    LeTotal(day, i.cutoff);
  }

  /** How often a row is there. */
  function Times(rows: seq<Event>, r: Event): nat { multiset(rows)[r] }

  lemma {:induction false} YoungerTimes(rows: seq<Event>, cutoff: string, r: Event)
    ensures Times(Younger(rows, cutoff), r) == if Le(r.createdAt, cutoff) then 0 else Times(rows, r)
  {
    if rows != [] {
      YoungerTimes(rows[1..], cutoff, r);
      assert rows == [rows[0]] + rows[1..];
      hide Le;
      assert Times(rows, r) == Times([rows[0]], r) + Times(rows[1..], r);
      assert Times([rows[0]] + Younger(rows[1..], cutoff), r)
          == Times([rows[0]], r) + Times(Younger(rows[1..], cutoff), r);
    }
  }

  /** None of these cutoffs reaches the row. */
  predicate OutOfReach(r: Event, inserts: seq<Insert>) {
    forall i <- inserts :: i.cutoff == "" || !Le(r.createdAt, i.cutoff)
  }

  function Inserted(inserts: seq<Insert>, r: Event): nat
    decreases |inserts|
  {
    if inserts == [] then 0 else (if inserts[0].row == r then 1 else 0) + Inserted(inserts[1..], r)
  }

  /** A row that no cutoff reaches is there as often as it was inserted, on top of those that were there before;
      none is there more often. */
  lemma {:induction false} RowsAreKept(w: Worker, inserts: seq<Insert>, r: Event)
    ensures Times(LazyAll(w, inserts).rows, r) <= Times(w.rows, r) + Inserted(inserts, r)
    ensures OutOfReach(r, inserts) ==> Times(LazyAll(w, inserts).rows, r) == Times(w.rows, r) + Inserted(inserts, r)
    decreases |inserts|
  {
    if inserts != [] {
      var i, rest := inserts[0], inserts[1..];
      assert inserts == [i] + rest;
      var rows := w.rows + [i.row];
      YoungerTimes(rows, i.cutoff, r);
      assert Times(rows, r) == Times(w.rows, r) + if i.row == r then 1 else 0;
      hide Le, Younger, Times;
      RowsAreKept(Lazy(w, i), rest, r);
    }
  }

  /** What was purged once would be purged again: after a DELETE that failed, the lazy purge still owes
      nothing as long as the clock has not gone back behind an earlier cutoff. */
  predicate NotBehind(inserts: seq<Insert>, cutoff: string) {
    cutoff == "" || forall i <- inserts :: i.fails ==> !Le(i.row.createdAt, cutoff)
  }

  predicate NeverBehind(inserts: seq<Insert>) {
    forall k: nat | k < |inserts| :: NotBehind(inserts[k + 1..], inserts[k].cutoff)
  }

  lemma SaneStep(m: Memo, i: Insert)
    requires (m.last != "" ==> !m.owed) && Sane(i) && NotBehind([i], m.last)
    ensures !Bad(m, i) && (Remember(m, i).last != "" ==> !Remember(m, i).owed)
  {
    if i.cutoff != "" {
      SaneIsYoung(i);
    }
    hide Le, Sane;
    assert i in [i];
  }

  lemma NotBehindRest(inserts: seq<Insert>)
    requires inserts != [] && NeverBehind(inserts)
    ensures NotBehind(inserts[1..], inserts[0].cutoff) && NeverBehind(inserts[1..])
  {
    hide NotBehind;
    var rest := inserts[1..];
    assert NotBehind(inserts[0 + 1..], inserts[0].cutoff);
    forall k: nat | k < |rest|
      ensures NotBehind(rest[k + 1..], rest[k].cutoff)
    {
      assert rest[k + 1..] == inserts[k + 2..] && rest[k] == inserts[k + 1];
      assert NotBehind(inserts[k + 1 + 1..], inserts[k + 1].cutoff);
    }
  }

  lemma {:induction false} SaneIsNeverBad(m: Memo, w: Worker, inserts: seq<Insert>)
    requires Knows(m, w) && (m.last != "" ==> !m.owed)
    requires (forall i <- inserts :: Sane(i)) && NotBehind(inserts, m.last) && NeverBehind(inserts)
    ensures NoneBad(m, inserts) && Purged(LazyAll(w, inserts))
    decreases |inserts|
  {
    if inserts != [] {
      var i, rest := inserts[0], inserts[1..];
      assert inserts == [i] + rest;
      SaneStep(m, i);
      KnowsNext(m, w, i);
      NotBehindRest(inserts);
      NoneBadCons(m, inserts);
      hide Sane, Le, Lazy, Bad, NoneBad, Knows, Purged, NeverBehind;
      SaneIsNeverBad(Remember(m, i), Lazy(w, i), rest);
    }
  }

  /** In particular they are the same while no row is older than its own cutoff, and none that comes with a DELETE that
      fails is older than an earlier cutoff, as it would be only if the clock went back. */
  lemma LazyIsEager(w: Worker, inserts: seq<Insert>)
    requires Purged(w) && (forall i <- inserts :: Sane(i))
    requires NotBehind(inserts, w.lastCutoff) && NeverBehind(inserts)
    ensures LazyAll(w, inserts).rows == EagerAll(w.rows, inserts)
    ensures Purged(LazyAll(w, inserts))
  {
    var m := Memo(w.lastCutoff, false);
    SaneIsNeverBad(m, w, inserts);
    SameUnlessBad(m, w, inserts);
    assert inserts[..|inserts|] == inserts;
  }

  /** As it stands when the worker starts on the rows of an earlier run. */
  lemma LazyIsEagerFromTheStart(rows: seq<Event>, inserts: seq<Insert>)
    requires (forall i <- inserts :: Sane(i)) && NeverBehind(inserts)
    ensures LazyAll(Worker(rows, ""), inserts).rows == EagerAll(rows, inserts)
  {
    LazyIsEager(Worker(rows, ""), inserts);
  }

  lemma YoungerStep(rows: seq<Event>, cutoff: string, i: nat)
    requires i < |rows|
    ensures var done := rows[..i] + Younger(rows[i..], cutoff);
            if Le(rows[i].createdAt, cutoff)
            then var kept := rows[..i] + rows[i + 1..]; done == kept[..i] + Younger(kept[i..], cutoff)
            else done == rows[..i + 1] + Younger(rows[i + 1..], cutoff)
  {
    hide Le;
    assert rows[i..][1..] == rows[i + 1..];
    if Le(rows[i].createdAt, cutoff) {
      var kept := rows[..i] + rows[i + 1..];
      assert kept[..i] == rows[..i] && kept[i..] == rows[i + 1..];
    } else {
      assert rows[..i + 1] == rows[..i] + [rows[i]];
    }
  }

  // ----- the worker that keeps the events -----

  class EventsTable {
    var rows: seq<Event>
    var lastCutoff: string

    constructor (rows: seq<Event>)
      ensures this.rows == rows && lastCutoff == ""
    {
      this.rows, lastCutoff := rows, "";
    }

    /** The statement itself, one row after the other. */
    method DeleteUpTo(cutoff: string)
      modifies this`rows
      ensures rows == Younger(old(rows), cutoff)
    {
      hide Le;
      var i := 0;
      while i < |rows|
        invariant i <= |rows|
        invariant rows[..i] + Younger(rows[i..], cutoff) == Younger(old(rows), cutoff)
        decreases |rows| - i
      {
        YoungerStep(rows, cutoff, i);
        if Le(rows[i].createdAt, cutoff) {
          rows := rows[..i] + rows[i + 1..];
        } else {
          i := i + 1;
        }
      }
      assert rows[i..] == [] && rows[..i] == rows;
    }

    /** Throws, here returns false, when the DELETE fails. */
    method PurgeEvents(cutoff: string, fails: bool) returns (ok: bool)
      modifies this
      ensures ok == !(fails && cutoff != old(lastCutoff) && cutoff != "")
      ensures rows == if cutoff == old(lastCutoff) || cutoff == "" || fails then old(rows)
                      else Younger(old(rows), cutoff)
      ensures lastCutoff == if ok then cutoff else old(lastCutoff)
    {
      if cutoff == lastCutoff {
        return true;
      }
      if cutoff != "" {
        if fails {
          return false;
        }
        DeleteUpTo(cutoff);
      }
      lastCutoff := cutoff;
      return true;
    }

    method InsertEvent(i: Insert) returns (ok: bool)
      modifies this
      ensures Worker(rows, lastCutoff) == Lazy(old(Worker(rows, lastCutoff)), i)
    {
      rows := rows + [i.row];
      ok := PurgeEvents(i.cutoff, i.fails);
    }
  }

  // ----- the pages -----

  /** LIMIT start, perPage over the rows in their order. */
  function Page(rows: seq<Event>, page: nat, perPage: nat): seq<Event> { PageFrom(rows, page * perPage, perPage) }

  function PageFrom(rows: seq<Event>, start: nat, perPage: nat): seq<Event> {
    if start >= |rows| then []
    else if start + perPage >= |rows| then rows[start..]
    else rows[start..start + perPage]
  }

  function TotalPages(count: nat, perPage: nat): nat
    requires perPage > 0
  {
    count / perPage + (if count % perPage > 0 then 1 else 0)
  }

  /** readPage(): None when the page is out of range. */
  datatype Answer = OutOfRange | Rows(rows: seq<Event>)

  function ReadPage(rows: seq<Event>, page: int, perPage: nat): Answer
    requires perPage > 0
  {
    if page > TotalPages(|rows|, perPage) || page < 0 then OutOfRange else Rows(Page(rows, page, perPage))
  }

  function FirstPages(rows: seq<Event>, n: nat, perPage: nat): seq<Event> {
    if n == 0 then [] else FirstPages(rows, n - 1, perPage) + Page(rows, n - 1, perPage)
  }

  function First(rows: seq<Event>, n: nat): seq<Event> { if n >= |rows| then rows else rows[..n] }

  lemma OnePageMore(rows: seq<Event>, start: nat, perPage: nat)
    ensures First(rows, start) + PageFrom(rows, start, perPage) == First(rows, start + perPage)
    ensures start < |rows| && perPage > 0 ==> 0 < |PageFrom(rows, start, perPage)| <= perPage
  {
  }

  lemma {:induction false} FirstPagesAre(rows: seq<Event>, n: nat, perPage: nat)
    ensures FirstPages(rows, n, perPage) == First(rows, n * perPage)
  {
    hide First, PageFrom;
    if n == 0 {
      NoRows(rows);
    } else {
      FirstPagesAre(rows, n - 1, perPage);
      OnePageMore(rows, (n - 1) * perPage, perPage);
      OneMore(n, perPage);
    }
  }

  lemma NoRows(rows: seq<Event>)
    ensures First(rows, 0) == []
  {
  }

  lemma OneMore(n: nat, perPage: nat)
    requires n > 0
    ensures (n - 1) * perPage + perPage == n * perPage
  {
  }

  lemma EnoughPages(count: nat, perPage: nat)
    requires perPage > 0
    ensures TotalPages(count, perPage) * perPage >= count
    ensures TotalPages(count, perPage) > 0 ==> (TotalPages(count, perPage) - 1) * perPage < count
  {
    var q, r := count / perPage, count % perPage;
    assert count == q * perPage + r;
    assert (q + 1) * perPage == q * perPage + perPage;
    assert q > 0 ==> (q - 1) * perPage == q * perPage - perPage;
  }

  /** The pages announced are all served, none of them empty nor larger than asked, and together they are
      every row once, in order; one page more is served too, empty, and no other. */
  lemma PagesAreEverything(rows: seq<Event>, perPage: nat, page: int)
    requires perPage > 0
    ensures FirstPages(rows, TotalPages(|rows|, perPage), perPage) == rows
    ensures 0 <= page < TotalPages(|rows|, perPage) ==>
              ReadPage(rows, page, perPage).Rows? && 0 < |ReadPage(rows, page, perPage).rows| <= perPage
    ensures ReadPage(rows, TotalPages(|rows|, perPage), perPage) == Rows([])
    ensures page < 0 || page > TotalPages(|rows|, perPage) ==> ReadPage(rows, page, perPage).OutOfRange?
  {
    var total := TotalPages(|rows|, perPage);
    EnoughPages(|rows|, perPage);
    FirstPagesAre(rows, total, perPage);
    hide TotalPages, FirstPages;
    if 0 <= page < total {
      Below(page, total - 1, perPage);
      var start := page * perPage;
      hide Page;
      assert start < |rows|;
      OnePageMore(rows, start, perPage);
      PageIs(rows, page, perPage);
    }
  }

  lemma PageIs(rows: seq<Event>, page: nat, perPage: nat)
    ensures Page(rows, page, perPage) == PageFrom(rows, page * perPage, perPage)
  {
  }

  lemma Below(a: nat, b: nat, n: nat)
    requires a <= b
    ensures a * n <= b * n
  {
  }

  // ----- the push tokens -----

  /** A row of push_tokens. */
  datatype Token = Token(token: string, format: int, name: string, approver: bool, createdAt: string, key: string)

  /** The columns the table has: an older base may lack some of them. */
  datatype Columns = Columns(format: bool, name: bool, key: bool)

  /** Without the name column there is no approver column either. */
  predicate IsApprover(rows: seq<Token>, token: string, columns: Columns) {
    columns.name && rows != [] &&
    (if exists r <- rows[1..] :: r.token == token then IsApprover(rows[1..], token, columns)
     else rows[0].token == token && rows[0].approver)
  }

  predicate Known(rows: seq<Token>, token: string) { exists r <- rows :: r.token == token }

  /** What one registration does to a row of its token. */
  function Registered(r: Token, sent: Token, columns: Columns, now: string): Token {
    Token(r.token,
          if columns.format then sent.format else r.format,
          if columns.name && sent.name != "" then sent.name else r.name,
          r.approver, now,
          if columns.key && sent.key != "" then sent.key else r.key)
  }

  /** ... when the token is an approver's. */
  function Refreshed(r: Token, sent: Token, columns: Columns, now: string): Token {
    r.(createdAt := now, key := if columns.key && sent.key != "" && r.key == "" then sent.key else r.key)
  }

  function SaveToken(rows: seq<Token>, sent: Token, columns: Columns, now: string): seq<Token> {
    if IsApprover(rows, sent.token, columns) then
      seq(|rows|, i requires 0 <= i < |rows| =>
        if rows[i].token == sent.token then Refreshed(rows[i], sent, columns, now) else rows[i])
    else if Known(rows, sent.token) then
      seq(|rows|, i requires 0 <= i < |rows| =>
        if rows[i].token == sent.token then Registered(rows[i], sent, columns, now) else rows[i])
    else
      rows + [Token(sent.token, if columns.format then sent.format else 0, if columns.name then sent.name else "",
                    false, now, if columns.key then sent.key else "")]
  }

  /** The rows last seen too long ago go, unless they are an approver's. */
  function PurgeTokens(rows: seq<Token>, cutoff: string, columns: Columns): seq<Token> {
    if rows == [] then []
    else if Le(rows[0].createdAt, cutoff) && !(columns.name && rows[0].approver)
    then PurgeTokens(rows[1..], cutoff, columns)
    else [rows[0]] + PurgeTokens(rows[1..], cutoff, columns)
  }

  datatype TokenEvent =
    | Register(sent: Token, now: string)
    | Purge(cutoff: string)

  function TokenNext(rows: seq<Token>, e: TokenEvent, columns: Columns): seq<Token> {
    match e
    case Register(sent, now) => SaveToken(rows, sent, columns, now)
    case Purge(cutoff) => PurgeTokens(rows, cutoff, columns)
  }

  function TokenRun(rows: seq<Token>, events: seq<TokenEvent>, columns: Columns): seq<Token>
    decreases |events|
  {
    if events == [] then rows else TokenRun(TokenNext(rows, events[0], columns), events[1..], columns)
  }

  /** One row for each token, as only an unknown token is inserted. */
  predicate OneEach(rows: seq<Token>) {
    forall i, j | 0 <= i < j < |rows| :: rows[i].token != rows[j].token
  }

  /** The row of an approver as the admin enrolled it; the key may still be missing. */
  predicate Frozen(rows: seq<Token>, was: Token) {
    exists r <- rows :: r.token == was.token && r.approver && r.format == was.format && r.name == was.name
                        && (was.key != "" ==> r.key == was.key)
  }

  lemma {:induction false} ApproverSeen(rows: seq<Token>, token: string, columns: Columns)
    requires OneEach(rows) && columns.name
    ensures IsApprover(rows, token, columns) <==> exists r <- rows :: r.token == token && r.approver
  {
    if rows != [] {
      ApproverSeen(rows[1..], token, columns);
      assert rows == [rows[0]] + rows[1..];
    }
  }

  lemma {:induction false} PurgeKeeps(rows: seq<Token>, cutoff: string, columns: Columns, was: Token)
    requires OneEach(rows) && columns.name && Frozen(rows, was)
    ensures Frozen(PurgeTokens(rows, cutoff, columns), was)
  {
    assert rows == [rows[0]] + rows[1..];
    if Frozen(rows[1..], was) {
      PurgeKeeps(rows[1..], cutoff, columns, was);
    }
  }

  lemma {:induction false} PurgeOneEach(rows: seq<Token>, cutoff: string, columns: Columns)
    requires OneEach(rows)
    ensures OneEach(PurgeTokens(rows, cutoff, columns))
    ensures forall r <- PurgeTokens(rows, cutoff, columns) :: r in rows
  {
    if rows != [] {
      PurgeOneEach(rows[1..], cutoff, columns);
      assert rows == [rows[0]] + rows[1..];
      assert forall r <- rows[1..] :: r.token != rows[0].token;
    }
  }

  lemma SaveOneEach(rows: seq<Token>, sent: Token, columns: Columns, now: string)
    requires OneEach(rows)
    ensures OneEach(SaveToken(rows, sent, columns, now))
  {
    hide IsApprover;
    var t := SaveToken(rows, sent, columns, now);
    assert forall i | 0 <= i < |rows| :: t[i].token == rows[i].token;
  }

  lemma SaveKeeps(rows: seq<Token>, sent: Token, columns: Columns, now: string, was: Token)
    requires OneEach(rows) && columns.name && Frozen(rows, was)
    ensures OneEach(SaveToken(rows, sent, columns, now)) && Frozen(SaveToken(rows, sent, columns, now), was)
  {
    SaveOneEach(rows, sent, columns, now);
    ApproverSeen(rows, sent.token, columns);
    hide IsApprover, OneEach;
    var t := SaveToken(rows, sent, columns, now);
    var k: nat :| k < |rows| && rows[k].token == was.token && rows[k].approver && rows[k].format == was.format
                  && rows[k].name == was.name && (was.key != "" ==> rows[k].key == was.key);
    assert rows[k] in rows;
    assert t[k] in t;
  }

  /** Whoever registers what, and however old the row gets: an approver's phone keeps the name, the format
      and, once it has one, the key it was enrolled with, and its row is never purged. */
  lemma {:induction false} ApproverIsFrozen(rows: seq<Token>, events: seq<TokenEvent>, columns: Columns, was: Token)
    requires OneEach(rows) && columns.name && was in rows && was.approver
    ensures Frozen(TokenRun(rows, events, columns), was)
  {
    assert Frozen(rows, was);
    FrozenRun(rows, events, columns, was);
  }

  lemma {:induction false} FrozenRun(rows: seq<Token>, events: seq<TokenEvent>, columns: Columns, was: Token)
    requires OneEach(rows) && columns.name && Frozen(rows, was)
    ensures Frozen(TokenRun(rows, events, columns), was)
    decreases |events|
  {
    if events != [] {
      hide Frozen, OneEach, SaveToken, PurgeTokens;
      match events[0] {
        case Register(sent, now) => SaveKeeps(rows, sent, columns, now, was);
        case Purge(cutoff) =>
          PurgeKeeps(rows, cutoff, columns, was);
          PurgeOneEach(rows, cutoff, columns);
      }
      FrozenRun(TokenNext(rows, events[0], columns), events[1..], columns, was);
    }
  }

  // ----- who is registered -----

  /** A registration leaves one row of its token, and the others as they are: a new token gets a row with what was
      sent, a known one what was sent on top of what it had, an approver's only the time and a first key. */
  lemma RegisteredIs(rows: seq<Token>, sent: Token, now: string, was: Token)
    requires OneEach(rows)
    ensures var t := SaveToken(rows, sent, Columns(true, true, true), now);
            && OneEach(t)
            && (was.token != sent.token ==> (was in t <==> was in rows))
            && (!Known(rows, sent.token) ==>
                  t == rows + [Token(sent.token, sent.format, sent.name, false, now, sent.key)])
            && (was.token == sent.token && was in rows && !was.approver ==>
                  Token(sent.token, sent.format, if sent.name == "" then was.name else sent.name, false, now,
                        if sent.key == "" then was.key else sent.key) in t)
            && (was.token == sent.token && was in rows && was.approver ==>
                  Token(sent.token, was.format, was.name, true, now, if was.key == "" then sent.key else was.key) in t)
  {
    var columns := Columns(true, true, true);
    SaveOneEach(rows, sent, columns, now);
    ApproverSeen(rows, sent.token, columns);
    hide IsApprover;
    var t := SaveToken(rows, sent, columns, now);
    if was in rows {
      var k: nat :| k < |rows| && rows[k] == was;
      assert t[k] in t;
      if was.token == sent.token {
        OnlyRow(rows, k, sent.token);
      }
    }
    if was in t && was.token != sent.token {
      var k: nat :| k < |t| && t[k] == was;
      assert k < |rows| ==> rows[k] in rows;
    }
  }

  lemma OnlyRow(rows: seq<Token>, k: nat, token: string)
    requires OneEach(rows) && k < |rows| && rows[k].token == token
    ensures forall r <- rows :: r.token == token ==> r == rows[k]
  {
  }

  /** A purge takes exactly the rows up to the cutoff that are not an approver's. */
  lemma {:induction false} PurgeIs(rows: seq<Token>, cutoff: string, columns: Columns, r: Token)
    ensures r in PurgeTokens(rows, cutoff, columns)
       <==> r in rows && !(Le(r.createdAt, cutoff) && !(columns.name && r.approver))
  {
    if rows != [] {
      PurgeIs(rows[1..], cutoff, columns, r);
      assert rows == [rows[0]] + rows[1..];
    }
  }

  /** A run is its events, one after the other. */
  lemma {:induction false} TokenRunSnoc(rows: seq<Token>, events: seq<TokenEvent>, e: TokenEvent, columns: Columns)
    ensures TokenRun(rows, events + [e], columns) == TokenNext(TokenRun(rows, events, columns), e, columns)
    decreases |events|
  {
    hide TokenNext;
    if events == [] {
      assert ([] + [e])[1..] == [] && [] + [e] == [e];
    } else {
      assert (events + [e])[1..] == events[1..] + [e];
      TokenRunSnoc(TokenNext(rows, events[0], columns), events[1..], e, columns);
    }
  }

  /** The event neither registers the token of the row nor purges it. */
  predicate Spares(e: TokenEvent, r: Token) {
    match e
    case Register(sent, _) => sent.token != r.token
    case Purge(cutoff) => r.approver || !Le(r.createdAt, cutoff)
  }

  lemma SparedStays(rows: seq<Token>, e: TokenEvent, r: Token)
    requires OneEach(rows) && r in rows && Spares(e, r)
    ensures var t := TokenNext(rows, e, Columns(true, true, true)); OneEach(t) && r in t
  {
    match e {
      case Register(sent, now) => RegisteredIs(rows, sent, now, r);
      case Purge(cutoff) =>
        PurgeIs(rows, cutoff, Columns(true, true, true), r);
        PurgeOneEach(rows, cutoff, Columns(true, true, true));
    }
    hide Le, OneEach, SaveToken, PurgeTokens;
  }

  /** Who registers stays registered, as it was sent, until the token registers again or a purge reaches it. */
  lemma {:induction false} StaysRegistered(rows: seq<Token>, events: seq<TokenEvent>, r: Token)
    requires OneEach(rows) && r in rows && forall e <- events :: Spares(e, r)
    ensures r in TokenRun(rows, events, Columns(true, true, true))
    decreases |events|
  {
    hide OneEach, TokenNext, Spares;
    if events != [] {
      SparedStays(rows, events[0], r);
      StaysRegistered(TokenNext(rows, events[0], Columns(true, true, true)), events[1..], r);
    }
  }

  /** A column that an older base lacks is never written: a row keeps what it reads there, a new one has the default. */
  lemma MissingColumns(rows: seq<Token>, sent: Token, columns: Columns, now: string, k: nat)
    requires OneEach(rows) && k < |SaveToken(rows, sent, columns, now)|
    ensures var t := SaveToken(rows, sent, columns, now)[k];
            var was := if k < |rows| then rows[k] else Token(sent.token, 0, "", false, now, "");
            && t.token == was.token && t.approver == was.approver
            && (!columns.format ==> t.format == was.format)
            && (!columns.name ==> t.name == was.name)
            && (!columns.key ==> t.key == was.key)
  {
    hide IsApprover;
  }

  /** Once a key is there, the next approver to register without one has taken the first. */
  lemma FirstKeyIsTaken(rows: seq<Token>, columns: Columns, was: Token, sent: Token, now: string)
    requires OneEach(rows) && columns.name && columns.key && was in rows && was.approver && was.key == ""
    requires sent.token == was.token && sent.key != ""
    ensures was.(key := sent.key, createdAt := now) in SaveToken(rows, sent, columns, now)
  {
    hide IsApprover;
    ApproverSeen(rows, sent.token, columns);
    var k: nat :| k < |rows| && rows[k] == was;
    assert SaveToken(rows, sent, columns, now)[k] == was.(key := sent.key, createdAt := now);
  }
}
