/** The short-lived tokens that give access to a camera, src/bin/calaos_server/CameraTokens.cpp:46-149,
    against a plain list of the tokens given. */
module CameraTokens {
  import opened Options

  const LIFETIME: real := 120.0
  const MAX_PER_OWNER: nat := 4
  const MAX_TOKENS: nat := 1024
  const TOKEN_LENGTH: nat := 64

  type Token = string
  type Owner = nat

  datatype Entry = Entry(owner: Owner, expires: real, serial: nat)

  type Table = map<Token, Entry>

  // ----- what the code does -----

  function Unexpired(table: Table, now: real): Table { map t | t in table && table[t].expires > now :: table[t] }

  function Owned(table: Table, owner: Owner): set<Token> { set t | t in table && table[t].owner == owner }

  predicate IsOldest(table: Table, owner: Owner, t: Token) {
    t in table && table[t].owner == owner && forall u <- Owned(table, owner) :: table[t].serial <= table[u].serial
  }

  /** The table once a place has been made for a token of this owner. */
  function WithRoom(table: Table, owner: Owner): Table {
    if |Owned(table, owner)| < MAX_PER_OWNER then table
    else map t | t in table && !IsOldest(table, owner, t) :: table[t]
  }

  /** A token of the log: every token ever given, in order. `lost` marks those that made room for a token that
      was then not given. */
  datatype Given = Given(token: Token, owner: Owner, at: real, revoked: bool, lost: bool)

  datatype State = State(table: Table, log: seq<Given>, clock: real)

  datatype Event =
    | Issue(owner: Owner, draw: Option<Token>, now: real)  // the random draw may fail
    | Accept(token: Token, now: real)
    | Revoke(owner: Owner, now: real)
    | RevokeAll(now: real)

  /** The clock does not run backwards; a token drawn at random was never given before. */
  predicate Enabled(s: State, e: Event) {
    && s.clock <= e.now
    && (e.Issue? && e.draw.Some? ==> |e.draw.value| == TOKEN_LENGTH && forall g <- s.log :: g.token != e.draw.value)
  }

  function Room(s: State, owner: Owner, now: real): Table { WithRoom(Unexpired(s.table, now), owner) }

  function Drained(log: seq<Given>, before: Table, after: Table): seq<Given> {
    seq(|log|, i requires 0 <= i < |log| =>
      if log[i].token in before && log[i].token !in after then log[i].(lost := true) else log[i])
  }

  function DoIssue(s: State, owner: Owner, draw: Option<Token>, now: real): State {
    var table := Room(s, owner, now);
    if |table| >= MAX_TOKENS || draw.None? then State(table, Drained(s.log, Unexpired(s.table, now), table), now)
    else
      State(table[draw.value := Entry(owner, now + LIFETIME, |s.log| + 1)],
            s.log + [Given(draw.value, owner, now, false, false)], now)
  }

  function Marked(log: seq<Given>, owner: Option<Owner>): seq<Given> {
    seq(|log|, i requires 0 <= i < |log| =>
      if owner == None || owner == Some(log[i].owner) then log[i].(revoked := true) else log[i])
  }

  function Unrevoked(table: Table, owner: Option<Owner>): Table {
    if owner == None then map[] else map t | t in table && table[t].owner != owner.value :: table[t]
  }

  function Next(s: State, e: Event): State {
    match e
    case Issue(owner, draw, now) => DoIssue(s, owner, draw, now)
    case Accept(t, now) =>
      if |t| == TOKEN_LENGTH && t in s.table && s.table[t].expires <= now
      then State(s.table - {t}, s.log, now) else s.(clock := now)
    case Revoke(owner, now) =>
      State(Unrevoked(s.table, Some(owner)), Marked(s.log, Some(owner)), now)
    case RevokeAll(now) => State(Unrevoked(s.table, None), Marked(s.log, None), now)
  }

  predicate Accepted(table: Table, t: Token, now: real) {
    |t| == TOKEN_LENGTH && t in table && table[t].expires > now
  }

  // ----- what is meant -----

  function LaterOf(log: seq<Given>, i: nat): set<int>
    requires i < |log|
  {
    set j: int | i < j < |log| && log[j].owner == log[i].owner
  }

  /** The token was given less than two minutes ago, was not revoked, and is among the last four given to its
      owner. */
  predicate Deserving(log: seq<Given>, i: nat, now: real)
    requires i < |log|
  {
    !log[i].revoked && now < log[i].at + LIFETIME && |LaterOf(log, i)| < MAX_PER_OWNER
  }

  /** And no failed draw cost the owner the token. */
  predicate Good(log: seq<Given>, i: nat, now: real)
    requires i < |log|
  {
    Deserving(log, i, now) && !log[i].lost
  }

  ghost predicate Deserved(log: seq<Given>, t: Token, now: real) {
    exists i: nat :: i < |log| && log[i].token == t && Deserving(log, i, now)
  }

  ghost predicate Valid(log: seq<Given>, t: Token, now: real) {
    exists i: nat :: i < |log| && log[i].token == t && Good(log, i, now)
  }

  // ----- the invariant -----

  ghost predicate LogOk(log: seq<Given>, clock: real) {
    && (forall i: nat | i < |log| :: log[i].at <= clock && |log[i].token| == TOKEN_LENGTH)
    && (forall i: nat, j: nat | i < j < |log| :: log[i].token != log[j].token && log[i].at <= log[j].at)
    && (forall i: nat, j: nat | i < j < |log| && log[i].owner == log[j].owner :: log[j].revoked ==> log[i].revoked)
  }

  predicate KeptSince(log: seq<Given>, i: nat)
    requires i < |log|
  {
    forall j: nat | i <= j < |log| && log[j].owner == log[i].owner :: !log[j].lost
  }

  predicate EntryOk(x: Entry, t: Token, log: seq<Given>) {
    && 0 < x.serial <= |log|
    && var g := log[x.serial - 1];
       g.token == t && g.owner == x.owner && g.at + LIFETIME == x.expires && !g.revoked
       && |LaterOf(log, x.serial - 1)| < MAX_PER_OWNER
       && KeptSince(log, x.serial - 1)
  }

  ghost predicate TableOk(table: Table, log: seq<Given>) { forall t <- table :: EntryOk(table[t], t, log) }

  predicate Covered(table: Table, log: seq<Given>, i: nat)
    requires i < |log|
  {
    log[i].token in table && table[log[i].token].serial == i + 1
  }

  ghost predicate CoverOk(table: Table, log: seq<Given>, clock: real) {
    forall i: nat | i < |log| && Good(log, i, clock) :: Covered(table, log, i)
  }

  ghost predicate Inv(s: State) {
    LogOk(s.log, s.clock) && TableOk(s.table, s.log) && CoverOk(s.table, s.log, s.clock) && |s.table| <= MAX_TOKENS
  }

  // ----- the indices of an owner's tokens -----

  /** The places in the log of the tokens an owner holds. */
  function Held(table: Table, owner: Owner): set<int> {
    set t | t in table && table[t].owner == owner :: table[t].serial - 1
  }

  lemma {:induction false} ImageCard(table: Table, owner: Owner, held: set<Token>, image: set<int>)
    requires held <= Owned(table, owner) && image == (set t | t in held :: table[t].serial - 1)
    requires forall t <- held, u <- held :: table[t].serial == table[u].serial ==> t == u
    ensures |image| == |held|
    decreases |held|
  {
    if held != {} {
      var t :| t in held;
      var rest := held - {t};
      var less := set u | u in rest :: table[u].serial - 1;
      assert image == less + {table[t].serial - 1};
      ImageCard(table, owner, rest, less);
    }
  }

  lemma HeldCard(s: State, owner: Owner)
    requires Inv(s)
    ensures |Held(s.table, owner)| == |Owned(s.table, owner)|
  {
    forall t <- Owned(s.table, owner), u <- Owned(s.table, owner) | s.table[t].serial == s.table[u].serial
      ensures t == u
    {
      assert EntryOk(s.table[t], t, s.log) && EntryOk(s.table[u], u, s.log);
    }
    ImageCard(s.table, owner, Owned(s.table, owner), Held(s.table, owner));
  }

  lemma LaterShrinks(log: seq<Given>, i: nat, j: nat)
    requires i < j < |log| && log[i].owner == log[j].owner
    ensures LaterOf(log, j) + {j} <= LaterOf(log, i)
    ensures |LaterOf(log, j)| < |LaterOf(log, i)|
  {
    Subset(LaterOf(log, j) + {j}, LaterOf(log, i));
  }

  lemma {:induction false} Subset<T>(a: set<T>, b: set<T>)
    requires a <= b
    ensures |a| <= |b|
    decreases |a|
  {
    if a != {} {
      var x :| x in a;
      Subset(a - {x}, b - {x});
    }
  }

  lemma LogPair(log: seq<Given>, clock: real, i: nat, j: nat)
    requires LogOk(log, clock) && i < j < |log|
    ensures log[i].at <= log[j].at && log[i].token != log[j].token
    ensures log[i].owner == log[j].owner && log[j].revoked ==> log[i].revoked
  {
  }

  /** Whoever comes later in the log is good for at least as long. */
  lemma LaterIsHeld(s: State, owner: Owner, t: Token, j: int)
    requires Inv(s) && t in s.table && s.table[t].owner == owner && s.table[t].expires > s.clock
    requires 0 < s.table[t].serial <= |s.log| && j in LaterOf(s.log, s.table[t].serial - 1)
    ensures j in Held(s.table, owner)
  {
    hide LogOk, Held;
    var i: nat := s.table[t].serial - 1;
    assert EntryOk(s.table[t], t, s.log);
    LogPair(s.log, s.clock, i, j);
    LaterShrinks(s.log, i, j);
    assert Good(s.log, j, s.clock);
    hide CoverOk, LaterOf;
    var u := s.log[j].token;
    assert EntryOk(s.table[u], u, s.log);
    hide TableOk;
    InHeld(s.table, owner, u);
  }

  lemma InHeld(table: Table, owner: Owner, u: Token)
    requires u in table && table[u].owner == owner
    ensures table[u].serial - 1 in Held(table, owner)
  {
  }

  lemma HeldIs(table: Table, owner: Owner, j: int) returns (u: Token)
    requires j in Held(table, owner)
    ensures u in table && table[u].owner == owner && table[u].serial - 1 == j
  {
    u :| u in table && table[u].owner == owner && table[u].serial - 1 == j;
  }

  lemma HeldIsLater(s: State, owner: Owner, t: Token, j: int)
    requires TableOk(s.table, s.log) && t in s.table && s.table[t].owner == owner
    requires 0 < s.table[t].serial <= |s.log| && j in Held(s.table, owner) && j > s.table[t].serial - 1
    ensures j in LaterOf(s.log, s.table[t].serial - 1)
  {
    hide Held;
    var u := HeldIs(s.table, owner, j);
    assert EntryOk(s.table[u], u, s.log) && EntryOk(s.table[t], t, s.log);
  }

  /** After the expired ones are gone, an owner holds a token together with every one given to it later. */
  lemma LaterAreHeld(s: State, owner: Owner, t: Token)
    requires Inv(s) && t in s.table && s.table[t].owner == owner && s.table[t].expires > s.clock
    ensures 0 < s.table[t].serial <= |s.log|
    ensures LaterOf(s.log, s.table[t].serial - 1) == set j: int | j in Held(s.table, owner) && j > s.table[t].serial - 1
  {
    assert EntryOk(s.table[t], t, s.log);
    hide LogOk, TableOk, CoverOk, Held, EntryOk;
    var i: nat := s.table[t].serial - 1;
    forall j: int | j in LaterOf(s.log, i)
      ensures j in Held(s.table, owner) && j > i
    {
      hide LaterOf;
      LaterIsHeld(s, owner, t, j);
    }
    forall j: int | j in Held(s.table, owner) && j > i
      ensures j in LaterOf(s.log, i)
    {
      hide LaterOf;
      HeldIsLater(s, owner, t, j);
    }
  }

  lemma {:induction false} OldestExists(table: Table, owner: Owner, held: set<Token>) returns (t: Token)
    requires held <= Owned(table, owner) && held != {}
    ensures t in held && forall u <- held :: table[t].serial <= table[u].serial
    decreases |held|
  {
    t :| t in held;
    if held != {t} {
      var u := OldestExists(table, owner, held - {t});
      if table[u].serial < table[t].serial {
        t := u;
      }
    }
  }

  lemma RankIn(held: set<int>, i: int)
    requires i in held
    ensures var later := |set j: int | j in held && j > i|;
            later <= |held| - 1 && (later == |held| - 1 <==> forall j <- held :: j >= i)
  {
    var later := set j: int | j in held && j > i;
    if k :| k in held && k < i {
      Subset(later, held - {i} - {k});
    } else {
      assert later == held - {i};
    }
  }

  lemma OldestIs(table: Table, owner: Owner, t: Token)
    requires t in table && table[t].owner == owner
    ensures IsOldest(table, owner, t) <==> forall j <- Held(table, owner) :: j >= table[t].serial - 1
  {
    if IsOldest(table, owner, t) {
      forall j <- Held(table, owner)
        ensures j >= table[t].serial - 1
      {
        var u :| u in table && table[u].owner == owner && table[u].serial - 1 == j;
        assert u in Owned(table, owner);
      }
    } else {
      var u :| u in Owned(table, owner) && table[u].serial < table[t].serial;
      assert table[u].serial - 1 in Held(table, owner);
    }
  }

  /** Serial numbers tell tokens apart: there is one oldest. */
  lemma OnlyOldest(s: State, owner: Owner, t: Token)
    requires Inv(s) && IsOldest(s.table, owner, t) && |Owned(s.table, owner)| >= MAX_PER_OWNER
    ensures WithRoom(s.table, owner) == s.table - {t}
  {
    hide LogOk, CoverOk, LaterOf;
    forall u <- s.table | IsOldest(s.table, owner, u)
      ensures u == t
    {
      assert EntryOk(s.table[u], u, s.log) && EntryOk(s.table[t], t, s.log);
      assert u in Owned(s.table, owner) && t in Owned(s.table, owner);
    }
  }

  lemma Later(s: State, owner: Owner, draw: Option<Token>, now: real)
    requires Enabled(s, Issue(owner, draw, now))
    ensures s.clock <= now
  {
  }

  /** Of the tokens an owner holds, the oldest one is followed by all the others, and no other one is. */
  lemma Ranks(s: State, owner: Owner, t: Token)
    requires Inv(s) && t in s.table && s.table[t].owner == owner && s.table[t].expires > s.clock
    ensures 0 < s.table[t].serial <= |s.log|
    ensures var later := |LaterOf(s.log, s.table[t].serial - 1)|;
            later <= |Owned(s.table, owner)| - 1
            && (later == |Owned(s.table, owner)| - 1 <==> IsOldest(s.table, owner, t))
  {
    hide Inv, LaterOf, Held, Owned, IsOldest;
    LaterAreHeld(s, owner, t);
    HeldCard(s, owner);
    InHeld(s.table, owner, t);
    RankIn(Held(s.table, owner), s.table[t].serial - 1);
    OldestIs(s.table, owner, t);
  }

  lemma OldestHeld(table: Table, owner: Owner) returns (t: Token)
    requires Owned(table, owner) != {}
    ensures t in table && table[t].owner == owner && IsOldest(table, owner, t)
  {
    t := OldestExists(table, owner, Owned(table, owner));
  }

  /** Never more than four for one owner, the expired ones that are still there included. */
  lemma AtMostFour(s: State, owner: Owner)
    requires Inv(s)
    ensures |Owned(s.table, owner)| <= MAX_PER_OWNER
  {
    hide LogOk, TableOk, CoverOk, Held, LaterOf, IsOldest, Owned;
    if Owned(s.table, owner) != {} {
      var t := OldestHeld(s.table, owner);
      EntryIs(s, t);
      HeldCard(s, owner);
      OldestIs(s.table, owner, t);
      InHeld(s.table, owner, t);
      var i: nat := s.table[t].serial - 1;
      forall j <- Held(s.table, owner) | j != i
        ensures j in LaterOf(s.log, i)
      {
        HeldIsLater(s, owner, t, j);
      }
      Subset(Held(s.table, owner) - {i}, LaterOf(s.log, i));
    }
  }

  // ----- every event keeps the invariant -----

  lemma {:induction false} FewerKeys(a: Table, b: Table)
    requires a.Keys <= b.Keys
    ensures |a| <= |b|
  {
    Subset(a.Keys, b.Keys);
    assert |a| == |a.Keys| && |b| == |b.Keys|;
  }

  /** The table may lose what has expired, and nothing else. */
  predicate Lost(table: Table, less: Table, now: real) {
    && (forall t <- less :: t in table && less[t] == table[t])
    && (forall t <- table :: table[t].expires > now ==> t in less)
  }

  lemma GoodBefore(log: seq<Given>, i: nat, clock: real, now: real)
    requires i < |log| && Good(log, i, now) && clock <= now
    ensures Good(log, i, clock)
  {
  }

  lemma LostOk(s: State, less: Table, now: real)
    requires Inv(s) && s.clock <= now && Lost(s.table, less, now)
    ensures Inv(State(less, s.log, now))
  {
    FewerKeys(less, s.table);
    LogLater(s.log, s.clock, now);
    hide LogOk, EntryOk, Good;
    assert TableOk(less, s.log);
    forall i: nat | i < |s.log| && Good(s.log, i, now)
      ensures Covered(less, s.log, i)
    {
      hide TableOk;
      GoodBefore(s.log, i, s.clock, now);
      assert Covered(s.table, s.log, i);
      GoodLasts(s, i, now);
    }
  }

  lemma LogLater(log: seq<Given>, clock: real, now: real)
    requires LogOk(log, clock) && clock <= now
    ensures LogOk(log, now)
  {
  }

  lemma GoodLasts(s: State, i: nat, now: real)
    requires TableOk(s.table, s.log) && i < |s.log| && Good(s.log, i, now) && Covered(s.table, s.log, i)
    ensures s.table[s.log[i].token].expires > now
  {
    var t := s.log[i].token;
    assert EntryOk(s.table[t], t, s.log);
  }

  lemma UnexpiredOk(s: State, now: real)
    requires Inv(s) && s.clock <= now
    ensures Inv(State(Unexpired(s.table, now), s.log, now))
  {
    hide Inv;
    LostOk(s, Unexpired(s.table, now), now);
  }

  lemma LaterGrows(log: seq<Given>, g: Given, i: nat)
    requires i < |log|
    ensures LaterOf(log + [g], i) == LaterOf(log, i) + (if g.owner == log[i].owner then {|log|} else {})
    ensures |LaterOf(log + [g], i)| == |LaterOf(log, i)| + (if g.owner == log[i].owner then 1 else 0)
  {
    assert |log| !in LaterOf(log, i);
  }

  lemma KeptGrows(log: seq<Given>, g: Given, i: nat)
    requires i < |log| && KeptSince(log, i) && !g.lost
    ensures KeptSince(log + [g], i)
  {
  }

  /** What stays when room is made: everything but the oldest of four, and then three at most follow it. */
  lemma RoomOk(s: State, owner: Owner, t: Token)
    requires Inv(s) && s.table == Unexpired(s.table, s.clock) && t in s.table && s.table[t].owner == owner
    ensures 0 < s.table[t].serial <= |s.log|
    ensures t in WithRoom(s.table, owner) <==> |LaterOf(s.log, s.table[t].serial - 1)| < MAX_PER_OWNER - 1
  {
    assert t in Unexpired(s.table, s.clock);
    hide Inv, LaterOf, Owned, IsOldest, Unexpired;
    Ranks(s, owner, t);
    AtMostFour(s, owner);
  }

  lemma RoomCard(table: Table, owner: Owner)
    ensures |WithRoom(table, owner)| <= |table|
    ensures |Owned(table, owner)| >= MAX_PER_OWNER ==> |WithRoom(table, owner)| < |table|
  {
    FewerKeys(WithRoom(table, owner), table);
    if |Owned(table, owner)| >= MAX_PER_OWNER {
      var t := OldestExists(table, owner, Owned(table, owner));
      assert t in table && t !in WithRoom(table, owner);
      Subset(WithRoom(table, owner).Keys, table.Keys - {t});
      assert |WithRoom(table, owner)| == |WithRoom(table, owner).Keys|;
      assert |table| == |table.Keys|;
    }
  }

  /** A token is given. */
  lemma GiveOk(s: State, owner: Owner, token: Token)
    requires Inv(s) && s.table == Unexpired(s.table, s.clock)
    requires Enabled(s, Issue(owner, Some(token), s.clock)) && |WithRoom(s.table, owner)| < MAX_TOKENS
    ensures Inv(DoIssue(s, owner, Some(token), s.clock))
  {
    hide LogOk, TableOk, CoverOk, WithRoom, Unexpired;
    var g := Given(token, owner, s.clock, false, false);
    GiveLog(s.log, s.clock, g);
    GiveTable(s, owner, g);
    GiveCover(s, owner, g);
    RoomCard(s.table, owner);
  }

  function Gave(s: State, owner: Owner, g: Given): Table {
    WithRoom(s.table, owner)[g.token := Entry(owner, g.at + LIFETIME, |s.log| + 1)]
  }

  lemma GiveLog(log: seq<Given>, clock: real, g: Given)
    requires LogOk(log, clock) && g.at == clock && |g.token| == TOKEN_LENGTH && !g.revoked
    requires forall h <- log :: h.token != g.token
    ensures LogOk(log + [g], clock)
  {
  }

  lemma GiveTable(s: State, owner: Owner, g: Given)
    requires Inv(s) && s.table == Unexpired(s.table, s.clock) && g.owner == owner && !g.revoked && !g.lost
    ensures TableOk(Gave(s, owner, g), s.log + [g])
  {
    hide Inv, Unexpired, WithRoom, EntryOk;
    forall t <- Gave(s, owner, g)
      ensures EntryOk(Gave(s, owner, g)[t], t, s.log + [g])
    {
      if t == g.token {
        GiveNew(s.log, g);
      } else {
        GiveEntry(s, owner, g, t);
      }
    }
  }

  lemma GiveNew(log: seq<Given>, g: Given)
    requires !g.revoked && !g.lost
    ensures EntryOk(Entry(g.owner, g.at + LIFETIME, |log| + 1), g.token, log + [g])
  {
    assert LaterOf(log + [g], |log|) == {};
  }

  lemma EntryIs(s: State, t: Token)
    requires Inv(s) && t in s.table
    ensures EntryOk(s.table[t], t, s.log)
  {
    hide LogOk, CoverOk, EntryOk;
  }

  lemma RoomKeeps(table: Table, owner: Owner, t: Token)
    ensures t in WithRoom(table, owner) ==> t in table && WithRoom(table, owner)[t] == table[t]
    ensures t in table && table[t].owner != owner ==> t in WithRoom(table, owner)
  {
  }

  lemma GiveEntry(s: State, owner: Owner, g: Given, t: Token)
    requires Inv(s) && s.table == Unexpired(s.table, s.clock) && g.owner == owner && !g.lost
    requires t in WithRoom(s.table, owner)
    ensures t in s.table && WithRoom(s.table, owner)[t] == s.table[t]
    ensures EntryOk(s.table[t], t, s.log + [g])
  {
    hide Inv, Unexpired, LaterOf, WithRoom;
    RoomKeeps(s.table, owner, t);
    EntryIs(s, t);
    if s.table[t].owner == owner {
      RoomOk(s, owner, t);
    }
    LaterGrows(s.log, g, s.table[t].serial - 1);
    KeptGrows(s.log, g, s.table[t].serial - 1);
    hide KeptSince;
  }

  lemma GiveCover(s: State, owner: Owner, g: Given)
    requires Inv(s) && s.table == Unexpired(s.table, s.clock) && g.owner == owner
    requires forall h <- s.log :: h.token != g.token
    ensures CoverOk(Gave(s, owner, g), s.log + [g], s.clock)
  {
    hide Inv, Unexpired, WithRoom, Good;
    var log := s.log + [g];
    forall i: nat | i < |log| && Good(log, i, s.clock)
      ensures Covered(Gave(s, owner, g), log, i)
    {
      if i < |s.log| {
        GiveKeeps(s, owner, g, i);
        assert s.log[i] in s.log;
      }
    }
  }

  lemma CoverIs(s: State, i: nat)
    requires Inv(s) && i < |s.log| && Good(s.log, i, s.clock)
    ensures Covered(s.table, s.log, i)
  {
    hide LogOk, TableOk, Good, Covered;
  }

  lemma GiveKeeps(s: State, owner: Owner, g: Given, i: nat)
    requires Inv(s) && s.table == Unexpired(s.table, s.clock) && g.owner == owner
    requires i < |s.log| && Good(s.log + [g], i, s.clock)
    ensures Covered(WithRoom(s.table, owner), s.log, i)
  {
    hide LaterOf, Unexpired, Inv, WithRoom;
    LaterGrows(s.log, g, i);
    assert Good(s.log, i, s.clock);
    CoverIs(s, i);
    var t := s.log[i].token;
    EntryIs(s, t);
    if s.log[i].owner == owner {
      RoomOk(s, owner, t);
    }
    RoomKeeps(s.table, owner, t);
  }

  lemma SameToken(s: State, u: Token, j: nat)
    requires Inv(s) && u in s.table && j < |s.log| && s.log[j].token == u
    ensures s.table[u].serial == j + 1
  {
    EntryIs(s, u);
    var k: nat := s.table[u].serial - 1;
    if k < j { LogPair(s.log, s.clock, k, j); }
    if j < k { LogPair(s.log, s.clock, j, k); }
  }

  lemma DropLog(log: seq<Given>, clock: real, before: Table, after: Table)
    requires LogOk(log, clock)
    ensures LogOk(Drained(log, before, after), clock)
  {
  }

  lemma DropLater(log: seq<Given>, before: Table, after: Table, i: nat)
    requires i < |log|
    ensures LaterOf(Drained(log, before, after), i) == LaterOf(log, i)
  {
  }

  /** Whoever makes room comes before all that its owner keeps. */
  lemma DropIsOlder(s: State, owner: Owner, t: Token, j: nat)
    requires Inv(s) && t in WithRoom(s.table, owner) && t in s.table && 0 < s.table[t].serial <= |s.log|
    requires s.table[t].serial <= j < |s.log| && s.log[j].owner == s.log[s.table[t].serial - 1].owner
    ensures s.log[j].token in s.table ==> s.log[j].token in WithRoom(s.table, owner)
  {
    hide Inv, LaterOf, KeptSince;
    var u := s.log[j].token;
    if u in s.table && u !in WithRoom(s.table, owner) {
      EntryIs(s, u);
      EntryIs(s, t);
      SameToken(s, u, j);
    }
  }

  lemma DropTable(s: State, owner: Owner)
    requires Inv(s)
    ensures var table := WithRoom(s.table, owner); TableOk(table, Drained(s.log, s.table, table))
  {
    var table := WithRoom(s.table, owner);
    var log := Drained(s.log, s.table, table);
    hide Inv, WithRoom, LaterOf, LogOk, CoverOk;
    forall t <- table
      ensures EntryOk(table[t], t, log)
    {
      RoomKeeps(s.table, owner, t);
      EntryIs(s, t);
      DropLater(s.log, s.table, table, table[t].serial - 1);
      forall j: nat | table[t].serial <= j < |log| && log[j].owner == log[table[t].serial - 1].owner
        ensures !log[j].lost
      {
        DropIsOlder(s, owner, t, j);
      }
    }
  }

  lemma DropCover(s: State, owner: Owner)
    requires Inv(s)
    ensures var table := WithRoom(s.table, owner); CoverOk(table, Drained(s.log, s.table, table), s.clock)
  {
    var table := WithRoom(s.table, owner);
    var log := Drained(s.log, s.table, table);
    hide Inv, WithRoom, LaterOf;
    forall i: nat | i < |log| && Good(log, i, s.clock)
      ensures Covered(table, log, i)
    {
      DropLater(s.log, s.table, table, i);
      CoverIs(s, i);
      RoomKeeps(s.table, owner, log[i].token);
    }
  }

  /** A draw fails: what made room is lost, and was the oldest of its owner. */
  lemma DropOk(s: State, owner: Owner)
    requires Inv(s) && s.table == Unexpired(s.table, s.clock)
    ensures var table := WithRoom(s.table, owner); Inv(State(table, Drained(s.log, s.table, table), s.clock))
  {
    var table := WithRoom(s.table, owner);
    DropLog(s.log, s.clock, s.table, table);
    DropTable(s, owner);
    DropCover(s, owner);
    RoomCard(s.table, owner);
    hide LogOk, TableOk, CoverOk, WithRoom, Drained, Unexpired;
  }

  lemma IssueOk(s: State, owner: Owner, draw: Option<Token>, now: real)
    requires Inv(s) && Enabled(s, Issue(owner, draw, now))
    ensures Inv(DoIssue(s, owner, draw, now))
  {
    hide Inv, WithRoom, Owned, Unexpired;
    UnexpiredOk(s, now);
    var s1 := State(Unexpired(s.table, now), s.log, now);
    UnexpiredTwice(s.table, now);
    assert DoIssue(s, owner, draw, now) == DoIssue(s1, owner, draw, now);
    if draw.Some? && |WithRoom(s1.table, owner)| < MAX_TOKENS {
      hide DoIssue;
      GiveOk(s1, owner, draw.value);
    } else {
      DropOk(s1, owner);
    }
  }

  lemma UnexpiredTwice(table: Table, now: real)
    ensures Unexpired(Unexpired(table, now), now) == Unexpired(table, now)
  {
  }

  lemma RoomSame(table: Table, owner: Owner)
    requires |Owned(table, owner)| < MAX_PER_OWNER
    ensures WithRoom(table, owner) == table
  {
  }

  lemma AtMostMax(s: State)
    requires Inv(s)
    ensures |s.table| <= MAX_TOKENS
  {
  }

  lemma MarkedLog(log: seq<Given>, clock: real, owner: Option<Owner>)
    requires LogOk(log, clock)
    ensures LogOk(Marked(log, owner), clock)
  {
  }

  lemma MarkedLater(log: seq<Given>, owner: Option<Owner>, i: nat)
    requires i < |log|
    ensures LaterOf(Marked(log, owner), i) == LaterOf(log, i)
  {
  }

  lemma MarkedEntry(x: Entry, t: Token, log: seq<Given>, owner: Option<Owner>)
    requires EntryOk(x, t, log) && owner.Some? && x.owner != owner.value
    ensures EntryOk(x, t, Marked(log, owner))
  {
    hide LaterOf;
    MarkedLater(log, owner, x.serial - 1);
  }

  lemma MarkedGood(s: State, owner: Option<Owner>, i: nat)
    requires Inv(s) && i < |s.log| && Good(Marked(s.log, owner), i, s.clock)
    ensures Covered(Unrevoked(s.table, owner), s.log, i)
  {
    hide LogOk, TableOk, LaterOf;
    MarkedLater(s.log, owner, i);
    assert Good(s.log, i, s.clock);
    assert Covered(s.table, s.log, i);
    hide CoverOk;
    EntryIs(s, s.log[i].token);
  }

  lemma RevokeOk(s: State, owner: Option<Owner>)
    requires Inv(s)
    ensures Inv(State(Unrevoked(s.table, owner), Marked(s.log, owner), s.clock))
  {
    var table := Unrevoked(s.table, owner);
    var log := Marked(s.log, owner);
    FewerKeys(table, s.table);
    MarkedLog(s.log, s.clock, owner);
    hide LogOk, TableOk, CoverOk;
    TableMarked(s, owner);
    CoverMarked(s, owner);
  }

  lemma TableMarked(s: State, owner: Option<Owner>)
    requires Inv(s)
    ensures TableOk(Unrevoked(s.table, owner), Marked(s.log, owner))
  {
    hide LogOk, EntryOk, CoverOk, Marked;
    forall t <- Unrevoked(s.table, owner)
      ensures EntryOk(Unrevoked(s.table, owner)[t], t, Marked(s.log, owner))
    {
      MarkedEntry(s.table[t], t, s.log, owner);
    }
  }

  lemma CoverMarked(s: State, owner: Option<Owner>)
    requires Inv(s)
    ensures CoverOk(Unrevoked(s.table, owner), Marked(s.log, owner), s.clock)
  {
    var log := Marked(s.log, owner);
    hide Inv, Good, Unrevoked;
    forall i: nat | i < |log| && Good(log, i, s.clock)
      ensures Covered(Unrevoked(s.table, owner), log, i)
    {
      MarkedGood(s, owner, i);
    }
  }

  lemma ClockOk(s: State, now: real)
    requires Inv(s) && s.clock <= now
    ensures Inv(s.(clock := now))
  {
    hide Inv;
    LostOk(s, s.table, now);
  }

  lemma AcceptOk(s: State, t: Token, now: real)
    requires Inv(s) && s.clock <= now && t in s.table && s.table[t].expires <= now
    ensures Inv(State(s.table - {t}, s.log, now))
  {
    hide Inv;
    LostOk(s, s.table - {t}, now);
  }

  lemma InvNext(s: State, e: Event)
    requires Inv(s) && Enabled(s, e)
    ensures Inv(Next(s, e))
  {
    hide Inv, DoIssue, Marked;
    match e {
      case Issue(owner, draw, now) => IssueOk(s, owner, draw, now);
      case Accept(t, now) =>
        ClockOk(s, now);
        if t in s.table && s.table[t].expires <= now {
          AcceptOk(s, t, now);
        }
      case Revoke(owner, now) =>
        ClockOk(s, now);
        RevokeOk(s.(clock := now), Some(owner));
      case RevokeAll(now) =>
        ClockOk(s, now);
        RevokeOk(s.(clock := now), None);
    }
  }

  // ----- whole runs -----

  ghost predicate Run(states: seq<State>, events: seq<Event>) {
    && |states| == |events| + 1
    && states[0].table == map[] && states[0].log == []
    && forall i: nat | i < |events| :: StepAt(states, events, i)
  }

  ghost predicate StepAt(states: seq<State>, events: seq<Event>, i: nat)
    requires i < |events| && |states| == |events| + 1
  {
    Enabled(states[i], events[i]) && states[i + 1] == Next(states[i], events[i])
  }

  lemma RunStep(states: seq<State>, events: seq<Event>, i: nat)
    requires Run(states, events) && i < |events|
    ensures Enabled(states[i], events[i]) && states[i + 1] == Next(states[i], events[i])
  {
    hide Enabled, Next;
    assert StepAt(states, events, i);
  }

  lemma InitialInv(s: State)
    requires s.table == map[] && s.log == []
    ensures Inv(s)
  {
  }

  lemma {:induction false} RunInv(states: seq<State>, events: seq<Event>, i: nat)
    requires Run(states, events) && i <= |events|
    ensures Inv(states[i])
    decreases i
  {
    hide Inv, Enabled, Next, StepAt;
    if i == 0 {
      InitialInv(states[0]);
    } else {
      RunInv(states, events, i - 1);
      RunStep(states, events, i - 1);
      InvNext(states[i - 1], events[i - 1]);
    }
  }

  lemma AcceptedIsValid(s: State, t: Token, now: real)
    requires Inv(s) && s.clock <= now
    ensures Accepted(s.table, t, now) <==> Valid(s.log, t, now)
  {
    if Accepted(s.table, t, now) {
      hide LaterOf, LogOk, CoverOk, Inv;
      EntryIs(s, t);
      assert Good(s.log, s.table[t].serial - 1, now);
    }
    if i: nat :| i < |s.log| && s.log[i].token == t && Good(s.log, i, now) {
      ValidIsAccepted(s, i, now);
    }
  }

  lemma ValidIsAccepted(s: State, i: nat, now: real)
    requires Inv(s) && s.clock <= now && i < |s.log| && Good(s.log, i, now)
    ensures Accepted(s.table, s.log[i].token, now)
  {
    GoodBefore(s.log, i, s.clock, now);
    assert |s.log[i].token| == TOKEN_LENGTH;
    hide Good, LogOk, LaterOf;
    CoverIs(s, i);
    GoodLasts(s, i, now);
  }

  // ----- the log told from the events -----

  /** The ith event gave the token with the number j. */
  ghost predicate Gives(states: seq<State>, events: seq<Event>, k: nat, j: nat)
    requires k < |events| && |states| == |events| + 1 && j < |states[k + 1].log|
  {
    var g := states[k + 1].log[j];
    |states[k].log| == j && events[k] == Issue(g.owner, Some(g.token), g.at)
  }

  predicate Revokes(e: Event, owner: Owner) { e.RevokeAll? || (e.Revoke? && e.owner == owner) }

  /** Revoked after it was given. */
  ghost predicate RevokedSince(states: seq<State>, events: seq<Event>, i: nat, j: nat)
    requires i <= |events| && |states| == |events| + 1 && j < |states[i].log|
  {
    exists k: nat :: k < i && j < |states[k].log| && Revokes(events[k], states[i].log[j].owner)
  }

  /** A draw fails, and of the four tokens its owner holds this one is the oldest. */
  predicate Costs(s: State, e: Event, owner: Owner, t: Token) {
    && e.Issue? && e.draw.None? && e.owner == owner
    && var table := Unexpired(s.table, e.now);
       |Owned(table, owner)| >= MAX_PER_OWNER && IsOldest(table, owner, t)
  }

  ghost predicate CostAt(states: seq<State>, events: seq<Event>, k: nat, g: Given)
    requires k < |events| && |states| == |events| + 1
  {
    Costs(states[k], events[k], g.owner, g.token)
  }

  ghost predicate LostSince(states: seq<State>, events: seq<Event>, i: nat, j: nat)
    requires i <= |events| && |states| == |events| + 1 && j < |states[i].log|
  {
    exists k: nat :: k < i && j < |states[k].log| && CostAt(states, events, k, states[i].log[j])
  }

  predicate SameGift(g: Given, h: Given) { g.token == h.token && g.owner == h.owner && g.at == h.at }

  /** What one event does to the token with the number j. */
  lemma LogStep(s: State, e: Event, j: nat)
    requires Inv(s) && Enabled(s, e) && j < |s.log|
    ensures var t := Next(s, e);
            && j < |t.log| <= |s.log| + 1 && SameGift(s.log[j], t.log[j])
            && (t.log[j].revoked <==> s.log[j].revoked || Revokes(e, s.log[j].owner))
            && (t.log[j].lost <==> s.log[j].lost || Costs(s, e, s.log[j].owner, s.log[j].token))
  {
    if e.Issue? {
      IssueLogStep(s, e, j);
    }
    hide Inv, Enabled, DoIssue;
  }

  lemma IssueLogStep(s: State, e: Event, j: nat)
    requires Inv(s) && Enabled(s, e) && j < |s.log| && e.Issue?
    ensures var t := Next(s, e);
            && j < |t.log| <= |s.log| + 1 && SameGift(s.log[j], t.log[j])
            && t.log[j].revoked == s.log[j].revoked
            && (t.log[j].lost <==> s.log[j].lost || Costs(s, e, s.log[j].owner, s.log[j].token))
  {
    var table := Unexpired(s.table, e.now);
    var s1 := State(table, s.log, e.now);
    UnexpiredOk(s, e.now);
    AtMostMax(s1);
    RoomCard(table, e.owner);
    if |Owned(table, e.owner)| < MAX_PER_OWNER {
      RoomSame(table, e.owner);
    }
    DrainedIs(s1, e.owner, j);
    hide Inv, Enabled, Unexpired, WithRoom, Owned, IsOldest, Drained;
    DrainedLength(s.log, table, WithRoom(table, e.owner), j);
  }

  lemma DrainedLength(log: seq<Given>, before: Table, after: Table, j: nat)
    requires j < |log|
    ensures |Drained(log, before, after)| == |log|
    ensures SameGift(log[j], Drained(log, before, after)[j])
    ensures Drained(log, before, after)[j].revoked == log[j].revoked
    ensures before == after ==> Drained(log, before, after)[j] == log[j]
  {
  }

  lemma DrainedIs(s: State, owner: Owner, j: nat)
    requires Inv(s) && j < |s.log|
    ensures Drained(s.log, s.table, WithRoom(s.table, owner))[j].lost
       <==> s.log[j].lost || (|Owned(s.table, owner)| >= MAX_PER_OWNER && s.log[j].owner == owner
                              && IsOldest(s.table, owner, s.log[j].token))
  {
    var t := s.log[j].token;
    if t in s.table {
      EntryIs(s, t);
      SameToken(s, t, j);
    }
    hide Inv, Owned;
  }

  lemma GivenNow(s: State, e: Event, j: nat)
    requires Inv(s) && Enabled(s, e) && |s.log| <= j < |Next(s, e).log|
    ensures j == |s.log| && e.Issue? && e.draw.Some?
    ensures Next(s, e).log[j] == Given(e.draw.value, e.owner, e.now, false, false)
  {
  }

  lemma {:induction false} LogGrows(states: seq<State>, events: seq<Event>, k: nat, i: nat)
    requires Run(states, events) && k <= i <= |events|
    ensures |states[k].log| <= |states[i].log|
    decreases i
  {
    if k < i {
      hide Inv, Enabled;
      LogGrows(states, events, k, i - 1);
      RunStep(states, events, i - 1);
    }
  }

  /** One event more. */
  lemma HistoryGrows(states: seq<State>, events: seq<Event>, i: nat, j: nat)
    requires 0 < i <= |events| && |states| == |events| + 1 && j < |states[i - 1].log| && j < |states[i].log|
    requires SameGift(states[i - 1].log[j], states[i].log[j])
    ensures RevokedSince(states, events, i, j)
       <==> RevokedSince(states, events, i - 1, j) || Revokes(events[i - 1], states[i].log[j].owner)
    ensures LostSince(states, events, i, j)
       <==> LostSince(states, events, i - 1, j)
            || Costs(states[i - 1], events[i - 1], states[i].log[j].owner, states[i].log[j].token)
  {
    hide Revokes, Costs;
    var g := states[i].log[j];
    if Revokes(events[i - 1], g.owner) {
      assert RevokedSince(states, events, i, j);
    }
    if Costs(states[i - 1], events[i - 1], g.owner, g.token) {
      assert CostAt(states, events, i - 1, g);
    }
    if k: nat :| k < i - 1 && j < |states[k].log| && CostAt(states, events, k, states[i - 1].log[j]) {
      assert CostAt(states, events, k, g);
    }
    if k: nat :| k < i && j < |states[k].log| && CostAt(states, events, k, g) && k != i - 1 {
      assert CostAt(states, events, k, states[i - 1].log[j]);
    }
  }

  lemma NoHistory(states: seq<State>, events: seq<Event>, i: nat, j: nat)
    requires Run(states, events) && 0 < i <= |events| && |states[i - 1].log| <= j < |states[i].log|
    ensures !RevokedSince(states, events, i, j) && !LostSince(states, events, i, j)
  {
    forall k: nat | k < i
      ensures |states[k].log| <= j
    {
      LogGrows(states, events, k, i - 1);
    }
  }

  /** Every token of the log was given by one event, and is marked exactly as the events since then say. */
  lemma {:induction false} LogIsHistory(states: seq<State>, events: seq<Event>, i: nat, j: nat) returns (k: nat)
    requires Run(states, events) && i <= |events| && j < |states[i].log|
    ensures k < i && j < |states[k + 1].log| && Gives(states, events, k, j)
            && SameGift(states[k + 1].log[j], states[i].log[j])
    ensures states[i].log[j].revoked <==> RevokedSince(states, events, i, j)
    ensures states[i].log[j].lost <==> LostSince(states, events, i, j)
    decreases i
  {
    hide Inv, Enabled, Next, StepAt, Revokes, Costs;
    assert i > 0;
    RunStep(states, events, i - 1);
    RunInv(states, events, i - 1);
    var s, e, t := states[i - 1], events[i - 1], states[i];
    if j < |s.log| {
      k := LogIsHistory(states, events, i - 1, j);
      hide Run;
      LogStep(s, e, j);
      HistoryGrows(states, events, i, j);
    } else {
      k := i - 1;
      GivenNow(s, e, j);
      NoHistory(states, events, i, j);
    }
  }

  /** What a token has to be to be accepted: given less than two minutes ago, among the last four given to its owner,
      not revoked since, and not the one that a failed draw cost its owner. */
  ghost predicate StillGood(states: seq<State>, events: seq<Event>, i: nat, j: nat, now: real)
    requires i <= |events| && |states| == |events| + 1 && j < |states[i].log|
  {
    && now < states[i].log[j].at + LIFETIME && |LaterOf(states[i].log, j)| < MAX_PER_OWNER
    && !RevokedSince(states, events, i, j) && !LostSince(states, events, i, j)
  }

  /** A token that is refused because it has expired is forgotten; asking changes nothing else. */
  lemma AcceptForgets(s: State, t: Token, now: real)
    ensures var u := Next(s, Accept(t, now)).table;
            && (t in u <==> t in s.table && (|t| == TOKEN_LENGTH ==> Accepted(s.table, t, now)))
            && u - {t} == s.table - {t} && (t in u ==> u[t] == s.table[t])
  {
  }

  /** A token is accepted if and only if it was given, and is still good. */
  lemma AcceptIsExact(states: seq<State>, events: seq<Event>, i: nat, t: Token, now: real)
    requires Run(states, events) && i <= |events| && states[i].clock <= now
    ensures Accepted(states[i].table, t, now)
       <==> exists j: nat :: j < |states[i].log| && states[i].log[j].token == t && StillGood(states, events, i, j, now)
    ensures Accepted(states[i].table, t, now) <==> Valid(states[i].log, t, now)
    ensures Accepted(states[i].table, t, now) ==> Deserved(states[i].log, t, now)
  {
    RunInv(states, events, i);
    AcceptedIsValid(states[i], t, now);
    hide Inv, Run, Accepted, LaterOf, RevokedSince, LostSince;
    forall j: nat | j < |states[i].log|
      ensures Good(states[i].log, j, now) <==> StillGood(states, events, i, j, now)
    {
      var k := LogIsHistory(states, events, i, j);
    }
    hide Good, StillGood;
  }

  /** No draw fails for an owner of four tokens. */
  predicate Lucky(s: State, e: Event) {
    e.Issue? && e.draw.None? ==> |Owned(Unexpired(s.table, e.now), e.owner)| < MAX_PER_OWNER
  }

  ghost predicate AcceptsDeserved(s: State) {
    forall t: Token, now: real | s.clock <= now :: Accepted(s.table, t, now) <==> Deserved(s.log, t, now)
  }

  ghost predicate NothingLost(s: State) { forall g <- s.log :: !g.lost }

  lemma Evicted(s: State, owner: Owner) returns (t: Token)
    requires Inv(s) && |Owned(s.table, owner)| >= MAX_PER_OWNER
    ensures t in s.table && t !in WithRoom(s.table, owner)
    ensures 0 < s.table[t].serial <= |s.log| && s.log[s.table[t].serial - 1].token == t
  {
    t := OldestHeld(s.table, owner);
    EntryIs(s, t);
  }

  lemma LuckyStep(s: State, e: Event)
    requires Inv(s) && Enabled(s, e) && NothingLost(s)
    ensures NothingLost(Next(s, e)) <==> Lucky(s, e)
  {
    hide Inv, Enabled, WithRoom, Owned, Unexpired;
    if e.Issue? {
      var before := Unexpired(s.table, e.now);
      var after := WithRoom(before, e.owner);
      assert s.clock <= e.now by {
        Later(s, e.owner, e.draw, e.now);
      }
      UnexpiredOk(s, e.now);
      AtMostMax(State(before, s.log, e.now));
      RoomCard(before, e.owner);
      if |Owned(before, e.owner)| < MAX_PER_OWNER {
        RoomSame(before, e.owner);
      } else {
        var t := Evicted(State(before, s.log, e.now), e.owner);
        assert e.draw.None? ==> Drained(s.log, before, after)[before[t].serial - 1] in Next(s, e).log;
      }
    }
  }

  lemma ClockIs(s: State, e: Event)
    ensures Next(s, e).clock == e.now
  {
  }

  /** With luck until then, nothing but age, revocation and four later tokens ends a token. */
  lemma {:induction false} AcceptWithLuck(states: seq<State>, events: seq<Event>, i: nat)
    requires Run(states, events) && i <= |events|
    requires forall k: nat | k < i :: Lucky(states[k], events[k])
    ensures NothingLost(states[i]) && AcceptsDeserved(states[i])
    decreases i
  {
    hide Inv, Enabled, Next, StepAt, Lucky, Deserving;
    if i > 0 {
      AcceptWithLuck(states, events, i - 1);
      RunInv(states, events, i - 1);
      RunStep(states, events, i - 1);
      LuckyStep(states[i - 1], events[i - 1]);
    }
    hide Run;
    assert NothingLost(states[i]);
    forall t: Token, now: real | states[i].clock <= now
      ensures Accepted(states[i].table, t, now) <==> Deserved(states[i].log, t, now)
    {
      hide Accepted;
      AcceptIsExact(states, events, i, t, now);
    }
  }

  /** A draw that fails for an owner of four tokens costs one that still deserves to be accepted. */
  lemma UnluckyStep(s: State, e: Event) returns (t: Token)
    requires Inv(s) && Enabled(s, e) && !Lucky(s, e)
    ensures Deserved(Next(s, e).log, t, e.now) && !Accepted(Next(s, e).table, t, e.now)
  {
    hide Inv, WithRoom, LaterOf;
    var s1 := State(Unexpired(s.table, e.now), s.log, e.now);
    UnexpiredOk(s, e.now);
    t := Evicted(s1, e.owner);
    EntryIs(s1, t);
    var log := Drained(s.log, s1.table, WithRoom(s1.table, e.owner));
    DropLater(s.log, s1.table, WithRoom(s1.table, e.owner), s1.table[t].serial - 1);
    assert Deserving(log, s1.table[t].serial - 1, e.now);
  }

  /** All along a run the accepted tokens are those that deserve it if and only if no draw failed for an owner of
      four tokens. */
  lemma AcceptUnlessUnlucky(states: seq<State>, events: seq<Event>, i: nat)
    requires Run(states, events) && i <= |events|
    ensures (forall k: nat | k <= i :: AcceptsDeserved(states[k]))
       <==> (forall k: nat | k < i :: Lucky(states[k], events[k]))
  {
    hide Inv, Enabled, Next, StepAt, Lucky, Accepted, Deserved;
    if forall k: nat | k < i :: Lucky(states[k], events[k]) {
      forall k: nat | k <= i
        ensures AcceptsDeserved(states[k])
      {
        AcceptWithLuck(states, events, k);
      }
    } else {
      var k: nat :| k < i && !Lucky(states[k], events[k]);
      RunInv(states, events, k);
      RunStep(states, events, k);
      var t := UnluckyStep(states[k], events[k]);
      ClockIs(states[k], events[k]);
      assert !AcceptsDeserved(states[k + 1]);
    }
  }

  lemma TableIsBounded(states: seq<State>, events: seq<Event>, i: nat, owner: Owner)
    requires Run(states, events) && i <= |events|
    ensures |states[i].table| <= MAX_TOKENS && |Owned(states[i].table, owner)| <= MAX_PER_OWNER
  {
    RunInv(states, events, i);
    AtMostFour(states[i], owner);
  }

  /** The exception: when the random draw fails, the tokens accepted are still the right ones exactly when the
      owner held fewer than four. */
  lemma FailedDraw(s: State, owner: Owner, now: real)
    requires Inv(s) && s.clock <= now
    ensures (forall t: Token :: Accepted(DoIssue(s, owner, None, now).table, t, now) <==> Valid(s.log, t, now))
       <==> |Owned(Unexpired(s.table, now), owner)| < MAX_PER_OWNER
  {
    var u := DoIssue(s, owner, None, now);
    if |Owned(Unexpired(s.table, now), owner)| < MAX_PER_OWNER {
      hide Inv, Owned, Unexpired, DoIssue, Accepted, Valid;
      IssueOk(s, owner, None, now);
      DrawnNothing(s, owner, now);
      forall t: Token
        ensures Accepted(u.table, t, now) <==> Valid(s.log, t, now)
      {
        AcceptedIsValid(u, t, now);
      }
    } else {
      var table := Unexpired(s.table, now);
      var t := OldestExists(table, owner, Owned(table, owner));
      assert !Accepted(u.table, t, now);
      hide Inv;
      EntryIs(s, t);
      assert Accepted(s.table, t, now);
      AcceptedIsValid(s, t, now);
    }
  }

  lemma DrawnNothing(s: State, owner: Owner, now: real)
    requires |Owned(Unexpired(s.table, now), owner)| < MAX_PER_OWNER
    ensures DoIssue(s, owner, None, now).log == s.log && DoIssue(s, owner, None, now).clock == now
  {
  }

  /** With random bytes at hand, a token is given and accepted at once, unless 1024 unexpired ones are kept and
      the owner has fewer than four to give up. */
  lemma GivenUnlessFull(s: State, owner: Owner, token: Token, now: real)
    requires Inv(s) && Enabled(s, Issue(owner, Some(token), now))
    ensures var t := DoIssue(s, owner, Some(token), now);
            var full := |Unexpired(s.table, now)| >= MAX_TOKENS
                        && |Owned(Unexpired(s.table, now), owner)| < MAX_PER_OWNER;
            (full ==> t.log == s.log && t.table == Unexpired(s.table, now))
            && (!full ==> t.log == s.log + [Given(token, owner, now, false, false)] && Accepted(t.table, token, now))
  {
    hide Inv, Unexpired, WithRoom, Owned, Enabled;
    assert s.clock <= now by {
      Later(s, owner, Some(token), now);
    }
    UnexpiredOk(s, now);
    AtMostMax(State(Unexpired(s.table, now), s.log, now));
    RoomCard(Unexpired(s.table, now), owner);
    if |Owned(Unexpired(s.table, now), owner)| < MAX_PER_OWNER {
      RoomSame(Unexpired(s.table, now), owner);
    }
    assert |token| == TOKEN_LENGTH by {
      DrawIsLong(s, owner, token, now);
    }
  }

  lemma DrawIsLong(s: State, owner: Owner, token: Token, now: real)
    requires Enabled(s, Issue(owner, Some(token), now))
    ensures |token| == TOKEN_LENGTH
  {
  }

  // ----- the object -----

  /** The static members of the class. `log` only serves the proofs; lastSerial counts its tokens. */
  class TokenTable {
    var tokens: Table
    var lastSerial: nat
    ghost var log: seq<Given>
    ghost var clock: real

    ghost function View(): State
      reads this
    {
      State(tokens, log, clock)
    }

    ghost predicate Counting()
      reads this
    {
      lastSerial == |log|
    }

    constructor (now: real)
      ensures View() == State(map[], [], now) && Counting()
    {
      tokens, lastSerial, log, clock := map[], 0, [], now;
    }

    method PurgeExpired(now: real)
      modifies this`tokens
      ensures tokens == Unexpired(old(tokens), now)
    {
      var keys := tokens.Keys;
      while keys != {}
        invariant keys <= tokens.Keys
        invariant tokens == map t | t in old(tokens) && (t in keys || old(tokens)[t].expires > now) :: old(tokens)[t]
        decreases |keys|
      {
        var t :| t in keys;
        if tokens[t].expires <= now {
          tokens := tokens - {t};
        }
        keys := keys - {t};
      }
    }

    /** How many tokens an owner holds, and the oldest of them. */
    method Count(owner: Owner) returns (owned: nat, oldest: Option<Token>)
      ensures owned == |Owned(tokens, owner)|
      ensures owned > 0 ==> oldest.Some? && IsOldest(tokens, owner, oldest.value)
    {
      var keys := tokens.Keys;
      ghost var seen: set<Token> := {};
      owned, oldest := 0, None;
      while keys != {}
        invariant keys <= tokens.Keys && seen <= Owned(tokens, owner)
        invariant forall t <- Owned(tokens, owner) :: t in keys || t in seen
        invariant seen !! keys && owned == |seen|
        invariant oldest.Some? <==> owned > 0
        invariant oldest.Some? ==> oldest.value in seen
                                   && forall u <- seen :: tokens[oldest.value].serial <= tokens[u].serial
        decreases |keys|
      {
        var t :| t in keys;
        keys := keys - {t};
        if tokens[t].owner == owner {
          seen := seen + {t};
          owned := owned + 1;
          if oldest.None? || tokens[t].serial < tokens[oldest.value].serial {
            oldest := Some(t);
          }
        }
      }
      assert seen == Owned(tokens, owner);
    }

    /** `draw` is what the random bytes gave, nothing when there were none. */
    method IssueToken(owner: Owner, draw: Option<Token>, now: real) returns (token: Option<Token>)
      requires Inv(View()) && Counting() && Enabled(View(), Issue(owner, draw, now))
      modifies this
      ensures View() == DoIssue(old(View()), owner, draw, now) && Counting()
      ensures token == if |log| == old(|log|) then None else draw
    {
      hide Inv, Enabled, WithRoom, Owned, Unexpired, IsOldest;
      ghost var s := View();
      PurgeExpired(now);
      clock := now;
      UnexpiredOk(s, now) by {
        assert s.clock <= now by { Later(s, owner, draw, now); }
      }
      var owned, oldest := Count(owner);
      if owned >= MAX_PER_OWNER {
        OnlyOldest(View(), owner, oldest.value);
        tokens := tokens - {oldest.value};
      } else {
        RoomSame(tokens, owner);
      }
      assert tokens == Room(s, owner, now);
      if |tokens| >= MAX_TOKENS || draw.None? {
        log := Drained(log, Unexpired(s.table, now), tokens);
        return None;
      }
      lastSerial := lastSerial + 1;
      tokens := tokens[draw.value := Entry(owner, now + LIFETIME, lastSerial)];
      log := log + [Given(draw.value, owner, now, false, false)];
      return draw;
    }

    method AcceptToken(token: Token, now: real) returns (ok: bool)
      modifies this`tokens, this`clock
      ensures ok == Accepted(old(tokens), token, now)
      ensures View() == Next(old(View()), Accept(token, now))
    {
      clock := now;
      if |token| != TOKEN_LENGTH || token !in tokens {
        return false;
      }
      if tokens[token].expires <= now {
        tokens := tokens - {token};
        return false;
      }
      return true;
    }

    method RevokeOwner(owner: Owner, now: real)
      modifies this
      ensures View() == Next(old(View()), Revoke(owner, now)) && lastSerial == old(lastSerial)
    {
      var keys := tokens.Keys;
      while keys != {}
        invariant keys <= tokens.Keys && log == old(log) && lastSerial == old(lastSerial)
        invariant tokens == map t | t in old(tokens) && (t in keys || old(tokens)[t].owner != owner) :: old(tokens)[t]
        decreases |keys|
      {
        var t :| t in keys;
        if tokens[t].owner == owner {
          tokens := tokens - {t};
        }
        keys := keys - {t};
      }
      log := Marked(log, Some(owner));
      clock := now;
    }
  }

}
