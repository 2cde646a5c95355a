/** Who is told when an IO changes, src/bin/calaos_server/IOChangeHub.cpp:40-124: subscriptions may come, go
    and change hands at any time, from inside the callbacks too. */
module IOChangeHub {
  import opened Options

  type Id = string

  /** A slot object; a new one is never equal to an earlier one. */
  type Slot = nat

  /** A Subscription variable of the program. */
  type Handle = nat

  datatype Sub = Sub(id: Id, slot: Option<Slot>)

  /** The hub and the variables; `home` remembers the id each slot was made for, `ios` the IOs that exist. */
  datatype World = World(
    slots: map<Id, seq<Slot>>,
    active: set<Slot>,
    next: Slot,
    home: map<Slot, Id>,
    handles: map<Handle, Sub>,
    ios: set<Id>)

  const INIT: World := World(map[], {}, 0, map[], map[], {})

  // ----- the operations -----

  function Without(list: seq<Slot>, s: Slot): seq<Slot> {
    if list == [] then [] else if list[0] == s then list[1..] else [list[0]] + Without(list[1..], s)
  }

  /** unsubscribe(): the slot is told to skip, and an id nobody listens to is forgotten. */
  function Unsubscribe(w: World, id: Id, s: Slot): World {
    if id !in w.slots then w
    else
      var left := Without(w.slots[id], s);
      w.(slots := if left == [] then w.slots - {id} else w.slots[id := left],
         active := if s in w.slots[id] then w.active - {s} else w.active)
  }

  function Holds(w: World, h: Handle): Sub { if h in w.handles then w.handles[h] else Sub("", None) }

  function Reset(w: World, h: Handle): World {
    var sub := Holds(w, h);
    var w1 := if sub.slot.Some? && sub.slot.value in w.active then Unsubscribe(w, sub.id, sub.slot.value) else w;
    w1.(handles := w1.handles[h := Sub(sub.id, None)])
  }

  /** What move assignment does: the old subscription ends, the other variable is left empty. */
  function Assign(w: World, to: Handle, sub: Sub): World {
    var w1 := Reset(w, to);
    w1.(handles := w1.handles[to := sub])
  }

  function Move(w: World, to: Handle, from: Handle): World {
    if to == from then w
    else
      var sub := Holds(w, from);
      Assign(w.(handles := w.handles[from := Sub("", None)]), to, sub)
  }

  /** A new slot in the list of its id. */
  function Registering(w: World, id: Id): World {
    var list := if id in w.slots then w.slots[id] else [];
    w.(slots := w.slots[id := list + [w.next]], active := w.active + {w.next}, next := w.next + 1,
       home := w.home[w.next := id])
  }

  /** The new slot is registered before the variable that receives it lets go of what it held. */
  function Subscribe(w: World, to: Handle, id: Id): World { Assign(Registering(w, id), to, Sub(id, Some(w.next))) }

  /** What user code may do, a callback included. */
  datatype Action =
    | Connect(to: Handle, id: Id)
    | Drop(h: Handle)
    | Give(to: Handle, from: Handle)
    | CreateIO(id: Id)
    | RemoveIO(id: Id)

  function Act(w: World, a: Action): World {
    match a
    case Connect(to, id) => Subscribe(w, to, id)
    case Drop(h) => Reset(w, h)
    case Give(to, from) => Move(w, to, from)
    case CreateIO(id) => w.(ios := w.ios + {id})
    case RemoveIO(id) => w.(ios := w.ios - {id})
  }

  function ActAll(w: World, actions: seq<Action>): World
    decreases |actions|
  {
    if actions == [] then w else ActAll(Act(w, actions[0]), actions[1..])
  }

  /** The rest of a dispatch: the world after it, and the slots whose callback ran. `code` says what the
      callback of each slot of the snapshot does if it runs. */
  function Dispatch(w: World, id: Id, snapshot: seq<Slot>, code: seq<seq<Action>>): (World, seq<Slot>)
    requires |code| == |snapshot|
    decreases |snapshot|
  {
    if snapshot == [] then (w, [])
    else if snapshot[0] !in w.active then Dispatch(w, id, snapshot[1..], code[1..])
    else if id !in w.ios then (w, [])
    else
      var (w1, calls) := Dispatch(ActAll(w, code[0]), id, snapshot[1..], code[1..]);
      (w1, [snapshot[0]] + calls)
  }

  function Snapshot(w: World, id: Id): seq<Slot> { if id in w.slots then w.slots[id] else [] }

  function Notify(w: World, id: Id, code: seq<seq<Action>>): (World, seq<Slot>)
    requires |code| == |Snapshot(w, id)|
  {
    Dispatch(w, id, Snapshot(w, id), code)
  }

  // ----- the invariant -----

  predicate Distinct(list: seq<Slot>) { forall i, j | 0 <= i < j < |list| :: list[i] != list[j] }

  lemma DistinctCons(x: Slot, list: seq<Slot>)
    ensures Distinct([x] + list) <==> Distinct(list) && x !in list
  {
    var more := [x] + list;
    assert more[0] == x && more[1..] == list;
    if Distinct(more) {
      forall i, j | 0 <= i < j < |list|
        ensures list[i] != list[j]
      {
        assert more[i + 1] != more[j + 1];
      }
    }
  }

  /** No list is empty; whoever is listed is listed once, under its own id, and is active. */
  ghost predicate ListOk(list: seq<Slot>, id: Id, active: set<Slot>, home: map<Slot, Id>) {
    && list != []
    && (forall s <- list :: s in active && s in home && home[s] == id)
    && Distinct(list)
  }

  ghost predicate ListsOk(slots: map<Id, seq<Slot>>, active: set<Slot>, home: map<Slot, Id>) {
    forall id <- slots :: ListOk(slots[id], id, active, home)
  }

  /** Whoever is active is listed under its id. */
  ghost predicate ActiveOk(slots: map<Id, seq<Slot>>, active: set<Slot>, home: map<Slot, Id>) {
    forall s <- active :: s in home && home[s] in slots && s in slots[home[s]]
  }

  /** A subscription knows the id of its slot, and no two of them hold the same one. */
  ghost predicate HandlesOk(handles: map<Handle, Sub>, home: map<Slot, Id>) {
    && (forall h <- handles :: handles[h].slot.Some? ==>
          handles[h].slot.value in home && home[handles[h].slot.value] == handles[h].id)
    && (forall h <- handles, k <- handles ::
          handles[h].slot.Some? && handles[h].slot == handles[k].slot ==> h == k)
  }

  ghost predicate Inv(w: World) {
    && ListsOk(w.slots, w.active, w.home)
    && ActiveOk(w.slots, w.active, w.home)
    && HandlesOk(w.handles, w.home)
    && (forall s <- w.home :: s < w.next)
  }

  predicate Registered(w: World, id: Id, s: Slot) { id in w.slots && s in w.slots[id] }

  // ----- what each operation keeps -----

  lemma {:induction false} WithoutOk(list: seq<Slot>, s: Slot)
    requires Distinct(list)
    ensures forall u :: u in Without(list, s) <==> u in list && u != s
    ensures Distinct(Without(list, s))
  {
    if list != [] {
      assert list == [list[0]] + list[1..];
      DistinctCons(list[0], list[1..]);
      if list[0] != s {
        WithoutOk(list[1..], s);
        DistinctCons(list[0], Without(list[1..], s));
      }
    }
  }

  lemma {:induction false} WithoutAt(list: seq<Slot>, s: Slot, i: nat)
    requires i <= |list| && (forall j | 0 <= j < i :: list[j] != s) && (i < |list| ==> list[i] == s)
    ensures Without(list, s) == if i < |list| then list[..i] + list[i + 1..] else list
    ensures s in list <==> i < |list|
  {
    if i > 0 {
      WithoutAt(list[1..], s, i - 1);
      assert list == [list[0]] + list[1..];
      assert i < |list| ==> list[..i] == [list[0]] + list[1..][..i - 1] && list[i + 1..] == list[1..][i..];
    }
  }

  lemma UnsubscribeOk(w: World, id: Id, s: Slot)
    requires Inv(w) && s in w.active && w.home[s] == id
    ensures var t := Unsubscribe(w, id, s);
            && Inv(t) && t.active == w.active - {s} && t.handles == w.handles && t.home == w.home && t.next == w.next
  {
    assert ListOk(w.slots[id], id, w.active, w.home);
    WithoutOk(w.slots[id], s);
    var t := Unsubscribe(w, id, s);
    assert s in w.slots[id];
    forall k <- t.slots
      ensures ListOk(t.slots[k], k, t.active, w.home)
    {
      assert ListOk(w.slots[k], k, w.active, w.home);
    }
    forall u <- t.active
      ensures w.home[u] in t.slots && u in t.slots[w.home[u]]
    {
      assert u in w.slots[w.home[u]];
    }
  }

  lemma ResetOk(w: World, h: Handle)
    requires Inv(w)
    ensures Inv(Reset(w, h)) && Reset(w, h).active <= w.active
    ensures Reset(w, h).home == w.home && Reset(w, h).next == w.next
    ensures Reset(w, h).handles == w.handles[h := Sub(Holds(w, h).id, None)]
  {
    hide ListsOk, ActiveOk, Unsubscribe;
    var sub := Holds(w, h);
    if sub.slot.Some? && sub.slot.value in w.active {
      UnsubscribeOk(w, sub.id, sub.slot.value);
    }
  }

  lemma AssignOk(w: World, to: Handle, sub: Sub)
    requires Inv(w) && (sub.slot.Some? ==> sub.slot.value in w.home && w.home[sub.slot.value] == sub.id)
    requires sub.slot.Some? ==> forall h <- w.handles :: w.handles[h].slot != sub.slot
    ensures Inv(Assign(w, to, sub)) && Assign(w, to, sub).active <= w.active && Assign(w, to, sub).home == w.home
    ensures Assign(w, to, sub).next == w.next
  {
    hide ListsOk, ActiveOk, Reset;
    ResetOk(w, to);
  }

  lemma MoveOk(w: World, to: Handle, from: Handle)
    requires Inv(w)
    ensures Inv(Move(w, to, from)) && Move(w, to, from).active <= w.active && Move(w, to, from).home == w.home
    ensures Move(w, to, from).next == w.next
  {
    hide ListsOk, ActiveOk, Assign;
    if to != from {
      var sub := Holds(w, from);
      AssignOk(w.(handles := w.handles[from := Sub("", None)]), to, sub);
    }
  }

  lemma ListedOne(slots: map<Id, seq<Slot>>, active: set<Slot>, home: map<Slot, Id>, id: Id, s: Slot)
    requires ListsOk(slots, active, home) && s !in home
    ensures var list := if id in slots then slots[id] else [];
            ListsOk(slots[id := list + [s]], active + {s}, home[s := id])
  {
    var list := if id in slots then slots[id] else [];
    var slots1 := slots[id := list + [s]];
    forall k <- slots1
      ensures ListOk(slots1[k], k, active + {s}, home[s := id])
    {
      assert k in slots ==> ListOk(slots[k], k, active, home);
    }
  }

  lemma ActiveOne(slots: map<Id, seq<Slot>>, active: set<Slot>, home: map<Slot, Id>, id: Id, s: Slot)
    requires ActiveOk(slots, active, home) && s !in active
    ensures var list := if id in slots then slots[id] else [];
            ActiveOk(slots[id := list + [s]], active + {s}, home[s := id])
  {
  }

  /** What a variable holds on to. */
  function HeldBy(w: World, h: Handle): set<Slot> { if Holds(w, h).slot.Some? then {Holds(w, h).slot.value} else {} }

  lemma ResetDrops(w: World, h: Handle)
    requires Inv(w)
    ensures Reset(w, h).active == w.active - HeldBy(w, h)
  {
    hide ListsOk, ActiveOk, Unsubscribe;
    var sub := Holds(w, h);
    if sub.slot.Some? && sub.slot.value in w.active {
      UnsubscribeOk(w, sub.id, sub.slot.value);
    }
  }

  lemma EmptiedOk(w: World, h: Handle)
    requires Inv(w)
    ensures Inv(w.(handles := w.handles[h := Sub("", None)]))
  {
    hide ListsOk, ActiveOk;
  }

  /** The world between the two halves of a subscription. */
  lemma RegisteringOk(w: World, id: Id)
    requires Inv(w)
    ensures var w1 := Registering(w, id);
            && Inv(w1) && w1.handles == w.handles && w1.next == w.next + 1 && w1.active == w.active + {w.next}
            && w.next !in w.active && w.next in w1.home && w1.home[w.next] == id
            && forall h <- w.handles :: w.handles[h].slot != Some(w.next)
  {
    hide ListsOk;
    var w1 := Registering(w, id);
    assert w.next !in w.home && w.next !in w.active;
    hide ActiveOk;
    ListedOne(w.slots, w.active, w.home, id, w.next);
    ActiveOne(w.slots, w.active, w.home, id, w.next);
    assert HandlesOk(w1.handles, w1.home);
  }

  lemma SubscribeOk(w: World, to: Handle, id: Id)
    requires Inv(w)
    ensures Inv(Subscribe(w, to, id)) && Subscribe(w, to, id).active <= w.active + {w.next}
    ensures Subscribe(w, to, id).next == w.next + 1
  {
    hide Inv, Assign, Registering;
    RegisteringOk(w, id);
    AssignOk(Registering(w, id), to, Sub(id, Some(w.next)));
  }

  /** Once a slot is inactive it stays so, whatever the user code does. */
  lemma ActOk(w: World, a: Action)
    requires Inv(w)
    ensures Inv(Act(w, a)) && w.next <= Act(w, a).next
    ensures forall s <- Act(w, a).active :: s in w.active || s >= w.next
  {
    hide Inv, Subscribe, Reset, Move;
    match a {
      case Connect(to, id) => SubscribeOk(w, to, id);
      case Drop(h) => ResetOk(w, h);
      case Give(to, from) => MoveOk(w, to, from);
      case CreateIO(id) => IosOk(w, w.ios + {id});
      case RemoveIO(id) => IosOk(w, w.ios - {id});
    }
  }

  /** Who is listening after a step: a new slot for a subscription, and nobody less than the one whose variable
      was dropped or taken over. */
  lemma ActiveAfter(w: World, a: Action)
    requires Inv(w)
    ensures Act(w, a).active
         == match a
            case Connect(to, _) => w.active - HeldBy(w, to) + {w.next}
            case Drop(h) => w.active - HeldBy(w, h)
            case Give(to, from) => if to == from then w.active else w.active - HeldBy(w, to)
            case _ => w.active
    ensures a.Connect? ==> Registered(Act(w, a), a.id, w.next) && Act(w, a).handles[a.to] == Sub(a.id, Some(w.next))
  {
    hide Inv, Subscribe, Reset, Move, HeldBy, Registered;
    match a {
      case Connect(to, id) => ConnectActive(w, to, id);
      case Drop(h) => ResetDrops(w, h);
      case Give(to, from) => GiveActive(w, to, from);
      case _ =>
    }
  }

  lemma ConnectActive(w: World, to: Handle, id: Id)
    requires Inv(w)
    ensures Subscribe(w, to, id).active == w.active - HeldBy(w, to) + {w.next}
    ensures Registered(Subscribe(w, to, id), id, w.next) && Subscribe(w, to, id).handles[to] == Sub(id, Some(w.next))
  {
    hide Inv, Reset, Registering;
    RegisteringOk(w, id);
    var w1 := Registering(w, id);
    ResetDrops(w1, to);
    assert HeldBy(w1, to) == HeldBy(w, to) && w.next !in HeldBy(w, to);
    ResetOk(w1, to);
    ActiveIsRegistered(Reset(w1, to), id, w.next);
  }

  lemma GiveActive(w: World, to: Handle, from: Handle)
    requires Inv(w)
    ensures Move(w, to, from).active == if to == from then w.active else w.active - HeldBy(w, to)
  {
    EmptiedOk(w, from);
    hide Inv, Reset;
    if to != from {
      ResetDrops(w.(handles := w.handles[from := Sub("", None)]), to);
    }
  }

  lemma IosOk(w: World, ios: set<Id>)
    requires Inv(w)
    ensures Inv(w.(ios := ios))
  {
  }

  lemma {:induction false} ActAllOk(w: World, actions: seq<Action>)
    requires Inv(w)
    ensures Inv(ActAll(w, actions)) && w.next <= ActAll(w, actions).next
    ensures forall s <- ActAll(w, actions).active :: s in w.active || s >= w.next
    decreases |actions|
  {
    hide Inv, Act;
    if actions != [] {
      ActOk(w, actions[0]);
      ActAllOk(Act(w, actions[0]), actions[1..]);
    }
  }

  /** In every reachable world a slot is active exactly when it is registered under its id, and no id maps to
      an empty list. */
  lemma ActiveIffRegistered(actions: seq<Action>, s: Slot, id: Id)
    ensures var w := ActAll(INIT, actions);
            && (s in w.active <==> exists k: Id :: Registered(w, k, s))
            && (Registered(w, id, s) ==> s in w.home && w.home[s] == id)
            && (id in w.slots ==> w.slots[id] != [])
  {
    assert Inv(INIT);
    ActAllOk(INIT, actions);
    var w := ActAll(INIT, actions);
    if s in w.active {
      assert Registered(w, w.home[s], s);
    }
    forall k: Id | Registered(w, k, s)
      ensures s in w.active && s in w.home && w.home[s] == k
    {
      assert ListOk(w.slots[k], k, w.active, w.home);
    }
    if id in w.slots {
      assert ListOk(w.slots[id], id, w.active, w.home);
    }
  }

  // ----- what a notify does -----

  predicate Subsequence(a: seq<Slot>, b: seq<Slot>)
    decreases |b|
  {
    a == [] || (b != [] && (if a[0] == b[0] then Subsequence(a[1..], b[1..]) || Subsequence(a, b[1..])
                            else Subsequence(a, b[1..])))
  }

  lemma {:induction false} SubsequenceIn(a: seq<Slot>, b: seq<Slot>)
    requires Subsequence(a, b)
    ensures forall s <- a :: s in b
    decreases |b|
  {
    if a != [] {
      if a[0] == b[0] && Subsequence(a[1..], b[1..]) {
        SubsequenceIn(a[1..], b[1..]);
        assert a == [a[0]] + a[1..];
      } else {
        SubsequenceIn(a, b[1..]);
      }
    }
  }

  /** A list without doubles is called without doubles. */
  lemma {:induction false} SubsequenceOnce(a: seq<Slot>, b: seq<Slot>)
    requires Subsequence(a, b) && Distinct(b)
    ensures Distinct(a)
    decreases |b|
  {
    if a != [] {
      assert a == [a[0]] + a[1..] && b == [b[0]] + b[1..];
      DistinctCons(b[0], b[1..]);
      DistinctCons(a[0], a[1..]);
      if a[0] == b[0] && Subsequence(a[1..], b[1..]) {
        SubsequenceOnce(a[1..], b[1..]);
        SubsequenceIn(a[1..], b[1..]);
      } else {
        SubsequenceOnce(a, b[1..]);
      }
    }
  }

  /** The worlds in which the slots of the snapshot have their turn. */
  function Turn(w: World, id: Id, snapshot: seq<Slot>, code: seq<seq<Action>>, k: nat): World
    requires |code| == |snapshot| && k <= |snapshot|
    decreases k
  {
    if k == 0 then w
    else
      var next := if snapshot[0] in w.active && id in w.ios then ActAll(w, code[0]) else w;
      Turn(next, id, snapshot[1..], code[1..], k - 1)
  }

  lemma {:induction false} DispatchOk(w: World, id: Id, snapshot: seq<Slot>, code: seq<seq<Action>>)
    requires Inv(w) && |code| == |snapshot|
    ensures var (t, calls) := Dispatch(w, id, snapshot, code);
            && Inv(t) && w.next <= t.next
            && Subsequence(calls, snapshot)
            && forall s <- t.active :: s in w.active || s >= w.next
    decreases |snapshot|
  {
    hide Inv, ActAll;
    if snapshot != [] {
      if snapshot[0] !in w.active {
        DispatchOk(w, id, snapshot[1..], code[1..]);
        SubsequenceSkip(Dispatch(w, id, snapshot[1..], code[1..]).1, snapshot);
      } else if id in w.ios {
        ActAllOk(w, code[0]);
        DispatchOk(ActAll(w, code[0]), id, snapshot[1..], code[1..]);
        SubsequenceAdd(Dispatch(ActAll(w, code[0]), id, snapshot[1..], code[1..]).1, snapshot);
      }
    }
  }

  lemma SubsequenceSkip(a: seq<Slot>, b: seq<Slot>)
    requires b != [] && Subsequence(a, b[1..])
    ensures Subsequence(a, b)
  {
  }

  lemma SubsequenceAdd(a: seq<Slot>, b: seq<Slot>)
    requires b != [] && Subsequence(a, b[1..])
    ensures Subsequence([b[0]] + a, b)
  {
    assert ([b[0]] + a)[1..] == a;
  }

  lemma ActiveIsRegistered(w: World, id: Id, s: Slot)
    requires Inv(w) && s in w.active && s in w.home && w.home[s] == id
    ensures Registered(w, id, s)
  {
  }

  /** Only slots still registered under the id when their turn comes are called. */
  lemma {:induction false} CalledAreRegistered(w: World, id: Id, snapshot: seq<Slot>, code: seq<seq<Action>>, k: nat)
    requires Inv(w) && |code| == |snapshot| && k < |snapshot|
    requires Distinct(snapshot)
    requires forall s <- snapshot :: s in w.home && w.home[s] == id
    ensures snapshot[k] in Dispatch(w, id, snapshot, code).1 ==>
              Registered(Turn(w, id, snapshot, code, k), id, snapshot[k]) && id in Turn(w, id, snapshot, code, k).ios
    decreases |snapshot|
  {
    hide Inv, ActAll, Registered, Distinct, Subsequence;
    var rest, restCode := snapshot[1..], code[1..];
    assert snapshot == [snapshot[0]] + rest;
    assert forall s <- rest :: s in snapshot;
    DistinctCons(snapshot[0], rest);
    if snapshot[0] !in w.active {
      if k > 0 {
        CalledAreRegistered(w, id, rest, restCode, k - 1);
      } else {
        DispatchOk(w, id, rest, restCode);
        SubsequenceIn(Dispatch(w, id, rest, restCode).1, rest);
      }
    } else if id in w.ios {
      var w1 := ActAll(w, code[0]);
      ActAllOk(w, code[0]);
      if k > 0 {
        HomeStays(w, code[0]);
        CalledAreRegistered(w1, id, rest, restCode, k - 1);
      } else {
        ActiveIsRegistered(w, id, snapshot[0]);
      }
    }
  }

  lemma {:induction false} HomeStays(w: World, actions: seq<Action>)
    requires Inv(w)
    ensures forall s <- w.home :: s in ActAll(w, actions).home && ActAll(w, actions).home[s] == w.home[s]
    decreases |actions|
  {
    if actions != [] {
      HomeStep(w, actions[0]);
      ActOk(w, actions[0]);
      hide Inv, Act;
      HomeStays(Act(w, actions[0]), actions[1..]);
    }
  }

  lemma HomeStep(w: World, a: Action)
    requires Inv(w)
    ensures forall s <- w.home :: s in Act(w, a).home && Act(w, a).home[s] == w.home[s]
  {
    hide ListsOk, ActiveOk, HandlesOk;
  }

  /** Once the IO is gone nothing more runs. */
  lemma {:induction false} GoneStays(w: World, id: Id, snapshot: seq<Slot>, code: seq<seq<Action>>, k: nat)
    requires |code| == |snapshot| && k <= |snapshot| && id !in w.ios
    ensures Turn(w, id, snapshot, code, k) == w && Dispatch(w, id, snapshot, code) == (w, [])
    decreases |snapshot|
  {
    if snapshot != [] {
      GoneStays(w, id, snapshot[1..], code[1..], if k > 0 then k - 1 else 0);
    }
  }

  /** Whoever is registered when its turn comes is called, as long as the IO is there: nobody is forgotten. */
  lemma {:induction false} NobodyIsForgotten(w: World, id: Id, snapshot: seq<Slot>, code: seq<seq<Action>>, k: nat)
    requires |code| == |snapshot| && k < |snapshot|
    requires snapshot[k] in Turn(w, id, snapshot, code, k).active && id in Turn(w, id, snapshot, code, k).ios
    ensures snapshot[k] in Dispatch(w, id, snapshot, code).1
    decreases |snapshot|
  {
    hide ActAll;
    if k > 0 {
      if id !in w.ios {
        GoneStays(w, id, snapshot, code, k);
      }
      var w1 := if snapshot[0] in w.active then ActAll(w, code[0]) else w;
      NobodyIsForgotten(w1, id, snapshot[1..], code[1..], k - 1);
    }
  }

  /** What is left after a dispatch is what the last turn left. */
  lemma {:induction false} LastTurn(w: World, id: Id, snapshot: seq<Slot>, code: seq<seq<Action>>)
    requires |code| == |snapshot|
    ensures Dispatch(w, id, snapshot, code).0 == Turn(w, id, snapshot, code, |snapshot|)
    decreases |snapshot|
  {
    hide ActAll;
    if snapshot != [] {
      if id !in w.ios {
        GoneStays(w, id, snapshot, code, |snapshot|);
      } else {
        LastTurn(if snapshot[0] in w.active then ActAll(w, code[0]) else w, id, snapshot[1..], code[1..]);
      }
    }
  }

  /** A notify calls, in the order of the subscriptions and each once at most, exactly those registered at its start
      that still are when their turn comes, the IO being there; the hub is sound again after it, whatever the
      callbacks did, and in the state their code left. */
  lemma NotifyIsExact(w: World, id: Id, code: seq<seq<Action>>, k: nat)
    requires Inv(w) && id in w.slots && |code| == |w.slots[id]| && k < |w.slots[id]|
    ensures var snapshot := w.slots[id];
            && Snapshot(w, id) == snapshot
            && var (t, calls) := Notify(w, id, code);
            var turn := Turn(w, id, snapshot, code, k);
            && Inv(t)
            && t == Turn(w, id, snapshot, code, |snapshot|)
            && Subsequence(calls, snapshot)
            && Distinct(calls)
            && (snapshot[k] in calls <==> Registered(turn, id, snapshot[k]) && id in turn.ios)
  {
    var snapshot := w.slots[id];
    var (t, calls) := Notify(w, id, code);
    var turn := Turn(w, id, snapshot, code, k);
    assert ListOk(w.slots[id], id, w.active, w.home);
    DispatchOk(w, id, snapshot, code);
    SubsequenceOnce(calls, snapshot);
    LastTurn(w, id, snapshot, code);
    CalledAreRegistered(w, id, snapshot, code, k);
    if Registered(turn, id, snapshot[k]) && id in turn.ios {
      TurnOk(w, id, snapshot, code, k);
      assert ListOk(turn.slots[id], id, turn.active, turn.home);
      NobodyIsForgotten(w, id, snapshot, code, k);
    }
  }

  lemma {:induction false} TurnOk(w: World, id: Id, snapshot: seq<Slot>, code: seq<seq<Action>>, k: nat)
    requires Inv(w) && |code| == |snapshot| && k <= |snapshot|
    ensures Inv(Turn(w, id, snapshot, code, k))
    ensures forall s <- Turn(w, id, snapshot, code, k).active :: s in w.active || s >= w.next
    ensures w.next <= Turn(w, id, snapshot, code, k).next
    decreases k
  {
    hide Inv, ActAll;
    if k > 0 {
      ActAllOk(w, code[0]);
      var next := if snapshot[0] in w.active && id in w.ios then ActAll(w, code[0]) else w;
      TurnOk(next, id, snapshot[1..], code[1..], k - 1);
    }
  }

  /** A callback may let go of a subscription whose turn has not come: it is skipped. */
  lemma DroppedIsSkipped(w: World, id: Id, code: seq<seq<Action>>, h: Handle, k: nat)
    requires Inv(w) && |code| == |Snapshot(w, id)| && 0 < k < |Snapshot(w, id)| && id in w.ios
    requires code[0] == [Drop(h)] && h in w.handles && w.handles[h].slot == Some(Snapshot(w, id)[k])
    ensures Snapshot(w, id)[0] in Notify(w, id, code).1 && Snapshot(w, id)[k] !in Notify(w, id, code).1
  {
    var snapshot := Snapshot(w, id);
    assert ListOk(w.slots[id], id, w.active, w.home);
    assert snapshot[0] in w.slots[id] && snapshot[k] in w.slots[id];
    NotifyIsExact(w, id, code, 0);
    NotifyIsExact(w, id, code, k);
    ResetDrops(w, h);
    ResetOk(w, h);
    OneAction(w, Drop(h));
    var w1 := Reset(w, h);
    assert snapshot[k] !in w1.active && snapshot[k] < w1.next;
    hide Inv, Reset, ActAll;
    TurnOk(w1, id, snapshot[1..], code[1..], k - 1);
    var turn := Turn(w, id, snapshot, code, k);
    assert turn == Turn(w1, id, snapshot[1..], code[1..], k - 1);
    assert snapshot[k] !in turn.active;
    RegisteredIsActive(turn, id, snapshot[k]);
  }

  lemma OneAction(w: World, a: Action)
    ensures ActAll(w, [a]) == Act(w, a)
  {
    assert [a][1..] == [];
    hide Act;
  }

  lemma RegisteredIsActive(w: World, id: Id, s: Slot)
    requires Inv(w)
    ensures Registered(w, id, s) ==> s in w.active
  {
    if id in w.slots {
      assert ListOk(w.slots[id], id, w.active, w.home);
    }
  }

  // ----- the variables, the order of a list and the IOs, over any actions -----

  /** What each variable holds after a step: moving takes the subscription over and leaves the other variable empty. */
  lemma HandlesAfter(w: World, a: Action, other: Handle)
    ensures var t := Act(w, a);
            match a
            case Connect(to, id) =>
              Holds(t, to) == Sub(id, Some(w.next)) && (other != to ==> Holds(t, other) == Holds(w, other))
            case Drop(h) => Holds(t, h).slot.None? && (other != h ==> Holds(t, other) == Holds(w, other))
            case Give(to, from) =>
              if to == from then t == w
              else
                && Holds(t, to) == Holds(w, from) && Holds(t, from).slot.None?
                && (other != to && other != from ==> Holds(t, other) == Holds(w, other))
            case _ => t.handles == w.handles
  {
    hide Unsubscribe;
    match a {
      case Connect(to, id) => ResetHandles(Registering(w, id), to);
      case Drop(h) => ResetHandles(w, h);
      case Give(to, from) => ResetHandles(w.(handles := w.handles[from := Sub("", None)]), to);
      case _ =>
    }
  }

  lemma ResetHandles(w: World, h: Handle)
    ensures Reset(w, h).handles == w.handles[h := Sub(Holds(w, h).id, None)]
  {
  }

  /** A list is in the order of the subscriptions: slots are numbered as they are made. */
  predicate Ascending(list: seq<Slot>) { forall i, j | 0 <= i < j < |list| :: list[i] < list[j] }

  ghost predicate InOrder(w: World) {
    forall id <- w.slots :: Ascending(w.slots[id]) && forall s <- w.slots[id] :: s < w.next
  }

  lemma AscendingCons(x: Slot, list: seq<Slot>)
    ensures Ascending([x] + list) <==> Ascending(list) && forall u <- list :: x < u
  {
    var more := [x] + list;
    assert more[0] == x && more[1..] == list;
    if Ascending(more) {
      forall i, j | 0 <= i < j < |list|
        ensures list[i] < list[j]
      {
        assert more[i + 1] < more[j + 1];
      }
      forall u <- list
        ensures x < u
      {
        var i :| 0 <= i < |list| && list[i] == u;
        assert more[0] < more[i + 1];
      }
    }
    if Ascending(list) && forall u <- list :: x < u {
      forall i, j | 0 <= i < j < |more|
        ensures more[i] < more[j]
      {
        assert more[j] == list[j - 1] && list[j - 1] in list;
      }
    }
  }

  lemma {:induction false} WithoutAscends(list: seq<Slot>, s: Slot)
    requires Ascending(list)
    ensures Ascending(Without(list, s)) && forall u <- Without(list, s) :: u in list
  {
    if list != [] {
      assert list == [list[0]] + list[1..];
      AscendingCons(list[0], list[1..]);
      hide Ascending;
      if list[0] != s {
        WithoutAscends(list[1..], s);
        AscendingCons(list[0], Without(list[1..], s));
      }
    }
  }

  lemma UnsubscribeInOrder(w: World, id: Id, s: Slot)
    requires InOrder(w)
    ensures InOrder(Unsubscribe(w, id, s)) && Unsubscribe(w, id, s).next == w.next
  {
    if id in w.slots {
      WithoutAscends(w.slots[id], s);
    }
  }

  lemma ResetInOrder(w: World, h: Handle)
    requires InOrder(w)
    ensures InOrder(Reset(w, h))
  {
    var sub := Holds(w, h);
    if sub.slot.Some? {
      UnsubscribeInOrder(w, sub.id, sub.slot.value);
    }
    hide Unsubscribe;
  }

  lemma RegisteringInOrder(w: World, id: Id)
    requires InOrder(w)
    ensures InOrder(Registering(w, id))
  {
    var list := if id in w.slots then w.slots[id] else [];
    assert Ascending(list) && forall s <- list :: s < w.next;
    forall i, j | 0 <= i < j < |list + [w.next]|
      ensures (list + [w.next])[i] < (list + [w.next])[j]
    {
      assert list[i] in list;
    }
  }

  lemma InOrderNext(w: World, a: Action)
    requires InOrder(w)
    ensures InOrder(Act(w, a))
  {
    hide Reset;
    match a {
      case Connect(to, id) =>
        RegisteringInOrder(w, id);
        ResetInOrder(Registering(w, id), to);
      case Drop(h) => ResetInOrder(w, h);
      case Give(to, from) => ResetInOrder(w.(handles := w.handles[from := Sub("", None)]), to);
      case _ =>
    }
  }

  /** There is an IO exactly when the last action about it made it. */
  predicate Made(actions: seq<Action>, id: Id)
    decreases |actions|
  {
    actions != [] &&
    var a, before := actions[|actions| - 1], actions[..|actions| - 1];
    a == CreateIO(id) || (a != RemoveIO(id) && Made(before, id))
  }

  lemma {:induction false} ActAllSnoc(w: World, actions: seq<Action>, a: Action)
    ensures ActAll(w, actions + [a]) == Act(ActAll(w, actions), a)
    decreases |actions|
  {
    hide Act;
    if actions == [] {
      assert [] + [a] == [a];
      OneAction(w, a);
    } else {
      assert (actions + [a])[1..] == actions[1..] + [a];
      ActAllSnoc(Act(w, actions[0]), actions[1..], a);
    }
  }

  lemma IosAfter(w: World, a: Action, id: Id)
    ensures id in Act(w, a).ios <==> a == CreateIO(id) || (a != RemoveIO(id) && id in w.ios)
  {
  }

  /** In every reachable world each list is in the order of its subscriptions, and an IO is there exactly when the
      last action about it made it. */
  lemma {:induction false} ReachableInOrder(actions: seq<Action>, id: Id)
    ensures InOrder(ActAll(INIT, actions)) && (id in ActAll(INIT, actions).ios <==> Made(actions, id))
    decreases |actions|
  {
    hide Act;
    if actions != [] {
      var a, before := actions[|actions| - 1], actions[..|actions| - 1];
      assert actions == before + [a];
      ReachableInOrder(before, id);
      ActAllSnoc(INIT, before, a);
      InOrderNext(ActAll(INIT, before), a);
      IosAfter(ActAll(INIT, before), a, id);
    }
  }

  // ----- the object -----

  /** The hub, with the variables that hold subscriptions to it. `home` only serves the proofs. */
  class Hub {
    var slots: map<Id, seq<Slot>>
    var active: set<Slot>
    var next: Slot
    ghost var home: map<Slot, Id>
    var handles: map<Handle, Sub>
    var ios: set<Id>

    ghost function View(): World
      reads this
    {
      World(slots, active, next, home, handles, ios)
    }

    constructor ()
      ensures View() == INIT
    {
      slots, active, next, home, handles, ios := map[], {}, 0, map[], map[], {};
    }

    /** The walk stops at the slot it looks for. */
    method DoUnsubscribe(id: Id, slot: Slot)
      modifies this`slots, this`active
      ensures View() == Unsubscribe(old(View()), id, slot)
    {
      if id !in slots {
        return;
      }
      var list := slots[id];
      var i := 0;
      while i < |list| && list[i] != slot
        invariant i <= |list| && forall j | 0 <= j < i :: list[j] != slot
      {
        i := i + 1;
      }
      WithoutAt(list, slot, i);
      if i < |list| {
        active := active - {slot};
        list := list[..i] + list[i + 1..];
      }
      slots := if list == [] then slots - {id} else slots[id := list];
    }

    method DoReset(h: Handle)
      modifies this
      ensures View() == Reset(old(View()), h)
    {
      var sub := if h in handles then handles[h] else Sub("", None);
      if sub.slot.Some? && sub.slot.value in active {
        DoUnsubscribe(sub.id, sub.slot.value);
      }
      handles := handles[h := Sub(sub.id, None)];
    }

    method DoMove(to: Handle, from: Handle)
      modifies this
      ensures View() == Move(old(View()), to, from)
    {
      if to != from {
        var sub := if from in handles then handles[from] else Sub("", None);
        handles := handles[from := Sub("", None)];
        DoReset(to);
        handles := handles[to := sub];
      }
    }

    method DoSubscribe(to: Handle, id: Id)
      modifies this
      ensures View() == Subscribe(old(View()), to, id)
    {
      hide Reset;
      var s := next;
      next := next + 1;
      slots := slots[id := (if id in slots then slots[id] else []) + [s]];
      active := active + {s};
      home := home[s := id];
      DoReset(to);
      handles := handles[to := Sub(id, Some(s))];
    }

    /** A callback, or any other code of the program. */
    method RunCode(actions: seq<Action>)
      modifies this
      ensures View() == ActAll(old(View()), actions)
    {
      var i := 0;
      while i < |actions|
        invariant i <= |actions|
        invariant ActAll(View(), actions[i..]) == ActAll(old(View()), actions)
      {
        assert actions[i..][1..] == actions[i + 1..];
        match actions[i] {
          case Connect(to, id) => DoSubscribe(to, id);
          case Drop(h) => DoReset(h);
          case Give(to, from) => DoMove(to, from);
          case CreateIO(id) => ios := ios + {id};
          case RemoveIO(id) => ios := ios - {id};
        }
        i := i + 1;
      }
    }

    method DoNotify(id: Id, code: seq<seq<Action>>) returns (calls: seq<Slot>)
      requires |code| == |Snapshot(View(), id)|
      modifies this
      ensures (View(), calls) == Notify(old(View()), id, code)
    {
      calls := [];
      if id !in slots {
        return;
      }
      var snapshot := slots[id];
      var i := 0;
      assert snapshot[0..] == snapshot && code[0..] == code;
      assert calls + Notify(View(), id, code).1 == Notify(View(), id, code).1;
      while i < |snapshot|
        invariant i <= |snapshot|
        invariant var (w, more) := Dispatch(View(), id, snapshot[i..], code[i..]);
                  (w, calls + more) == Notify(old(View()), id, code)
      {
        assert snapshot[i..][1..] == snapshot[i + 1..] && code[i..][1..] == code[i + 1..];
        var s := snapshot[i];
        i := i + 1;
        if s in active {
          if id !in ios {
            assert calls + [] == calls;
            return;
          }
          ghost var more := Dispatch(ActAll(View(), code[i - 1]), id, snapshot[i..], code[i..]).1;
          assert calls + ([s] + more) == calls + [s] + more;
          RunCode(code[i - 1]);
          calls := calls + [s];
        }
      }
      assert calls + [] == calls;
    }
  }
}
