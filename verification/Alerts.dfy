/** From an alert of calaos-container to its ack, src/bin/calaos_server/AdminEvents.cpp:628-676, 787-877 and
    AdminState.cpp:273-301: the alert is stored by the history worker, a thread fed by a FIFO queue
    (src/lib/ThreadedQueue.h), and acked once that worker went past it; lost acks and pushes are retried. */
module Alerts {
  import opened Bytes
  import opened Options

  type Id = string

  const MAX_REMEMBERED: nat := 64
  const MAX_STORED: nat := 64
  const MAX_RETRIES: nat := 5
  const RETRY_DELAY: nat := 60
  const MAX_FOREIGN: nat := 256

  predicate IsHex(c: char) { '0' <= c <= '9' || 'a' <= c <= 'f' || 'A' <= c <= 'F' }

  predicate IsAlertId(id: Id) { 0 < |id| <= 64 && forall c <- id :: IsHex(c) }

  /** The ids the history gives: one to 64 hexadecimal digits in either case, and nothing else. */
  lemma AlertIdsAre(id: Id)
    ensures IsAlertId(id) <==> id != [] && |id| < 65 && forall k | 0 <= k < |id| :: id[k] in "0123456789abcdefABCDEF"
  {
    forall k | 0 <= k < |id|
      ensures IsHex(id[k]) <==> id[k] in "0123456789abcdefABCDEF"
    {
      HexIs(id[k]);
    }
    assert forall c <- id :: exists k :: 0 <= k < |id| && id[k] == c;
  }

  lemma HexIs(c: char)
    ensures IsHex(c) <==> c in "0123456789abcdefABCDEF"
  {
    var digits := "0123456789abcdefABCDEF";
    if IsHex(c) {
      var n := c as int;
      var k := if n <= 57 then n - 48 else if n >= 97 then n - 87 else n - 49;
      assert digits[k] == c;
    }
  }

  // ----- the state -----

  /** What the history worker is asked: to store an alert, to answer once it is past it, anything else. */
  datatype Job = Append(id: Id) | Read(id: Id) | Other(n: nat)

  /** `dequeued` remembers every alert whose Append the worker has taken. */
  datatype History = History(queue: seq<Job>, answers: multiset<Id>, dequeued: set<Id>)

  /** `loaded` is what the file of an earlier run listed as stored. */
  datatype Store = Store(stored: seq<Id>, storing: set<Id>, loaded: set<Id>)

  /** `inFlight` counts the calls the daemon has not answered, `acked` remembers every id ever acked. */
  datatype Acks = Acks(acking: set<Id>, inFlight: multiset<Id>, acked: set<Id>)

  datatype Slot = PushSlot(id: Id) | AckSlot(id: Id)

  /** A series of retries; `delays` remembers what its timers were armed with. */
  datatype Retry = Retry(attempts: nat, armed: bool, delays: seq<nat>)

  datatype Retries = Retries(table: map<Slot, Retry>, timers: multiset<Slot>)

  datatype State = State(store: Store, history: History, acks: Acks, retries: Retries, pushing: multiset<Id>,
                         stopped: bool)

  /** A server that starts with this list of alerts stored before. */
  function Initial(loaded: seq<Id>): State {
    State(Store(loaded, {}, set id | id in loaded), History([], multiset{}, {}), Acks({}, multiset{}, {}),
          Retries(map[], multiset{}), multiset{}, false)
  }

  // ----- retries -----

  function Doubling(n: nat): seq<nat> { if n == 0 then [] else Doubling(n - 1) + [RETRY_DELAY * Pow2(n - 1)] }

  function ScheduleRetry(r: Retries, slot: Slot, stopped: bool): Retries {
    if stopped || (slot !in r.table && |r.table| >= MAX_REMEMBERED) then r
    else
      var x := if slot in r.table then r.table[slot] else Retry(0, false, []);
      if x.armed then r
      else if x.attempts >= MAX_RETRIES then r.(table := r.table - {slot})
      else
        var y := Retry(x.attempts + 1, true, x.delays + [RETRY_DELAY * Pow2(x.attempts)]);
        Retries(r.table[slot := y], r.timers + multiset{slot})
  }

  function ForgetRetry(r: Retries, slot: Slot): Retries {
    if slot !in r.table then r
    else Retries(r.table - {slot}, if r.table[slot].armed then r.timers - multiset{slot} else r.timers)
  }

  /** The timer of a series fires: it is deleted, the entry stays. */
  function Disarm(r: Retries, slot: Slot): Retries {
    if slot !in r.table then r
    else Retries(r.table[slot := r.table[slot].(armed := false)], r.timers - multiset{slot})
  }

  // ----- acks and pushes -----

  function Ack(a: Acks, id: Id): Acks {
    if id in a.acking then a else Acks(a.acking + {id}, a.inFlight + multiset{id}, a.acked + {id})
  }

  /** pushAlert answers at once when a push of that kind went out a moment ago. */
  datatype Pushed = Cooled | Sent

  function Push(s: State, id: Id, how: Pushed): State {
    if how.Cooled? then s.(retries := ForgetRetry(s.retries, PushSlot(id)))
    else s.(pushing := s.pushing + multiset{id})
  }

  // ----- alerts -----

  function Last(ids: seq<Id>, n: nat): seq<Id> { if |ids| > n then ids[|ids| - n..] else ids }

  /** processAlert() for a usable id. `push` is absent for the alerts nobody is woken for. */
  function ProcessAlert(s: State, id: Id, push: Option<Pushed>): State {
    if id in s.store.storing then s
    else if id in s.store.stored then s.(acks := Ack(s.acks, id))
    else
      var s1 := s.(store := s.store.(stored := Last(s.store.stored + [id], MAX_STORED),
                                     storing := s.store.storing + {id}),
                   history := s.history.(queue := s.history.queue + [Append(id), Read(id)]));
      if push.Some? then Push(s1, id, push.value) else s1
  }

  datatype Event =
    | Alert(id: Id, push: Option<Pushed>)
    | OtherJob(n: nat)
    | Dequeue                     // the worker takes the next job, whatever comes of it
    | Answered(id: Id)            // the answer of a Read reaches the main loop
    | AckReply(id: Id, ok: bool)
    | PushReply(id: Id, sent: bool)
    | Fire(slot: Slot, how: Pushed)
    | Stop
    | Start

  predicate Enabled(s: State, e: Event) {
    match e
    case Dequeue => s.history.queue != []
    case Answered(id) => s.history.answers[id] > 0
    case AckReply(id, _) => s.acks.inFlight[id] > 0
    case PushReply(id, _) => s.pushing[id] > 0
    case Fire(slot, _) => s.retries.timers[slot] > 0
    case _ => true
  }

  function DoDequeue(h: History): History
    requires h.queue != []
  {
    var job := h.queue[0];
    var h1 := h.(queue := h.queue[1..]);
    match job
    case Append(id) => h1.(dequeued := h1.dequeued + {id})
    case Read(id) => h1.(answers := h1.answers + multiset{id})
    case Other(_) => h1
  }

  function Next(s: State, e: Event): State
    requires Enabled(s, e)
  {
    match e
    case Alert(id, push) =>
      if IsAlertId(id) then ProcessAlert(s, id, push)
      else if 0 < |id| <= MAX_FOREIGN then s.(acks := Ack(s.acks, id)) else s
    case OtherJob(n) => s.(history := s.history.(queue := s.history.queue + [Other(n)]))
    case Dequeue => s.(history := DoDequeue(s.history))
    case Answered(id) =>
      s.(history := s.history.(answers := s.history.answers - multiset{id}),
         store := s.store.(storing := s.store.storing - {id}),
         acks := Ack(s.acks, id))
    case AckReply(id, ok) =>
      s.(acks := s.acks.(acking := s.acks.acking - {id}, inFlight := s.acks.inFlight - multiset{id}),
         retries := if ok then ForgetRetry(s.retries, AckSlot(id))
                    else ScheduleRetry(s.retries, AckSlot(id), s.stopped))
    case PushReply(id, sent) =>
      s.(pushing := s.pushing - multiset{id},
         retries := if sent then ForgetRetry(s.retries, PushSlot(id))
                    else ScheduleRetry(s.retries, PushSlot(id), s.stopped))
    case Fire(slot, how) =>
      var s1 := s.(retries := Disarm(s.retries, slot));
      if slot.PushSlot? then Push(s1, slot.id, how) else s1.(acks := Ack(s1.acks, slot.id))
    case Stop => s.(stopped := true, retries := Retries(map[], multiset{}))
    case Start => s.(stopped := false)
  }

  // ----- the invariant -----

  /** In the queue, the Read of an alert comes after its Append, unless that one was taken already. */
  ghost predicate Ordered(h: History) {
    && (forall k: nat | k < |h.queue| && h.queue[k].Read? ::
          h.queue[k].id in h.dequeued || Append(h.queue[k].id) in h.queue[..k])
    && (forall id <- h.answers :: id in h.dequeued)
  }

  /** An alert is being stored exactly as long as the one answer that ends it is on its way. */
  ghost predicate Storing(h: History, storing: set<Id>) {
    forall id: Id :: multiset(h.queue)[Read(id)] + h.answers[id] == if id in storing then 1 else 0
  }

  ghost predicate StoreOk(st: Store, h: History) {
    && |st.stored| <= MAX_STORED
    && (forall id <- st.stored :: id in st.loaded || id in h.dequeued || id in st.storing)
  }

  ghost predicate AcksOk(a: Acks, loaded: set<Id>, dequeued: set<Id>) {
    && (forall id: Id :: a.inFlight[id] == if id in a.acking then 1 else 0)
    && a.acking <= a.acked
    && (forall id <- a.acked :: IsAlertId(id) ==> id in loaded || id in dequeued)
  }

  ghost predicate RetriesOk(r: Retries, acked: set<Id>) {
    && |r.table| <= MAX_REMEMBERED
    && (forall slot: Slot :: r.timers[slot] == if slot in r.table && r.table[slot].armed then 1 else 0)
    && (forall slot <- r.table :: SeriesOk(r.table[slot], slot, acked))
  }

  predicate SeriesOk(x: Retry, slot: Slot, acked: set<Id>) {
    && x.attempts <= MAX_RETRIES
    && x.delays == Doubling(x.attempts)
    && (slot.AckSlot? ==> slot.id in acked)
  }

  ghost predicate Inv(s: State) {
    && Ordered(s.history)
    && Storing(s.history, s.store.storing)
    && StoreOk(s.store, s.history)
    && AcksOk(s.acks, s.store.loaded, s.history.dequeued)
    && RetriesOk(s.retries, s.acks.acked)
  }

  // ----- each part on its own -----

  lemma RemovedCard(m: map<Slot, Retry>, k: Slot)
    ensures |m - {k}| <= |m|
  {
    if k in m {
      assert (m - {k})[k := m[k]] == m;
    } else {
      assert m - {k} == m;
    }
  }

  lemma UpdatedCard(m: map<Slot, Retry>, k: Slot, x: Retry)
    ensures |m[k := x]| == if k in m then |m| else |m| + 1
  {
    if k in m {
      assert m[k := x].Keys == m.Keys;
    }
  }

  /** One more timer of a series, twice as long as the last. */
  lemma SeriesNext(x: Retry, slot: Slot, acked: set<Id>)
    requires SeriesOk(x, slot, acked) && x.attempts < MAX_RETRIES
    ensures SeriesOk(Retry(x.attempts + 1, true, x.delays + [RETRY_DELAY * Pow2(x.attempts)]), slot, acked)
  {
  }

  lemma SeriesOf(r: Retries, acked: set<Id>, slot: Slot)
    requires RetriesOk(r, acked) && (slot.AckSlot? ==> slot.id in acked)
    ensures SeriesOk(if slot in r.table then r.table[slot] else Retry(0, false, []), slot, acked)
  {
  }

  lemma ScheduleOk(r: Retries, acked: set<Id>, slot: Slot, stopped: bool)
    requires RetriesOk(r, acked) && (slot.AckSlot? ==> slot.id in acked)
    ensures RetriesOk(ScheduleRetry(r, slot, stopped), acked)
  {
    hide RetriesOk, SeriesOk, Doubling, Pow2;
    var x := if slot in r.table then r.table[slot] else Retry(0, false, []);
    SeriesOf(r, acked, slot);
    if slot in r.table {
      RemoveUnarmed(r, acked, slot);
    }
    if x.attempts < MAX_RETRIES && !x.armed && (slot in r.table || |r.table| < MAX_REMEMBERED) {
      SeriesNext(x, slot, acked);
      ArmOk(r, acked, slot, Retry(x.attempts + 1, true, x.delays + [RETRY_DELAY * Pow2(x.attempts)]));
    }
  }

  lemma RemoveUnarmed(r: Retries, acked: set<Id>, slot: Slot)
    requires RetriesOk(r, acked) && slot in r.table
    ensures !r.table[slot].armed ==> RetriesOk(r.(table := r.table - {slot}), acked)
  {
    hide SeriesOk;
    RemovedCard(r.table, slot);
  }

  lemma ArmOk(r: Retries, acked: set<Id>, slot: Slot, y: Retry)
    requires RetriesOk(r, acked) && SeriesOk(y, slot, acked) && y.armed
    requires if slot in r.table then !r.table[slot].armed else |r.table| < MAX_REMEMBERED
    ensures RetriesOk(Retries(r.table[slot := y], r.timers + multiset{slot}), acked)
  {
    hide SeriesOk;
    UpdatedCard(r.table, slot, y);
  }

  lemma ForgetOk(r: Retries, acked: set<Id>, slot: Slot)
    requires RetriesOk(r, acked)
    ensures RetriesOk(ForgetRetry(r, slot), acked)
  {
    hide SeriesOk;
    RemovedCard(r.table, slot);
  }

  lemma DisarmOk(r: Retries, acked: set<Id>, slot: Slot)
    requires RetriesOk(r, acked) && r.timers[slot] > 0
    ensures RetriesOk(Disarm(r, slot), acked)
  {
    var x := r.table[slot].(armed := false);
    assert SeriesOk(x, slot, acked) by {
      assert SeriesOk(r.table[slot], slot, acked);
    }
    hide SeriesOk;
    UpdatedCard(r.table, slot, x);
  }

  lemma RetriesGrow(r: Retries, acked: set<Id>, more: set<Id>)
    requires RetriesOk(r, acked) && acked <= more
    ensures RetriesOk(r, more)
  {
  }

  lemma AckStep(a: Acks, loaded: set<Id>, dequeued: set<Id>, id: Id)
    requires AcksOk(a, loaded, dequeued) && (IsAlertId(id) ==> id in loaded || id in dequeued)
    ensures AcksOk(Ack(a, id), loaded, dequeued) && a.acked <= Ack(a, id).acked
  {
  }

  lemma QueueStep(h: History, storing: set<Id>, id: Id)
    requires Ordered(h) && Storing(h, storing) && id !in storing
    ensures var h1 := h.(queue := h.queue + [Append(id), Read(id)]);
            Ordered(h1) && Storing(h1, storing + {id})
  {
    var h1 := h.(queue := h.queue + [Append(id), Read(id)]);
    forall k: nat | k < |h1.queue| && h1.queue[k].Read?
      ensures h1.queue[k].id in h1.dequeued || Append(h1.queue[k].id) in h1.queue[..k]
    {
      if k < |h.queue| {
        assert h1.queue[..k] == h.queue[..k];
      } else {
        assert h1.queue[..k][|h.queue|] == Append(id);
      }
    }
    assert multiset(h1.queue) == multiset(h.queue) + multiset{Append(id), Read(id)};
  }

  lemma OtherStep(h: History, storing: set<Id>, n: nat)
    requires Ordered(h) && Storing(h, storing)
    ensures var h1 := h.(queue := h.queue + [Other(n)]);
            Ordered(h1) && Storing(h1, storing)
  {
    var h1 := h.(queue := h.queue + [Other(n)]);
    forall k: nat | k < |h.queue|
      ensures h1.queue[..k] == h.queue[..k]
    {
    }
    assert multiset(h1.queue) == multiset(h.queue) + multiset{Other(n)};
  }

  /** First in, first out: when the worker reaches the Read of an alert, it has taken its Append. */
  lemma DequeueOrdered(h: History)
    requires Ordered(h) && h.queue != []
    ensures Ordered(DoDequeue(h)) && h.dequeued <= DoDequeue(h).dequeued
  {
    var h1 := DoDequeue(h);
    assert h.queue[0].Read? ==> h.queue[0].id in h.dequeued;
    forall k: nat | k < |h1.queue| && h1.queue[k].Read?
      ensures h1.queue[k].id in h1.dequeued || Append(h1.queue[k].id) in h1.queue[..k]
    {
      assert h.queue[k + 1] == h1.queue[k];
      assert h.queue[..k + 1] == [h.queue[0]] + h1.queue[..k];
    }
  }

  lemma DequeueStoring(h: History, storing: set<Id>)
    requires Storing(h, storing) && h.queue != []
    ensures Storing(DoDequeue(h), storing)
  {
    assert h.queue == [h.queue[0]] + h.queue[1..];
    assert multiset(h.queue) == multiset{h.queue[0]} + multiset(h.queue[1..]);
  }

  // ----- every event keeps the invariant -----

  lemma AlertOk(s: State, id: Id, push: Option<Pushed>)
    requires Inv(s)
    ensures Inv(Next(s, Alert(id, push)))
  {
    hide Ordered, Storing, AcksOk, RetriesOk, IsAlertId, ForgetRetry, Ack;
    if !IsAlertId(id) || (id !in s.store.storing && id in s.store.stored) {
      AckStep(s.acks, s.store.loaded, s.history.dequeued, id);
      RetriesGrow(s.retries, s.acks.acked, Ack(s.acks, id).acked);
    } else if id !in s.store.storing {
      QueueStep(s.history, s.store.storing, id);
      ForgetOk(s.retries, s.acks.acked, PushSlot(id));
    }
  }

  lemma AnsweredOk(s: State, id: Id)
    requires Inv(s) && Enabled(s, Answered(id))
    ensures Inv(Next(s, Answered(id)))
  {
    hide AcksOk, RetriesOk, IsAlertId, Ack;
    assert id in s.history.dequeued;
    AckStep(s.acks, s.store.loaded, s.history.dequeued, id);
    RetriesGrow(s.retries, s.acks.acked, Ack(s.acks, id).acked);
  }

  lemma ReplyOk(s: State, e: Event)
    requires Inv(s) && Enabled(s, e) && (e.AckReply? || e.PushReply? || e.Fire?)
    ensures Inv(Next(s, e))
  {
    hide Ordered, Storing, StoreOk, RetriesOk, ScheduleRetry, ForgetRetry, Disarm, IsAlertId;
    if e.Fire? {
      var r := Disarm(s.retries, e.slot);
      FireIsKnown(s.retries, s.acks.acked, e.slot);
      DisarmOk(s.retries, s.acks.acked, e.slot);
      if e.slot.PushSlot? {
        ForgetOk(r, s.acks.acked, e.slot);
      } else {
        AckStep(s.acks, s.store.loaded, s.history.dequeued, e.slot.id);
        RetriesGrow(r, s.acks.acked, Ack(s.acks, e.slot.id).acked);
      }
    } else {
      var slot := if e.AckReply? then AckSlot(e.id) else PushSlot(e.id);
      AckedInFlight(s.acks, s.history.dequeued, s.store.loaded, e.id);
      ForgetOk(s.retries, s.acks.acked, slot);
      ScheduleOk(s.retries, s.acks.acked, slot, s.stopped);
    }
  }

  lemma AckedInFlight(a: Acks, dequeued: set<Id>, loaded: set<Id>, id: Id)
    requires AcksOk(a, loaded, dequeued)
    ensures a.inFlight[id] > 0 ==> id in a.acked
  {
  }

  lemma FireIsKnown(r: Retries, acked: set<Id>, slot: Slot)
    requires RetriesOk(r, acked) && r.timers[slot] > 0
    ensures slot.AckSlot? ==> slot.id in acked
  {
  }

  lemma InvNext(s: State, e: Event)
    requires Inv(s) && Enabled(s, e)
    ensures Inv(Next(s, e))
  {
    match e {
      case Alert(id, push) => AlertOk(s, id, push);
      case OtherJob(n) => OtherStep(s.history, s.store.storing, n);
      case Dequeue =>
        DequeueOrdered(s.history);
        DequeueStoring(s.history, s.store.storing);
      case Answered(id) => AnsweredOk(s, id);
      case AckReply(_, _) => ReplyOk(s, e);
      case PushReply(_, _) => ReplyOk(s, e);
      case Fire(_, _) => ReplyOk(s, e);
      case _ =>
    }
  }

  // ----- whole runs -----

  ghost predicate Run(loaded: seq<Id>, states: seq<State>, events: seq<Event>) {
    && |states| == |events| + 1
    && |loaded| <= MAX_STORED
    && states[0] == Initial(loaded)
    && forall i: nat | i < |events| :: StepAt(states, events, i)
  }

  ghost predicate StepAt(states: seq<State>, events: seq<Event>, i: nat)
    requires i < |events| && |states| == |events| + 1
  {
    Enabled(states[i], events[i]) && states[i + 1] == Next(states[i], events[i])
  }

  lemma {:induction false} RunInv(loaded: seq<Id>, states: seq<State>, events: seq<Event>, i: nat)
    requires Run(loaded, states, events) && i <= |events|
    ensures Inv(states[i]) && states[i].store.loaded == set id | id in loaded
    decreases i
  {
    if i > 0 {
      RunInv(loaded, states, events, i - 1);
      assert StepAt(states, events, i - 1);
      LoadedStays(states[i - 1], events[i - 1]);
      hide Inv, Enabled, Next;
      InvNext(states[i - 1], events[i - 1]);
    }
  }

  lemma LoadedStays(s: State, e: Event)
    requires Enabled(s, e)
    ensures Next(s, e).store.loaded == s.store.loaded
  {
  }

  /** An alert this process was the first to see is acked only after the history worker took it off its
      queue to write it; what an earlier process stored is acked at once. */
  lemma AckedAfterDequeued(loaded: seq<Id>, states: seq<State>, events: seq<Event>, i: nat, id: Id)
    requires Run(loaded, states, events) && i <= |events| && IsAlertId(id) && id !in loaded
    requires id in states[i].acks.acked || states[i].acks.inFlight[id] > 0
    ensures id in states[i].history.dequeued
  {
    RunInv(loaded, states, events, i);
  }

  /** One ack of an id at a time, one timer for each series of retries, never more than five of them and each
      twice as long as the one before, and no more than 64 series. */
  lemma RetriesAreBounded(loaded: seq<Id>, states: seq<State>, events: seq<Event>, i: nat, id: Id, slot: Slot)
    requires Run(loaded, states, events) && i <= |events|
    ensures states[i].acks.inFlight[id] <= 1
    ensures states[i].retries.timers[slot] <= 1 && |states[i].retries.table| <= MAX_REMEMBERED
    ensures slot in states[i].retries.table ==>
              var r := states[i].retries.table[slot];
              && |r.delays| == r.attempts <= MAX_RETRIES
              && forall k: nat | k < |r.delays| :: r.delays[k] == RETRY_DELAY * Pow2(k)
  {
    RunInv(loaded, states, events, i);
    if slot in states[i].retries.table {
      assert SeriesOk(states[i].retries.table[slot], slot, states[i].acks.acked);
      DoublingIs(states[i].retries.table[slot].attempts);
    }
  }

  lemma {:induction false} DoublingIs(n: nat)
    ensures |Doubling(n)| == n && forall k: nat | k < n :: Doubling(n)[k] == RETRY_DELAY * Pow2(k)
  {
    if n > 0 {
      DoublingIs(n - 1);
    }
  }

  /** However often an alert comes, it is on its way to the history once at most, and its ack with it. */
  lemma StoredOnceAtATime(loaded: seq<Id>, states: seq<State>, events: seq<Event>, i: nat, id: Id)
    requires Run(loaded, states, events) && i <= |events|
    ensures var s := states[i];
            multiset(s.history.queue)[Read(id)] + s.history.answers[id] == (if id in s.store.storing then 1 else 0)
  {
    RunInv(loaded, states, events, i);
  }

  /** Nothing is dropped: an alert that comes is being stored or its ack is under way, and one that was stored
      is acked at once. */
  lemma AlertIsOnItsWay(s: State, id: Id, push: Option<Pushed>)
    requires Inv(s) && IsAlertId(id)
    ensures var t := Next(s, Alert(id, push));
            id in t.store.storing || (id in t.acks.acking && t.acks.inFlight[id] == 1)
    ensures Enabled(s, Answered(id)) ==>
              var t := Next(s, Answered(id)); id in t.acks.acking && t.acks.inFlight[id] == 1
  {
    hide Ordered, Storing, StoreOk, RetriesOk, IsAlertId, ForgetRetry;
  }

  // ----- what the events of a run bring about -----

  /** A series can go no further: it failed six times, or there is no room for one more. */
  predicate Hopeless(r: Retries, slot: Slot) {
    if slot in r.table then r.table[slot].attempts >= MAX_RETRIES else |r.table| >= MAX_REMEMBERED
  }

  /** A retry asked for is a timer that runs, unless the stream is stopped or the series hopeless. */
  lemma ScheduleArms(r: Retries, acked: set<Id>, slot: Slot, stopped: bool)
    requires RetriesOk(r, acked) && !stopped && !Hopeless(r, slot)
    ensures ScheduleRetry(r, slot, stopped).timers[slot] == 1
  {
    hide SeriesOk;
  }

  lemma OtherTimers(r: Retries, slot: Slot, stopped: bool, other: Slot)
    requires other != slot
    ensures ScheduleRetry(r, slot, stopped).timers[other] == r.timers[other]
    ensures ForgetRetry(r, slot).timers[other] == r.timers[other]
    ensures Disarm(r, slot).timers[other] == r.timers[other]
  {
  }

  /** The stream is stopped when the last of its stops and starts was a stop. */
  predicate StoppedAfter(events: seq<Event>, n: nat)
    requires n <= |events|
  {
    n > 0 && (events[n - 1].Stop? || (!events[n - 1].Start? && StoppedAfter(events, n - 1)))
  }

  /** While it is stopped no timer runs. */
  lemma {:induction false} StoppedIsQuiet(loaded: seq<Id>, states: seq<State>, events: seq<Event>, n: nat)
    requires Run(loaded, states, events) && n <= |events|
    ensures states[n].stopped <==> StoppedAfter(events, n)
    ensures StoppedAfter(events, n) ==> states[n].retries.timers == multiset{}
    decreases n
  {
    if n > 0 {
      StoppedIsQuiet(loaded, states, events, n - 1);
      assert StepAt(states, events, n - 1);
      StoppedNext(states[n - 1], events[n - 1]);
      hide Next, Enabled;
    }
  }

  lemma StoppedNext(s: State, e: Event)
    requires Enabled(s, e) && (s.stopped ==> s.retries.timers == multiset{})
    ensures var t := Next(s, e);
            && (t.stopped <==> e.Stop? || (!e.Start? && s.stopped))
            && (t.stopped ==> t.retries.timers == multiset{})
  {
    hide Inv, IsAlertId, Ack, ForgetRetry, ScheduleRetry;
    if s.stopped {
      match e {
        case Alert(id, push) => QuietForgets(s.retries, PushSlot(id));
        case AckReply(id, _) => QuietForgets(s.retries, AckSlot(id));
        case PushReply(id, _) => QuietForgets(s.retries, PushSlot(id));
        case _ =>
      }
    }
  }

  lemma QuietForgets(r: Retries, slot: Slot)
    requires r.timers == multiset{}
    ensures ForgetRetry(r, slot).timers == multiset{} && ScheduleRetry(r, slot, true) == r
  {
  }

  /** The event calls for an ack: the alert was read back from the history, or it had been stored before, or it is not
      one of ours. */
  predicate CallsForAck(s: State, e: Event, id: Id) {
    e == Answered(id)
    || (e.Alert? && e.id == id
        && if IsAlertId(id) then id !in s.store.storing && id in s.store.stored else 0 < |id| <= MAX_FOREIGN)
  }

  /** The ack went through, or its retries are over. */
  predicate AckEnds(s: State, e: Event, id: Id) {
    e.AckReply? && e.id == id && (e.ok || Hopeless(s.retries, AckSlot(id)))
  }

  predicate AckUnderWay(s: State, id: Id) { s.acks.inFlight[id] == 1 || s.retries.timers[AckSlot(id)] == 1 }

  lemma AckBegins(s: State, e: Event, id: Id)
    requires Inv(s) && Enabled(s, e) && CallsForAck(s, e, id)
    ensures AckUnderWay(Next(s, e), id)
  {
    AckTakes(s.acks, s.store.loaded, s.history.dequeued, id, id);
    hide Inv, IsAlertId, Ack;
  }

  predicate CallsOrRetries(s: State, e: Event, id: Id) {
    CallsForAck(s, e, id) || (e.Fire? && e.slot == AckSlot(id))
  }

  /** An ack is sent when it is called for or its retry is due, one at a time, and its reply ends it. */
  lemma AckInFlight(s: State, e: Event, id: Id)
    requires Inv(s) && Enabled(s, e)
    ensures Next(s, e).acks.inFlight[id]
         == if CallsOrRetries(s, e, id) then 1 else if e.AckReply? && e.id == id then 0 else s.acks.inFlight[id]
  {
    if e.Alert? {
      AlertInFlight(s, e.id, e.push, id);
    } else if e.AckReply? {
      AckGone(s.acks, s.store.loaded, s.history.dequeued, e.id);
    } else if e.Answered? {
      AckAgain(s, e.id, id);
    } else if e.Fire? {
      AckAgain(s, e.slot.id, id);
    }
    hide Inv, Ack, IsAlertId, ForgetRetry, ScheduleRetry, Disarm, DoDequeue, ProcessAlert;
  }

  lemma AlertInFlight(s: State, other: Id, push: Option<Pushed>, id: Id)
    requires Inv(s)
    ensures var e := Alert(other, push);
            Next(s, e).acks.inFlight[id] == if CallsOrRetries(s, e, id) then 1 else s.acks.inFlight[id]
  {
    hide Inv, Ack, IsAlertId, ForgetRetry;
    AckAgain(s, other, id);
  }

  lemma AckGone(a: Acks, loaded: set<Id>, dequeued: set<Id>, id: Id)
    requires AcksOk(a, loaded, dequeued) && a.inFlight[id] > 0
    ensures a.inFlight[id] == 1
  {
  }

  lemma AckGoesOn(s: State, e: Event, id: Id)
    requires Inv(s) && Enabled(s, e) && !s.stopped && !e.Stop?
    requires AckUnderWay(s, id) && !AckEnds(s, e, id)
    ensures AckUnderWay(Next(s, e), id)
  {
    hide Inv, Ack, IsAlertId, ForgetRetry, ScheduleRetry, Disarm, DoDequeue, Hopeless;
    match e {
      case Alert(other, push) => AckAlerted(s, other, push, id);
      case Answered(other) => AckAgain(s, other, id);
      case Fire(slot, how) => AckFire(s, slot, how, id);
      case AckReply(other, ok) => AckReplied(s, other, ok, id);
      case PushReply(other, sent) => OtherTimers(s.retries, PushSlot(other), false, AckSlot(id));
      case _ =>
    }
  }

  /** Asked for an ack of `other`, there is one in flight; those of other ids are as they were. */
  lemma AckTakes(a: Acks, loaded: set<Id>, dequeued: set<Id>, other: Id, id: Id)
    requires AcksOk(a, loaded, dequeued)
    ensures Ack(a, other).inFlight[id] == if id == other then 1 else a.inFlight[id]
  {
  }

  lemma AckAgain(s: State, other: Id, id: Id)
    requires Inv(s)
    ensures Ack(s.acks, other).inFlight[id] == if id == other then 1 else s.acks.inFlight[id]
  {
    AckTakes(s.acks, s.store.loaded, s.history.dequeued, other, id);
    hide Ordered, Storing, StoreOk, AcksOk, RetriesOk, Ack;
  }

  lemma AckAlerted(s: State, other: Id, push: Option<Pushed>, id: Id)
    requires Inv(s) && AckUnderWay(s, id)
    ensures AckUnderWay(Next(s, Alert(other, push)), id)
  {
    hide Inv, Ack, IsAlertId, ForgetRetry;
    AckAgain(s, other, id);
    OtherTimers(s.retries, PushSlot(other), false, AckSlot(id));
  }

  lemma AckFire(s: State, slot: Slot, how: Pushed, id: Id)
    requires Inv(s) && Enabled(s, Fire(slot, how)) && AckUnderWay(s, id)
    ensures AckUnderWay(Next(s, Fire(slot, how)), id)
  {
    hide Inv, Ack, ForgetRetry, Disarm;
    AckAgain(s, slot.id, id);
    if slot != AckSlot(id) {
      OtherTimers(s.retries, slot, false, AckSlot(id));
      OtherTimers(Disarm(s.retries, slot), slot, false, AckSlot(id));
    }
  }

  lemma AckReplied(s: State, other: Id, ok: bool, id: Id)
    requires Inv(s) && Enabled(s, AckReply(other, ok)) && AckUnderWay(s, id) && !s.stopped
    requires !AckEnds(s, AckReply(other, ok), id)
    ensures AckUnderWay(Next(s, AckReply(other, ok)), id)
  {
    if other == id {
      ScheduleArms(s.retries, s.acks.acked, AckSlot(id), false);
    }
    hide Inv, ForgetRetry, ScheduleRetry, Hopeless;
    if other != id {
      OtherTimers(s.retries, AckSlot(other), false, AckSlot(id));
    }
  }

  /** From the event n to the state m nothing stops the stream. */
  ghost predicate Up(events: seq<Event>, n: nat, m: nat)
    requires n <= m <= |events|
  {
    !StoppedAfter(events, n) && forall k: nat | n <= k < m :: !events[k].Stop?
  }

  /** Once an ack is called for it is in flight, or waits for its next try, until it goes through or its retries are
      over: none is lost as long as nobody stops the stream. */
  lemma {:induction false} AckIsNotLost(loaded: seq<Id>, states: seq<State>, events: seq<Event>, n: nat, m: nat, id: Id)
    requires Run(loaded, states, events) && n < m <= |events| && Up(events, n, m)
    requires CallsForAck(states[n], events[n], id)
    ensures AckUnderWay(states[m], id) || exists k: nat :: n < k < m && AckEnds(states[k], events[k], id)
    decreases m
  {
    assert StepAt(states, events, m - 1);
    RunInv(loaded, states, events, m - 1);
    hide Inv, Next, Enabled, CallsForAck, AckEnds, AckUnderWay;
    if m == n + 1 {
      AckBegins(states[n], events[n], id);
    } else {
      AckIsNotLost(loaded, states, events, n, m - 1, id);
      if AckUnderWay(states[m - 1], id) {
        UpAt(loaded, states, events, n, m - 1);
        if !AckEnds(states[m - 1], events[m - 1], id) {
          AckGoesOn(states[m - 1], events[m - 1], id);
        }
      } else {
        var k: nat :| n < k < m - 1 && AckEnds(states[k], events[k], id);
        assert n < k < m;
      }
    }
  }

  lemma {:induction false} UpAt(loaded: seq<Id>, states: seq<State>, events: seq<Event>, n: nat, m: nat)
    requires Run(loaded, states, events) && n <= m <= |events| && Up(events, n, m)
    ensures !states[m].stopped
    decreases m
  {
    StoppedIsQuiet(loaded, states, events, m);
    if m > n {
      UpAt(loaded, states, events, n, m - 1);
      StoppedIsQuiet(loaded, states, events, m - 1);
    }
  }

  /** A reply that failed for the last time forgets its series, so that the next one starts afresh. */
  lemma LastFailureForgets(s: State, e: Event)
    requires Inv(s) && Enabled(s, e) && !s.stopped && ((e.AckReply? && !e.ok) || (e.PushReply? && !e.sent))
    ensures SlotOf(e) in Next(s, e).retries.table
       <==> s.retries.timers[SlotOf(e)] == 1 || !Hopeless(s.retries, SlotOf(e))
  {
    hide Ordered, Storing, StoreOk, AcksOk, SeriesOk;
  }

  /** The alert is one of ours, and not known yet. */
  predicate IsNew(s: State, e: Event) {
    e.Alert? && IsAlertId(e.id) && e.id !in s.store.storing && e.id !in s.store.stored
  }

  /** The alert is new and somebody must be woken for it. */
  predicate CallsForPush(s: State, e: Event, id: Id) {
    IsNew(s, e) && e == Alert(id, Some(Sent))
  }

  /** The push went through, one of its kind went out meanwhile, or its retries are over. */
  predicate PushEnds(s: State, e: Event, id: Id) {
    match e
    case PushReply(other, sent) => other == id && (sent || Hopeless(s.retries, PushSlot(id)))
    case Fire(slot, how) => slot == PushSlot(id) && how.Cooled?
    case Alert(other, push) => other == id && push == Some(Cooled)
    case _ => false
  }

  predicate PushUnderWay(s: State, id: Id) { s.pushing[id] > 0 || s.retries.timers[PushSlot(id)] == 1 }

  lemma PushGoesOn(s: State, e: Event, id: Id)
    requires Inv(s) && Enabled(s, e) && !s.stopped && !e.Stop?
    requires PushUnderWay(s, id) && !PushEnds(s, e, id)
    ensures PushUnderWay(Next(s, e), id)
  {
    hide Inv, IsAlertId, Ack, ForgetRetry, ScheduleRetry, Disarm, DoDequeue, Hopeless;
    match e {
      case Fire(slot, how) => PushFire(s, slot, how, id);
      case PushReply(other, sent) => PushReplied(s, other, sent, id);
      case AckReply(other, ok) => OtherTimers(s.retries, AckSlot(other), false, PushSlot(id));
      case Alert(other, push) => PushAlerted(s, other, push, id);
      case _ =>
    }
  }

  lemma PushAlerted(s: State, other: Id, push: Option<Pushed>, id: Id)
    requires PushUnderWay(s, id) && !PushEnds(s, Alert(other, push), id)
    ensures PushUnderWay(Next(s, Alert(other, push)), id)
  {
    hide IsAlertId, Ack, ForgetRetry;
    if other != id {
      OtherTimers(s.retries, PushSlot(other), false, PushSlot(id));
    }
  }

  lemma PushFire(s: State, slot: Slot, how: Pushed, id: Id)
    requires Enabled(s, Fire(slot, how)) && PushUnderWay(s, id) && !PushEnds(s, Fire(slot, how), id)
    ensures PushUnderWay(Next(s, Fire(slot, how)), id)
  {
    hide Ack, ForgetRetry, Disarm;
    if slot != PushSlot(id) {
      OtherTimers(s.retries, slot, false, PushSlot(id));
      OtherTimers(Disarm(s.retries, slot), slot, false, PushSlot(id));
    }
  }

  lemma PushReplied(s: State, other: Id, sent: bool, id: Id)
    requires Inv(s) && Enabled(s, PushReply(other, sent)) && PushUnderWay(s, id) && !s.stopped
    requires !PushEnds(s, PushReply(other, sent), id)
    ensures PushUnderWay(Next(s, PushReply(other, sent)), id)
  {
    if other == id {
      ScheduleArms(s.retries, s.acks.acked, PushSlot(id), false);
    }
    hide Inv, ForgetRetry, ScheduleRetry, Hopeless;
    if other != id {
      OtherTimers(s.retries, PushSlot(other), false, PushSlot(id));
    }
  }

  /** The same of the push of a new alert. */
  lemma {:induction false} PushIsNotLost(loaded: seq<Id>, states: seq<State>, events: seq<Event>, n: nat, m: nat,
                                         id: Id)
    requires Run(loaded, states, events) && n < m <= |events| && Up(events, n, m)
    requires CallsForPush(states[n], events[n], id)
    ensures PushUnderWay(states[m], id) || exists k: nat :: n < k < m && PushEnds(states[k], events[k], id)
    decreases m
  {
    assert StepAt(states, events, m - 1);
    RunInv(loaded, states, events, m - 1);
    hide Inv, Next, Enabled, CallsForPush, PushEnds, PushUnderWay;
    if m == n + 1 {
      PushBegins(states[n], events[n], id);
    } else {
      PushIsNotLost(loaded, states, events, n, m - 1, id);
      UpAt(loaded, states, events, n, m - 1);
      if PushUnderWay(states[m - 1], id) && !PushEnds(states[m - 1], events[m - 1], id) {
        PushGoesOn(states[m - 1], events[m - 1], id);
      }
    }
  }

  lemma PushBegins(s: State, e: Event, id: Id)
    requires CallsForPush(s, e, id)
    ensures PushUnderWay(Next(s, e), id)
  {
  }

  /** The event sends a push: the alert is new, or its retry is due. */
  predicate SendsPush(s: State, e: Event, id: Id) { CallsForPush(s, e, id) || e == Fire(PushSlot(id), Sent) }

  /** What one event adds to the pushes of an id that wait for their answer. */
  function Adds(s: State, e: Event, id: Id): int {
    (if SendsPush(s, e, id) then 1 else 0) - (if e.PushReply? && e.id == id then 1 else 0)
  }

  function Count(states: seq<State>, events: seq<Event>, id: Id, n: nat): int
    requires n <= |events| && |states| == |events| + 1
  {
    if n == 0 then 0 else Count(states, events, id, n - 1) + Adds(states[n - 1], events[n - 1], id)
  }

  lemma OnePush(s: State, other: Id, how: Pushed, id: Id)
    ensures Push(s, other, how).pushing[id] == s.pushing[id] + if how.Sent? && other == id then 1 else 0
  {
    hide ForgetRetry;
  }

  lemma PushingNext(s: State, e: Event, id: Id)
    requires Enabled(s, e)
    ensures Next(s, e).pushing[id] == s.pushing[id] + Adds(s, e, id)
  {
    hide IsAlertId, Ack, Push, ForgetRetry, ScheduleRetry, Disarm, DoDequeue;
    match e {
      case Alert(other, push) => AlertPushes(s, other, push, id);
      case Fire(slot, how) => OnePush(s.(retries := Disarm(s.retries, slot)), slot.id, how, id);
      case _ =>
    }
  }

  lemma AlertPushes(s: State, other: Id, push: Option<Pushed>, id: Id)
    ensures var e := Alert(other, push); Next(s, e).pushing[id] == s.pushing[id] + Adds(s, e, id)
  {
    hide IsAlertId, Ack, Push;
    if IsNew(s, Alert(other, push)) && push.Some? {
      var store := s.store.(stored := Last(s.store.stored + [other], MAX_STORED), storing := s.store.storing + {other});
      var history := s.history.(queue := s.history.queue + [Append(other), Read(other)]);
      OnePush(s.(store := store, history := history), other, push.value, id);
    }
  }

  /** Each new alert sends one push and so does each retry, nothing else does, and each answer is the end of one. */
  lemma {:induction false} PushesAreCounted(loaded: seq<Id>, states: seq<State>, events: seq<Event>, id: Id, n: nat)
    requires Run(loaded, states, events) && n <= |events|
    ensures states[n].pushing[id] == Count(states, events, id, n)
    decreases n
  {
    if n > 0 {
      PushesAreCounted(loaded, states, events, id, n - 1);
      assert StepAt(states, events, n - 1);
      PushingNext(states[n - 1], events[n - 1], id);
      hide Next, Enabled, Adds;
    }
  }

  /** The ack or the push went through, or a push of that kind went out a moment ago. */
  predicate Settles(s: State, e: Event) {
    match e
    case AckReply(_, ok) => ok
    case PushReply(_, sent) => sent
    case Fire(slot, how) => slot.PushSlot? && how.Cooled?
    case Alert(_, push) => IsNew(s, e) && push == Some(Cooled)
    case _ => false
  }

  function SlotOf(e: Event): Slot
    requires e.AckReply? || e.PushReply? || e.Fire? || e.Alert?
  {
    if e.Fire? then e.slot else if e.AckReply? then AckSlot(e.id) else PushSlot(e.id)
  }

  /** That ends its series: no timer is left, and the next series starts afresh. */
  lemma SettledEndsTheSeries(s: State, e: Event)
    requires Inv(s) && Enabled(s, e) && Settles(s, e)
    ensures SlotOf(e) !in Next(s, e).retries.table && Next(s, e).retries.timers[SlotOf(e)] == 0
  {
    hide Ordered, Storing, StoreOk, AcksOk, SeriesOk, IsAlertId;
  }

  /** A timer fires once. */
  lemma FiresOnce(s: State, slot: Slot, how: Pushed)
    requires Inv(s) && Enabled(s, Fire(slot, how))
    ensures Next(s, Fire(slot, how)).retries.timers[slot] == 0
  {
    hide Ordered, Storing, StoreOk, AcksOk, SeriesOk;
  }

  /** The alerts that were new, in order. */
  function NewIds(states: seq<State>, events: seq<Event>, n: nat): seq<Id>
    requires n <= |events| && |states| == |events| + 1
  {
    if n == 0 then []
    else NewIds(states, events, n - 1) + if IsNew(states[n - 1], events[n - 1]) then [events[n - 1].id] else []
  }

  /** What is listed as stored are the last 64 ids: those loaded, then the new ones. */
  ghost predicate LastOnes(stored: seq<Id>, ids: seq<Id>) {
    && |stored| == (if |ids| < MAX_STORED then |ids| else MAX_STORED)
    && stored == ids[|ids| - |stored|..]
  }

  lemma StoredNext(s: State, e: Event, ids: seq<Id>)
    requires Enabled(s, e) && LastOnes(s.store.stored, ids)
    ensures LastOnes(Next(s, e).store.stored, ids + if IsNew(s, e) then [e.id] else [])
  {
    hide IsAlertId, Ack, ForgetRetry, ScheduleRetry, Disarm, DoDequeue;
    if IsNew(s, e) {
      OneIdMore(s.store.stored, ids, e.id);
    } else {
      assert ids + [] == ids;
    }
  }

  lemma OneIdMore(stored: seq<Id>, ids: seq<Id>, id: Id)
    requires LastOnes(stored, ids)
    ensures LastOnes(Last(stored + [id], MAX_STORED), ids + [id])
  {
    assert (ids + [id])[|ids| - |stored|..] == stored + [id];
  }

  lemma {:induction false} StoredAreTheLast(loaded: seq<Id>, states: seq<State>, events: seq<Event>, n: nat)
    requires Run(loaded, states, events) && n <= |events|
    ensures LastOnes(states[n].store.stored, loaded + NewIds(states, events, n))
    decreases n
  {
    if n == 0 {
      assert loaded + [] == loaded;
    } else {
      StoredAreTheLast(loaded, states, events, n - 1);
      assert StepAt(states, events, n - 1);
      StoredNext(states[n - 1], events[n - 1], loaded + NewIds(states, events, n - 1));
      var own := if IsNew(states[n - 1], events[n - 1]) then [events[n - 1].id] else [];
      Assoc(loaded, NewIds(states, events, n - 1), own);
      hide Next, Enabled, LastOnes;
    }
  }

  /** The jobs one event asks of the worker. */
  function Asks(s: State, e: Event): seq<Job> {
    if IsNew(s, e) then [Append(e.id), Read(e.id)] else if e.OtherJob? then [Other(e.n)] else []
  }

  function Asked(states: seq<State>, events: seq<Event>, n: nat): seq<Job>
    requires n <= |events| && |states| == |events| + 1
  {
    if n == 0 then [] else Asked(states, events, n - 1) + Asks(states[n - 1], events[n - 1])
  }

  /** The turns the worker had. */
  function Turns(events: seq<Event>, n: nat): nat
    requires n <= |events|
  {
    if n == 0 then 0 else Turns(events, n - 1) + if events[n - 1].Dequeue? then 1 else 0
  }

  lemma QueueNext(s: State, e: Event)
    requires Enabled(s, e)
    ensures e.Dequeue? ==> Next(s, e).history.queue == s.history.queue[1..] && Asks(s, e) == []
    ensures !e.Dequeue? ==> Next(s, e).history.queue == s.history.queue + Asks(s, e)
  {
    hide IsAlertId, Ack, ForgetRetry, ScheduleRetry, Disarm;
    assert s.history.queue + [] == s.history.queue;
  }

  /** The worker takes one job a turn, in the order they were asked for: for a new alert its storing, then the question
      whether it was. An alert counts as dequeued once its storing was taken, and not before. */
  lemma {:induction false} JobsInOrder(loaded: seq<Id>, states: seq<State>, events: seq<Event>, n: nat, id: Id)
    requires Run(loaded, states, events) && n <= |events|
    ensures var asked, turns := Asked(states, events, n), Turns(events, n);
            && turns <= |asked| && states[n].history.queue == asked[turns..]
            && (id in states[n].history.dequeued <==> Append(id) in asked[..turns])
    decreases n
  {
    if n > 0 {
      JobsInOrder(loaded, states, events, n - 1, id);
      assert StepAt(states, events, n - 1);
      var s, e := states[n - 1], events[n - 1];
      var asked, turns := Asked(states, events, n - 1), Turns(events, n - 1);
      QueueNext(s, e);
      DequeuedNext(s, e, id);
      hide Next, Enabled, Asks, IsNew;
      if e.Dequeue? {
        assert asked + [] == asked;
        OneTaken(asked, turns);
      } else {
        MoreAsked(asked, Asks(s, e), turns);
      }
    }
  }

  lemma OneTaken<T>(asked: seq<T>, turns: nat)
    requires turns < |asked|
    ensures asked[turns..][1..] == asked[turns + 1..] && asked[..turns + 1] == asked[..turns] + [asked[turns]]
  {
  }

  lemma MoreAsked<T>(asked: seq<T>, more: seq<T>, turns: nat)
    requires turns <= |asked|
    ensures (asked + more)[turns..] == asked[turns..] + more && (asked + more)[..turns] == asked[..turns]
  {
  }

  lemma DequeuedNext(s: State, e: Event, id: Id)
    requires Enabled(s, e)
    ensures id in Next(s, e).history.dequeued
       <==> id in s.history.dequeued || (e.Dequeue? && s.history.queue[0] == Append(id))
  {
    hide IsAlertId, Ack, ForgetRetry, ScheduleRetry, Disarm;
  }

  /** An ack that failed is tried again unless the stream was stopped, it failed six times, or there is no room
      for one more series. */
  lemma FailedAckIsRetried(s: State, id: Id)
    requires Inv(s) && Enabled(s, AckReply(id, false))
    ensures var slot := AckSlot(id);
            var r := s.retries;
            (Next(s, AckReply(id, false)).retries.timers[slot] == 1
             <==> r.timers[slot] == 1
                  || !(s.stopped || (slot !in r.table && |r.table| >= MAX_REMEMBERED)
                       || (slot in r.table && r.table[slot].attempts >= MAX_RETRIES)))
  {
    hide Ordered, Storing, StoreOk, AcksOk, IsAlertId, SeriesOk;
  }

  // ----- the objects -----

  /** The queue between the main loop and the worker. `passed` remembers what went through it. */
  class ThreadedQueue<T> {
    var queue: seq<T>
    var valid: bool
    ghost var passed: seq<T>

    constructor ()
      ensures queue == [] && valid && passed == []
    {
      queue, valid, passed := [], true, [];
    }

    method Push(item: T)
      modifies this
      ensures queue == old(queue) + [item] && valid == old(valid) && passed == old(passed)
    {
      queue := queue + [item];
    }

    /** Takes the oldest item, or nothing once the queue is empty or was invalidated. */
    method TryPop() returns (item: Option<T>)
      modifies this
      ensures item.Some? <==> old(queue) != [] && old(valid)
      ensures valid == old(valid) && passed + queue == old(passed + queue)
      ensures passed == if item.Some? then old(passed) + [item.value] else old(passed)
    {
      if queue == [] || !valid {
        return None;
      }
      item := Some(queue[0]);
      assert queue == [queue[0]] + queue[1..];
      passed := passed + [queue[0]];
      queue := queue[1..];
    }

    /** Called when the wait is over: something is there, or the queue was invalidated. */
    method WaitPop() returns (item: Option<T>)
      requires queue != [] || !valid
      modifies this
      ensures item.Some? <==> old(valid)
      ensures valid == old(valid) && passed + queue == old(passed + queue)
      ensures passed == if item.Some? then old(passed) + [item.value] else old(passed)
    {
      if !valid {
        return None;
      }
      item := TryPop();
    }

    method Invalidate()
      modifies this
      ensures !valid && queue == old(queue) && passed == old(passed)
    {
      valid := false;
    }
  }

  lemma TakenFirst<T>(passed: seq<T>, was: seq<T>, item: T, queue: seq<T>)
    requires passed + [item] + queue == passed + was
    ensures was == [item] + queue
  {
    var all := passed + was;
    assert was == all[|passed|..];
    assert [item] + queue == (passed + [item] + queue)[|passed|..];
  }

  /** The history worker: its queue, and the answers on their way to the main loop. */
  class HistLogger {
    const eventQueue: ThreadedQueue<Job>
    var answers: multiset<Id>
    ghost var dequeued: set<Id>

    ghost function View(): History
      reads this, eventQueue
    {
      History(eventQueue.queue, answers, dequeued)
    }

    constructor ()
      ensures View() == History([], multiset{}, {}) && fresh(eventQueue) && eventQueue.valid
    {
      eventQueue := new ThreadedQueue();
      answers, dequeued := multiset{}, {};
    }

    /** What the main loop asks for. */
    method Ask(job: Job)
      modifies eventQueue
      ensures View() == old(View()).(queue := old(eventQueue.queue) + [job])
    {
      eventQueue.Push(job);
    }

    /** One turn of the worker's loop, once its wait is over: after an invalidation it takes nothing any more. */
    method WorkOnce()
      requires eventQueue.queue != [] || !eventQueue.valid
      modifies this, eventQueue
      ensures View() == if old(eventQueue.valid) then DoDequeue(old(View())) else old(View())
    {
      ghost var was := eventQueue.queue;
      ghost var passed := eventQueue.passed;
      var job := eventQueue.WaitPop();
      if job.None? {
        assert passed + was == passed + eventQueue.queue;
        assert (passed + was)[|passed|..] == was;
        return;
      }
      TakenFirst(passed, was, job.value, eventQueue.queue);
      match job.value {
        case Append(id) => dequeued := dequeued + {id};
        case Read(id) => answers := answers + multiset{id};
        case Other(_) =>
      }
    }
  }

  /** What the alerts are to the main loop. */
  class AdminEvents {
    const worker: HistLogger
    var store: Store
    var acks: Acks
    var retries: Retries
    var pushing: multiset<Id>
    var stopped: bool

    ghost function View(): State
      reads this, worker, worker.eventQueue
    {
      State(store, worker.View(), acks, retries, pushing, stopped)
    }

    constructor (loaded: seq<Id>)
      ensures View() == Initial(loaded) && fresh(worker) && fresh(worker.eventQueue) && worker.eventQueue.valid
    {
      worker := new HistLogger();
      store := Store(loaded, {}, set id | id in loaded);
      acks := Acks({}, multiset{}, {});
      retries, pushing, stopped := Retries(map[], multiset{}), multiset{}, false;
    }

    /** The worker's turn, while the queue is valid, is the step Dequeue of the whole. */
    method WorkerTurn()
      requires worker.eventQueue.queue != [] && worker.eventQueue.valid
      modifies worker, worker.eventQueue
      ensures View() == Next(old(View()), Dequeue)
    {
      worker.WorkOnce();
    }

    method SendAck(id: Id)
      modifies this`acks
      ensures acks == Ack(old(acks), id)
    {
      if id in acks.acking {
        return;
      }
      acks := Acks(acks.acking + {id}, acks.inFlight + multiset{id}, acks.acked + {id});
    }

    method PushNow(id: Id, how: Pushed)
      modifies this`pushing, this`retries
      ensures View() == Push(old(View()), id, how)
    {
      if how.Cooled? {
        DropRetry(PushSlot(id));
      } else {
        pushing := pushing + multiset{id};
      }
    }

    /** Several times at most, each one later than the one before, while there is room for the series. */
    method RetryLater(slot: Slot)
      modifies this`retries
      ensures retries == ScheduleRetry(old(retries), slot, stopped)
    {
      if stopped {
        return;
      }
      var entry := Retry(0, false, []);
      if slot !in retries.table {
        if |retries.table| >= MAX_REMEMBERED {
          return;
        }
      } else {
        entry := retries.table[slot];
      }
      if entry.armed {
        return;
      }
      if entry.attempts >= MAX_RETRIES {
        retries := retries.(table := retries.table - {slot});
        return;
      }
      var delay := RETRY_DELAY * Pow2(entry.attempts);
      entry := Retry(entry.attempts + 1, true, entry.delays + [delay]);
      retries := Retries(retries.table[slot := entry], retries.timers + multiset{slot});
    }

    method DropRetry(slot: Slot)
      modifies this`retries
      ensures retries == ForgetRetry(old(retries), slot)
    {
      if slot in retries.table {
        var timers := if retries.table[slot].armed then retries.timers - multiset{slot} else retries.timers;
        retries := Retries(retries.table - {slot}, timers);
      }
    }

    method RetryNow(slot: Slot, how: Pushed)
      requires retries.timers[slot] > 0
      modifies this`acks, this`pushing, this`retries
      ensures View() == Next(old(View()), Fire(slot, how))
    {
      hide ForgetRetry, Ack, Disarm;
      retries := Disarm(retries, slot);
      if slot.PushSlot? {
        PushNow(slot.id, how);
      } else {
        SendAck(slot.id);
      }
    }

    method OnAlert(id: Id, push: Option<Pushed>)
      modifies this, worker.eventQueue
      ensures View() == Next(old(View()), Alert(id, push))
    {
      if !IsAlertId(id) {
        if 0 < |id| <= MAX_FOREIGN {
          SendAck(id);
        }
        return;
      }
      if id in store.storing {
        return;
      }
      if id in store.stored {
        SendAck(id);
        return;
      }
      store := store.(stored := Last(store.stored + [id], MAX_STORED), storing := store.storing + {id});
      ghost var was := worker.eventQueue.queue;
      worker.Ask(Append(id));
      worker.Ask(Read(id));
      assert was + [Append(id)] + [Read(id)] == was + [Append(id), Read(id)];
      if push.Some? {
        PushNow(id, push.value);
      }
    }

    method OnStored(id: Id)
      requires worker.answers[id] > 0
      modifies this, worker`answers
      ensures View() == Next(old(View()), Answered(id))
    {
      worker.answers := worker.answers - multiset{id};
      store := store.(storing := store.storing - {id});
      SendAck(id);
    }

    method OnAckReply(id: Id, ok: bool)
      requires acks.inFlight[id] > 0
      modifies this
      ensures View() == Next(old(View()), AckReply(id, ok))
    {
      hide ForgetRetry, ScheduleRetry;
      acks := acks.(acking := acks.acking - {id}, inFlight := acks.inFlight - multiset{id});
      if ok {
        DropRetry(AckSlot(id));
      } else {
        RetryLater(AckSlot(id));
      }
    }

    method OnPushReply(id: Id, sent: bool)
      requires pushing[id] > 0
      modifies this
      ensures View() == Next(old(View()), PushReply(id, sent))
    {
      hide ForgetRetry, ScheduleRetry;
      pushing := pushing - multiset{id};
      if sent {
        DropRetry(PushSlot(id));
      } else {
        RetryLater(PushSlot(id));
      }
    }
  }
}
