/** The flow control and the life of a console, src/bin/calaos_server/ConsoleTunnel.cpp: a browser and the
    console daemon, each read only while the other one's write queue is not too long. What a frame of the
    daemon says is the business of MessageStreams; here it is one of the things the tunnel does about it. */
module ConsoleTunnels {
  import opened Bytes
  import WebSocketFrames

  const HIGH_WATER: nat := 256 * 1024
  const LOW_WATER: nat := 64 * 1024
  const INPUT_CHUNK: nat := 16 * 1024
  const MAX_CLIENT_MESSAGE: nat := 64 * 1024

  // ----- a write queue of the event loop -----

  /** A write: input of the browser or output of the console, which the flow control watches, or anything
      else. */
  datatype Write = Payload(size: nat) | Extra(size: nat)

  /** The writes whose completion has not been reported, oldest first, and how many of their bytes are gone. */
  datatype Queue = Queue(writes: seq<Write>, gone: nat) {
    function Length(): int { Sum(writes) - gone }

    function Push(w: Write): Queue { Queue(writes + [w], gone) }

    /** The oldest write is complete: its completion may be reported. */
    predicate Due() { writes != [] && writes[0].size <= gone }

    function Pop(): Queue
      requires Due()
    {
      Queue(writes[1..], gone - writes[0].size)
    }
  }

  function Sum(writes: seq<Write>): nat { if writes == [] then 0 else writes[0].size + Sum(writes[1..]) }

  lemma {:induction false} SumConcat(a: seq<Write>, b: seq<Write>)
    ensures Sum(a + b) == Sum(a) + Sum(b)
  {
    if a == [] {
      assert a + b == b;
    } else {
      SumConcat(a[1..], b);
      assert (a + b)[1..] == a[1..] + b;
    }
  }

  lemma SumPush(writes: seq<Write>, w: Write)
    ensures Sum(writes + [w]) == Sum(writes) + w.size
  {
    SumConcat(writes, [w]);
    assert [w][1..] == [];
  }

  /** The bytes of one kind that are still in the queue: what is gone is gone from the front. */
  function Left(writes: seq<Write>, gone: nat, payload: bool): nat
    decreases |writes|
  {
    if writes == [] then 0
    else
      var used := if gone < writes[0].size then gone else writes[0].size;
      (if writes[0].Payload? == payload then writes[0].size - used else 0) + Left(writes[1..], gone - used, payload)
  }

  lemma {:induction false} LeftTotal(writes: seq<Write>, gone: nat)
    requires gone <= Sum(writes)
    ensures Left(writes, gone, true) + Left(writes, gone, false) == Sum(writes) - gone
    decreases |writes|
  {
    if writes != [] {
      LeftTotal(writes[1..], gone - (if gone < writes[0].size then gone else writes[0].size));
    }
  }

  lemma {:induction false} LeftPush(writes: seq<Write>, gone: nat, w: Write, payload: bool)
    requires gone <= Sum(writes)
    ensures Left(writes + [w], gone, payload)
            == Left(writes, gone, payload) + (if w.Payload? == payload then w.size else 0)
    decreases |writes|
  {
    var more := writes + [w];
    if writes == [] {
      assert more[1..] == [];
    } else {
      assert more[1..] == writes[1..] + [w];
      LeftPush(writes[1..], gone - (if gone < writes[0].size then gone else writes[0].size), w, payload);
    }
  }

  lemma {:induction false} LeftProgress(writes: seq<Write>, gone: nat, more: nat, payload: bool)
    ensures Left(writes, gone + more, payload) <= Left(writes, gone, payload)
    decreases |writes|
  {
    if writes != [] {
      var used := if gone < writes[0].size then gone else writes[0].size;
      var used' := if gone + more < writes[0].size then gone + more else writes[0].size;
      LeftProgress(writes[1..], gone - used, more - (used' - used), payload);
    }
  }

  /** A report takes nothing out of the queue. */
  lemma LeftPop(q: Queue, payload: bool)
    requires q.Due()
    ensures Left(q.Pop().writes, q.Pop().gone, payload) == Left(q.writes, q.gone, payload)
  {
  }

  // ----- the tunnel -----

  datatype Phase = WaitOpen | Opening | Attaching | Open | Closed

  datatype Daemon = Absent | Connected | Upgraded

  /** `closes` counts the closeConnection signals, `input` holds the binary messages sent to the daemon. */
  datatype Tunnel = Tunnel(
    phase: Phase,
    daemon: Daemon,
    clientPaused: bool,
    daemonPaused: bool,
    queues: Queues,
    out: Out)

  datatype Queues = Queues(toClient: Queue, toDaemon: Queue)

  datatype Out = Out(closes: nat, input: seq<seq<Byte>>)

  const INIT: Tunnel := Tunnel(WaitOpen, Absent, false, false, Queues(Queue([], 0), Queue([], 0)), Out(0, []))

  /** A masked frame with n bytes of payload. */
  function FrameSize(n: nat): nat { n + (if n < 126 then 6 else if n < 65536 then 8 else 14) }

  /** It is what makeFrame prints. */
  lemma FrameSizeIs(opcode: nat, payload: seq<Byte>, last: bool, key: int)
    requires 0 < key < 0x1_0000_0000 && |payload| < 0x8000_0000_0000_0000 && opcode < 16
    ensures |WebSocketFrames.Frame(opcode, payload, last, key)| == FrameSize(|payload|)
  {
    WebSocketFrames.FrameIsLaid(opcode, payload, last, key);
  }

  function ToDaemon(t: Tunnel, w: Write): Tunnel {
    t.(queues := t.queues.(toDaemon := t.queues.toDaemon.Push(w)))
  }

  function ToClient(t: Tunnel, w: Write): Tunnel {
    t.(queues := t.queues.(toClient := t.queues.toClient.Push(w)))
  }

  /** closeDaemon(): the close frame, which may fail and is then forgotten, and the handle is let go. */
  function CloseDaemon(t: Tunnel, withCode: bool, fails: bool): Tunnel {
    if t.daemon.Absent? then t
    else (if t.daemon.Upgraded? && withCode && !fails then ToDaemon(t, Extra(FrameSize(2))) else t).(daemon := Absent)
  }

  function Finish(t: Tunnel, withCode: bool, fails: bool): Tunnel {
    CloseDaemon(t.(phase := Closed, clientPaused := false, out := t.out.(closes := t.out.closes + 1)), withCode, fails)
  }

  function Refuse(t: Tunnel, fails: bool): Tunnel { if t.phase.Closed? then t else Finish(t, true, fails) }

  function DaemonGone(t: Tunnel): Tunnel {
    if t.phase.Attaching? then Refuse(t, true)
    else if t.phase.Open? then Finish(t, false, true)
    else t
  }

  /** writeDaemon(): a write that fails at once is a daemon that is gone. */
  function SendDaemon(t: Tunnel, w: Write, fails: bool): Tunnel {
    if t.daemon.Absent? then t else if fails then DaemonGone(t) else ToDaemon(t, w)
  }

  function ClientClosing(t: Tunnel, fails: bool): Tunnel {
    if t.phase.Closed? then t else CloseDaemon(t.(phase := Closed), true, fails)
  }

  /** The chunks of one message, until a write fails. */
  function SendInput(t: Tunnel, bytes: seq<Byte>, good: nat): Tunnel
    decreases |bytes|
  {
    if bytes == [] || !t.phase.Open? then t
    else
      var n := if |bytes| < INPUT_CHUNK then |bytes| else INPUT_CHUNK;
      var t1 := SendDaemon(t, Payload(FrameSize(n)), good == 0);
      var t2 := if good == 0 then t1 else t1.(out := t1.out.(input := t1.out.input + [bytes[..n]]));
      SendInput(t2, bytes[n..], if good == 0 then 0 else good - 1)
  }

  /** writeInput(): the (good + 1)th chunk fails at once, when there is one. */
  function WriteInput(t: Tunnel, bytes: seq<Byte>, good: nat): Tunnel { PauseClient(SendInput(t, bytes, good)) }

  function PauseClient(t: Tunnel): Tunnel {
    if t.phase.Open? && t.queues.toDaemon.Length() > HIGH_WATER then t.(clientPaused := true) else t
  }

  function PauseDaemon(t: Tunnel): Tunnel {
    if t.phase.Open? && t.queues.toClient.Length() > HIGH_WATER then t.(daemonPaused := true) else t
  }

  /** What daemonFrames() does about one frame. */
  datatype Act =
    | Pong(size: nat, fails: bool)   // answers a ping
    | Deliver(size: nat)             // hands a message over to the browser
    | Hold                           // a fragment, a pong, a text message
    | GiveUp(fails: bool)            // a close frame, or anything the protocol forbids

  function DoAct(t: Tunnel, a: Act): Tunnel {
    match a
    case Pong(size, fails) => SendDaemon(t, Extra(FrameSize(size)), fails)
    case Deliver(size) => ToClient(t, Payload(size))
    case Hold => t
    case GiveUp(fails) => Finish(t, true, fails)
  }

  function DoActs(t: Tunnel, acts: seq<Act>): Tunnel
    decreases |acts|
  {
    if acts == [] || !t.phase.Open? then t else DoActs(DoAct(t, acts[0]), acts[1..])
  }

  function DaemonFrames(t: Tunnel, acts: seq<Act>): Tunnel { PauseDaemon(DoActs(t, acts)) }

  /** The WriteEvent of the browser's handle. */
  function ClientWritten(t: Tunnel): Tunnel
    requires t.queues.toClient.Due()
  {
    var t1 := t.(queues := t.queues.(toClient := t.queues.toClient.Pop()));
    if !t1.daemonPaused || t1.daemon.Absent? || t1.queues.toClient.Length() > LOW_WATER then t1
    else t1.(daemonPaused := false)
  }

  /** The WriteEvent of the daemon's handle, which outlives the tunnel's own hold on it. */
  function DaemonWritten(t: Tunnel): Tunnel
    requires t.queues.toDaemon.Due()
  {
    var t1 := t.(queues := t.queues.(toDaemon := t.queues.toDaemon.Pop()));
    if !t1.clientPaused || t1.queues.toDaemon.Length() > LOW_WATER then t1 else t1.(clientPaused := false)
  }

  // ----- what may happen -----

  /** What the browser sends. */
  datatype Message =
    | Input(bytes: seq<Byte>, good: nat)
    | Resize(size: nat, fails: bool)

  /** clientText() and clientBinary(). */
  function OnMessage(t: Tunnel, m: Message): Tunnel {
    match m
    case Input(bytes, good) =>
      if t.phase.WaitOpen? then Refuse(t, false)
      else if !t.phase.Open? then t
      else if |bytes| > MAX_CLIENT_MESSAGE then Finish(t, true, good == 0)
      else WriteInput(t, bytes, good)
    case Resize(n, fails) => if t.phase.Open? then SendDaemon(t, Extra(FrameSize(n)), fails) else t
  }

  /** All the messages of one read: pausing stops the next read, not the messages already there. */
  function OnMessages(t: Tunnel, messages: seq<Message>): Tunnel
    decreases |messages|
  {
    if messages == [] then t else OnMessages(OnMessage(t, messages[0]), messages[1..])
  }

  datatype Event =
    | OpenMessage                                   // the browser's first message
    | Attach                                        // the daemon named its socket
    | UpgradeRequest(size: nat, fails: bool)
    | Handshake(size: nat, ready: nat, fails: bool) // the daemon accepted the upgrade
    | Refused(fails: bool)                          // a timer, a refusal of the daemon, a bad message
    | DaemonRead(acts: seq<Act>)                    // the frames of one read
    | ClientRead(messages: seq<Message>)            // the messages of one read
    | ClientCloses(fails: bool)
    | DaemonLeaves                                  // end of file, or an error
    | CredentialsChanged(fails: bool)
    | OtherClientWrite(size: nat)                   // the WebSocket writes to the browser on its own account
    | ClientProgress(sent: nat)
    | DaemonProgress(sent: nat)
    | ClientReport
    | DaemonReport

  /** A handle that is stopped is not read. */
  predicate Enabled(t: Tunnel, e: Event) {
    match e
    case OpenMessage => t.phase.WaitOpen?
    case Attach => t.phase.Opening?
    case UpgradeRequest(_, _) => t.phase.Attaching?
    case Handshake(_, _, _) => t.phase.Attaching?
    case DaemonRead(_) => !t.daemonPaused
    case ClientRead(_) => !t.clientPaused
    case ClientProgress(n) => n <= t.queues.toClient.Length()
    case DaemonProgress(n) => n <= t.queues.toDaemon.Length()
    case ClientReport => t.queues.toClient.Due()
    case DaemonReport => t.queues.toDaemon.Due()
    case _ => true
  }

  function Next(t: Tunnel, e: Event): Tunnel
    requires Enabled(t, e)
  {
    match e
    case OpenMessage => t.(phase := Opening)
    case Attach => t.(phase := Attaching, daemon := Connected)
    case UpgradeRequest(n, fails) => SendDaemon(t, Extra(n), fails)
    case Handshake(n, ready, fails) =>
      ToClient(SendDaemon(t.(phase := Open, daemon := Upgraded), Extra(FrameSize(n)), fails), Extra(ready))
    case Refused(fails) => Refuse(t, fails)
    case DaemonRead(acts) => if t.phase.Open? then DaemonFrames(t, acts) else t
    case ClientRead(messages) => OnMessages(t, messages)
    case ClientCloses(fails) => ClientClosing(t, fails)
    case DaemonLeaves => DaemonGone(t)
    case CredentialsChanged(fails) =>
      if t.phase.WaitOpen? || t.phase.Closed? then t
      else if t.phase.Open? then Finish(t, true, fails) else Refuse(t, fails)
    case OtherClientWrite(n) => ToClient(t, Extra(n))
    case ClientProgress(n) =>
      t.(queues := t.queues.(toClient := t.queues.toClient.(gone := t.queues.toClient.gone + n)))
    case DaemonProgress(n) =>
      t.(queues := t.queues.(toDaemon := t.queues.toDaemon.(gone := t.queues.toDaemon.gone + n)))
    case ClientReport => ClientWritten(t)
    case DaemonReport => DaemonWritten(t)
  }

  // ----- the invariant -----

  /** The bytes of the writes whose completion is still to be reported. */
  function Owed(q: Queue): nat { Sum(q.writes) }

  ghost predicate Inv(t: Tunnel) {
    && t.queues.toClient.gone <= Owed(t.queues.toClient)
    && t.queues.toDaemon.gone <= Owed(t.queues.toDaemon)
    && (t.daemon.Absent? <==> !t.phase.Attaching? && !t.phase.Open?)
    && (t.phase.Open? ==> t.daemon.Upgraded?)
    && (t.clientPaused ==> Owed(t.queues.toDaemon) > LOW_WATER)
    && (t.daemonPaused ==> t.phase.Open? || t.phase.Closed?)
    && (t.daemonPaused && !t.daemon.Absent? ==> Owed(t.queues.toClient) > LOW_WATER)
    && t.out.closes <= (if t.phase.Closed? then 1 else 0)
  }

  lemma CloseOk(t: Tunnel, withCode: bool, fails: bool, closes: nat)
    requires Inv(t) && closes <= t.out.closes + 1
    requires !t.phase.Closed?
    ensures var u := t.(phase := Closed, clientPaused := false, out := t.out.(closes := closes));
            Inv(CloseDaemon(u, withCode, fails))
    ensures Inv(CloseDaemon(t.(phase := Closed), withCode, fails))
  {
    SumPush(t.queues.toDaemon.writes, Extra(FrameSize(2)));
  }

  lemma SendOk(t: Tunnel, w: Write, fails: bool)
    requires Inv(t)
    ensures Inv(SendDaemon(t, w, fails))
  {
    SumPush(t.queues.toDaemon.writes, w);
    if !t.phase.Closed? {
      CloseOk(t, true, true, t.out.closes + 1);
      CloseOk(t, false, true, t.out.closes + 1);
    }
  }

  lemma {:induction false} SendInputOk(t: Tunnel, bytes: seq<Byte>, good: nat)
    requires Inv(t)
    ensures Inv(SendInput(t, bytes, good))
    decreases |bytes|
  {
    if bytes != [] && t.phase.Open? {
      var n := if |bytes| < INPUT_CHUNK then |bytes| else INPUT_CHUNK;
      SendOk(t, Payload(FrameSize(n)), good == 0);
      var t1 := SendDaemon(t, Payload(FrameSize(n)), good == 0);
      var t2 := if good == 0 then t1 else t1.(out := t1.out.(input := t1.out.input + [bytes[..n]]));
      SendInputOk(t2, bytes[n..], if good == 0 then 0 else good - 1);
    }
  }

  lemma {:induction false} DoActsOk(t: Tunnel, acts: seq<Act>)
    requires Inv(t)
    ensures Inv(DoActs(t, acts))
    decreases |acts|
  {
    if acts != [] && t.phase.Open? {
      match acts[0] {
        case Pong(size, fails) => SendOk(t, Extra(FrameSize(size)), fails);
        case Deliver(size) => SumPush(t.queues.toClient.writes, Payload(size));
        case Hold =>
        case GiveUp(fails) => CloseOk(t, true, fails, t.out.closes + 1);
      }
      DoActsOk(DoAct(t, acts[0]), acts[1..]);
    }
  }

  /** The ways out. */
  lemma EndOk(t: Tunnel, e: Event)
    requires Inv(t) && (e.Refused? || e.ClientCloses? || e.DaemonLeaves? || e.CredentialsChanged?)
    ensures Inv(Next(t, e))
  {
    if !t.phase.Closed? {
      var closes := t.out.closes + 1;
      hide Inv, CloseDaemon;
      if e.DaemonLeaves? {
        CloseOk(t, true, true, closes);
        CloseOk(t, false, true, closes);
      } else {
        CloseOk(t, true, e.fails, closes);
      }
    }
  }

  lemma InputOk(t: Tunnel, bytes: seq<Byte>, good: nat)
    requires Inv(t)
    ensures Inv(OnMessage(t, Input(bytes, good)))
  {
    SendInputOk(t, bytes, good);
    hide SendInput, CloseDaemon;
    if !t.phase.Closed? {
      CloseOk(t, true, good == 0, t.out.closes + 1);
      CloseOk(t, true, false, t.out.closes + 1);
    }
  }

  lemma {:induction false} MessagesOk(t: Tunnel, messages: seq<Message>)
    requires Inv(t)
    ensures Inv(OnMessages(t, messages))
    decreases |messages|
  {
    hide Inv, WriteInput, Finish, Refuse;
    if messages != [] {
      match messages[0] {
        case Input(bytes, good) => InputOk(t, bytes, good);
        case Resize(n, fails) => SendOk(t, Extra(FrameSize(n)), fails);
      }
      MessagesOk(OnMessage(t, messages[0]), messages[1..]);
    }
  }

  /** When a completion is reported and the queue is still long, more than its bytes are still owed. */
  lemma QueueOk(t: Tunnel, e: Event)
    requires Inv(t) && Enabled(t, e)
    requires e.OpenMessage? || e.Attach? || e.ClientProgress? || e.DaemonProgress? || e.ClientReport? || e.DaemonReport?
    ensures Inv(Next(t, e))
  {
  }

  /** Every event keeps the invariant; above all, whoever is paused is still owed a completion. */
  lemma InvNext(t: Tunnel, e: Event)
    requires Inv(t) && Enabled(t, e)
    ensures Inv(Next(t, e))
  {
    match e {
      case UpgradeRequest(n, fails) => SendOk(t, Extra(n), fails);
      case Handshake(n, ready, fails) =>
        var t1 := t.(phase := Open, daemon := Upgraded);
        SendOk(t1, Extra(FrameSize(n)), fails);
        SumPush(SendDaemon(t1, Extra(FrameSize(n)), fails).queues.toClient.writes, Extra(ready));
      case DaemonRead(acts) => DoActsOk(t, acts);
      case ClientRead(messages) => MessagesOk(t, messages);
      case OtherClientWrite(n) => SumPush(t.queues.toClient.writes, Extra(n));
      case Refused(_) => EndOk(t, e);
      case ClientCloses(_) => EndOk(t, e);
      case DaemonLeaves => EndOk(t, e);
      case CredentialsChanged(_) => EndOk(t, e);
      case _ => QueueOk(t, e);
    }
  }

  // ----- whole runs -----

  ghost predicate Run(tunnels: seq<Tunnel>, events: seq<Event>) {
    && |tunnels| == |events| + 1
    && tunnels[0] == INIT
    && forall i: nat | i < |events| :: StepAt(tunnels, events, i)
  }

  ghost predicate StepAt(tunnels: seq<Tunnel>, events: seq<Event>, i: nat)
    requires i < |events| && |tunnels| == |events| + 1
  {
    Enabled(tunnels[i], events[i]) && tunnels[i + 1] == Next(tunnels[i], events[i])
  }

  lemma {:induction false} RunInv(tunnels: seq<Tunnel>, events: seq<Event>, i: nat)
    requires Run(tunnels, events) && i <= |events|
    ensures Inv(tunnels[i])
    decreases i
  {
    if i > 0 {
      hide Inv, Enabled, Next;
      RunInv(tunnels, events, i - 1);
      assert StepAt(tunnels, events, i - 1);
      InvNext(tunnels[i - 1], events[i - 1]);
    }
  }

  // ----- the end -----

  lemma {:induction false} SendInputClosed(t: Tunnel, bytes: seq<Byte>, good: nat)
    requires t.phase.Closed?
    ensures SendInput(t, bytes, good) == t
  {
  }

  lemma {:induction false} MessagesClosed(t: Tunnel, messages: seq<Message>)
    requires t.phase.Closed?
    ensures OnMessages(t, messages) == t
    decreases |messages|
  {
    if messages != [] {
      MessagesClosed(t, messages[1..]);
    }
  }

  lemma ClosedStays(t: Tunnel, e: Event)
    requires t.phase.Closed? && Enabled(t, e) && (e.ClientRead? || e.DaemonRead?)
    ensures Next(t, e) == t
  {
    if e.ClientRead? {
      MessagesClosed(t, e.messages);
    }
  }

  /** Closed is for ever, and the browser is told to close once at most. */
  lemma ClosedStep(t: Tunnel, e: Event)
    requires Inv(t) && Enabled(t, e) && t.phase.Closed?
    ensures Next(t, e).phase.Closed? && Next(t, e).out == t.out
    ensures t.daemon.Absent? && Next(t, e).daemon.Absent?
  {
    if e.ClientRead? {
      MessagesClosed(t, e.messages);
    }
  }

  lemma {:induction false} ClosedIsFinal(tunnels: seq<Tunnel>, events: seq<Event>, i: nat, j: nat)
    requires Run(tunnels, events) && i <= j <= |events| && tunnels[i].phase.Closed?
    ensures tunnels[j].phase.Closed? && tunnels[j].out == tunnels[i].out && tunnels[j].out.closes <= 1
    decreases j
  {
    RunInv(tunnels, events, j);
    if i < j {
      ClosedIsFinal(tunnels, events, i, j - 1);
      RunInv(tunnels, events, j - 1);
      assert StepAt(tunnels, events, j - 1);
      ClosedStep(tunnels[j - 1], events[j - 1]);
    }
  }

  /** Whoever closes tells the browser once, and has it read again for its answer; whoever does not close tells it
      nothing. */
  ghost predicate Told(t: Tunnel, u: Tunnel) {
    && (t.phase.Closed? ==> u.phase.Closed? && (u.clientPaused ==> t.clientPaused))
    && (u.phase.Closed? && !t.phase.Closed? ==> !u.clientPaused)
    && u.out.closes == t.out.closes + (if u.phase.Closed? && !t.phase.Closed? then 1 else 0)
  }

  lemma SendTold(t: Tunnel, w: Write, fails: bool)
    ensures Told(t, SendDaemon(t, w, fails))
  {
  }

  lemma {:induction false} SendInputTold(t: Tunnel, bytes: seq<Byte>, good: nat)
    ensures Told(t, SendInput(t, bytes, good))
    decreases |bytes|
  {
    if bytes != [] && t.phase.Open? {
      var n := if |bytes| < INPUT_CHUNK then |bytes| else INPUT_CHUNK;
      SendTold(t, Payload(FrameSize(n)), good == 0);
      var t1 := SendDaemon(t, Payload(FrameSize(n)), good == 0);
      var t2 := if good == 0 then t1 else t1.(out := t1.out.(input := t1.out.input + [bytes[..n]]));
      hide SendDaemon;
      SendInputTold(t2, bytes[n..], if good == 0 then 0 else good - 1);
    }
  }

  lemma {:induction false} MessagesTold(t: Tunnel, messages: seq<Message>)
    ensures Told(t, OnMessages(t, messages))
    decreases |messages|
  {
    if messages != [] {
      match messages[0] {
        case Input(bytes, good) => SendInputTold(t, bytes, good);
        case Resize(n, fails) => SendTold(t, Extra(FrameSize(n)), fails);
      }
      assert Told(t, OnMessage(t, messages[0])) by {
        hide SendInput, SendDaemon;
      }
      hide OnMessage;
      MessagesTold(OnMessage(t, messages[0]), messages[1..]);
    }
  }

  lemma {:induction false} ActsTold(t: Tunnel, acts: seq<Act>)
    ensures Told(t, DoActs(t, acts))
    decreases |acts|
  {
    if acts != [] && t.phase.Open? {
      assert Told(t, DoAct(t, acts[0]));
      hide DoAct;
      ActsTold(DoAct(t, acts[0]), acts[1..]);
    }
  }

  lemma StepTold(t: Tunnel, e: Event)
    requires Inv(t) && Enabled(t, e) && !(e.ClientCloses? && !t.phase.Closed?)
    ensures Told(t, Next(t, e))
  {
    match e {
      case ClientRead(messages) => MessagesTold(t, messages);
      case DaemonRead(acts) => ActsTold(t, acts);
      case _ =>
    }
    hide OnMessages, DoActs;
  }

  lemma ClientClosesQuietly(t: Tunnel, e: Event)
    requires e.ClientCloses? && !t.phase.Closed?
    ensures Next(t, e).phase.Closed? && Next(t, e).out.closes == t.out.closes
  {
  }

  ghost predicate ClosesAt(tunnels: seq<Tunnel>, k: nat)
    requires k + 1 < |tunnels|
  {
    !tunnels[k].phase.Closed? && tunnels[k + 1].phase.Closed?
  }

  /** Over any run: until the tunnel closes, closeConnection has not been emitted; once it is closed, one event closed
      it, and the browser was told to close, once, and is read so that its answer gets through, unless that event was
      the browser's own close. */
  lemma {:induction false} BrowserIsTold(tunnels: seq<Tunnel>, events: seq<Event>, i: nat) returns (k: nat)
    requires Run(tunnels, events) && i <= |events|
    ensures !tunnels[i].phase.Closed? ==> tunnels[i].out.closes == 0
    ensures tunnels[i].phase.Closed? ==> k < i && ClosesAt(tunnels, k)
                                         && tunnels[i].out.closes == (if events[k].ClientCloses? then 0 else 1)
                                         && (tunnels[i].clientPaused ==> events[k].ClientCloses?)
    decreases i
  {
    k := 0;
    if i > 0 {
      hide Inv, Enabled, Next;
      k := BrowserIsTold(tunnels, events, i - 1);
      RunInv(tunnels, events, i - 1);
      assert StepAt(tunnels, events, i - 1);
      var t, e := tunnels[i - 1], events[i - 1];
      if !t.phase.Closed? {
        k := i - 1;
      }
      if e.ClientCloses? && !t.phase.Closed? {
        ClientClosesQuietly(t, e);
      } else {
        StepTold(t, e);
      }
    }
  }

  // ----- what one event adds to a queue -----

  /** The two queues, each with the side that its length pauses. */
  datatype Side = TowardsClient | TowardsDaemon

  function QueueOf(t: Tunnel, side: Side): Queue {
    if side.TowardsClient? then t.queues.toClient else t.queues.toDaemon
  }

  /** The opposite side is not read because of this queue. The daemon's pause means nothing once it is gone. */
  predicate Paused(t: Tunnel, side: Side) {
    if side.TowardsClient? then t.daemonPaused && !t.phase.Closed? else t.clientPaused
  }

  /** The bytes of the frames that n bytes of input make. */
  function Chunked(n: nat): nat {
    if n == 0 then 0
    else
      var c := if n < INPUT_CHUNK then n else INPUT_CHUNK;
      FrameSize(c) + Chunked(n - c)
  }

  function MessageBytes(m: Message): nat {
    if m.Input? && |m.bytes| <= MAX_CLIENT_MESSAGE then Chunked(|m.bytes|) else 0
  }

  function InputBytes(messages: seq<Message>): nat {
    if messages == [] then 0 else MessageBytes(messages[0]) + InputBytes(messages[1..])
  }

  function OutputBytes(acts: seq<Act>): nat {
    if acts == [] then 0 else (if acts[0].Deliver? then acts[0].size else 0) + OutputBytes(acts[1..])
  }

  /** A message of the browser is at most 64 KiB, and four frames. */
  lemma {:induction false} ChunkedBound(n: nat)
    ensures n <= Chunked(n) <= n + 8 * ((n + INPUT_CHUNK - 1) / INPUT_CHUNK)
  {
    if n > INPUT_CHUNK {
      ChunkedBound(n - INPUT_CHUNK);
    }
  }

  lemma MessageBytesBound(m: Message)
    ensures MessageBytes(m) <= MAX_CLIENT_MESSAGE + 32
  {
    if m.Input? {
      ChunkedBound(|m.bytes|);
    }
  }

  /** The payload that one read may add to a queue. */
  function Brings(e: Event, side: Side): nat {
    match e
    case ClientRead(messages) => if side.TowardsDaemon? then InputBytes(messages) else 0
    case DaemonRead(acts) => if side.TowardsClient? then OutputBytes(acts) else 0
    case _ => 0
  }

  function PayloadLeft(q: Queue): nat { Left(q.writes, q.gone, true) }

  /** Writes were only appended, with n bytes of payload among them at most. */
  ghost predicate Grew(q: Queue, q': Queue, n: nat) {
    && q.writes <= q'.writes && q.gone == q'.gone <= Owed(q') && q.Length() <= q'.Length()
    && PayloadLeft(q') <= PayloadLeft(q) + n
  }

  lemma PushGrew(q: Queue, w: Write)
    requires q.gone <= Owed(q)
    ensures Grew(q, q.Push(w), if w.Payload? then w.size else 0)
  {
    SumPush(q.writes, w);
    LeftPush(q.writes, q.gone, w, true);
  }

  lemma SendGrew(t: Tunnel, w: Write, fails: bool)
    requires t.queues.toDaemon.gone <= Owed(t.queues.toDaemon)
    ensures var u := SendDaemon(t, w, fails);
            && Grew(t.queues.toDaemon, u.queues.toDaemon, if w.Payload? then w.size else 0)
            && u.queues.toClient == t.queues.toClient && u.daemonPaused == t.daemonPaused
            && (u.phase.Closed? || (u.phase == t.phase && u.clientPaused == t.clientPaused))
            && (u.clientPaused ==> t.clientPaused)
  {
    PushGrew(t.queues.toDaemon, w);
    hide Left, Sum;
  }

  /** The way out adds a close frame at most. */
  lemma CloseGrew(t: Tunnel, withCode: bool, fails: bool)
    requires t.queues.toDaemon.gone <= Owed(t.queues.toDaemon) && t.phase.Closed?
    ensures var u := CloseDaemon(t, withCode, fails);
            && Grew(t.queues.toDaemon, u.queues.toDaemon, 0)
            && u.queues.toClient == t.queues.toClient && u.daemonPaused == t.daemonPaused && u.phase.Closed?
  {
    PushGrew(t.queues.toDaemon, Extra(FrameSize(2)));
    hide Left, Sum;
  }

  lemma {:induction false} SendInputGrew(t: Tunnel, bytes: seq<Byte>, good: nat)
    requires t.queues.toDaemon.gone <= Owed(t.queues.toDaemon)
    ensures var u := SendInput(t, bytes, good);
            && Grew(t.queues.toDaemon, u.queues.toDaemon, Chunked(|bytes|))
            && u.queues.toClient == t.queues.toClient && u.daemonPaused == t.daemonPaused
            && (u.phase.Closed? || (u.phase == t.phase && u.clientPaused == t.clientPaused))
            && (u.clientPaused ==> t.clientPaused)
    decreases |bytes|
  {
    if bytes != [] && t.phase.Open? {
      var n := if |bytes| < INPUT_CHUNK then |bytes| else INPUT_CHUNK;
      SendGrew(t, Payload(FrameSize(n)), good == 0);
      var t1 := SendDaemon(t, Payload(FrameSize(n)), good == 0);
      var t2 := if good == 0 then t1 else t1.(out := t1.out.(input := t1.out.input + [bytes[..n]]));
      hide SendDaemon, Left, Sum;
      SendInputGrew(t2, bytes[n..], if good == 0 then 0 else good - 1);
    } else {
      hide Left, Sum;
    }
  }

  /** After a message the browser is paused, or no more than HighWater waits for the daemon. */
  ghost predicate Kept(t: Tunnel, side: Side) {
    !t.phase.Closed? && !Paused(t, side) ==> PayloadLeft(QueueOf(t, side)) <= HIGH_WATER
  }

  lemma PauseKept(t: Tunnel)
    requires t.phase.Open? && t.queues.toDaemon.gone <= Owed(t.queues.toDaemon)
    ensures PauseClient(t).clientPaused || PayloadLeft(t.queues.toDaemon) <= HIGH_WATER
  {
    LeftTotal(t.queues.toDaemon.writes, t.queues.toDaemon.gone);
    hide Left, Sum;
  }

  lemma WriteInputGrew(t: Tunnel, bytes: seq<Byte>, good: nat)
    requires t.queues.toDaemon.gone <= Owed(t.queues.toDaemon) && t.phase.Open?
    ensures var u := WriteInput(t, bytes, good);
            && Grew(t.queues.toDaemon, u.queues.toDaemon, Chunked(|bytes|))
            && (Kept(t, TowardsDaemon) ==> Kept(u, TowardsDaemon))
            && (u.clientPaused ==> t.clientPaused || u.queues.toDaemon.Length() > HIGH_WATER)
            && u.queues.toClient == t.queues.toClient && u.daemonPaused == t.daemonPaused
            && (u.phase == t.phase || u.phase.Closed?)
  {
    hide Sum, Left, Chunked;
    SendInputGrew(t, bytes, good);
    var u := SendInput(t, bytes, good);
    hide SendInput;
    if u.phase.Open? { PauseKept(u); }
  }

  lemma MessageGrew(t: Tunnel, m: Message)
    requires t.queues.toDaemon.gone <= Owed(t.queues.toDaemon)
    ensures var u := OnMessage(t, m);
            && Grew(t.queues.toDaemon, u.queues.toDaemon, MessageBytes(m))
            && (Kept(t, TowardsDaemon) ==> Kept(u, TowardsDaemon))
            && (u.clientPaused ==> t.clientPaused || u.queues.toDaemon.Length() > HIGH_WATER)
            && u.queues.toClient == t.queues.toClient && u.daemonPaused == t.daemonPaused
            && (u.phase == t.phase || u.phase.Closed?)
  {
    hide Sum, Left, Chunked;
    match m {
      case Input(bytes, good) =>
        hide CloseDaemon, WriteInput;
        if t.phase.Open? && |bytes| <= MAX_CLIENT_MESSAGE {
          WriteInputGrew(t, bytes, good);
        } else if !t.phase.Closed? {
          var t1 := t.(phase := Closed, clientPaused := false, out := t.out.(closes := t.out.closes + 1));
          CloseGrew(t1, true, false);
          CloseGrew(t1, true, good == 0);
        }
      case Resize(n, fails) => SendGrew(t, Extra(FrameSize(n)), fails);
    }
  }

  lemma {:induction false} MessagesGrew(t: Tunnel, messages: seq<Message>)
    requires t.queues.toDaemon.gone <= Owed(t.queues.toDaemon)
    ensures var u := OnMessages(t, messages);
            && Grew(t.queues.toDaemon, u.queues.toDaemon, InputBytes(messages))
            && (Kept(t, TowardsDaemon) ==> Kept(u, TowardsDaemon))
            && (u.clientPaused ==> t.clientPaused || u.queues.toDaemon.Length() > HIGH_WATER)
            && u.queues.toClient == t.queues.toClient && u.daemonPaused == t.daemonPaused
            && (u.phase == t.phase || u.phase.Closed?)
    decreases |messages|
  {
    hide OnMessage, MessageBytes, Left, Sum, Kept;
    if messages != [] {
      MessageGrew(t, messages[0]);
      MessagesGrew(OnMessage(t, messages[0]), messages[1..]);
    }
  }

  lemma {:induction false} ActsGrew(t: Tunnel, acts: seq<Act>)
    requires t.queues.toDaemon.gone <= Owed(t.queues.toDaemon)
    requires t.queues.toClient.gone <= Owed(t.queues.toClient)
    ensures var u := DoActs(t, acts);
            && Grew(t.queues.toDaemon, u.queues.toDaemon, 0)
            && Grew(t.queues.toClient, u.queues.toClient, OutputBytes(acts))
            && (u.phase.Closed? || (u.phase == t.phase && u.clientPaused == t.clientPaused))
            && u.daemonPaused == t.daemonPaused && (u.clientPaused ==> t.clientPaused)
    decreases |acts|
  {
    hide Left, Sum;
    if acts != [] && t.phase.Open? {
      match acts[0] {
        case Pong(size, fails) => SendGrew(t, Extra(FrameSize(size)), fails);
        case Deliver(size) => PushGrew(t.queues.toClient, Payload(size));
        case Hold =>
        case GiveUp(fails) =>
          CloseGrew(t.(phase := Closed, clientPaused := false, out := t.out.(closes := t.out.closes + 1)), true, fails);
      }
      var u := DoAct(t, acts[0]);
      hide DoAct;
      ActsGrew(u, acts[1..]);
    }
  }

  predicate Moves(e: Event) { e.ClientProgress? || e.DaemonProgress? || e.ClientReport? || e.DaemonReport? }

  /** What the ways in and out append is no payload. */
  lemma PassingGrew(t: Tunnel, e: Event)
    requires Inv(t) && Enabled(t, e)
    requires !Moves(e) && !e.ClientRead? && !e.DaemonRead?
    ensures var u := Next(t, e);
            && Grew(t.queues.toClient, u.queues.toClient, 0) && Grew(t.queues.toDaemon, u.queues.toDaemon, 0)
            && u.daemonPaused == t.daemonPaused
            && (u.phase.Closed? || (!t.phase.Closed? && u.clientPaused == t.clientPaused))
            && (u.clientPaused ==> t.clientPaused)
  {
    hide Left, Sum;
    var t1 := t.(phase := Closed, clientPaused := false, out := t.out.(closes := t.out.closes + 1));
    match e {
      case UpgradeRequest(n, fails) => SendGrew(t, Extra(n), fails);
      case Handshake(n, ready, fails) =>
        SendGrew(t.(phase := Open, daemon := Upgraded), Extra(FrameSize(n)), fails);
        PushGrew(t.queues.toClient, Extra(ready));
        hide SendDaemon;
      case OtherClientWrite(n) => PushGrew(t.queues.toClient, Extra(n));
      case DaemonLeaves =>
        CloseGrew(t1, true, true);
        CloseGrew(t1, false, true);
        hide CloseDaemon;
      case Refused(fails) => CloseGrew(t1, true, fails); hide CloseDaemon;
      case CredentialsChanged(fails) => CloseGrew(t1, true, fails); hide CloseDaemon;
      case ClientCloses(fails) => CloseGrew(t.(phase := Closed), true, fails); hide CloseDaemon;
      case _ =>
    }
  }

  lemma DaemonPauseKept(t: Tunnel)
    requires t.phase.Open? && t.queues.toClient.gone <= Owed(t.queues.toClient)
    ensures PauseDaemon(t).daemonPaused || PayloadLeft(t.queues.toClient) <= HIGH_WATER
  {
    LeftTotal(t.queues.toClient.writes, t.queues.toClient.gone);
    hide Left, Sum;
  }

  /** All but progress and reports append, and payload only as far as a read brings it. */
  lemma StepGrew(t: Tunnel, e: Event, side: Side)
    requires Inv(t) && Enabled(t, e) && !Moves(e)
    ensures Grew(QueueOf(t, side), QueueOf(Next(t, e), side), Brings(e, side))
    ensures Kept(t, side) ==> Kept(Next(t, e), side)
  {
    match e {
      case ClientRead(messages) => MessagesGrew(t, messages); hide OnMessages, InputBytes;
      case DaemonRead(acts) =>
        ActsGrew(t, acts);
        var u := DoActs(t, acts);
        hide DoActs;
        if t.phase.Open? && u.phase.Open? { DaemonPauseKept(u); }
      case _ => PassingGrew(t, e);
    }
    hide Sum, Left;
  }

  lemma ProgressKeeps(t: Tunnel, e: Event, side: Side)
    requires Inv(t) && Enabled(t, e) && (e.ClientProgress? || e.DaemonProgress?)
    ensures PayloadLeft(QueueOf(Next(t, e), side)) <= PayloadLeft(QueueOf(t, side))
    ensures Kept(t, side) ==> Kept(Next(t, e), side)
  {
    var c, d := t.queues.toClient, t.queues.toDaemon;
    if e.ClientProgress? {
      LeftProgress(c.writes, c.gone, e.sent, true);
    } else {
      LeftProgress(d.writes, d.gone, e.sent, true);
    }
    hide Left;
  }

  lemma ReportKeeps(t: Tunnel, e: Event, side: Side)
    requires Inv(t) && Enabled(t, e) && (e.ClientReport? || e.DaemonReport?)
    ensures PayloadLeft(QueueOf(Next(t, e), side)) == PayloadLeft(QueueOf(t, side))
    ensures Kept(t, side) ==> Kept(Next(t, e), side)
  {
    var q := if e.ClientReport? then t.queues.toClient else t.queues.toDaemon;
    LeftPop(q, true);
    LeftTotal(q.Pop().writes, q.Pop().gone);
    hide Left;
  }

  /** Progress and reports never add to what waits, and a side is resumed below LowWater only. */
  lemma MovesKeep(t: Tunnel, e: Event, side: Side)
    requires Inv(t) && Enabled(t, e) && Moves(e)
    ensures PayloadLeft(QueueOf(Next(t, e), side)) <= PayloadLeft(QueueOf(t, side))
    ensures Kept(t, side) ==> Kept(Next(t, e), side)
  {
    if e.ClientProgress? || e.DaemonProgress? {
      ProgressKeeps(t, e, side);
    } else {
      ReportKeeps(t, e, side);
    }
    hide Next, Kept, PayloadLeft;
  }

  // ----- what ends a tunnel, and what goes out while it lasts -----

  /** The daemon's connection breaks on the way, or the message is too big. */
  predicate BadMessage(m: Message) {
    match m
    case Input(bytes, good) => |bytes| > MAX_CLIENT_MESSAGE || |bytes| > good * INPUT_CHUNK
    case Resize(_, fails) => fails
  }

  predicate BadAct(a: Act) { a.GiveUp? || (a.Pong? && a.fails) }

  predicate Fatal(t: Tunnel, e: Event) {
    match e
    case Refused(_) => true
    case ClientCloses(_) => true
    case UpgradeRequest(_, fails) => fails
    case Handshake(_, _, fails) => fails
    case DaemonLeaves => t.phase.Attaching? || t.phase.Open?
    case CredentialsChanged(_) => !t.phase.WaitOpen?
    case DaemonRead(acts) => t.phase.Open? && exists a <- acts :: BadAct(a)
    case ClientRead(messages) =>
      || (t.phase.WaitOpen? && exists m <- messages :: m.Input?)
      || (t.phase.Open? && exists m <- messages :: BadMessage(m))
    case _ => false
  }

  function Answers(acts: seq<Act>): seq<Write> {
    if acts == [] then []
    else (if acts[0].Pong? then [Extra(FrameSize(acts[0].size))] else []) + Answers(acts[1..])
  }

  function Output(acts: seq<Act>): seq<Write> {
    if acts == [] then [] else (if acts[0].Deliver? then [Payload(acts[0].size)] else []) + Output(acts[1..])
  }

  /** The frames of n bytes of input. */
  function Chunks(n: nat): seq<Write> {
    if n == 0 then []
    else if n <= INPUT_CHUNK then [Payload(FrameSize(n))]
    else [Payload(FrameSize(INPUT_CHUNK))] + Chunks(n - INPUT_CHUNK)
  }

  function Typing(messages: seq<Message>): seq<Write> {
    if messages == [] then []
    else
      (match messages[0]
       case Input(bytes, _) => Chunks(|bytes|)
       case Resize(n, _) => [Extra(FrameSize(n))])
      + Typing(messages[1..])
  }

  /** What an event writes to a queue of a tunnel that lasts. */
  function Sends(t: Tunnel, e: Event, side: Side): seq<Write> {
    match e
    case UpgradeRequest(n, _) => if side.TowardsDaemon? then [Extra(n)] else []
    case Handshake(n, ready, _) => if side.TowardsDaemon? then [Extra(FrameSize(n))] else [Extra(ready)]
    case OtherClientWrite(n) => if side.TowardsClient? then [Extra(n)] else []
    case DaemonRead(acts) =>
      if !t.phase.Open? then [] else if side.TowardsDaemon? then Answers(acts) else Output(acts)
    case ClientRead(messages) => if t.phase.Open? && side.TowardsDaemon? then Typing(messages) else []
    case _ => []
  }

  lemma {:induction false} InputSends(t: Tunnel, bytes: seq<Byte>, good: nat)
    requires t.phase.Open? && !t.daemon.Absent?
    ensures var u := SendInput(t, bytes, good);
            && u.queues.toClient == t.queues.toClient
            && if |bytes| > good * INPUT_CHUNK then u.phase.Closed?
               else u.phase.Open? && !u.daemon.Absent?
                    && u.queues.toDaemon.writes == t.queues.toDaemon.writes + Chunks(|bytes|)
    decreases |bytes|
  {
    if bytes == [] {
      assert t.queues.toDaemon.writes + [] == t.queues.toDaemon.writes;
    } else {
      var n := if |bytes| < INPUT_CHUNK then |bytes| else INPUT_CHUNK;
      var t1 := SendDaemon(t, Payload(FrameSize(n)), good == 0);
      if good == 0 {
        SendInputClosed(t1, bytes[n..], 0);
      } else {
        InputSends(t1.(out := t1.out.(input := t1.out.input + [bytes[..n]])), bytes[n..], good - 1);
        Assoc(t.queues.toDaemon.writes, [Payload(FrameSize(n))], Chunks(|bytes| - n));
        assert Chunks(|bytes|) == [Payload(FrameSize(n))] + Chunks(|bytes| - n);
      }
    }
  }

  lemma MessageSends(t: Tunnel, m: Message)
    requires t.phase.Open? && !t.daemon.Absent?
    ensures var u := OnMessage(t, m);
            && u.queues.toClient.writes == t.queues.toClient.writes
            && if BadMessage(m) then u.phase.Closed?
               else u.phase.Open? && !u.daemon.Absent?
                    && u.queues.toDaemon.writes
                    == t.queues.toDaemon.writes + (if m.Input? then Chunks(|m.bytes|) else [Extra(FrameSize(m.size))])
  {
    if m.Input? {
      InputSends(t, m.bytes, m.good);
      hide SendInput, Chunks, Sum;
    }
  }

  lemma {:induction false} MessagesSend(t: Tunnel, messages: seq<Message>)
    requires t.phase.Open? && !t.daemon.Absent?
    ensures var u := OnMessages(t, messages);
            && u.queues.toClient.writes == t.queues.toClient.writes
            && if exists m <- messages :: BadMessage(m) then u.phase.Closed?
               else u.phase.Open? && u.queues.toDaemon.writes == t.queues.toDaemon.writes + Typing(messages)
    decreases |messages|
  {
    if messages == [] {
      assert t.queues.toDaemon.writes + [] == t.queues.toDaemon.writes;
    } else {
      var m, rest := messages[0], messages[1..];
      assert messages == [m] + rest;
      MessageSends(t, m);
      var u := OnMessage(t, m);
      hide OnMessage, BadMessage, Chunks;
      if u.phase.Open? {
        MessagesSend(u, rest);
        var own := if m.Input? then Chunks(|m.bytes|) else [Extra(FrameSize(m.size))];
        Assoc(t.queues.toDaemon.writes, own, Typing(rest));
      } else {
        MessagesClosed(u, rest);
      }
    }
  }

  lemma {:induction false} UnopenedEnds(t: Tunnel, messages: seq<Message>)
    requires !t.phase.Open? && !t.phase.Closed?
    ensures var u := OnMessages(t, messages);
            if t.phase.WaitOpen? && exists m <- messages :: m.Input? then u.phase.Closed? else u == t
    decreases |messages|
  {
    if messages != [] {
      var m, rest := messages[0], messages[1..];
      assert messages == [m] + rest;
      if OnMessage(t, m).phase.Closed? {
        MessagesClosed(OnMessage(t, m), rest);
      } else {
        UnopenedEnds(t, rest);
      }
    }
  }

  lemma {:induction false} ActsSend(t: Tunnel, acts: seq<Act>)
    requires t.phase.Open? && !t.daemon.Absent?
    ensures var u := DoActs(t, acts);
            if exists a <- acts :: BadAct(a) then u.phase.Closed?
            else u.phase.Open? && u.queues.toDaemon.writes == t.queues.toDaemon.writes + Answers(acts)
                 && u.queues.toClient.writes == t.queues.toClient.writes + Output(acts)
    decreases |acts|
  {
    if acts == [] {
      assert t.queues.toDaemon.writes + [] == t.queues.toDaemon.writes;
      assert t.queues.toClient.writes + [] == t.queues.toClient.writes;
    } else {
      var a, rest := acts[0], acts[1..];
      assert acts == [a] + rest;
      var u := DoAct(t, a);
      if !BadAct(a) {
        ActsSend(u, rest);
        Assoc(t.queues.toDaemon.writes, if a.Pong? then [Extra(FrameSize(a.size))] else [], Answers(rest));
        Assoc(t.queues.toClient.writes, if a.Deliver? then [Payload(a.size)] else [], Output(rest));
      }
    }
  }

  /** A tunnel ends at exactly these events. */
  lemma EndsExactly(t: Tunnel, e: Event)
    requires Inv(t) && Enabled(t, e) && !t.phase.Closed?
    ensures Next(t, e).phase.Closed? <==> Fatal(t, e)
  {
    match e {
      case ClientRead(messages) =>
        if t.phase.Open? { MessagesSend(t, messages); } else { UnopenedEnds(t, messages); }
      case DaemonRead(acts) =>
        if t.phase.Open? { ActsSend(t, acts); }
      case _ =>
    }
    hide OnMessages, DoActs, BadMessage, BadAct, Typing, Answers, Output;
  }

  /** And while it lasts, what comes from one side goes to the other, whole and in order: the input in its frames, the
      resizes, an answer to every ping, and every message of the console. */
  lemma SendsExactly(t: Tunnel, e: Event, side: Side)
    requires Inv(t) && Enabled(t, e) && !Moves(e) && !Next(t, e).phase.Closed?
    ensures QueueOf(Next(t, e), side).writes == QueueOf(t, side).writes + Sends(t, e, side)
  {
    assert QueueOf(t, side).writes + [] == QueueOf(t, side).writes;
    if t.phase.Closed? {
      ClosedStep(t, e);
    }
    match e {
      case ClientRead(messages) =>
        if t.phase.Open? { MessagesSend(t, messages); } else { UnopenedEnds(t, messages); }
      case DaemonRead(acts) =>
        if t.phase.Open? { ActsSend(t, acts); }
      case _ =>
    }
    hide OnMessages, DoActs, BadMessage, BadAct, Typing, Answers, Output;
  }

  /** The daemon is told to close, in a frame of eight bytes, by whatever ends an open console but its own leaving. */
  lemma DaemonIsTold(t: Tunnel, e: Event)
    requires Inv(t) && Enabled(t, e) && t.phase.Open? && (e.Refused? || e.ClientCloses? || e.CredentialsChanged?)
    ensures Next(t, e).queues.toDaemon.writes == t.queues.toDaemon.writes + (if e.fails then [] else [Extra(8)])
    ensures Next(t, e).daemon.Absent?
  {
    assert t.queues.toDaemon.writes + [] == t.queues.toDaemon.writes;
  }

  lemma GiveUpNow(t: Tunnel, a: Act)
    requires Inv(t) && t.phase.Open? && a.GiveUp?
    ensures var u := DoAct(t, a);
            && u.queues.toDaemon.writes == t.queues.toDaemon.writes + (if a.fails then [] else [Extra(8)])
            && u.queues.toClient.writes == t.queues.toClient.writes && u.phase.Closed? && u.daemon.Absent?
  {
    assert t.queues.toDaemon.writes + [] == t.queues.toDaemon.writes;
  }

  lemma GoodAct(t: Tunnel, a: Act)
    requires Inv(t) && t.phase.Open? && !BadAct(a)
    ensures var u := DoAct(t, a);
            && u.phase.Open? && Inv(u)
            && u.queues.toDaemon.writes == t.queues.toDaemon.writes + Answers([a])
            && u.queues.toClient.writes == t.queues.toClient.writes + Output([a])
  {
    DoActsOk(t, [a]);
    assert [a][1..] == [] && DoActs(t, [a]) == DoAct(t, a);
    assert Answers([]) == [] && Output([]) == [];
    assert t.queues.toDaemon.writes + [] == t.queues.toDaemon.writes;
    assert t.queues.toClient.writes + [] == t.queues.toClient.writes;
  }

  lemma AnswersCons(acts: seq<Act>)
    requires acts != []
    ensures Answers(acts) == Answers([acts[0]]) + Answers(acts[1..])
    ensures Output(acts) == Output([acts[0]]) + Output(acts[1..])
  {
    assert [acts[0]][1..] == [];
  }

  /** So does a message of the browser that is too long, unless that very write fails. */
  lemma OversizeEnds(t: Tunnel, bytes: seq<Byte>, good: nat)
    requires Inv(t) && t.phase.Open? && |bytes| > MAX_CLIENT_MESSAGE
    ensures var u := OnMessage(t, Input(bytes, good));
            && u.phase.Closed? && u.daemon.Absent? && u.out.closes == t.out.closes + 1 && u.out.input == t.out.input
            && u.queues.toDaemon.writes == t.queues.toDaemon.writes + (if good == 0 then [] else [Extra(8)])
  {
  }

  /** So does the first frame of the daemon that the tunnel gives up on, after the answers to the pings before it. */
  lemma {:induction false} GiveUpSends(t: Tunnel, acts: seq<Act>, k: nat)
    requires Inv(t) && t.phase.Open? && k < |acts| && acts[k].GiveUp? && forall i | 0 <= i < k :: !BadAct(acts[i])
    ensures DoActs(t, acts).queues.toDaemon.writes
         == t.queues.toDaemon.writes + Answers(acts[..k]) + (if acts[k].fails then [] else [Extra(8)])
    ensures DoActs(t, acts).queues.toClient.writes == t.queues.toClient.writes + Output(acts[..k])
    ensures DoActs(t, acts).phase.Closed? && DoActs(t, acts).daemon.Absent?
    decreases k
  {
    var a, rest := acts[0], acts[1..];
    var u := DoAct(t, a);
    var q, r := t.queues.toDaemon.writes, t.queues.toClient.writes;
    assert DoActs(t, acts) == DoActs(u, rest);
    hide DoAct, Inv;
    if k == 0 {
      GiveUpNow(t, a);
      assert q + [] == q && r + [] == r && acts[..0] == [];
    } else {
      assert !BadAct(a);
      GoodAct(t, a);
      GiveUpSends(u, rest, k - 1);
      hide DoActs;
      AnswersCons(acts[..k]);
      assert acts[..k][0] == a && acts[..k][1..] == rest[..k - 1];
      Assoc(q, Answers([a]), Answers(rest[..k - 1]));
      Assoc(r, Output([a]), Output(rest[..k - 1]));
      hide Answers, Output, BadAct;
    }
  }

  // ----- nobody stalls -----

  /** Neither side ever stalls: while a side is paused, writes of more than LowWater bytes are still to be reported;
      with nothing to report nobody is paused. */
  lemma NeverStalls(tunnels: seq<Tunnel>, events: seq<Event>, i: nat, side: Side)
    requires Run(tunnels, events) && i <= |events|
    ensures var q := QueueOf(tunnels[i], side);
            && (q.writes == [] ==> !Paused(tunnels[i], side))
            && (Paused(tunnels[i], side) ==> Owed(q) > LOW_WATER)
  {
    RunInv(tunnels, events, i);
  }

  predicate PausedAbove(t: Tunnel, side: Side) {
    Paused(t, side) ==> QueueOf(t, side).Length() > LOW_WATER
  }

  /** So many bytes leave the queue of a paused side that no more than LowWater are left, before any is reported. */
  predicate Drains(t: Tunnel, e: Event, side: Side) {
    && Paused(t, side)
    && match e
       case ClientProgress(sent) => side.TowardsClient? && sent >= QueueOf(t, side).Length() - LOW_WATER
       case DaemonProgress(sent) => side.TowardsDaemon? && sent >= QueueOf(t, side).Length() - LOW_WATER
       case _ => false
  }

  /** Whenever the tunnel has just looked at a queue, after a read or after a report, a side that it keeps paused
      is paused above LowWater. */
  lemma PausedAboveLowWater(t: Tunnel, e: Event)
    requires Inv(t) && Enabled(t, e)
    ensures e.ClientRead? || e.DaemonReport? ==> PausedAbove(Next(t, e), TowardsDaemon)
    ensures e.DaemonRead? || e.ClientReport? ==> PausedAbove(Next(t, e), TowardsClient)
  {
    if e.ClientRead? {
      MessagesGrew(t, e.messages);
    } else if e.DaemonRead? {
      ActsGrew(t, e.acts);
    }
    hide OnMessages, DoActs, Sum;
  }

  /** A side is paused by a read alone. */
  lemma PausedByReads(t: Tunnel, e: Event, side: Side)
    requires Inv(t) && Enabled(t, e) && !Moves(e)
    requires if side.TowardsClient? then !e.DaemonRead? else !e.ClientRead?
    ensures Paused(Next(t, e), side) ==> Paused(t, side)
  {
    match e {
      case ClientRead(messages) => MessagesGrew(t, messages);
      case DaemonRead(acts) => ActsGrew(t, acts);
      case _ => PassingGrew(t, e);
    }
    hide OnMessages, DoActs, Sum;
  }

  /** And only over a queue above HighWater. */
  lemma PausedAboveHigh(t: Tunnel, e: Event, side: Side)
    requires Inv(t) && Enabled(t, e) && !Paused(t, side) && Paused(Next(t, e), side)
    ensures QueueOf(Next(t, e), side).Length() > HIGH_WATER
  {
    if Moves(e) {
      MovesPauseNobody(t, e, side);
    } else {
      match e {
        case ClientRead(messages) => MessagesGrew(t, messages);
        case DaemonRead(acts) => ActsGrew(t, acts);
        case _ => PassingGrew(t, e);
      }
    }
    hide OnMessages, DoActs, Sum, Moves;
  }

  lemma MovesPauseNobody(t: Tunnel, e: Event, side: Side)
    requires Enabled(t, e) && Moves(e)
    ensures Paused(Next(t, e), side) ==> Paused(t, side)
  {
    hide Sum;
  }

  /** A side paused above LowWater stays so, or is resumed, unless the bytes drain from its queue. */
  lemma PausedAboveNext(t: Tunnel, e: Event, side: Side)
    requires Inv(t) && Enabled(t, e) && PausedAbove(t, side)
    ensures PausedAbove(Next(t, e), side) <==> !Drains(t, e, side)
  {
    var pausing := if side.TowardsClient? then e.DaemonRead? else e.ClientRead?;
    if Moves(e) {
      PausedAboveLowWater(t, e);
      hide Sum;
    } else if pausing {
      PausedAboveLowWater(t, e);
    } else {
      PausedByReads(t, e, side);
      StepGrew(t, e, side);
      hide Inv, Enabled, Next, Sum, Left;
    }
  }

  lemma FirstPaused(side: Side)
    ensures PausedAbove(INIT, side)
  {
  }

  /** All along a run whoever is paused is paused above LowWater, if and only if the queue of a paused side never
      drained to LowWater before a report. */
  lemma {:induction false} PausedAboveUnlessDrained(tunnels: seq<Tunnel>, events: seq<Event>, i: nat, side: Side)
    requires Run(tunnels, events) && i <= |events|
    ensures (forall k: nat | k <= i :: PausedAbove(tunnels[k], side))
       <==> (forall k: nat | k < i :: !Drains(tunnels[k], events[k], side))
    decreases i
  {
    hide Inv, Enabled, Next, PausedAbove, Drains;
    if i == 0 {
      assert PausedAbove(INIT, side) by {
        FirstPaused(side);
      }
    } else {
      PausedAboveUnlessDrained(tunnels, events, i - 1, side);
      RunInv(tunnels, events, i - 1);
      assert StepAt(tunnels, events, i - 1);
      if PausedAbove(tunnels[i - 1], side) {
        PausedAboveNext(tunnels[i - 1], events[i - 1], side);
      }
    }
  }

  /** Every pause ends: with the bytes of the queue gone and nothing new written, the reports resume the side. */
  function Reported(t: Tunnel, side: Side): Tunnel
    requires QueueOf(t, side).gone == Owed(QueueOf(t, side))
    decreases |QueueOf(t, side).writes|
  {
    if QueueOf(t, side).writes == [] then t
    else Reported(if side.TowardsClient? then ClientWritten(t) else DaemonWritten(t), side)
  }

  lemma {:induction false} ReportsResume(t: Tunnel, side: Side)
    requires Inv(t) && QueueOf(t, side).gone == Owed(QueueOf(t, side))
    ensures !Paused(Reported(t, side), side) && QueueOf(Reported(t, side), side) == Queue([], 0)
    decreases |QueueOf(t, side).writes|
  {
    if QueueOf(t, side).writes != [] {
      QueueOk(t, if side.TowardsClient? then ClientReport else DaemonReport);
      ReportsResume(if side.TowardsClient? then ClientWritten(t) else DaemonWritten(t), side);
    }
  }

  // ----- resuming while everything else goes on -----

  predicate IsReport(e: Event, side: Side) { if side.TowardsClient? then e.ClientReport? else e.DaemonReport? }

  function Reports(events: seq<Event>, i: nat, j: nat, side: Side): nat
    requires i <= j <= |events|
    decreases j
  {
    if i == j then 0 else Reports(events, i, j - 1, side) + (if IsReport(events[j - 1], side) then 1 else 0)
  }

  /** The writes that one event appends to a queue: what follows the writes that were there. */
  function Added(t: Tunnel, e: Event, side: Side): seq<Write>
    requires Enabled(t, e)
  {
    var kept := |QueueOf(t, side).writes| - (if IsReport(e, side) then 1 else 0);
    var now := QueueOf(Next(t, e), side).writes;
    if 0 <= kept <= |now| then now[kept..] else []
  }

  function Written(tunnels: seq<Tunnel>, events: seq<Event>, i: nat, j: nat, side: Side): seq<Write>
    requires |tunnels| == |events| + 1 && i <= j <= |events|
    requires forall k: nat | k < |events| :: StepAt(tunnels, events, k)
    decreases j
  {
    if i == j then []
    else
      assert StepAt(tunnels, events, j - 1);
      Written(tunnels, events, i, j - 1, side) + Added(tunnels[j - 1], events[j - 1], side)
  }

  /** What is left of the writes there were and of those since, when n were reported. */
  ghost predicate Follows(held: seq<Write>, written: seq<Write>, n: nat, now: seq<Write>) {
    n <= |held + written| && now == (held + written)[n..]
  }

  lemma FollowsNext(held: seq<Write>, written: seq<Write>, n: nat, now: seq<Write>, added: seq<Write>, r: nat)
    requires Follows(held, written, n, now) && r <= |now|
    ensures Follows(held, written + added, n + r, now[r..] + added)
  {
  }

  lemma Prefixed(q: seq<Write>, now: seq<Write>)
    requires q <= now
    ensures now == q + now[|q|..]
  {
  }

  lemma AddedFollows(t: Tunnel, e: Event, side: Side)
    requires Inv(t) && Enabled(t, e)
    ensures var q := QueueOf(t, side).writes;
            && (IsReport(e, side) ==> q != [])
            && QueueOf(Next(t, e), side).writes == q[if IsReport(e, side) then 1 else 0..] + Added(t, e, side)
  {
    if Moves(e) {
      MovesAdd(t, e, side);
    } else {
      StepGrew(t, e, side);
    }
    hide Inv, Enabled, Next;
    var q, now := QueueOf(t, side).writes, QueueOf(Next(t, e), side).writes;
    if IsReport(e, side) {
      Prefixed(q[1..], now);
    } else {
      Prefixed(q, now);
    }
  }

  lemma MovesAdd(t: Tunnel, e: Event, side: Side)
    requires Enabled(t, e) && Moves(e)
    ensures var q := QueueOf(t, side).writes;
            && (IsReport(e, side) ==> q != [])
            && QueueOf(Next(t, e), side).writes == q[if IsReport(e, side) then 1 else 0..]
  {
    hide Sum, Left;
  }

  /** A queue is first in, first out: whatever goes on, it holds the writes it held and the writes since, less one
      from the front for each report. */
  lemma {:induction false} QueueHistory(tunnels: seq<Tunnel>, events: seq<Event>, i: nat, j: nat, side: Side)
    requires Run(tunnels, events) && i <= j <= |events|
    ensures Follows(QueueOf(tunnels[i], side).writes, Written(tunnels, events, i, j, side),
                    Reports(events, i, j, side), QueueOf(tunnels[j], side).writes)
    decreases j
  {
    hide Inv, Enabled, Next, Added, IsReport, QueueOf;
    var held := QueueOf(tunnels[i], side).writes;
    if i < j {
      hide Follows;
      QueueHistory(tunnels, events, i, j - 1, side);
      RunInv(tunnels, events, j - 1);
      assert StepAt(tunnels, events, j - 1);
      var t, e := tunnels[j - 1], events[j - 1];
      AddedFollows(t, e, side);
      FollowsNext(held, Written(tunnels, events, i, j - 1, side), Reports(events, i, j - 1, side),
                  QueueOf(t, side).writes, Added(t, e, side), if IsReport(e, side) then 1 else 0);
    } else {
      assert held + [] == held;
    }
  }

  /** What all the events of a stretch send. */
  function Sent(tunnels: seq<Tunnel>, events: seq<Event>, i: nat, j: nat, side: Side): seq<Write>
    requires i <= j <= |events| < |tunnels|
    decreases j
  {
    if i == j then []
    else Sent(tunnels, events, i, j - 1, side) + Sends(tunnels[j - 1], events[j - 1], side)
  }

  lemma AddedIsSent(t: Tunnel, e: Event, side: Side)
    requires Inv(t) && Enabled(t, e) && !Next(t, e).phase.Closed?
    ensures Added(t, e, side) == Sends(t, e, side)
  {
    AddedFollows(t, e, side);
    if !Moves(e) {
      SendsExactly(t, e, side);
      hide Inv, Enabled, Next, Added;
      var q := QueueOf(t, side).writes;
      assert q[0..] == q;
      assert (q + Sends(t, e, side))[|q|..] == (q + Added(t, e, side))[|q|..];
    }
  }

  /** As long as the tunnel lasts, all that is written to either queue over any stretch of a run is what those events
      send. */
  lemma {:induction false} WrittenIsSent(tunnels: seq<Tunnel>, events: seq<Event>, i: nat, j: nat, side: Side)
    requires Run(tunnels, events) && i <= j <= |events| && !tunnels[j].phase.Closed?
    ensures Written(tunnels, events, i, j, side) == Sent(tunnels, events, i, j, side)
    decreases j
  {
    if i < j {
      hide Inv, Enabled, Next, Added, Sends;
      assert StepAt(tunnels, events, j - 1);
      RunInv(tunnels, events, j - 1);
      if tunnels[j - 1].phase.Closed? {
        ClosedStep(tunnels[j - 1], events[j - 1]);
      }
      WrittenIsSent(tunnels, events, i, j - 1, side);
      AddedIsSent(tunnels[j - 1], events[j - 1], side);
    }
  }

  lemma ReportResumes(t: Tunnel, e: Event, side: Side)
    requires Inv(t) && Enabled(t, e) && IsReport(e, side)
    requires Owed(QueueOf(Next(t, e), side)) <= LOW_WATER
    ensures !Paused(Next(t, e), side)
  {
  }

  lemma LastReportResumes(tunnels: seq<Tunnel>, events: seq<Event>, i: nat, j: nat, side: Side)
    requires Run(tunnels, events) && i < j <= |events| && IsReport(events[j - 1], side)
    requires Reports(events, i, j, side) == |QueueOf(tunnels[i], side).writes|
    requires Sum(Written(tunnels, events, i, j, side)) <= LOW_WATER
    ensures !Paused(tunnels[j], side)
  {
    hide Inv, Enabled, Next, Sum, Written, Reports, Paused, QueueOf, IsReport;
    assert StepAt(tunnels, events, j - 1);
    QueueHistory(tunnels, events, i, j, side);
    var q, written := QueueOf(tunnels[i], side).writes, Written(tunnels, events, i, j, side);
    assert (q + written)[|q|..] == written;
    RunInv(tunnels, events, j - 1);
    ReportResumes(tunnels[j - 1], events[j - 1], side);
  }

  lemma WrittenGrows(tunnels: seq<Tunnel>, events: seq<Event>, i: nat, j: nat, side: Side)
    requires Run(tunnels, events) && i < j <= |events|
    ensures Sum(Written(tunnels, events, i, j - 1, side)) <= Sum(Written(tunnels, events, i, j, side))
  {
    hide Enabled, Next, Added;
    assert StepAt(tunnels, events, j - 1);
    SumConcat(Written(tunnels, events, i, j - 1, side), Added(tunnels[j - 1], events[j - 1], side));
  }

  /** A side that is paused is resumed while everything else goes on: by the time all that waited in its queue has
      been reported, if no more than LowWater bytes were written in the meantime. */
  lemma {:induction false} ResumesInTime(tunnels: seq<Tunnel>, events: seq<Event>, i: nat, j: nat, side: Side)
    requires Run(tunnels, events) && i <= j <= |events|
    requires Reports(events, i, j, side) >= |QueueOf(tunnels[i], side).writes|
    requires Sum(Written(tunnels, events, i, j, side)) <= LOW_WATER
    ensures exists k :: i <= k <= j && !Paused(tunnels[k], side)
    decreases j
  {
    hide Enabled, Next, Added, Sum, Written, Paused, IsReport, QueueOf;
    if i == j {
      NeverStalls(tunnels, events, i, side);
      assert !Paused(tunnels[i], side);
    } else if Reports(events, i, j - 1, side) >= |QueueOf(tunnels[i], side).writes| {
      WrittenGrows(tunnels, events, i, j, side);
      ResumesInTime(tunnels, events, i, j - 1, side);
    } else {
      LastReportResumes(tunnels, events, i, j, side);
      assert !Paused(tunnels[j], side);
    }
  }

  // ----- neither side is buffered without bound -----

  ghost predicate Buffered(t: Tunnel, side: Side, most: nat) {
    PayloadLeft(QueueOf(t, side)) <= HIGH_WATER + most && Kept(t, side)
  }

  lemma BufferedNext(t: Tunnel, e: Event, side: Side, most: nat)
    requires Inv(t) && Enabled(t, e) && Buffered(t, side, most)
    requires Brings(e, side) <= most
    ensures Buffered(Next(t, e), side, most)
  {
    if Moves(e) {
      MovesKeep(t, e, side);
    } else {
      StepGrew(t, e, side);
      if Brings(e, side) > 0 && t.phase.Closed? {
        ClosedStays(t, e);
      }
    }
    hide Left, Sum, Next;
  }

  lemma {:induction false} BufferedRun(tunnels: seq<Tunnel>, events: seq<Event>, i: nat, side: Side, most: nat)
    requires Run(tunnels, events) && i <= |events|
    requires forall k | 0 <= k < i :: Brings(events[k], side) <= most
    ensures Buffered(tunnels[i], side, most)
    decreases i
  {
    if i > 0 {
      hide Inv, Enabled, Next, Buffered, Brings;
      BufferedRun(tunnels, events, i - 1, side, most);
      RunInv(tunnels, events, i - 1);
      assert StepAt(tunnels, events, i - 1);
      BufferedNext(tunnels[i - 1], events[i - 1], side, most);
    }
  }

  /** Neither side is buffered without bound: in every run whose reads bring `most` bytes of payload at most, no
      more than HighWater and one read of them wait in a queue; what no pause holds back comes on top. */
  lemma {:induction false} BufferIsBounded(tunnels: seq<Tunnel>, events: seq<Event>, i: nat, side: Side, most: nat)
    requires Run(tunnels, events) && i <= |events|
    requires forall k | 0 <= k < i :: Brings(events[k], side) <= most
    ensures var q := QueueOf(tunnels[i], side);
            && PayloadLeft(q) <= HIGH_WATER + most
            && q.Length() == PayloadLeft(q) + Left(q.writes, q.gone, false)
            && (tunnels[i].phase.Open? && !Paused(tunnels[i], side) ==> PayloadLeft(q) <= HIGH_WATER)
  {
    BufferedRun(tunnels, events, i, side, most);
    RunInv(tunnels, events, i);
    var q := QueueOf(tunnels[i], side);
    LeftTotal(q.writes, q.gone);
  }

  lemma RunPush(tunnels: seq<Tunnel>, events: seq<Event>, e: Event)
    requires Run(tunnels, events) && Enabled(tunnels[|events|], e)
    ensures Run(tunnels + [Next(tunnels[|events|], e)], events + [e])
  {
    hide Enabled, Next;
    var ts, es := tunnels + [Next(tunnels[|events|], e)], events + [e];
    forall i: nat | i < |es| ensures StepAt(ts, es, i) {
      assert i < |events| ==> StepAt(tunnels, events, i);
    }
  }

  /** A console that has just been opened. */
  lemma Opened() returns (tunnels: seq<Tunnel>, events: seq<Event>)
    ensures Run(tunnels, events) && |events| == 3
    ensures var t := tunnels[3];
            && t.phase.Open? && t.daemon.Upgraded? && !t.clientPaused && !t.daemonPaused
            && t.queues == Queues(Queue([Extra(0)], 0), Queue([Extra(6)], 0)) && t.queues.toClient.Length() == 0
  {
    var t1 := Next(INIT, OpenMessage);
    var t2 := Next(t1, Attach);
    var t3 := Next(t2, Handshake(0, 0, false));
    tunnels, events := [INIT, t1, t2, t3], [OpenMessage, Attach, Handshake(0, 0, false)];
    forall i: nat | i < 3 ensures StepAt(tunnels, events, i) {
    }
  }

  /** What no pause holds back: the answers to pings, the resizes and what the WebSocket writes on its own account. */
  predicate Unwatched(e: Event, size: nat, side: Side) {
    if side.TowardsClient? then e == OtherClientWrite(FrameSize(size))
    else e == DaemonRead([Pong(size, false)]) || e == ClientRead([Resize(size, false)])
  }

  lemma UnwatchedStep(t: Tunnel, e: Event, size: nat, side: Side)
    requires Unwatched(e, size, side)
    requires t.phase.Open? && !t.clientPaused && !t.daemonPaused && t.daemon.Upgraded?
    requires side.TowardsDaemon? ==> t.queues.toClient.Length() == 0
    ensures Enabled(t, e)
    ensures var w := Extra(FrameSize(size));
            Next(t, e) == if side.TowardsClient? then ToClient(t, w) else ToDaemon(t, w)
  {
    hide Sum;
    if side.TowardsDaemon? {
      var u := ToDaemon(t, Extra(FrameSize(size)));
      assert DoActs(u, []) == u && OnMessages(u, []) == u;
      if e.DaemonRead? {
        assert DoAct(t, e.acts[0]) == u && e.acts[1..] == [];
      } else {
        assert OnMessage(t, e.messages[0]) == u && e.messages[1..] == [];
      }
    }
  }

  /** However many of them come, nobody is paused, and the queue is as long as they make it. */
  lemma {:induction false} UnwatchedIsUnbounded(n: nat, e: Event, size: nat, side: Side)
      returns (tunnels: seq<Tunnel>, events: seq<Event>)
    requires Unwatched(e, size, side)
    ensures Run(tunnels, events) && |events| == 3 + n && forall k | 3 <= k < 3 + n :: events[k] == e
    ensures var t := tunnels[3 + n];
            && t.phase.Open? && !t.clientPaused && !t.daemonPaused && t.daemon.Upgraded?
            && QueueOf(t, side).Length() >= 6 * n
            && (side.TowardsDaemon? ==> t.queues.toClient.Length() == 0)
  {
    if n == 0 {
      tunnels, events := Opened();
    } else {
      var ts, es := UnwatchedIsUnbounded(n - 1, e, size, side);
      var t := ts[n + 2];
      SumPush(QueueOf(t, side).writes, Extra(FrameSize(size)));
      UnwatchedStep(t, e, size, side);
      tunnels, events := ts + [Next(t, e)], es + [e];
      hide Next, Enabled;
      RunPush(ts, es, e);
    }
  }

  function Flood(bytes: seq<Byte>, n: nat): seq<Message> {
    if n == 0 then [] else [Input(bytes, |bytes|)] + Flood(bytes, n - 1)
  }

  lemma {:induction false} SendInputAll(t: Tunnel, bytes: seq<Byte>, good: nat)
    requires t.phase.Open? && t.daemon.Upgraded? && good >= |bytes|
    ensures var u := SendInput(t, bytes, good);
            && u.phase.Open? && u.daemon.Upgraded? && u.clientPaused == t.clientPaused
            && u.queues.toDaemon.gone == t.queues.toDaemon.gone
            && u.queues.toDaemon.Length() >= t.queues.toDaemon.Length() + |bytes|
    decreases |bytes|
  {
    if bytes != [] {
      var n := if |bytes| < INPUT_CHUNK then |bytes| else INPUT_CHUNK;
      SumPush(t.queues.toDaemon.writes, Payload(FrameSize(n)));
      var t1 := ToDaemon(t, Payload(FrameSize(n)));
      hide Sum;
      SendInputAll(t1.(out := t1.out.(input := t1.out.input + [bytes[..n]])), bytes[n..], good - 1);
    }
  }

  lemma {:induction false} FloodPauses(t: Tunnel, bytes: seq<Byte>, n: nat)
    requires t.phase.Open? && t.daemon.Upgraded? && |bytes| == MAX_CLIENT_MESSAGE
    ensures var u := OnMessages(t, Flood(bytes, n));
            && u.phase.Open? && u.queues.toDaemon.Length() >= t.queues.toDaemon.Length() + n * MAX_CLIENT_MESSAGE
            && u.daemon.Upgraded? && (t.clientPaused ==> u.clientPaused)
            && (n > 0 && t.queues.toDaemon.Length() + n * MAX_CLIENT_MESSAGE > HIGH_WATER ==> u.clientPaused)
    decreases n
  {
    if n > 0 {
      SendInputAll(t, bytes, |bytes|);
      var u := OnMessage(t, Input(bytes, |bytes|));
      assert Flood(bytes, n)[1..] == Flood(bytes, n - 1);
      hide SendInput, Sum;
      FloodPauses(u, bytes, n - 1);
    }
  }

  /** A side can be paused while its queue is empty: what the daemon took has still to be reported. */
  lemma PauseOutlastsTheQueue() returns (tunnels: seq<Tunnel>, events: seq<Event>)
    ensures Run(tunnels, events) && |events| == 5
    ensures var t := tunnels[5];
            t.phase.Open? && Paused(t, TowardsDaemon) && QueueOf(t, TowardsDaemon).Length() == 0
  {
    tunnels, events := Opened();
    var bytes: seq<Byte> := seq(MAX_CLIENT_MESSAGE, _ => 0);
    var e := ClientRead(Flood(bytes, 4));
    var t := tunnels[3];
    FloodPauses(t, bytes, 4);
    RunPush(tunnels, events, e);
    tunnels, events := tunnels + [Next(t, e)], events + [e];
    var u := tunnels[4];
    RunInv(tunnels, events, 4);
    hide Flood, OnMessages, Sum;
    RunPush(tunnels, events, DaemonProgress(u.queues.toDaemon.Length()));
    tunnels, events := tunnels + [Next(u, DaemonProgress(u.queues.toDaemon.Length()))],
      events + [DaemonProgress(u.queues.toDaemon.Length())];
  }

  // ----- the input -----

  function Flat(chunks: seq<seq<Byte>>): seq<Byte> { if chunks == [] then [] else chunks[0] + Flat(chunks[1..]) }

  lemma {:induction false} FlatPush(chunks: seq<seq<Byte>>, c: seq<Byte>)
    ensures Flat(chunks + [c]) == Flat(chunks) + c
  {
    if chunks == [] {
      assert chunks + [c] == [c];
    } else {
      FlatPush(chunks[1..], c);
      assert (chunks + [c])[1..] == chunks[1..] + [c];
      Assoc(chunks[0], Flat(chunks[1..]), c);
    }
  }

  /** The chunks sent to the daemon put together are the browser's message while the tunnel stays open, and
      the beginning of it otherwise; none is larger than InputChunk. */
  lemma {:induction false} InputArrives(t: Tunnel, bytes: seq<Byte>, good: nat)
    requires Inv(t) && t.phase.Open?
    ensures var u := SendInput(t, bytes, good);
            && t.out.input <= u.out.input
            && Flat(t.out.input) <= Flat(u.out.input) <= Flat(t.out.input) + bytes
            && (u.phase.Open? ==> Flat(u.out.input) == Flat(t.out.input) + bytes)
            && (forall k | |t.out.input| <= k < |u.out.input| :: 0 < |u.out.input[k]| <= INPUT_CHUNK)
    decreases |bytes|
  {
    if bytes == [] {
      assert Flat(t.out.input) + bytes == Flat(t.out.input);
    } else {
      var n := if |bytes| < INPUT_CHUNK then |bytes| else INPUT_CHUNK;
      var t1 := SendDaemon(t, Payload(FrameSize(n)), good == 0);
      if good == 0 {
        SendInputClosed(t1, bytes[n..], 0);
      } else {
        var t2 := t1.(out := t1.out.(input := t1.out.input + [bytes[..n]]));
        SendOk(t, Payload(FrameSize(n)), false);
        FlatPush(t.out.input, bytes[..n]);
        InputArrives(t2, bytes[n..], good - 1);
        assert bytes[..n] + bytes[n..] == bytes;
        Assoc(Flat(t.out.input), bytes[..n], bytes[n..]);
      }
    }
  }

  /** What the browser typed into one read. */
  function Typed(messages: seq<Message>): seq<Byte> {
    if messages == [] then [] else (if messages[0].Input? then messages[0].bytes else []) + Typed(messages[1..])
  }

  ghost predicate Arrives(t: Tunnel, u: Tunnel, bytes: seq<Byte>) {
    && Flat(u.out.input) <= Flat(t.out.input) + bytes
    && (u.phase.Open? ==> Flat(u.out.input) == Flat(t.out.input) + bytes)
    && (u.phase.Open? || u.phase.Closed?)
  }

  lemma MessageArrives(t: Tunnel, m: Message)
    requires Inv(t) && t.phase.Open?
    ensures Arrives(t, OnMessage(t, m), if m.Input? then m.bytes else [])
  {
    hide Flat;
    match m {
      case Input(bytes, good) =>
        InputArrives(t, bytes, good);
        SendInputGrew(t, bytes, good);
        hide SendInput, Inv;
      case Resize(n, fails) =>
        SendGrew(t, Extra(FrameSize(n)), fails);
        assert Flat(t.out.input) + [] == Flat(t.out.input);
    }
  }

  lemma {:induction false} MessagesArrive(t: Tunnel, messages: seq<Message>)
    requires Inv(t) && t.phase.Open?
    ensures Arrives(t, OnMessages(t, messages), Typed(messages))
    decreases |messages|
  {
    hide Inv, OnMessage, Flat;
    if messages == [] {
      assert Flat(t.out.input) + [] == Flat(t.out.input);
    } else {
      var m, u := messages[0], OnMessage(t, messages[0]);
      var bytes := if m.Input? then m.bytes else [];
      MessageArrives(t, m);
      MessagesOk(t, [m]);
      assert OnMessages(t, [m]) == u by {
        assert [m][1..] == [];
      }
      Assoc(Flat(t.out.input), bytes, Typed(messages[1..]));
      if u.phase.Open? {
        MessagesArrive(u, messages[1..]);
      } else {
        MessagesClosed(u, messages[1..]);
      }
    }
  }

  lemma {:induction false} ActsKeepInput(t: Tunnel, acts: seq<Act>)
    ensures DoActs(t, acts).out.input == t.out.input
    decreases |acts|
  {
    if acts != [] && t.phase.Open? {
      ActsKeepInput(DoAct(t, acts[0]), acts[1..]);
    }
  }

  lemma {:induction false} UnopenedTakesNothing(t: Tunnel, messages: seq<Message>)
    requires !t.phase.Open?
    ensures OnMessages(t, messages).out.input == t.out.input
    decreases |messages|
  {
    if messages != [] {
      UnopenedTakesNothing(OnMessage(t, messages[0]), messages[1..]);
    }
  }

  lemma ReadArrives(t: Tunnel, e: Event)
    requires Inv(t) && Enabled(t, e) && e.ClientRead? && t.phase.Open?
    ensures Arrives(t, Next(t, e), Typed(e.messages))
  {
    MessagesArrive(t, e.messages);
    hide OnMessages, Typed, Flat;
  }

  /** Nothing but a read of the browser while the tunnel is open sends input. */
  lemma OthersSendNoInput(t: Tunnel, e: Event)
    requires Enabled(t, e) && !(e.ClientRead? && t.phase.Open?)
    ensures Next(t, e).out.input == t.out.input
  {
    match e {
      case ClientRead(messages) => UnopenedTakesNothing(t, messages);
      case DaemonRead(acts) => ActsKeepInput(t, acts);
      case _ =>
    }
    hide OnMessages, DoActs;
  }

  /** All that the browser typed up to a point of a run while the tunnel was open. */
  function TypedUntil(tunnels: seq<Tunnel>, events: seq<Event>, i: nat): seq<Byte>
    requires i <= |events| < |tunnels|
  {
    if i == 0 then []
    else
      TypedUntil(tunnels, events, i - 1)
      + (if tunnels[i - 1].phase.Open? && events[i - 1].ClientRead? then Typed(events[i - 1].messages) else [])
  }

  lemma TypedNext(t: Tunnel, e: Event, typed: seq<Byte>)
    requires Inv(t) && Enabled(t, e) && Flat(t.out.input) <= typed
    requires !t.phase.Closed? ==> Flat(t.out.input) == typed
    ensures var u := Next(t, e);
            var after := typed + (if t.phase.Open? && e.ClientRead? then Typed(e.messages) else []);
            Flat(u.out.input) <= after && (!u.phase.Closed? ==> Flat(u.out.input) == after)
  {
    hide Inv, Enabled, Next, Flat, Typed;
    if e.ClientRead? && t.phase.Open? {
      ReadArrives(t, e);
    } else {
      OthersSendNoInput(t, e);
      assert typed + [] == typed;
      if t.phase.Closed? {
        ClosedStep(t, e);
      }
    }
  }

  /** Over any run the chunks sent to the daemon put together are all that was typed so far, or the beginning of it
      once the tunnel is closed. */
  lemma {:induction false} AllInputArrives(tunnels: seq<Tunnel>, events: seq<Event>, i: nat)
    requires Run(tunnels, events) && i <= |events|
    ensures Flat(tunnels[i].out.input) <= TypedUntil(tunnels, events, i)
    ensures !tunnels[i].phase.Closed? ==> Flat(tunnels[i].out.input) == TypedUntil(tunnels, events, i)
    decreases i
  {
    if i > 0 {
      hide Inv, Enabled, Next, Flat, Typed;
      AllInputArrives(tunnels, events, i - 1);
      RunInv(tunnels, events, i - 1);
      assert StepAt(tunnels, events, i - 1);
      TypedNext(tunnels[i - 1], events[i - 1], TypedUntil(tunnels, events, i - 1));
    }
  }

  // ----- the object -----

  /** The tunnel itself. The queues are those of the two handles. */
  class ConsoleTunnel {
    var state: Phase
    var daemon: Daemon
    var clientPaused: bool
    var daemonPaused: bool
    var queues: Queues
    ghost var out: Out

    ghost function View(): Tunnel
      reads this
    {
      Tunnel(state, daemon, clientPaused, daemonPaused, queues, out)
    }

    constructor ()
      ensures View() == INIT
    {
      state, daemon, clientPaused, daemonPaused := WaitOpen, Absent, false, false;
      queues, out := Queues(Queue([], 0), Queue([], 0)), Out(0, []);
    }

    /** A write may fail at once, which publishes the error from inside the call. */
    method WriteDaemon(w: Write, fails: bool)
      modifies this
      ensures View() == SendDaemon(old(View()), w, fails)
      decreases if state.Closed? then 0 else 1, 2
    {
      if !daemon.Absent? {
        if fails {
          OnDaemonGone();
        } else {
          queues := queues.(toDaemon := queues.toDaemon.Push(w));
        }
      }
    }

    method OnDaemonGone()
      modifies this
      ensures View() == DaemonGone(old(View()))
      decreases if state.Closed? then 0 else 1, 1
    {
      if state.Attaching? {
        RefuseClient(true);
      } else if state.Open? {
        DoFinish(false, true);
      }
    }

    method RefuseClient(closeFails: bool)
      modifies this
      ensures View() == Refuse(old(View()), closeFails)
      decreases if state.Closed? then 0 else 1, 0
    {
      if !state.Closed? {
        state := Closed;
        clientPaused := false;
        out := out.(closes := out.closes + 1);
        DoCloseDaemon(true, closeFails);
      }
    }

    /** Closes the browser, then the daemon. Only called while the tunnel is open. */
    method DoFinish(withCode: bool, closeFails: bool)
      requires !state.Closed?
      modifies this
      ensures View() == Finish(old(View()), withCode, closeFails)
      decreases 1, 0
    {
      state := Closed;
      clientPaused := false;
      out := out.(closes := out.closes + 1);
      DoCloseDaemon(withCode, closeFails);
    }

    method DoCloseDaemon(withCode: bool, fails: bool)
      requires state.Closed?
      modifies this
      ensures View() == CloseDaemon(old(View()), withCode, fails)
      decreases 0, 3
    {
      if daemon.Absent? {
        return;
      }
      if daemon.Upgraded? && withCode {
        WriteDaemon(Extra(FrameSize(2)), fails);
      }
      daemon := Absent;
    }

    method OnClientClosing(closeFails: bool)
      modifies this
      ensures View() == ClientClosing(old(View()), closeFails)
    {
      if state.Closed? {
        return;
      }
      state := Closed;
      DoCloseDaemon(true, closeFails);
    }

    method SendInputMessage(bytes: seq<Byte>, good: nat)
      modifies this
      ensures View() == WriteInput(old(View()), bytes, good)
    {
      var at := 0;
      var left := good;
      while at < |bytes| && state.Open?
        invariant at <= |bytes|
        invariant SendInput(View(), bytes[at..], left) == SendInput(old(View()), bytes, good)
      {
        var n := if |bytes| - at < INPUT_CHUNK then |bytes| - at else INPUT_CHUNK;
        assert bytes[at..][n..] == bytes[at + n..] && bytes[at..][..n] == bytes[at..at + n];
        var fails := left == 0;
        WriteDaemon(Payload(FrameSize(n)), fails);
        if !fails {
          out := out.(input := out.input + [bytes[at..at + n]]);
        }
        at := at + n;
        left := if fails then 0 else left - 1;
      }
      if state.Open? && !clientPaused && queues.toDaemon.Length() > HIGH_WATER {
        clientPaused := true;
      }
    }

    method ProcessFrames(acts: seq<Act>)
      modifies this
      ensures View() == DaemonFrames(old(View()), acts)
    {
      var i := 0;
      while i < |acts| && state.Open?
        invariant i <= |acts|
        invariant DoActs(View(), acts[i..]) == DoActs(old(View()), acts)
      {
        assert acts[i..][1..] == acts[i + 1..];
        match acts[i] {
          case Pong(size, fails) => WriteDaemon(Extra(FrameSize(size)), fails);
          case Deliver(size) => queues := queues.(toClient := queues.toClient.Push(Payload(size)));
          case Hold =>
          case GiveUp(fails) => DoFinish(true, fails);
        }
        i := i + 1;
      }
      if state.Open? && !daemonPaused && queues.toClient.Length() > HIGH_WATER {
        daemonPaused := true;
      }
    }

    method OnClientWritten()
      requires queues.toClient.Due()
      modifies this
      ensures View() == ClientWritten(old(View()))
    {
      queues := queues.(toClient := queues.toClient.Pop());
      if !daemonPaused || daemon.Absent? || queues.toClient.Length() > LOW_WATER {
        return;
      }
      daemonPaused := false;
    }

    method OnDaemonWritten()
      requires queues.toDaemon.Due()
      modifies this
      ensures View() == DaemonWritten(old(View()))
    {
      queues := queues.(toDaemon := queues.toDaemon.Pop());
      if !clientPaused || queues.toDaemon.Length() > LOW_WATER {
        return;
      }
      clientPaused := false;
    }
  }
}
