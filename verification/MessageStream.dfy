/** Reassembly of WebSocket messages from the byte stream of the container daemon: processFrames() of
    src/bin/calaos_server/AdminEvents.cpp, which hands over the text messages, and daemonFrames() of
    src/bin/calaos_server/ConsoleTunnel.cpp, which hands over the binary ones (RFC 6455, section 5.4). */
module MessageStreams {
  import opened Bytes
  import opened WebSocketFrames

  /** What one of the two receivers does while it reads. */
  datatype Event =
    | SendPong(payload: seq<Byte>)
    | Deliver(message: seq<Byte>)
    | PeerClosed(payload: seq<Byte>)
    | ProtocolError
    | TooBig

  /** AdminEvents::MaxMessageSize and ConsoleTunnel::MaxDaemonMessage have the same value. */
  const MAX_MESSAGE: int := 1024 * 1024

  /** The message under way. `open` holds until drop() or finish(). */
  datatype Assembly = Assembly(open: bool, message: seq<Byte>, inMessage: bool, binaryMessage: bool)

  /** The fields of a receiver, as a value. */
  datatype Receiver = Receiver(a: Assembly, frame: Parser, inbuf: seq<Byte>)

  const FRESH: Receiver := Receiver(Assembly(true, [], false, false), CLEARED, [])

  datatype Handled = Handled(a: Assembly, events: seq<Event>)

  /** A data frame of a valid, unmasked message. */
  function HandleData(a: Assembly, opcode: int, payload: seq<Byte>, final: bool, wantBinary: bool): Handled {
    if (opcode == OP_CONTINUE) != a.inMessage then Handled(a.(open := false), [ProtocolError])
    else
      var binary := if opcode == OP_CONTINUE then a.binaryMessage else opcode == OP_BINARY;
      var message := (if opcode == OP_CONTINUE then a.message else []) + payload;
      if |message| > MAX_MESSAGE then Handled(Assembly(false, message, !final, binary), [TooBig])
      else Handled(Assembly(a.open, message, !final, binary),
                   if final && binary == wantBinary then [Deliver(message)] else [])
  }

  predicate Unusable(p: Parser) { !p.judged.isvalid || p.mask != 0 }

  /** What is done with one frame the parser finished. */
  function Handle(a: Assembly, p: Parser, wantBinary: bool): Handled {
    if Unusable(p) then Handled(a.(open := false), [ProtocolError])
    else
      var payload := if p.judged.haserror then [] else p.payload;
      if p.head.opcode == OP_PING then Handled(a, [SendPong(payload)])
      else if p.head.opcode == OP_PONG then Handled(a, [])
      else if p.head.opcode == OP_CLOSE then Handled(a.(open := false), [PeerClosed(payload)])
      else HandleData(a, p.head.opcode, payload, p.head.final, wantBinary)
  }

  /** The parser is cleared once its frame has been taken. */
  function ParserAfter(p: Parser): Parser { if Unusable(p) then p else CLEARED }

  /** One processFrameData call on a parser in use. */
  function Read(p: Parser, data: seq<Byte>): (o: Outcome)
    requires p.Live()
    ensures o.p.Live() && |o.rest| <= |data| && (o.finished ==> |o.rest| < |data|)
  {
    RunFacts(p, data);
    Run(p, data)
  }

  lemma ReadAppend(p: Parser, a: seq<Byte>, b: seq<Byte>)
    requires p.Live()
    ensures var o := Read(p, a);
            Read(p, a + b) == if o.finished then Outcome(o.p, o.rest + b, true) else Read(o.p, o.rest + b)
  {
    hide Run;
    RunAppend(p, a, b);
  }

  datatype Progress = Progress(r: Receiver, events: seq<Event>)

  /** Reads frames while there are any. */
  function Pump(r: Receiver, wantBinary: bool): (o: Progress)
    requires r.frame.Live()
    ensures o.r.frame.Live()
    decreases |r.inbuf|
  {
    if !r.a.open || r.inbuf == [] then Progress(r, [])
    else
      var o := Read(r.frame, r.inbuf);
      if !o.finished then Progress(Receiver(r.a, o.p, o.rest), [])
      else
        var h := Handle(r.a, o.p, wantBinary);
        var next := Pump(Receiver(h.a, ParserAfter(o.p), o.rest), wantBinary);
        Progress(next.r, h.events + next.events)
  }

  /** One chunk of bytes from the socket; nothing is read once the connection is dropped. */
  function Feed(r: Receiver, chunk: seq<Byte>, wantBinary: bool): (o: Progress)
    requires r.frame.Live()
    ensures o.r.frame.Live()
  {
    if !r.a.open then Progress(r, []) else Pump(r.(inbuf := r.inbuf + chunk), wantBinary)
  }

  function FeedAll(r: Receiver, chunks: seq<seq<Byte>>, wantBinary: bool): (o: Progress)
    requires r.frame.Live()
    ensures o.r.frame.Live()
    decreases |chunks|
  {
    if chunks == [] then Progress(r, [])
    else
      var first := Feed(r, chunks[0], wantBinary);
      var others := FeedAll(first.r, chunks[1..], wantBinary);
      Progress(others.r, first.events + others.events)
  }

  function Flatten(chunks: seq<seq<Byte>>): seq<Byte> {
    if chunks == [] then [] else chunks[0] + Flatten(chunks[1..])
  }

  // ----- chunk independence of the receiver -----

  function More(r: Receiver, b: seq<Byte>): Receiver { r.(inbuf := r.inbuf + b) }

  /** Bytes that arrive later extend what earlier bytes did; after a drop they only stay in the buffer. */
  lemma {:induction false} PumpAppend(r: Receiver, b: seq<Byte>, wantBinary: bool)
    requires r.frame.Live()
    ensures var first := Pump(r, wantBinary);
            var second := Pump(More(first.r, b), wantBinary);
            Pump(More(r, b), wantBinary) == Progress(second.r, first.events + second.events)
    decreases |r.inbuf|
  {
    hide Handle, Read;
    if r.a.open && r.inbuf != [] {
      var o := Read(r.frame, r.inbuf);
      ReadAppend(r.frame, r.inbuf, b);
      if o.finished {
        var h := Handle(r.a, o.p, wantBinary);
        var r1 := Receiver(h.a, ParserAfter(o.p), o.rest);
        PumpAppend(r1, b, wantBinary);
        var next := Pump(r1, wantBinary);
        Assoc(h.events, next.events, Pump(More(next.r, b), wantBinary).events);
      } else {
        PumpWaiting(r, b, wantBinary);
      }
    }
  }

  lemma PumpWaiting(r: Receiver, b: seq<Byte>, wantBinary: bool)
    requires r.frame.Live() && r.a.open && r.inbuf != [] && !Read(r.frame, r.inbuf).finished
    ensures var o := Read(r.frame, r.inbuf);
            Pump(More(r, b), wantBinary) == Pump(Receiver(r.a, o.p, o.rest + b), wantBinary)
  {
    hide Handle;
    var o := Read(r.frame, r.inbuf);
    ReadAppend(r.frame, r.inbuf, b);
    assert Read(r.frame, More(r, b).inbuf) == Read(o.p, o.rest + b);
  }

  /** Nothing that a receiver does depends on how TCP cut the bytes: chunk by chunk it emits the same
      events, and while it stays open it is in the same state, as when fed everything at once. */
  lemma {:induction false} ChunkIndependence(r: Receiver, chunks: seq<seq<Byte>>, wantBinary: bool)
    requires r.frame.Live()
    requires r.a.open ==> Pump(r, wantBinary) == Progress(r, [])
    ensures var whole := Feed(r, Flatten(chunks), wantBinary);
            var cut := FeedAll(r, chunks, wantBinary);
            && cut.events == whole.events
            && cut.r.(inbuf := []) == whole.r.(inbuf := [])
            && (whole.r.a.open ==> cut.r == whole.r)
    decreases |chunks|
  {
    hide Pump;
    if chunks == [] {
      assert More(r, []) == r;
    } else if r.a.open {
      var b := Flatten(chunks[1..]);
      Assoc(r.inbuf, chunks[0], b);
      PumpAppend(More(r, chunks[0]), b, wantBinary);
      var first := Feed(r, chunks[0], wantBinary);
      PumpIdle(More(r, chunks[0]), wantBinary);
      if !first.r.a.open { PumpClosed(More(first.r, b), wantBinary); }
      ChunkIndependence(first.r, chunks[1..], wantBinary);
    } else {
      ChunkIndependence(r, chunks[1..], wantBinary);
    }
  }

  lemma PumpClosed(r: Receiver, wantBinary: bool)
    requires r.frame.Live() && !r.a.open
    ensures Pump(r, wantBinary) == Progress(r, [])
  {
  }

  /** What Pump leaves is waiting for more bytes. */
  lemma {:induction false} PumpIdle(r: Receiver, wantBinary: bool)
    requires r.frame.Live()
    ensures var o := Pump(r, wantBinary); Pump(o.r, wantBinary) == Progress(o.r, [])
    decreases |r.inbuf|
  {
    hide Handle, Read;
    if r.a.open && r.inbuf != [] {
      var o := Read(r.frame, r.inbuf);
      if o.finished {
        PumpIdle(Receiver(Handle(r.a, o.p, wantBinary).a, ParserAfter(o.p), o.rest), wantBinary);
      } else {
        ReadAppend(r.frame, r.inbuf, []);
        assert r.inbuf + [] == r.inbuf && o.rest + [] == o.rest;
      }
    }
  }

  // ----- the sender -----

  datatype Fr = Fr(opcode: nat, payload: seq<Byte>, last: bool)
  {
    predicate Sendable() { Acceptable(opcode, |payload|, last) }
  }

  /** What the daemon writes: unmasked frames, one after the other. */
  function Wire(fs: seq<Fr>): seq<Byte> {
    if fs == [] then [] else Frame(fs[0].opcode, fs[0].payload, fs[0].last, 0) + Wire(fs[1..])
  }

  function HandleFrame(a: Assembly, f: Fr, wantBinary: bool): Handled
  {
    Handle(a, FrameRead(f.opcode, f.payload, f.last, false, 0), wantBinary)
  }

  /** What a receiver makes of a list of frames, the bytes put aside. */
  function HandleFrames(a: Assembly, fs: seq<Fr>, wantBinary: bool): Handled
    decreases |fs|
  {
    if fs == [] || !a.open then Handled(a, [])
    else
      var h := HandleFrame(a, fs[0], wantBinary);
      var next := HandleFrames(h.a, fs[1..], wantBinary);
      Handled(next.a, h.events + next.events)
  }

  /** On the bytes of sendable frames the receiver does exactly what it makes of the frames. */
  lemma {:induction false} PumpWire(a: Assembly, fs: seq<Fr>, wantBinary: bool)
    requires forall f <- fs :: f.Sendable()
    ensures var h := HandleFrames(a, fs, wantBinary);
            var o := Pump(Receiver(a, CLEARED, Wire(fs)), wantBinary);
            && o.events == h.events && o.r.a == h.a && o.r.frame == CLEARED
            && (h.a.open ==> o.r.inbuf == [])
    decreases |fs|
  {
    hide Handle, Read, Frame;
    if fs != [] && a.open {
      var f, rest := fs[0], Wire(fs[1..]);
      FrameRoundTrip(f, rest);
      PumpWire(HandleFrame(a, f, wantBinary).a, fs[1..], wantBinary);
    }
  }

  lemma FrameRoundTrip(f: Fr, rest: seq<Byte>)
    requires f.Sendable()
    ensures var wire := Frame(f.opcode, f.payload, f.last, 0) + rest;
            && wire != []
            && Read(CLEARED, wire) == Outcome(FrameRead(f.opcode, f.payload, f.last, false, 0), rest, true)
  {
    hide Run;
    RoundTrip(f.opcode, f.payload, f.last, false, 0, rest);
  }

  // ----- messages, fragments and control frames between them -----

  datatype Control = Ping(payload: seq<Byte>) | Pong(payload: seq<Byte>)

  /** A fragment, and the control frames the daemon sends before it. */
  datatype Piece = Piece(controls: seq<Control>, payload: seq<Byte>)

  datatype Message = Message(binary: bool, pieces: seq<Piece>)

  function ControlFrame(c: Control): Fr {
    match c
    case Ping(payload) => Fr(OP_PING, payload, true)
    case Pong(payload) => Fr(OP_PONG, payload, true)
  }

  function ControlFrames(cs: seq<Control>): seq<Fr> {
    if cs == [] then [] else [ControlFrame(cs[0])] + ControlFrames(cs[1..])
  }

  function PieceFrames(pieces: seq<Piece>, opcode: nat): seq<Fr>
    decreases |pieces|
  {
    if pieces == [] then []
    else ControlFrames(pieces[0].controls) + [Fr(opcode, pieces[0].payload, |pieces| == 1)]
         + PieceFrames(pieces[1..], OP_CONTINUE)
  }

  function MessageFrames(m: Message): seq<Fr> {
    PieceFrames(m.pieces, if m.binary then OP_BINARY else OP_TEXT)
  }

  function AllFrames(ms: seq<Message>): seq<Fr> {
    if ms == [] then [] else MessageFrames(ms[0]) + AllFrames(ms[1..])
  }

  function Body(pieces: seq<Piece>): seq<Byte>
    decreases |pieces|
  {
    if pieces == [] then [] else pieces[0].payload + Body(pieces[1..])
  }

  /** The pongs that answer the pings, in order. */
  function Answers(cs: seq<Control>): seq<Event> {
    if cs == [] then []
    else (if cs[0].Ping? then [SendPong(cs[0].payload)] else []) + Answers(cs[1..])
  }

  function PieceAnswers(pieces: seq<Piece>): seq<Event>
    decreases |pieces|
  {
    if pieces == [] then [] else Answers(pieces[0].controls) + PieceAnswers(pieces[1..])
  }

  predicate GoodControl(c: Control) { |c.payload| <= 125 }

  predicate GoodPiece(p: Piece) { forall c <- p.controls :: GoodControl(c) }

  /** A message within the limits, cut in at least one piece. */
  predicate GoodMessage(m: Message) {
    && m.pieces != []
    && (forall p <- m.pieces :: GoodPiece(p))
    && |Body(m.pieces)| <= MAX_MESSAGE
  }

  /** What the receiver must do for each message: answer its pings, then hand it over if it is of its kind. */
  function Expected(ms: seq<Message>, wantBinary: bool): seq<Event> {
    if ms == [] then []
    else
      PieceAnswers(ms[0].pieces)
      + (if ms[0].binary == wantBinary then [Deliver(Body(ms[0].pieces))] else [])
      + Expected(ms[1..], wantBinary)
  }

  lemma {:induction false} HandleFramesConcat(a: Assembly, fs: seq<Fr>, gs: seq<Fr>, wantBinary: bool)
    ensures var first := HandleFrames(a, fs, wantBinary);
            var second := HandleFrames(first.a, gs, wantBinary);
            HandleFrames(a, fs + gs, wantBinary) == Handled(second.a, first.events + second.events)
    decreases |fs|
  {
    hide Handle;
    if fs == [] {
      assert fs + gs == gs;
    } else if a.open {
      assert (fs + gs)[1..] == fs[1..] + gs;
      var h := HandleFrame(a, fs[0], wantBinary);
      HandleFramesConcat(h.a, fs[1..], gs, wantBinary);
      var first := HandleFrames(h.a, fs[1..], wantBinary);
      Assoc(h.events, first.events, HandleFrames(first.a, gs, wantBinary).events);
    }
  }

  /** Control frames change nothing to the message under way. */
  lemma {:induction false} ControlsKeepMessage(a: Assembly, cs: seq<Control>, wantBinary: bool)
    requires a.open && forall c <- cs :: GoodControl(c)
    ensures HandleFrames(a, ControlFrames(cs), wantBinary) == Handled(a, Answers(cs))
    ensures forall f <- ControlFrames(cs) :: f.Sendable()
    decreases |cs|
  {
    if cs != [] {
      ControlsKeepMessage(a, cs[1..], wantBinary);
      assert GoodControl(cs[0]) && ControlFrame(cs[0]).Sendable();
      assert HandleFrame(a, ControlFrame(cs[0]), wantBinary).a == a;
    }
  }

  /** A message being read: the pieces so far in `so`, the first piece still to come when it is empty. */
  function Under(binary: bool, so: seq<Byte>): Assembly {
    Assembly(true, so, true, binary)
  }

  lemma PieceHandled(a: Assembly, opcode: nat, binary: bool, so: seq<Byte>, payload: seq<Byte>, last: bool,
                     wantBinary: bool)
    requires a.open && |so + payload| <= MAX_MESSAGE
    requires if opcode == OP_CONTINUE then a == Under(binary, so)
             else opcode == (if binary then OP_BINARY else OP_TEXT) && !a.inMessage && so == []
    ensures HandleFrame(a, Fr(opcode, payload, last), wantBinary)
         == Handled(Assembly(true, so + payload, !last, binary),
                    if last && binary == wantBinary then [Deliver(so + payload)] else [])
    ensures Fr(opcode, payload, last).Sendable()
  {
  }

  lemma BodyAtLeastFirst(pieces: seq<Piece>)
    requires pieces != []
    ensures |pieces[0].payload| <= |Body(pieces)|
  {
  }

  /** The control frames before a piece, then the piece. */
  lemma OnePiece(a: Assembly, p: Piece, opcode: nat, binary: bool, so: seq<Byte>, last: bool, wantBinary: bool)
    requires a.open && |so + p.payload| <= MAX_MESSAGE && GoodPiece(p)
    requires if opcode == OP_CONTINUE then a == Under(binary, so)
             else opcode == (if binary then OP_BINARY else OP_TEXT) && !a.inMessage && so == []
    ensures var fs := ControlFrames(p.controls) + [Fr(opcode, p.payload, last)];
            && HandleFrames(a, fs, wantBinary)
               == Handled(Assembly(true, so + p.payload, !last, binary),
                          Answers(p.controls) + if last && binary == wantBinary then [Deliver(so + p.payload)] else [])
            && forall f <- fs :: f.Sendable()
  {
    hide Handle;
    var f := Fr(opcode, p.payload, last);
    ControlsKeepMessage(a, p.controls, wantBinary);
    PieceHandled(a, opcode, binary, so, p.payload, last, wantBinary);
    HandleFramesConcat(a, ControlFrames(p.controls), [f], wantBinary);
    var h := HandleFrame(a, f, wantBinary);
    assert HandleFrames(h.a, [], wantBinary) == Handled(h.a, []);
    assert HandleFrames(a, [f], wantBinary) == h;
  }

  /** The pieces of one message, whatever control frames stand between them. */
  lemma {:induction false} PiecesDeliver(a: Assembly, pieces: seq<Piece>, opcode: nat, binary: bool, so: seq<Byte>,
                                         wantBinary: bool)
    requires pieces != [] && a.open && |so + Body(pieces)| <= MAX_MESSAGE
    requires forall p <- pieces :: GoodPiece(p)
    requires if opcode == OP_CONTINUE then a == Under(binary, so)
             else opcode == (if binary then OP_BINARY else OP_TEXT) && !a.inMessage && so == []
    ensures HandleFrames(a, PieceFrames(pieces, opcode), wantBinary)
         == Handled(Assembly(true, so + Body(pieces), false, binary),
                    PieceAnswers(pieces) + if binary == wantBinary then [Deliver(so + Body(pieces))] else [])
    ensures forall f <- PieceFrames(pieces, opcode) :: f.Sendable()
    decreases |pieces|
  {
    hide Handle, HandleFrames, ControlFrames, Answers;
    var p, others := pieces[0], pieces[1..];
    assert GoodPiece(p);
    BodyAtLeastFirst(pieces);
    var head := ControlFrames(p.controls) + [Fr(opcode, p.payload, others == [])];
    var so1 := so + p.payload;
    assert so + Body(pieces) == so1 + Body(others);
    OnePiece(a, p, opcode, binary, so, others == [], wantBinary);
    if others == [] {
      assert so1 + Body(others) == so1;
      assert PieceFrames(pieces, opcode) == head;
      assert PieceAnswers(pieces) == Answers(p.controls);
    } else {
      PiecesDeliver(Under(binary, so1), others, OP_CONTINUE, binary, so1, wantBinary);
      HandleFramesConcat(a, head, PieceFrames(others, OP_CONTINUE), wantBinary);
      var tail := if binary == wantBinary then [Deliver(so1 + Body(others))] else [];
      Assoc(Answers(p.controls), PieceAnswers(others), tail);
    }
  }

  lemma {:induction false} MessagesDeliver(a: Assembly, ms: seq<Message>, wantBinary: bool)
    requires a.open && !a.inMessage && forall m <- ms :: GoodMessage(m)
    ensures var h := HandleFrames(a, AllFrames(ms), wantBinary);
            h.events == Expected(ms, wantBinary) && h.a.open && !h.a.inMessage
    ensures forall f <- AllFrames(ms) :: f.Sendable()
    decreases |ms|
  {
    hide HandleFrames, PieceFrames, PieceAnswers, Body;
    if ms == [] {
      assert HandleFrames(a, [], wantBinary) == Handled(a, []) by { NoFrames(a, wantBinary); }
    } else {
      var m := ms[0];
      assert GoodMessage(m);
      var body := Body(m.pieces);
      assert [] + body == body;
      PiecesDeliver(a, m.pieces, if m.binary then OP_BINARY else OP_TEXT, m.binary, [], wantBinary);
      var a1 := Assembly(true, body, false, m.binary);
      MessagesDeliver(a1, ms[1..], wantBinary);
      HandleFramesConcat(a, MessageFrames(m), AllFrames(ms[1..]), wantBinary);
    }
  }

  lemma NoFrames(a: Assembly, wantBinary: bool)
    ensures HandleFrames(a, [], wantBinary) == Handled(a, [])
  {
  }

  /** The messages handed over, in order. */
  function Delivered(events: seq<Event>): seq<seq<Byte>> {
    if events == [] then []
    else (if events[0].Deliver? then [events[0].message] else []) + Delivered(events[1..])
  }

  /** The messages of the kind a receiver wants. */
  function Wanted(ms: seq<Message>, wantBinary: bool): seq<seq<Byte>> {
    if ms == [] then []
    else (if ms[0].binary == wantBinary then [Body(ms[0].pieces)] else []) + Wanted(ms[1..], wantBinary)
  }

  lemma {:induction false} DeliveredConcat(e: seq<Event>, f: seq<Event>)
    ensures Delivered(e + f) == Delivered(e) + Delivered(f)
  {
    if e == [] {
      assert e + f == f;
    } else {
      assert (e + f)[1..] == e[1..] + f;
      DeliveredConcat(e[1..], f);
    }
  }

  lemma {:induction false} AnswersDeliverNothing(cs: seq<Control>)
    ensures Delivered(Answers(cs)) == []
  {
    if cs != [] {
      DeliveredConcat(if cs[0].Ping? then [SendPong(cs[0].payload)] else [], Answers(cs[1..]));
      AnswersDeliverNothing(cs[1..]);
    }
  }

  lemma {:induction false} PieceAnswersDeliverNothing(pieces: seq<Piece>)
    ensures Delivered(PieceAnswers(pieces)) == []
    decreases |pieces|
  {
    if pieces != [] {
      DeliveredConcat(Answers(pieces[0].controls), PieceAnswers(pieces[1..]));
      AnswersDeliverNothing(pieces[0].controls);
      PieceAnswersDeliverNothing(pieces[1..]);
    }
  }

  lemma {:induction false} ExpectedDelivers(ms: seq<Message>, wantBinary: bool)
    ensures Delivered(Expected(ms, wantBinary)) == Wanted(ms, wantBinary)
  {
    if ms != [] {
      var answers := PieceAnswers(ms[0].pieces);
      var own := if ms[0].binary == wantBinary then [Deliver(Body(ms[0].pieces))] else [];
      DeliveredConcat(answers + own, Expected(ms[1..], wantBinary));
      DeliveredConcat(answers, own);
      PieceAnswersDeliverNothing(ms[0].pieces);
      ExpectedDelivers(ms[1..], wantBinary);
    }
  }

  /** End to end: any messages within the limits, cut in any fragments with pings and pongs between them,
      printed unmasked and delivered in any TCP chunks, are handed over exactly, in order, each once; each
      ping is answered in its place, and the connection stays open with nothing left over. */
  lemma EndToEnd(ms: seq<Message>, trailing: seq<Control>, chunks: seq<seq<Byte>>, wantBinary: bool)
    requires forall m <- ms :: GoodMessage(m)
    requires forall c <- trailing :: GoodControl(c)
    requires Flatten(chunks) == Wire(AllFrames(ms) + ControlFrames(trailing))
    ensures var o := FeedAll(FRESH, chunks, wantBinary);
            && o.events == Expected(ms, wantBinary) + Answers(trailing)
            && Delivered(o.events) == Wanted(ms, wantBinary)
            && o.r.a.open && !o.r.a.inMessage && o.r.frame == CLEARED && o.r.inbuf == []
  {
    hide Pump, HandleFrames, Expected, Wanted, Answers, AllFrames, ControlFrames, Wire, Delivered, FeedAll;
    var fs := AllFrames(ms) + ControlFrames(trailing);
    var a := HandleFrames(FRESH.a, AllFrames(ms), wantBinary).a;
    MessagesDeliver(FRESH.a, ms, wantBinary);
    ControlsKeepMessage(a, trailing, wantBinary);
    HandleFramesConcat(FRESH.a, AllFrames(ms), ControlFrames(trailing), wantBinary);
    PumpWire(FRESH.a, fs, wantBinary);
    assert [] + Wire(fs) == Wire(fs);
    PumpEmpty(FRESH, wantBinary);
    ChunkIndependence(FRESH, chunks, wantBinary);
    ExpectedDelivers(ms, wantBinary);
    AnswersDeliverNothing(trailing);
    DeliveredConcat(Expected(ms, wantBinary), Answers(trailing));
  }

  lemma PumpEmpty(r: Receiver, wantBinary: bool)
    requires r.frame.Live() && r.inbuf == []
    ensures Pump(r, wantBinary) == Progress(r, [])
  {
  }

  // ----- any frames at all, each judged by those that came before it -----

  predicate IsData(f: Fr) { f.opcode == OP_CONTINUE || f.opcode == OP_TEXT || f.opcode == OP_BINARY }

  /** A message has begun and its last fragment has not come. */
  predicate Underway(fs: seq<Fr>)
    decreases |fs|
  {
    fs != [] &&
    var f, before := fs[|fs| - 1], fs[..|fs| - 1];
    if IsData(f) then !f.last else Underway(before)
  }

  /** Where the last message began. */
  function Begun(fs: seq<Fr>): (n: nat)
    ensures n <= |fs|
    decreases |fs|
  {
    if fs == [] then 0
    else
      var f, before := fs[|fs| - 1], fs[..|fs| - 1];
      if f.opcode == OP_TEXT || f.opcode == OP_BINARY then |before| else Begun(before)
  }

  /** The data in these frames. */
  function Gathered(fs: seq<Fr>): seq<Byte>
    decreases |fs|
  {
    if fs == [] then []
    else
      var f, before := fs[|fs| - 1], fs[..|fs| - 1];
      Gathered(before) + if IsData(f) then f.payload else []
  }

  /** All that came of the last message, and its kind. */
  function Text(fs: seq<Fr>): seq<Byte> { Gathered(fs[Begun(fs)..]) }

  predicate IsBinary(fs: seq<Fr>) { Begun(fs) < |fs| && fs[Begun(fs)].opcode == OP_BINARY }

  /** A fragment of no message, or a new message inside another. */
  predicate Misplaced(fs: seq<Fr>)
    requires fs != []
  {
    var f, before := fs[|fs| - 1], fs[..|fs| - 1];
    IsData(f) && (f.opcode == OP_CONTINUE) != Underway(before)
  }

  predicate Fatal(fs: seq<Fr>)
    requires fs != []
  {
    var f := fs[|fs| - 1];
    f.opcode == OP_CLOSE || (IsData(f) && (Misplaced(fs) || |Text(fs)| > MAX_MESSAGE))
  }

  /** What the last of these frames must bring about. */
  function Brings(fs: seq<Fr>, wantBinary: bool): seq<Event>
    requires fs != []
  {
    var f := fs[|fs| - 1];
    if f.opcode == OP_PING then [SendPong(f.payload)]
    else if f.opcode == OP_CLOSE then [PeerClosed(f.payload)]
    else if !IsData(f) then []
    else if Misplaced(fs) then [ProtocolError]
    else if |Text(fs)| > MAX_MESSAGE then [TooBig]
    else if f.last && IsBinary(fs) == wantBinary then [Deliver(Text(fs))]
    else []
  }

  predicate Ended(fs: seq<Fr>)
    decreases |fs|
  {
    fs != [] && (Ended(fs[..|fs| - 1]) || Fatal(fs))
  }

  /** What all of them must bring about; nothing comes of what follows a fatal one. */
  function Story(fs: seq<Fr>, wantBinary: bool): seq<Event>
    decreases |fs|
  {
    if fs == [] then []
    else
      var before := fs[..|fs| - 1];
      Story(before, wantBinary) + if Ended(before) then [] else Brings(fs, wantBinary)
  }

  /** The fields of the receiver, told from the frames that came. */
  ghost predicate Tells(a: Assembly, fs: seq<Fr>) {
    && a.open == !Ended(fs)
    && (a.open ==> a.inMessage == Underway(fs))
    && (a.open && a.inMessage ==> Begun(fs) < |fs| && a.message == Text(fs) && a.binaryMessage == IsBinary(fs))
  }

  lemma BegunSnoc(fs: seq<Fr>, f: Fr)
    ensures var all := fs + [f];
            && Underway(all) == (if IsData(f) then !f.last else Underway(fs))
            && Begun(all) == (if f.opcode == OP_TEXT || f.opcode == OP_BINARY then |fs| else Begun(fs))
            && Gathered(all) == Gathered(fs) + (if IsData(f) then f.payload else [])
            && Ended(all) == (Ended(fs) || Fatal(all))
  {
    var all := fs + [f];
    assert all[..|all| - 1] == fs && all[|all| - 1] == f;
  }

  lemma GatheredFrom(fs: seq<Fr>, f: Fr, n: nat)
    requires n <= |fs|
    ensures Gathered((fs + [f])[n..]) == Gathered(fs[n..]) + (if IsData(f) then f.payload else [])
  {
    hide Begun, Gathered, Underway, Ended, Fatal;
    assert (fs + [f])[n..] == fs[n..] + [f];
    BegunSnoc(fs[n..], f);
  }

  lemma TextSnoc(fs: seq<Fr>, f: Fr)
    ensures Text(fs + [f]) == if f.opcode == OP_TEXT || f.opcode == OP_BINARY then f.payload
                              else Text(fs) + (if IsData(f) then f.payload else [])
  {
    BegunSnoc(fs, f);
    assert Gathered([]) == [];
    hide Begun, Gathered, Underway, Ended, Fatal;
    var n := Begun(fs + [f]);
    GatheredFrom(fs, f, n);
    assert [] + f.payload == f.payload;
  }

  lemma KindSnoc(fs: seq<Fr>, f: Fr)
    requires f.opcode == OP_TEXT || f.opcode == OP_BINARY || Begun(fs) < |fs|
    ensures IsBinary(fs + [f]) == if f.opcode == OP_TEXT || f.opcode == OP_BINARY then f.opcode == OP_BINARY
                                  else IsBinary(fs)
  {
    BegunSnoc(fs, f);
    hide Begun, Gathered, Underway, Ended, Fatal;
  }

  /** One frame more, told from what is known of those before. */
  lemma TellsNext(a: Assembly, fs: seq<Fr>, f: Fr, wantBinary: bool)
    requires Tells(a, fs) && a.open && f.Sendable()
    ensures var h := HandleFrame(a, f, wantBinary);
            Tells(h.a, fs + [f]) && h.events == Brings(fs + [f], wantBinary)
  {
    hide HandleFrame, Text, IsBinary, Underway, Begun, Gathered, Ended;
    BegunSnoc(fs, f);
    TextSnoc(fs, f);
    assert (fs + [f])[..|fs|] == fs;
    if IsData(f) {
      DataHandled(a, f, wantBinary);
      if f.opcode != OP_CONTINUE || Underway(fs) {
        KindSnoc(fs, f);
      }
      assert [] + f.payload == f.payload;
    } else {
      ControlHandled(a, f, wantBinary);
      if Underway(fs) {
        KindSnoc(fs, f);
      }
      assert Text(fs) + [] == Text(fs);
    }
  }

  lemma DataHandled(a: Assembly, f: Fr, wantBinary: bool)
    requires IsData(f)
    ensures HandleFrame(a, f, wantBinary) == HandleData(a, f.opcode, f.payload, f.last, wantBinary)
  {
  }

  lemma ControlHandled(a: Assembly, f: Fr, wantBinary: bool)
    requires !IsData(f) && f.Sendable()
    ensures HandleFrame(a, f, wantBinary)
         == Handled(a.(open := f.opcode != OP_CLOSE && a.open),
                    if f.opcode == OP_PING then [SendPong(f.payload)]
                    else if f.opcode == OP_CLOSE then [PeerClosed(f.payload)] else [])
  {
  }

  /** Whatever sendable frames come, in whatever order, each brings about what RFC 6455 asks of it given those before
      it: pings are answered, messages of its kind handed over whole, and a close frame, a misplaced fragment or a
      message over the limit ends everything. */
  lemma {:induction false} FramesTell(fs: seq<Fr>, wantBinary: bool)
    requires forall f <- fs :: f.Sendable()
    ensures var h := HandleFrames(FRESH.a, fs, wantBinary);
            Tells(h.a, fs) && h.events == Story(fs, wantBinary)
    decreases |fs|
  {
    if fs == [] {
      NoFrames(FRESH.a, wantBinary);
    } else {
      var before, f := fs[..|fs| - 1], fs[|fs| - 1];
      FramesTell(before, wantBinary);
      assert fs == before + [f];
      HandleFramesConcat(FRESH.a, before, [f], wantBinary);
      var a := HandleFrames(FRESH.a, before, wantBinary).a;
      OneFrame(a, f, wantBinary);
      BegunSnoc(before, f);
      if a.open {
        TellsNext(a, before, f, wantBinary);
      }
    }
  }

  lemma OneFrame(a: Assembly, f: Fr, wantBinary: bool)
    ensures HandleFrames(a, [f], wantBinary) == if a.open then HandleFrame(a, f, wantBinary) else Handled(a, [])
  {
    hide Handle;
    var h := HandleFrame(a, f, wantBinary);
    NoFrames(h.a, wantBinary);
    assert [f][1..] == [];
  }

  /** The same of their bytes, however TCP cut them. */
  lemma StreamTells(fs: seq<Fr>, chunks: seq<seq<Byte>>, wantBinary: bool)
    requires forall f <- fs :: f.Sendable()
    requires Flatten(chunks) == Wire(fs)
    ensures var o := FeedAll(FRESH, chunks, wantBinary);
            o.events == Story(fs, wantBinary) && o.r.a.open == !Ended(fs)
  {
    hide Pump, HandleFrames, Story, Ended, Wire, FeedAll;
    FramesTell(fs, wantBinary);
    PumpWire(FRESH.a, fs, wantBinary);
    assert [] + Wire(fs) == Wire(fs);
    PumpEmpty(FRESH, wantBinary);
    ChunkIndependence(FRESH, chunks, wantBinary);
  }

  /** The frame the parser finishes is one the receiver cannot use: that ends everything too. */
  lemma UnusableEnds(fs: seq<Fr>, bad: seq<Byte>, chunks: seq<seq<Byte>>, wantBinary: bool)
    requires forall f <- fs :: f.Sendable()
    requires !Ended(fs) && Flatten(chunks) == Wire(fs) + bad
    requires Read(CLEARED, bad).finished && Unusable(Read(CLEARED, bad).p)
    ensures var o := FeedAll(FRESH, chunks, wantBinary);
            o.events == Story(fs, wantBinary) + [ProtocolError] && !o.r.a.open
  {
    hide Pump, HandleFrames, Story, Ended, Wire, FeedAll, Read, Unusable;
    var sent := Receiver(FRESH.a, CLEARED, Wire(fs));
    FramesTell(fs, wantBinary);
    PumpWire(FRESH.a, fs, wantBinary);
    PumpAppend(sent, bad, wantBinary);
    var a := HandleFrames(FRESH.a, fs, wantBinary).a;
    UnusableRead(a, bad, wantBinary);
    assert [] + bad == bad && [] + (Wire(fs) + bad) == Wire(fs) + bad;
    PumpEmpty(FRESH, wantBinary);
    ChunkIndependence(FRESH, chunks, wantBinary);
  }

  lemma UnusableRead(a: Assembly, bad: seq<Byte>, wantBinary: bool)
    requires a.open && Read(CLEARED, bad).finished && Unusable(Read(CLEARED, bad).p)
    ensures var o := Pump(Receiver(a, CLEARED, bad), wantBinary);
            o.events == [ProtocolError] && !o.r.a.open
  {
    var o := Read(CLEARED, bad);
    PumpClosed(Receiver(a.(open := false), ParserAfter(o.p), o.rest), wantBinary);
    hide Read;
  }

  /** A header that breaks a rule of RFC 6455 section 5.2 or the size limit. */
  lemma BadHeaderEnds(fs: seq<Fr>, bad: seq<Byte>, chunks: seq<seq<Byte>>, wantBinary: bool)
    requires forall f <- fs :: f.Sendable()
    requires !Ended(fs) && Flatten(chunks) == Wire(fs) + bad && Verdict(bad) != 0
    ensures var o := FeedAll(FRESH, chunks, wantBinary);
            o.events == Story(fs, wantBinary) + [ProtocolError] && !o.r.a.open
  {
    hide Run, Verdict, Story, Ended, Wire, FeedAll, Flatten;
    RefusedExactly(bad);
    UnusableEnds(fs, bad, chunks, wantBinary);
  }

  /** A frame with a key, which a server must not send (section 5.1). */
  lemma MaskedFrameEnds(fs: seq<Fr>, f: Fr, key: int, rest: seq<Byte>, chunks: seq<seq<Byte>>, wantBinary: bool)
    requires (forall f <- fs :: f.Sendable()) && f.Sendable() && 0 < key < 0x1_0000_0000
    requires !Ended(fs) && Flatten(chunks) == Wire(fs) + (Frame(f.opcode, f.payload, f.last, key) + rest)
    ensures var o := FeedAll(FRESH, chunks, wantBinary);
            o.events == Story(fs, wantBinary) + [ProtocolError] && !o.r.a.open
  {
    RoundTrip(f.opcode, f.payload, f.last, true, key, rest);
    hide Run, Story, Ended, Wire, FeedAll, Flatten;
    UnusableEnds(fs, Frame(f.opcode, f.payload, f.last, key) + rest, chunks, wantBinary);
  }

  // ----- the receiving object -----

  /** The fields AdminEvents and ConsoleTunnel keep for their stream; `events` is what they did, in order. */
  class MessageStream {
    const wantBinary: bool
    const frame: WebSocketFrame
    var inbuf: seq<Byte>
    var a: Assembly
    var events: seq<Event>

    ghost predicate Valid()
      reads this, frame
    {
      frame.View().Live()
    }

    ghost function View(): Receiver
      reads this, frame
    {
      Receiver(a, frame.View(), inbuf)
    }

    constructor (binary: bool)
      ensures Valid() && fresh(frame) && wantBinary == binary && View() == FRESH && events == []
    {
      wantBinary, inbuf, events := binary, [], [];
      a := Assembly(true, [], false, false);
      frame := new WebSocketFrame();
    }

    /** The bytes of one read event. */
    method OnData(chunk: seq<Byte>)
      requires Valid()
      modifies this, frame
      ensures Valid()
      ensures var o := Feed(old(View()), chunk, wantBinary);
              View() == o.r && events == old(events) + o.events
    {
      if !a.open { return; }
      inbuf := inbuf + chunk;
      ProcessFrames();
    }

    method ReadFrame() returns (finished: bool)
      requires Valid()
      modifies this`inbuf, frame
      ensures Read(old(frame.View()), old(inbuf)) == Outcome(frame.View(), inbuf, finished)
      ensures Valid() && |inbuf| <= old(|inbuf|) && (finished ==> |inbuf| < old(|inbuf|))
    {
      hide Run;
      ghost var o := Read(frame.View(), inbuf);
      finished, inbuf := frame.ProcessFrameData(inbuf);
    }

    method ProcessFrames()
      requires Valid()
      modifies this, frame
      ensures Valid()
      ensures var o := Pump(old(View()), wantBinary);
              View() == o.r && events == old(events) + o.events
    {
      hide Handle, Read;
      ghost var done := [];
      while inbuf != [] && a.open
        invariant Valid()
        invariant events == old(events) + done
        invariant var o, o1 := Pump(old(View()), wantBinary), Pump(View(), wantBinary);
                  o1.r == o.r && done + o1.events == o.events
        decreases |inbuf|
      {
        var finished := ReadFrame();
        if !finished { return; }
        ghost var before := events;
        TakeFrame();
        ghost var emitted := events[|before|..];
        Assoc(old(events), done, emitted);
        Assoc(done, emitted, Pump(View(), wantBinary).events);
        done := done + emitted;
      }
    }

    /** What processFrames does with the frame just read. */
    method TakeFrame()
      requires Valid()
      modifies this, frame
      ensures Valid() && inbuf == old(inbuf)
      ensures var h := Handle(old(a), old(frame.View()), wantBinary);
              a == h.a && events == old(events) + h.events
      ensures frame.View() == ParserAfter(old(frame.View()))
    {
      if !frame.judged.isvalid || frame.mask != 0 {
        Emit(ProtocolError);
        a := a.(open := false);
        return;
      }
      var opcode, final := frame.head.opcode, frame.head.final;
      var payload := if frame.judged.haserror then [] else frame.payload;
      frame.Clear();
      if opcode == OP_PING {
        Emit(SendPong(payload));
      } else if opcode == OP_CLOSE {
        Emit(PeerClosed(payload));
        a := a.(open := false);
      } else if opcode != OP_PONG {
        TakeData(opcode, payload, final);
      }
    }

    method TakeData(opcode: int, payload: seq<Byte>, final: bool)
      modifies this
      ensures inbuf == old(inbuf)
      ensures var h := HandleData(old(a), opcode, payload, final, wantBinary);
              a == h.a && events == old(events) + h.events
    {
      if (opcode == OP_CONTINUE) != a.inMessage {
        Emit(ProtocolError);
        a := a.(open := false);
        return;
      }
      if opcode != OP_CONTINUE {
        a := a.(message := [], binaryMessage := opcode == OP_BINARY);
      }
      a := a.(message := a.message + payload, inMessage := !final);
      if |a.message| > MAX_MESSAGE {
        Emit(TooBig);
        a := a.(open := false);
        return;
      }
      if final && a.binaryMessage == wantBinary {
        Emit(Deliver(a.message));
      }
    }

    method Emit(e: Event)
      modifies this`events
      ensures events == old(events) + [e]
    {
      events := events + [e];
    }
  }
}
