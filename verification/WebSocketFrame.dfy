/** The incremental WebSocket frame parser and the frame printer of src/lib/WebSocketFrame.cpp
    (RFC 6455, sections 5.2 to 5.5). */
module WebSocketFrames {
  import opened Bytes

  const MAX_FRAME_SIZE: int := 4 * 1024 * 1024

  const OP_CONTINUE: int := 0x0
  const OP_TEXT: int := 0x1
  const OP_BINARY: int := 0x2
  const OP_CLOSE: int := 0x8
  const OP_PING: int := 0x9
  const OP_PONG: int := 0xA

  const CLOSE_NORMAL: int := 1000
  const CLOSE_PROTOCOL_ERROR: int := 1002
  const CLOSE_TOO_MUCH_DATA: int := 1009

  /** The states the program ever assigns; StateNeedMoreData is declared there and never used. */
  datatype Phase = ReadHeader | ReadPayloadLength | ReadBigPayloadLength | ReadMask | ReadPayload

  /** The fields read off the two header bytes. */
  datatype Header = Header(final: bool, rsv1: int, rsv2: int, rsv3: int, opcode: int, maskbit: bool)

  /** The fields that tell what became of the frame. */
  datatype Judgement = Judgement(closeCode: int, closeReason: string, isvalid: bool, haserror: bool)

  /** The fields of a WebSocketFrame object, as a value. */
  datatype Parser = Parser(
    phase: Phase,
    head: Header,
    mask: int,
    payloadLength: int,
    payload: seq<Byte>,
    judged: Judgement)
  {
    ghost predicate Ok() {
      && 0 <= mask < 0x1_0000_0000
      && 0 <= head.opcode < 16
      && 0 <= payloadLength
    }

    /** What every call leaves: a payload still to be read is neither empty nor above the limit. */
    ghost predicate Live() {
      && Ok()
      && (phase == ReadMask || phase == ReadPayload ==> payloadLength <= MAX_FRAME_SIZE)
      && (phase == ReadPayload ==> payloadLength > 0)
    }

    function Refused(code: int, reason: string, error: bool): Parser {
      this.(judged := Judgement(code, reason, false, error))
    }

    function Flagged(): Parser {
      this.(judged := judged.(haserror := true))
    }
  }

  /** What clear() leaves. */
  const CLEARED: Parser :=
    Parser(ReadHeader, Header(true, 0, 0, 0, OP_CLOSE, false), 0, 0, [], Judgement(CLOSE_NORMAL, "", false, false))

  /** `opcode & 0x08`: the opcode is a 4-bit field. */
  predicate IsControl(opcode: int) { opcode >= 8 }

  predicate IsReserved(opcode: int) { OP_BINARY < opcode < OP_CLOSE || opcode > OP_PONG }

  /** Why checkValid() refuses a header, empty when it does not. */
  function HeaderFault(p: Parser): string {
    if p.head.rsv1 != 0 || p.head.rsv2 != 0 || p.head.rsv3 != 0 then "RSV fields are non zero"
    else if IsReserved(p.head.opcode) then "Use of reserved opcode"
    else if IsControl(p.head.opcode) && p.payloadLength > 125 then "Control frame is too big"
    else if IsControl(p.head.opcode) && !p.head.final then "Control frame cannot be fragmented"
    else ""
  }

  function CheckedValid(p: Parser): (q: Parser)
    requires p.Ok()
    ensures q.Ok() && q.phase == p.phase
  {
    var fault := HeaderFault(p);
    if fault == "" then p.(judged := p.judged.(isvalid := true))
    else p.Refused(CLOSE_PROTOCOL_ERROR, fault, true)
  }

  /** One turn of the loop of processFrameData: it waits for more bytes, or erases the first `used`
      bytes of `data` and goes on, or erases them and ends the call. */
  datatype Turn = NeedMore | Next(p: Parser, used: nat) | Finished(p: Parser, used: nat)
  {
    ghost predicate Ok(available: nat) {
      && (!NeedMore? ==> p.Ok() && used <= available)
      && (Next? ==> 0 < used)
      && (Finished? ==> p.phase == ReadHeader)
    }

    ghost predicate Live() {
      !NeedMore? ==> p.Live() && 0 < used
    }
  }

  function AfterLength(p: Parser, length: nat): Parser {
    p.(payloadLength := length, phase := if p.head.maskbit then ReadMask else ReadPayload)
  }

  function HeaderOf(b0: Byte, maskbit: bool): (h: Header)
    ensures 0 <= h.opcode < 16
  {
    var high := b0 / 0x10;
    Header(high >= 8,
           if high % 8 >= 4 then 0x40 else 0,
           if high % 4 >= 2 then 0x20 else 0,
           if high % 2 == 1 then 0x10 else 0,
           b0 % 0x10,
           maskbit)
  }

  function HeaderFields(p: Parser, b0: Byte, b1: Byte): (q: Parser)
    requires p.Ok()
    ensures q.Ok()
  {
    var length: nat := b1 % 0x80;
    var maskbit := b1 >= 0x80;
    p.(head := HeaderOf(b0, maskbit),
       payloadLength := length,
       phase := if length == 126 then ReadPayloadLength
                else if length == 127 then ReadBigPayloadLength
                else if maskbit then ReadMask else ReadPayload)
  }

  function HeaderTurn(p: Parser, b0: Byte, b1: Byte): (t: Turn)
    requires p.Ok()
    ensures t.Ok(2)
  {
    var q := CheckedValid(HeaderFields(p, b0, b1));
    if q.judged.haserror then Finished(q.(phase := ReadHeader), 2)
    else if q.phase == ReadPayload && q.payloadLength == 0 then
      Finished(q.Flagged().(phase := ReadHeader), 2)
    else Next(q, 2)
  }

  datatype Fault = Sound | Fault(code: int, reason: string)

  function SmallLengthFault(length: nat): Fault {
    if length < 126 then Fault(CLOSE_PROTOCOL_ERROR, "Frame smaller than 126 must be expressed as one byte")
    else Sound
  }

  function BigLengthFault(length: nat): Fault {
    if length >= 0x8000_0000_0000_0000 then Fault(CLOSE_PROTOCOL_ERROR, "Highest bit of payload length is not 0")
    else if length <= 0xFFFF then
      Fault(CLOSE_PROTOCOL_ERROR, "Frame smaller than 65536 (2^16) must be expressed as 2 bytes")
    else if length > MAX_FRAME_SIZE then Fault(CLOSE_TOO_MUCH_DATA, "Maximum framesize exceeded")
    else Sound
  }

  function LengthTurn(p: Parser, length: nat, fault: Fault, used: nat): (t: Turn)
    requires p.Ok() && used > 0
    ensures t.Ok(used)
  {
    if fault.Fault? then
      var q := p.Refused(fault.code, fault.reason, p.judged.haserror);
      Finished(q.(payloadLength := length, phase := ReadHeader), used)
    else Next(AfterLength(p, length), used)
  }

  function BigLength(data: seq<Byte>): (n: nat)
    requires |data| >= 8
  {
    Word(data[0], data[1], data[2], data[3]) * 0x1_0000_0000 + Word(data[4], data[5], data[6], data[7])
  }

  function SmallLengthTurn(p: Parser, length: nat): (t: Turn)
    requires p.Ok()
    ensures t.Ok(2)
  {
    LengthTurn(p, length, SmallLengthFault(length), 2)
  }

  function BigLengthTurn(p: Parser, length: nat): (t: Turn)
    requires p.Ok()
    ensures t.Ok(8)
  {
    LengthTurn(p, length, BigLengthFault(length), 8)
  }

  function MaskTurn(p: Parser, key: int): (t: Turn)
    requires p.Ok() && 0 <= key < 0x1_0000_0000
    ensures t.Ok(4)
  {
    if p.payloadLength == 0 then Finished(p.Flagged().(mask := key, phase := ReadHeader), 4)
    else Next(p.(mask := key, phase := ReadPayload), 4)
  }

  function PayloadTurn(p: Parser, data: seq<Byte>): (t: Turn)
    requires p.Ok()
    ensures t.Ok(|data|) && !t.Next?
  {
    if p.payloadLength == 0 then Finished(p.Flagged().(phase := ReadHeader), 0)
    else if p.payloadLength > MAX_FRAME_SIZE then
      Finished(p.Refused(CLOSE_TOO_MUCH_DATA, "Maximum framesize exceeded", p.judged.haserror).(phase := ReadHeader), 0)
    else if |data| < p.payloadLength then NeedMore
    else
      var raw := data[..p.payloadLength];
      Finished(p.(payload := if p.head.maskbit then Masked(raw, p.mask) else raw, phase := ReadHeader),
               p.payloadLength)
  }

  function Step(p: Parser, data: seq<Byte>): (t: Turn)
    requires p.Ok()
    ensures t.Ok(|data|) && (p.Live() ==> t.Live())
  {
    match p.phase
    case ReadHeader => if |data| < 2 then NeedMore else HeaderTurn(p, data[0], data[1])
    case ReadPayloadLength => if |data| < 2 then NeedMore else SmallLengthTurn(p, Word(0, 0, data[0], data[1]))
    case ReadBigPayloadLength => if |data| < 8 then NeedMore else BigLengthTurn(p, BigLength(data))
    case ReadMask => if |data| < 4 then NeedMore else MaskTurn(p, Word(data[0], data[1], data[2], data[3]))
    case ReadPayload => PayloadTurn(p, data)
  }

  /** The fields, the bytes left in `data` and the result of one processFrameData(data) call. */
  datatype Outcome = Outcome(p: Parser, rest: seq<Byte>, finished: bool)

  function Run(p: Parser, data: seq<Byte>): (o: Outcome)
    requires p.Ok()
    ensures o.p.Ok() && |o.rest| <= |data|
    decreases |data|
  {
    if data == [] then Outcome(p, data, false)
    else
      match Step(p, data)
      case NeedMore => Outcome(p, data, false)
      case Next(q, used) => Run(q, data[used..])
      case Finished(q, used) => Outcome(q, data[used..], true)
  }

  /** What is left is a tail of the input, a finished call waits for a header again, and no call that
      finishes leaves every byte in place: the loops around processFrameData end. */
  lemma {:induction false} RunFacts(p: Parser, data: seq<Byte>)
    requires p.Ok()
    ensures var o := Run(p, data);
            && o.rest == data[|data| - |o.rest|..]
            && (o.finished ==> o.p.phase == ReadHeader)
            && (p.Live() ==> o.p.Live() && (o.finished ==> |o.rest| < |data|))
    decreases |data|
  {
    hide Step;
    if data != [] && Step(p, data).Next? {
      RunFacts(Step(p, data).p, data[Step(p, data).used..]);
    }
  }

  // ----- masking -----

  function Masked(s: seq<Byte>, key: int): (r: seq<Byte>)
    requires 0 <= key < 0x1_0000_0000
    ensures |r| == |s|
  {
    seq(|s|, i requires 0 <= i < |s| => Xor(s[i], WordBytes(key)[i % 4]))
  }

  /** Unmasking is masking again with the same key. */
  lemma MaskedTwice(s: seq<Byte>, key: int)
    requires 0 <= key < 0x1_0000_0000
    ensures Masked(Masked(s, key), key) == s
  {
    forall i | 0 <= i < |s|
      ensures Masked(Masked(s, key), key)[i] == s[i]
    {
      XorTwice(s[i], WordBytes(key)[i % 4]);
    }
  }

  // ----- the printer -----

  function HeadByte(opcode: nat, last: bool): Byte {
    opcode % 0x10 + if last then 0x80 else 0
  }

  /** The 7-bit length code of a payload of n bytes. */
  function LengthCode(n: nat): nat {
    if n <= 125 then n else if n <= 0xFFFF then 126 else 127
  }

  /** The bytes of the extended length, in the shortest form. */
  function LengthBytes(n: nat): seq<Byte>
    requires n < 0x8000_0000_0000_0000
  {
    if n <= 125 then []
    else if n <= 0xFFFF then WordBytes(n)[2..]
    else WordBytes(n / 0x1_0000_0000) + WordBytes(n % 0x1_0000_0000)
  }

  function LengthPart(n: nat, masked: bool): seq<Byte>
    requires n < 0x8000_0000_0000_0000
  {
    [LengthCode(n) + if masked then 0x80 else 0] + LengthBytes(n)
  }

  function Tail(payload: seq<Byte>, masked: bool, key: int): seq<Byte>
    requires 0 <= key < 0x1_0000_0000
  {
    if masked then WordBytes(key) + Masked(payload, key) else payload
  }

  /** The frame of RFC 6455 section 5.2, with the mask bit chosen apart from the key. */
  function Encoded(opcode: nat, payload: seq<Byte>, last: bool, masked: bool, key: int): seq<Byte>
    requires 0 <= key < 0x1_0000_0000 && |payload| < 0x8000_0000_0000_0000
  {
    [HeadByte(opcode, last)] + LengthPart(|payload|, masked) + Tail(payload, masked, key)
  }

  /** What makeFrame returns: a zero key means no masking. */
  function Frame(opcode: nat, payload: seq<Byte>, last: bool, key: int): seq<Byte>
    requires 0 <= key < 0x1_0000_0000
  {
    if |payload| >= 0x8000_0000_0000_0000 then []
    else Encoded(opcode, payload, last, key != 0, key)
  }

  // ----- chunk independence -----

  /** A turn that did not ask for more is the same turn whatever bytes follow. */
  lemma StepAppend(p: Parser, a: seq<Byte>, b: seq<Byte>)
    requires p.Ok() && !Step(p, a).NeedMore?
    ensures Step(p, a + b) == Step(p, a)
  {
    match p.phase
    case ReadHeader =>
    case ReadPayloadLength =>
    case ReadBigPayloadLength => assert BigLength(a + b) == BigLength(a);
    case ReadMask =>
    case ReadPayload =>
      if 0 < p.payloadLength <= MAX_FRAME_SIZE {
        assert (a + b)[..p.payloadLength] == a[..p.payloadLength];
      }
  }

  /** Cutting the input anywhere changes nothing: a call on `a` that asks for more, followed by a call
      on its residue and `b`, gives the fields, residue and result of one call on `a + b`; a call that
      finishes on `a` leaves `b` untouched. For every byte string, malformed ones included. */
  lemma {:induction false} RunAppend(p: Parser, a: seq<Byte>, b: seq<Byte>)
    requires p.Ok()
    ensures var o := Run(p, a);
            Run(p, a + b) == if o.finished then Outcome(o.p, o.rest + b, true) else Run(o.p, o.rest + b)
    decreases |a|
  {
    if a == [] {
      assert a + b == b;
    } else if !Step(p, a).NeedMore? {
      var t := Step(p, a);
      StepAppend(p, a, b);
      assert (a + b)[t.used..] == a[t.used..] + b;
      if t.Next? { RunAppend(t.p, a[t.used..], b); }
    }
  }

  // ----- the parser inverts the printer -----

  /** The frames this server accepts. */
  predicate Acceptable(opcode: int, length: nat, last: bool) {
    && 0 <= opcode < 16 && !IsReserved(opcode)
    && length <= MAX_FRAME_SIZE
    && (IsControl(opcode) ==> length <= 125 && last)
  }

  /** A header read, the length known, what remains is the key and the payload. */
  ghost predicate AtTail(p: Parser) {
    p.Ok() && p.phase == (if p.head.maskbit then ReadMask else ReadPayload) && p.payloadLength <= MAX_FRAME_SIZE
    && (!p.head.maskbit ==> p.payloadLength > 0)
  }

  function TailRead(p: Parser, payload: seq<Byte>, key: int): Parser {
    if payload == [] then p.Flagged().(mask := key, phase := ReadHeader)
    else p.(mask := if p.head.maskbit then key else p.mask, payload := payload, phase := ReadHeader)
  }

  lemma PayloadForward(p: Parser, payload: seq<Byte>, rest: seq<Byte>)
    requires p.Ok() && p.phase == ReadPayload && 0 < p.payloadLength == |payload| <= MAX_FRAME_SIZE
    ensures var wire := if p.head.maskbit then Masked(payload, p.mask) else payload;
            Run(p, wire + rest) == Outcome(p.(payload := payload, phase := ReadHeader), rest, true)
  {
    var wire := if p.head.maskbit then Masked(payload, p.mask) else payload;
    var data := wire + rest;
    assert data[..p.payloadLength] == wire && data[p.payloadLength..] == rest;
    MaskedTwice(payload, p.mask);
  }

  lemma KeyForward(key: int, t: seq<Byte>)
    requires 0 <= key < 0x1_0000_0000
    ensures var data := WordBytes(key) + t;
            data[4..] == t && Word(data[0], data[1], data[2], data[3]) == key
  {
    BytesOfWord(key);
  }

  lemma KeyBackward(data: seq<Byte>)
    requires |data| >= 4
    ensures data == WordBytes(Word(data[0], data[1], data[2], data[3])) + data[4..]
  {
    WordOfBytes(data[0], data[1], data[2], data[3]);
  }

  lemma TailForward(p: Parser, payload: seq<Byte>, key: int, rest: seq<Byte>)
    requires AtTail(p) && p.payloadLength == |payload| && 0 <= key < 0x1_0000_0000
    ensures Run(p, Tail(payload, p.head.maskbit, key) + rest) == Outcome(TailRead(p, payload, key), rest, true)
  {
    if p.head.maskbit {
      var body := Masked(payload, key) + rest;
      var data := WordBytes(key) + body;
      assert Tail(payload, true, key) + rest == data;
      KeyForward(key, body);
      assert Step(p, data) == MaskTurn(p, key);
      if payload == [] {
        assert body == rest;
      } else {
        PayloadForward(p.(mask := key, phase := ReadPayload), payload, rest);
      }
    } else {
      PayloadForward(p, payload, rest);
    }
  }

  lemma PayloadBackward(p: Parser, data: seq<Byte>)
    requires p.Ok() && p.phase == ReadPayload && 0 < p.payloadLength <= MAX_FRAME_SIZE
    requires Run(p, data).finished
    ensures var o := Run(p, data);
            && |o.p.payload| == p.payloadLength
            && data == (if p.head.maskbit then Masked(o.p.payload, p.mask) else o.p.payload) + o.rest
            && o.p == p.(payload := o.p.payload, phase := ReadHeader)
  {
    var n := p.payloadLength;
    assert n <= |data|;
    MaskedTwice(data[..n], p.mask);
    assert data == data[..n] + data[n..];
  }

  lemma KeyedTailBackward(p: Parser, data: seq<Byte>)
    requires AtTail(p) && p.head.maskbit && p.payload == [] && Run(p, data).finished
    ensures var o := Run(p, data);
            && |o.p.payload| == p.payloadLength
            && o.p == TailRead(p, o.p.payload, o.p.mask)
            && data == Tail(o.p.payload, true, o.p.mask) + o.rest
  {
    var o := Run(p, data);
    var key := Word(data[0], data[1], data[2], data[3]);
    assert data == WordBytes(key) + data[4..] by { KeyBackward(data); }
    var t := MaskTurn(p, key);
    assert Step(p, data) == t;
    if t.Next? {
      assert o == Run(t.p, data[4..]);
      PayloadBackward(t.p, data[4..]);
    } else {
      assert o == Outcome(t.p, data[4..], true);
      assert Masked([], key) == [];
    }
    Assoc(WordBytes(key), Masked(o.p.payload, key), o.rest);
  }

  lemma TailBackward(p: Parser, data: seq<Byte>)
    requires AtTail(p) && p.payload == [] && Run(p, data).finished
    ensures var o := Run(p, data);
            && |o.p.payload| == p.payloadLength
            && o.p == TailRead(p, o.p.payload, o.p.mask)
            && data == Tail(o.p.payload, p.head.maskbit, o.p.mask) + o.rest
  {
    if p.head.maskbit {
      KeyedTailBackward(p, data);
    } else {
      PayloadBackward(p, data);
    }
  }

  ghost predicate AtLength(p: Parser) {
    && p.Ok()
    && p.phase == (if p.payloadLength == 126 then ReadPayloadLength
                   else if p.payloadLength == 127 then ReadBigPayloadLength
                   else if p.head.maskbit then ReadMask else ReadPayload)
    && p.payloadLength <= 127
    && (!p.head.maskbit ==> p.payloadLength > 0)
  }

  lemma SmallLengthForward(n: nat, t: seq<Byte>)
    requires 125 < n <= 0xFFFF
    ensures var data := LengthBytes(n) + t;
            |data| >= 2 && data[2..] == t && Word(0, 0, data[0], data[1]) == n
  {
    BytesOfWord(n);
  }

  lemma BigLengthForward(n: nat, t: seq<Byte>)
    requires 0xFFFF < n <= MAX_FRAME_SIZE
    ensures var data := LengthBytes(n) + t;
            |data| >= 8 && data[8..] == t && BigLength(data) == n
  {
    var w := WordBytes(n);
    BytesOfWord(n);
    assert n / 0x1_0000_0000 == 0 && n % 0x1_0000_0000 == n;
    assert LengthBytes(n) + t == [0, 0, 0, 0, w[0], w[1], w[2], w[3]] + t;
  }

  lemma LengthForward(p: Parser, n: nat, t: seq<Byte>)
    requires AtLength(p) && n <= MAX_FRAME_SIZE && p.payloadLength == LengthCode(n)
    ensures AtTail(AfterLength(p, n))
    ensures Run(p, LengthBytes(n) + t) == Run(AfterLength(p, n), t)
  {
    var data := LengthBytes(n) + t;
    if n <= 125 {
      assert data == t && p == AfterLength(p, n);
    } else if n <= 0xFFFF {
      SmallLengthForward(n, t);
      assert Step(p, data) == SmallLengthTurn(p, n);
    } else {
      BigLengthForward(n, t);
      assert Step(p, data) == BigLengthTurn(p, n);
    }
  }

  lemma BigLengthBackward(data: seq<Byte>)
    requires |data| >= 8 && 0xFFFF < BigLength(data) <= MAX_FRAME_SIZE
    ensures data == LengthBytes(BigLength(data)) + data[8..]
  {
    var hi, lo := Word(data[0], data[1], data[2], data[3]), Word(data[4], data[5], data[6], data[7]);
    WordOfBytes(data[0], data[1], data[2], data[3]);
    WordOfBytes(data[4], data[5], data[6], data[7]);
    assert hi == 0;
    assert BigLength(data) / 0x1_0000_0000 == hi && BigLength(data) % 0x1_0000_0000 == lo;
  }

  lemma SmallLengthBackward(data: seq<Byte>)
    requires |data| >= 2 && 126 <= Word(0, 0, data[0], data[1])
    ensures Word(0, 0, data[0], data[1]) <= 0xFFFF
    ensures data == LengthBytes(Word(0, 0, data[0], data[1])) + data[2..]
  {
    WordOfBytes(0, 0, data[0], data[1]);
  }

  lemma RefusedStaysRefused(p: Parser, data: seq<Byte>)
    requires p.Ok() && data != [] && Step(p, data).Finished?
    ensures Run(p, data) == Outcome(Step(p, data).p, data[Step(p, data).used..], true)
  {
  }

  /** Only a length in its shortest form, and within the limit, leaves the frame valid. */
  lemma LengthBackward(p: Parser, data: seq<Byte>) returns (n: nat, t: seq<Byte>)
    requires AtLength(p) && Run(p, data).finished && Run(p, data).p.judged.isvalid
    ensures n <= MAX_FRAME_SIZE && p.payloadLength == LengthCode(n)
    ensures AtTail(AfterLength(p, n))
    ensures data == LengthBytes(n) + t && Run(p, data) == Run(AfterLength(p, n), t)
  {
    if p.payloadLength == 126 {
      n, t := SmallLengthRead(p, data);
    } else if p.payloadLength == 127 {
      n, t := BigLengthRead(p, data);
    } else {
      n, t := p.payloadLength, data;
      assert p == AfterLength(p, n);
    }
  }

  lemma SmallLengthRead(p: Parser, data: seq<Byte>) returns (n: nat, t: seq<Byte>)
    requires AtLength(p) && p.payloadLength == 126 && Run(p, data).finished && Run(p, data).p.judged.isvalid
    ensures 125 < n <= 0xFFFF && data == LengthBytes(n) + t && Run(p, data) == Run(AfterLength(p, n), t)
  {
    n, t := Word(0, 0, data[0], data[1]), data[2..];
    var turn := SmallLengthTurn(p, n);
    assert Step(p, data) == turn;
    if turn.Finished? {
      RefusedStaysRefused(p, data);
      assert false;
    }
    SmallLengthBackward(data);
  }

  lemma BigLengthRead(p: Parser, data: seq<Byte>) returns (n: nat, t: seq<Byte>)
    requires AtLength(p) && p.payloadLength == 127 && Run(p, data).finished && Run(p, data).p.judged.isvalid
    ensures 0xFFFF < n <= MAX_FRAME_SIZE && data == LengthBytes(n) + t && Run(p, data) == Run(AfterLength(p, n), t)
  {
    n, t := BigLength(data), data[8..];
    var turn := BigLengthTurn(p, n);
    assert Step(p, data) == turn;
    if turn.Finished? {
      RefusedStaysRefused(p, data);
      assert false;
    }
    BigLengthBackward(data);
  }

  /** The fields after a header that checkValid() accepts. */
  function HeaderRead(opcode: nat, last: bool, masked: bool, code: nat): Parser {
    CLEARED.(head := Header(last, 0, 0, 0, opcode, masked), payloadLength := code,
             judged := Judgement(CLOSE_NORMAL, "", true, false),
             phase := if code == 126 then ReadPayloadLength
                      else if code == 127 then ReadBigPayloadLength
                      else if masked then ReadMask else ReadPayload)
  }

  predicate HeaderAcceptable(opcode: nat, last: bool, code: nat) {
    opcode < 16 && !IsReserved(opcode) && (IsControl(opcode) ==> code <= 125 && last)
  }

  function HeaderOutcome(p: Parser): Turn {
    if p.phase == ReadPayload && p.payloadLength == 0 then Finished(p.Flagged().(phase := ReadHeader), 2)
    else Next(p, 2)
  }

  lemma HeaderForward(opcode: nat, last: bool, masked: bool, code: nat)
    requires code <= 127 && HeaderAcceptable(opcode, last, code)
    ensures HeaderTurn(CLEARED, HeadByte(opcode, last), code + if masked then 0x80 else 0)
         == HeaderOutcome(HeaderRead(opcode, last, masked, code))
  {
    assert HeadByte(opcode, last) / 0x10 == if last then 8 else 0;
  }

  lemma HeaderBackward(b0: Byte, b1: Byte)
    ensures var t := HeaderTurn(CLEARED, b0, b1);
            var last, masked, opcode, code := b0 / 0x10 >= 8, b1 >= 0x80, b0 % 0x10, b1 % 0x80;
            if b0 / 0x10 % 8 == 0 && HeaderAcceptable(opcode, last, code) then
              && b0 == HeadByte(opcode, last) && b1 == code + (if masked then 0x80 else 0)
              && t == HeaderOutcome(HeaderRead(opcode, last, masked, code))
            else t.Finished? && !t.p.judged.isvalid && t.p.judged.haserror
                 && t.p.judged.closeCode == CLOSE_PROTOCOL_ERROR
  {
  }

  /** The fields after a whole frame. */
  function FrameRead(opcode: nat, payload: seq<Byte>, last: bool, masked: bool, key: int): Parser {
    CLEARED.(head := Header(last, 0, 0, 0, opcode, masked), mask := if masked then key else 0,
             payloadLength := |payload|, payload := payload,
             judged := Judgement(CLOSE_NORMAL, "", true, payload == []))
  }

  lemma EncodedSplit(opcode: nat, payload: seq<Byte>, last: bool, masked: bool, key: int, rest: seq<Byte>)
    requires 0 <= key < 0x1_0000_0000 && |payload| < 0x8000_0000_0000_0000
    ensures var data := Encoded(opcode, payload, last, masked, key) + rest;
            && |data| >= 2
            && data[0] == HeadByte(opcode, last)
            && data[1] == LengthCode(|payload|) + (if masked then 0x80 else 0)
            && data[2..] == LengthBytes(|payload|) + (Tail(payload, masked, key) + rest)
  {
    var lb, tail := LengthBytes(|payload|), Tail(payload, masked, key);
    var h := [HeadByte(opcode, last), LengthCode(|payload|) + if masked then 0x80 else 0];
    assert [HeadByte(opcode, last)] + LengthPart(|payload|, masked) == h + lb;
    Assoc(h, lb, tail);
    Assoc(h, lb + tail, rest);
    Assoc(lb, tail, rest);
  }

  lemma BodyForward(p: Parser, payload: seq<Byte>, key: int, rest: seq<Byte>)
    requires AtLength(p) && |payload| <= MAX_FRAME_SIZE && p.payloadLength == LengthCode(|payload|)
    requires 0 <= key < 0x1_0000_0000
    ensures Run(p, LengthBytes(|payload|) + (Tail(payload, p.head.maskbit, key) + rest))
         == Outcome(TailRead(AfterLength(p, |payload|), payload, key), rest, true)
  {
    LengthForward(p, |payload|, Tail(payload, p.head.maskbit, key) + rest);
    TailForward(AfterLength(p, |payload|), payload, key, rest);
  }

  lemma HeaderStage(opcode: nat, last: bool, masked: bool, code: nat, data: seq<Byte>)
    requires code <= 127 && HeaderAcceptable(opcode, last, code)
    requires |data| >= 2 && data[0] == HeadByte(opcode, last) && data[1] == code + if masked then 0x80 else 0
    ensures var p := HeaderRead(opcode, last, masked, code);
            Run(CLEARED, data)
            == if !masked && code == 0 then Outcome(p.Flagged().(phase := ReadHeader), data[2..], true)
                                  else Run(p, data[2..])
  {
    HeaderForward(opcode, last, masked, code);
    assert Step(CLEARED, data) == HeaderOutcome(HeaderRead(opcode, last, masked, code));
  }

  /** Whatever is printed comes back: the parser finishes on exactly the printed bytes, with the printed
      opcode, payload, FIN bit and key. An empty payload is flagged as an error and stays valid. */
  lemma RoundTrip(opcode: nat, payload: seq<Byte>, last: bool, masked: bool, key: int, rest: seq<Byte>)
    requires Acceptable(opcode, |payload|, last) && 0 <= key < 0x1_0000_0000
    ensures Run(CLEARED, Encoded(opcode, payload, last, masked, key) + rest)
         == Outcome(FrameRead(opcode, payload, last, masked, key), rest, true)
  {
    hide Run, Encoded;
    var code := LengthCode(|payload|);
    var data := Encoded(opcode, payload, last, masked, key) + rest;
    EncodedSplit(opcode, payload, last, masked, key, rest);
    HeaderStage(opcode, last, masked, code, data);
    if !masked && payload == [] {
      assert data[2..] == rest;
    } else {
      BodyForward(HeaderRead(opcode, last, masked, code), payload, key, rest);
    }
  }

  lemma BodyBackward(p: Parser, data: seq<Byte>)
    requires AtLength(p) && p.payload == [] && Run(p, data).finished && Run(p, data).p.judged.isvalid
    ensures var o := Run(p, data);
            && |o.p.payload| <= MAX_FRAME_SIZE && p.payloadLength == LengthCode(|o.p.payload|)
            && o.p == TailRead(AfterLength(p, |o.p.payload|), o.p.payload, o.p.mask)
            && data == LengthBytes(|o.p.payload|) + (Tail(o.p.payload, p.head.maskbit, o.p.mask) + o.rest)
  {
    var n, t := LengthBackward(p, data);
    TailBackward(AfterLength(p, n), t);
  }

  ghost predicate ReadOff(data: seq<Byte>, o: Outcome) {
    && o.p.Ok()
    && |data| >= 2
    && Acceptable(o.p.head.opcode, |o.p.payload|, o.p.head.final)
    && o.p == FrameRead(o.p.head.opcode, o.p.payload, o.p.head.final, o.p.head.maskbit, o.p.mask)
    && data[0] == HeadByte(o.p.head.opcode, o.p.head.final)
    && data[1] == LengthCode(|o.p.payload|) + (if o.p.head.maskbit then 0x80 else 0)
    && data[2..] == LengthBytes(|o.p.payload|) + (Tail(o.p.payload, o.p.head.maskbit, o.p.mask) + o.rest)
  }

  lemma EmptyReadOff(data: seq<Byte>, t: Turn)
    requires |data| >= 2 && t == HeaderTurn(CLEARED, data[0], data[1]) && t.Finished? && t.p.judged.isvalid
    ensures ReadOff(data, Outcome(t.p, data[2..], true))
  {
    HeaderBackward(data[0], data[1]);
    assert LengthBytes(0) + (Tail([], false, 0) + data[2..]) == data[2..];
  }

  lemma BodyReadOff(data: seq<Byte>, t: Turn)
    requires |data| >= 2 && t == HeaderTurn(CLEARED, data[0], data[1]) && t.Next?
    requires Run(t.p, data[2..]).finished && Run(t.p, data[2..]).p.judged.isvalid
    ensures ReadOff(data, Run(t.p, data[2..]))
  {
    HeaderBackward(data[0], data[1]);
    BodyBackward(t.p, data[2..]);
  }

  lemma ValidFields(data: seq<Byte>)
    requires Run(CLEARED, data).finished && Run(CLEARED, data).p.judged.isvalid
    ensures ReadOff(data, Run(CLEARED, data))
  {
    var t := HeaderTurn(CLEARED, data[0], data[1]);
    assert Step(CLEARED, data) == t;
    if t.Finished? { EmptyReadOff(data, t); } else { BodyReadOff(data, t); }
  }

  /** A frame called valid has been read off exactly its own encoding. */
  lemma ValidIsEncoded(data: seq<Byte>)
    requires Run(CLEARED, data).finished && Run(CLEARED, data).p.judged.isvalid
    ensures var o := Run(CLEARED, data);
            && Acceptable(o.p.head.opcode, |o.p.payload|, o.p.head.final)
            && o.p == FrameRead(o.p.head.opcode, o.p.payload, o.p.head.final, o.p.head.maskbit, o.p.mask)
            && data == Encoded(o.p.head.opcode, o.p.payload, o.p.head.final, o.p.head.maskbit, o.p.mask) + o.rest
  {
    ValidFields(data);
    var o := Run(CLEARED, data);
    EncodedSplit(o.p.head.opcode, o.p.payload, o.p.head.final, o.p.head.maskbit, o.p.mask, o.rest);
    SameSplit(data, Encoded(o.p.head.opcode, o.p.payload, o.p.head.final, o.p.head.maskbit, o.p.mask) + o.rest);
  }

  lemma SameSplit<T>(a: seq<T>, b: seq<T>)
    requires |a| >= 2 && |b| >= 2 && a[0] == b[0] && a[1] == b[1] && a[2..] == b[2..]
    ensures a == b
  {
    assert a == [a[0], a[1]] + a[2..];
    assert b == [b[0], b[1]] + b[2..];
  }

  // ----- the bytes on the wire -----

  /** Where the key or the payload starts: after two bytes, or two or eight more that hold the length. */
  function HeaderSize(n: nat): nat { if n < 126 then 2 else if n < 0x1_0000 then 4 else 10 }

  /** The number whose bytes these are, the highest one first. */
  function BigEndian(s: seq<Byte>): nat {
    if s == [] then 0
    else
      var high: nat := BigEndian(s[..|s| - 1]);
      high * 256 + s[|s| - 1]
  }

  /** FIN and opcode, the mask bit and the length, which is big-endian when it does not fit in seven bits. */
  ghost predicate HeadLaid(data: seq<Byte>, opcode: nat, last: bool, masked: bool, n: nat) {
    var at := HeaderSize(n);
    && |data| >= at
    && data[0] == opcode + (if last then 128 else 0)
    && data[1] == (if at == 2 then n else if at == 4 then 126 else 127) + (if masked then 128 else 0)
    && (at > 2 ==> n == BigEndian(data[2..at]))
  }

  /** The key, and the payload under the key. */
  ghost predicate TailLaid(data: seq<Byte>, at: nat, masked: bool, key: int, payload: seq<Byte>) {
    && |data| >= at + (if masked then 4 else 0) + |payload|
    && (masked ==> key == BigEndian(data[at..at + 4])
                   && forall i: nat | i < |payload| :: payload[i] == Xor(data[at + 4 + i], data[at + i % 4]))
    && (!masked ==> data[at..at + |payload|] == payload)
  }

  /** The first bytes of `data` are a frame as section 5.2 of RFC 6455 draws it. */
  ghost predicate Laid(data: seq<Byte>, opcode: nat, last: bool, masked: bool, key: int, payload: seq<Byte>) {
    && HeadLaid(data, opcode, last, masked, |payload|)
    && TailLaid(data, HeaderSize(|payload|), masked, key, payload)
  }

  lemma BigEndianPush(s: seq<Byte>, b: Byte)
    ensures BigEndian(s + [b]) == BigEndian(s) * 256 + b as int
  {
    assert (s + [b])[..|s|] == s;
  }

  lemma NoBytes()
    ensures BigEndian([]) == 0
  {
  }

  lemma BigEndianFour(s: seq<Byte>, a: Byte, b: Byte, c: Byte, d: Byte)
    ensures BigEndian(s + [a, b, c, d]) == BigEndian(s) * 0x1_0000_0000 + Word(a, b, c, d)
    ensures BigEndian([c, d]) == c * 256 + d
  {
    BigEndianPush(s, a);
    BigEndianPush(s + [a], b);
    BigEndianPush(s + [a] + [b], c);
    BigEndianPush(s + [a] + [b] + [c], d);
    assert s + [a, b, c, d] == s + [a] + [b] + [c] + [d];
    NoBytes();
    BigEndianPush([], c);
    BigEndianPush([] + [c], d);
    assert [c, d] == [] + [c] + [d];
    hide BigEndian;
  }

  lemma BigEndianOf(n: int, s: seq<Byte>)
    requires 0 <= n < 0x1_0000_0000
    ensures BigEndian(s + WordBytes(n)) == BigEndian(s) * 0x1_0000_0000 + n
    ensures n <= 0xFFFF ==> BigEndian(WordBytes(n)[2..]) == n
  {
    var w := WordBytes(n);
    BytesOfWord(n);
    assert n <= 0xFFFF ==> w[0] == 0 && w[1] == 0;
    BigEndianFour(s, w[0], w[1], w[2], w[3]);
    hide BigEndian, WordBytes;
    assert w == [w[0], w[1], w[2], w[3]] && w[2..] == [w[2], w[3]];
  }

  lemma LengthLaid(n: nat)
    requires n < 0x8000_0000_0000_0000
    ensures |LengthBytes(n)| == HeaderSize(n) - 2 && (n > 125 ==> BigEndian(LengthBytes(n)) == n)
  {
    NoBytes();
    if 125 < n <= 0xFFFF {
      BigEndianOf(n, []);
    } else if n > 0xFFFF {
      var high, low := n / 0x1_0000_0000, n % 0x1_0000_0000;
      BigEndianOf(high, []);
      BigEndianOf(low, WordBytes(high));
      assert [] + WordBytes(high) == WordBytes(high);
    }
    hide BigEndian, WordBytes;
  }

  lemma HeadIsLaid(opcode: nat, last: bool, masked: bool, n: nat, rest: seq<Byte>)
    requires n < 0x8000_0000_0000_0000 && opcode < 16
    ensures HeadLaid([HeadByte(opcode, last)] + LengthPart(n, masked) + rest, opcode, last, masked, n)
  {
    LengthLaid(n);
    hide LengthBytes, BigEndian;
    var data := [HeadByte(opcode, last)] + LengthPart(n, masked) + rest;
    assert data[2..HeaderSize(n)] == LengthBytes(n);
  }

  lemma TailIsLaid(head: seq<Byte>, payload: seq<Byte>, masked: bool, key: int, rest: seq<Byte>)
    requires 0 <= key < 0x1_0000_0000
    ensures TailLaid(head + (Tail(payload, masked, key) + rest), |head|, masked, key, payload)
  {
    var data, at := head + (Tail(payload, masked, key) + rest), |head|;
    if masked {
      NoBytes();
      BigEndianOf(key, []);
      assert data[at..at + 4] == [] + WordBytes(key);
      forall i: nat | i < |payload|
        ensures payload[i] == Xor(data[at + 4 + i], data[at + i % 4])
      {
        var m := WordBytes(key)[i % 4];
        XorTwice(payload[i], m);
        assert data[at + 4 + i] == Masked(payload, key)[i] && data[at + i % 4] == m;
      }
      hide BigEndian, WordBytes, Masked;
    } else {
      assert data[at..at + |payload|] == payload;
    }
  }

  lemma EncodedIsLaid(opcode: nat, payload: seq<Byte>, last: bool, masked: bool, key: int, rest: seq<Byte>)
    requires 0 <= key < 0x1_0000_0000 && |payload| < 0x8000_0000_0000_0000 && opcode < 16
    ensures Laid(Encoded(opcode, payload, last, masked, key) + rest, opcode, last, masked, key, payload)
    ensures |Encoded(opcode, payload, last, masked, key)|
         == HeaderSize(|payload|) + (if masked then 4 else 0) + |payload|
  {
    var head := [HeadByte(opcode, last)] + LengthPart(|payload|, masked);
    var tail := Tail(payload, masked, key);
    LengthLaid(|payload|);
    HeadIsLaid(opcode, last, masked, |payload|, tail + rest);
    TailIsLaid(head, payload, masked, key, rest);
    hide HeadLaid, TailLaid, LengthBytes, WordBytes, Masked, BigEndian;
    Assoc(head, tail, rest);
  }

  /** A valid verdict means that the bytes consumed are such a frame, and the fields are what is drawn there. */
  lemma ValidIsLaid(data: seq<Byte>)
    requires Run(CLEARED, data).finished && Run(CLEARED, data).p.judged.isvalid
    ensures var o := Run(CLEARED, data);
            var p := o.p;
            && p.Ok() && Laid(data, p.head.opcode, p.head.final, p.head.maskbit, p.mask, p.payload)
            && |data| - |o.rest| == HeaderSize(|p.payload|) + (if p.head.maskbit then 4 else 0) + |p.payload|
  {
    hide Run, Laid, Encoded;
    ValidIsEncoded(data);
    var o := Run(CLEARED, data);
    EncodedIsLaid(o.p.head.opcode, o.p.payload, o.p.head.final, o.p.head.maskbit, o.p.mask, o.rest);
  }

  /** What makeFrame prints is such a frame, and nothing more. */
  lemma FrameIsLaid(opcode: nat, payload: seq<Byte>, last: bool, key: int)
    requires 0 <= key < 0x1_0000_0000 && |payload| < 0x8000_0000_0000_0000 && opcode < 16
    ensures var data := Frame(opcode, payload, last, key);
            && Laid(data, opcode, last, key != 0, key, payload)
            && |data| == HeaderSize(|payload|) + (if key != 0 then 4 else 0) + |payload|
  {
    EncodedIsLaid(opcode, payload, last, key != 0, key, []);
    assert Frame(opcode, payload, last, key) + [] == Frame(opcode, payload, last, key);
  }

  lemma HelloBits()
    ensures Xor(0x48, 0x37) == 0x7f && Xor(0x65, 0xfa) == 0x9f && Xor(0x6c, 0x21) == 0x4d
  {
    hide Xor;
    XorIs(0x48, 0x37);
    XorIs(0x65, 0xfa);
    XorIs(0x6c, 0x21);
  }

  lemma MoreHelloBits()
    ensures Xor(0x6c, 0x3d) == 0x51 && Xor(0x6f, 0x37) == 0x58
  {
    hide Xor;
    XorIs(0x6c, 0x3d);
    XorIs(0x6f, 0x37);
  }

  const HELLO: seq<Byte> := [0x48, 0x65, 0x6c, 0x6c, 0x6f]

  lemma HelloMasked()
    ensures Tail(HELLO, true, 0x37fa213d) == [0x37, 0xfa, 0x21, 0x3d, 0x7f, 0x9f, 0x4d, 0x51, 0x58]
  {
    hide Xor;
    HelloBits();
    MoreHelloBits();
    WordOfBytes(0x37, 0xfa, 0x21, 0x3d);
    hide WordBytes;
    assert WordBytes(0x37fa213d) == [0x37, 0xfa, 0x21, 0x3d];
    var masked := Masked(HELLO, 0x37fa213d);
    assert masked[0] == 0x7f && masked[1] == 0x9f && masked[2] == 0x4d;
    assert masked[3] == 0x51 && masked[4] == 0x58;
    hide Masked;
    assert masked == [0x7f, 0x9f, 0x4d, 0x51, 0x58];
  }

  /** The masked "Hello" of RFC 6455, section 5.7, printed and parsed. */
  lemma Hello()
    ensures var wire: seq<Byte> := [0x81, 0x85, 0x37, 0xfa, 0x21, 0x3d, 0x7f, 0x9f, 0x4d, 0x51, 0x58];
            && Frame(OP_TEXT, HELLO, true, 0x37fa213d) == wire
            && Run(CLEARED, wire) == Outcome(FrameRead(OP_TEXT, HELLO, true, true, 0x37fa213d), [], true)
  {
    hide Run, Tail;
    HelloMasked();
    RoundTrip(OP_TEXT, HELLO, true, true, 0x37fa213d, []);
    hide FrameRead;
    assert HeadByte(OP_TEXT, true) == 0x81 && LengthPart(5, true) == [0x85];
    hide LengthPart, HeadByte;
    var wire: seq<Byte> := [0x81, 0x85, 0x37, 0xfa, 0x21, 0x3d, 0x7f, 0x9f, 0x4d, 0x51, 0x58];
    assert Encoded(OP_TEXT, HELLO, true, true, 0x37fa213d) == wire;
    assert wire + [] == wire;
  }

  /** The bytes a finished call consumed. */
  function Consumed(data: seq<Byte>): seq<Byte> {
    data[..|data| - |Run(CLEARED, data).rest|]
  }

  /** Every frame called valid reprints to exactly the bytes consumed, if and only if it does not carry a
      mask bit with a zero key: makeFrame takes a zero key as no masking. */
  lemma Reprint(data: seq<Byte>)
    requires Run(CLEARED, data).finished && Run(CLEARED, data).p.judged.isvalid
    ensures var p := Run(CLEARED, data).p;
            Frame(p.head.opcode, p.payload, p.head.final, p.mask) == Consumed(data)
            <==> (p.head.maskbit ==> p.mask != 0)
  {
    ValidIsEncoded(data);
    var o := Run(CLEARED, data);
    RunFacts(CLEARED, data);
    var enc := Encoded(o.p.head.opcode, o.p.payload, o.p.head.final, o.p.head.maskbit, o.p.mask);
    assert Consumed(data) == enc;
    if o.p.head.maskbit && o.p.mask == 0 {
      assert |Frame(o.p.head.opcode, o.p.payload, o.p.head.final, 0)| == |enc| - 4;
    }
  }

  // ----- what is refused -----

  /** The rules of RFC 6455 section 5.2 and the size limit, told from the header bytes that are there: the close
      code they deserve, 0 when there is nothing to say against them yet. */
  function Verdict(data: seq<Byte>): int {
    var code := if |data| < 2 then 0 else data[1] % 0x80;
    var small := if |data| < 4 then 126 else Word(0, 0, data[2], data[3]);
    var big := if |data| < 10 then 0x1_0000 else BigLength(data[2..]);
    if |data| < 2 then 0
    else if data[0] / 0x10 % 8 != 0 then CLOSE_PROTOCOL_ERROR
    else if 3 <= data[0] % 0x10 <= 7 || data[0] % 0x10 >= 11 then CLOSE_PROTOCOL_ERROR
    else if data[0] % 0x10 >= 8 && (code > 125 || data[0] < 0x80) then CLOSE_PROTOCOL_ERROR
    else if code == 126 && small < 126 then CLOSE_PROTOCOL_ERROR
    else if code == 127 && (big <= 0xFFFF || big >= 0x8000_0000_0000_0000) then CLOSE_PROTOCOL_ERROR
    else if code == 127 && big > MAX_FRAME_SIZE then CLOSE_TOO_MUCH_DATA
    else 0
  }

  function FaultCode(fault: Fault): int {
    match fault
    case Sound => 0
    case Fault(code, _) => code
  }

  function LengthFault(code: nat, data: seq<Byte>): Fault {
    if code == 126 && |data| >= 2 then SmallLengthFault(Word(0, 0, data[0], data[1]))
    else if code == 127 && |data| >= 8 then BigLengthFault(BigLength(data))
    else Sound
  }

  lemma VerdictSplit(data: seq<Byte>)
    requires |data| >= 2
    ensures Verdict(data)
         == if data[0] / 0x10 % 8 == 0 && HeaderAcceptable(data[0] % 0x10, data[0] / 0x10 >= 8, data[1] % 0x80)
            then FaultCode(LengthFault(data[1] % 0x80, data[2..])) else CLOSE_PROTOCOL_ERROR
  {
  }

  lemma PayloadStaysValid(p: Parser, data: seq<Byte>)
    requires p.Ok() && p.phase == ReadPayload && p.payloadLength <= MAX_FRAME_SIZE && p.judged.isvalid
    ensures Run(p, data).p.judged.isvalid
  {
    if data != [] { assert Step(p, data) == PayloadTurn(p, data); }
  }

  lemma TailStaysValid(p: Parser, data: seq<Byte>)
    requires AtTail(p) && p.judged.isvalid
    ensures Run(p, data).p.judged.isvalid
  {
    if !p.head.maskbit {
      PayloadStaysValid(p, data);
    } else if |data| >= 4 {
      var t := MaskTurn(p, Word(data[0], data[1], data[2], data[3]));
      assert Step(p, data) == t;
      if t.Next? { PayloadStaysValid(t.p, data[4..]); }
    }
  }

  lemma LengthRefusedExactly(p: Parser, data: seq<Byte>)
    requires AtLength(p) && p.judged.isvalid
    ensures var o := Run(p, data);
            var fault := LengthFault(p.payloadLength, data);
            if fault.Fault?
            then o.finished && !o.p.judged.isvalid && o.p.judged.closeCode == fault.code && |o.rest| >= |data| - 8
            else o.p.judged.isvalid
  {
    if p.payloadLength == 126 && |data| >= 2 {
      var t := SmallLengthTurn(p, Word(0, 0, data[0], data[1]));
      assert Step(p, data) == t;
      if t.Next? { TailStaysValid(t.p, data[2..]); }
    } else if p.payloadLength == 127 && |data| >= 8 {
      var t := BigLengthTurn(p, BigLength(data));
      assert Step(p, data) == t;
      if t.Next? { TailStaysValid(t.p, data[8..]); }
    } else if p.payloadLength < 126 {
      TailStaysValid(p, data);
    }
  }

  /** A call refuses a frame exactly for these reasons, with that close code, and on the header alone:
      not one payload byte of a refused frame is waited for. */
  lemma RefusedExactly(data: seq<Byte>)
    ensures var o := Run(CLEARED, data);
            && (Verdict(data) != 0 <==> o.finished && !o.p.judged.isvalid)
            && (Verdict(data) != 0 ==> o.p.judged.closeCode == Verdict(data) && |o.rest| >= |data| - 10)
  {
    if |data| >= 2 {
      VerdictSplit(data);
      HeaderBackward(data[0], data[1]);
      var turn := HeaderTurn(CLEARED, data[0], data[1]);
      assert Step(CLEARED, data) == turn;
      if turn.Next? {
        LengthRefusedExactly(turn.p, data[2..]);
      }
    }
  }

  // ----- the object -----

  class WebSocketFrame {
    var state: Phase
    var head: Header
    var mask: int
    var payloadLength: int
    var payload: seq<Byte>
    var judged: Judgement

    ghost function View(): Parser
      reads this
    {
      Parser(state, head, mask, payloadLength, payload, judged)
    }

    ghost predicate Valid()
      reads this
    {
      View().Ok()
    }

    constructor ()
      ensures Valid() && View() == CLEARED
    {
      state, mask, payloadLength, payload := ReadHeader, 0, 0, [];
      head := Header(true, 0, 0, 0, OP_CLOSE, false);
      judged := Judgement(CLOSE_NORMAL, "", false, false);
    }

    method Clear()
      modifies this
      ensures Valid() && View() == CLEARED
    {
      state, mask, payloadLength, payload := ReadHeader, 0, 0, [];
      head := Header(true, 0, 0, 0, OP_CLOSE, false);
      judged := Judgement(CLOSE_NORMAL, "", false, false);
    }

    method Refuse(code: int, reason: string)
      modifies this`judged
      ensures View() == old(View()).Refused(code, reason, old(judged.haserror))
    {
      judged := judged.(closeCode := code, closeReason := reason, isvalid := false);
    }

    method Flag()
      modifies this`judged
      ensures View() == old(View()).Flagged()
    {
      judged := judged.(haserror := true);
    }

    method CheckValid()
      requires Valid()
      modifies this`judged
      ensures View() == CheckedValid(old(View()))
    {
      if head.rsv1 != 0 || head.rsv2 != 0 || head.rsv3 != 0 {
        Refuse(CLOSE_PROTOCOL_ERROR, "RSV fields are non zero");
        Flag();
      } else if IsReserved(head.opcode) {
        Refuse(CLOSE_PROTOCOL_ERROR, "Use of reserved opcode");
        Flag();
      } else if IsControl(head.opcode) {
        if payloadLength > 125 {
          Refuse(CLOSE_PROTOCOL_ERROR, "Control frame is too big");
          Flag();
        } else if !head.final {
          Refuse(CLOSE_PROTOCOL_ERROR, "Control frame cannot be fragmented");
          Flag();
        } else {
          judged := judged.(isvalid := true);
        }
      } else {
        judged := judged.(isvalid := true);
      }
    }

    /** The case StateReadHeader of the loop. */
    method OnHeader(b0: Byte, b1: Byte) returns (finished: bool)
      requires Valid()
      modifies this
      ensures Valid()
      ensures HeaderTurn(old(View()), b0, b1) == if finished then Finished(View(), 2) else Next(View(), 2)
    {
      finished := false;
      head := HeaderOf(b0, b1 >= 0x80);
      payloadLength := b1 % 0x80;
      if payloadLength == 126 {
        state := ReadPayloadLength;
      } else if payloadLength == 127 {
        state := ReadBigPayloadLength;
      } else {
        state := if head.maskbit then ReadMask else ReadPayload;
      }
      CheckValid();
      if judged.haserror {
        finished := true;
        state := ReadHeader;
      } else if state == ReadPayload && payloadLength == 0 {
        Flag();
        finished := true;
        state := ReadHeader;
      }
    }

    /** The case StateReadPayloadLength. */
    method OnLength(length: nat) returns (finished: bool)
      requires Valid()
      modifies this
      ensures Valid()
      ensures SmallLengthTurn(old(View()), length) == if finished then Finished(View(), 2) else Next(View(), 2)
    {
      payloadLength := length;
      finished := payloadLength < 126;
      if finished {
        Refuse(CLOSE_PROTOCOL_ERROR, "Frame smaller than 126 must be expressed as one byte");
        state := ReadHeader;
      } else {
        state := if head.maskbit then ReadMask else ReadPayload;
      }
    }

    /** The case StateReadBigPayloadLength. */
    method OnBigLength(length: nat) returns (finished: bool)
      requires Valid()
      modifies this
      ensures Valid()
      ensures BigLengthTurn(old(View()), length) == if finished then Finished(View(), 8) else Next(View(), 8)
    {
      payloadLength := length;
      finished := true;
      if payloadLength >= 0x8000_0000_0000_0000 {
        Refuse(CLOSE_PROTOCOL_ERROR, "Highest bit of payload length is not 0");
        state := ReadHeader;
      } else if payloadLength <= 0xFFFF {
        Refuse(CLOSE_PROTOCOL_ERROR, "Frame smaller than 65536 (2^16) must be expressed as 2 bytes");
        state := ReadHeader;
      } else if payloadLength > MAX_FRAME_SIZE {
        Refuse(CLOSE_TOO_MUCH_DATA, "Maximum framesize exceeded");
        state := ReadHeader;
      } else {
        state := if head.maskbit then ReadMask else ReadPayload;
        finished := false;
      }
    }

    /** The case StateReadMask. */
    method OnMask(key: int) returns (finished: bool)
      requires Valid() && 0 <= key < 0x1_0000_0000
      modifies this
      ensures Valid()
      ensures MaskTurn(old(View()), key) == if finished then Finished(View(), 4) else Next(View(), 4)
    {
      mask := key;
      state := ReadPayload;
      finished := payloadLength == 0;
      if finished {
        Flag();
        state := ReadHeader;
      }
    }

    /** The case StateReadPayload. */
    method OnPayload(data: seq<Byte>) returns (finished: bool, used: nat)
      requires Valid()
      modifies this
      ensures Valid() && used <= |data|
      ensures if finished then PayloadTurn(old(View()), data) == Finished(View(), used)
              else PayloadTurn(old(View()), data) == NeedMore && View() == old(View())
    {
      finished, used := true, 0;
      if payloadLength == 0 {
        Flag();
        state := ReadHeader;
      } else if payloadLength > MAX_FRAME_SIZE {
        Refuse(CLOSE_TOO_MUCH_DATA, "Maximum framesize exceeded");
        state := ReadHeader;
      } else if |data| >= payloadLength {
        used := payloadLength;
        payload := data[..used];
        if head.maskbit {
          var buffer := new Byte[used](i requires 0 <= i < used => data[i]);
          assert buffer[..] == data[..used];
          ProcessMask(buffer, mask);
          payload := buffer[..];
        }
        state := ReadHeader;
      } else {
        finished := false;
      }
    }

    /** The switch of the loop. */
    method TakeTurn(data: seq<Byte>) returns (needMore: bool, finished: bool, used: nat)
      requires Valid()
      modifies this
      ensures Valid()
      ensures if needMore then Step(old(View()), data) == NeedMore && View() == old(View())
              else Step(old(View()), data) == if finished then Finished(View(), used) else Next(View(), used)
    {
      needMore, finished, used := true, false, 0;
      match state {
        case ReadHeader =>
          if |data| >= 2 {
            finished := OnHeader(data[0], data[1]);
            needMore, used := false, 2;
          }
        case ReadPayloadLength =>
          if |data| >= 2 {
            finished := OnLength(Word(0, 0, data[0], data[1]));
            needMore, used := false, 2;
          }
        case ReadBigPayloadLength =>
          if |data| >= 8 {
            finished := OnBigLength(BigLength(data));
            needMore, used := false, 8;
          }
        case ReadMask =>
          if |data| >= 4 {
            finished := OnMask(Word(data[0], data[1], data[2], data[3]));
            needMore, used := false, 4;
          }
        case ReadPayload =>
          finished, used := OnPayload(data);
          needMore := !finished;
      }
    }

    /** Reads `data` up to the end of one frame or of the bytes; `rest` is what is left in `data`. */
    method ProcessFrameData(data: seq<Byte>) returns (finished: bool, rest: seq<Byte>)
      requires Valid()
      modifies this
      ensures Valid()
      ensures Run(old(View()), data) == Outcome(View(), rest, finished)
    {
      finished, rest := false, data;
      while rest != [] && !finished
        invariant Valid()
        invariant Run(old(View()), data) == if finished then Outcome(View(), rest, true) else Run(View(), rest)
        decreases |rest|, !finished
      {
        var needMore, done, used := TakeTurn(rest);
        if needMore { return; }
        finished, rest := done, rest[used..];
      }
    }

    /** XORs the buffer with the key, in place. */
    static method ProcessMask(p: array<Byte>, key: int)
      requires 0 <= key < 0x1_0000_0000
      modifies p
      ensures p[..] == Masked(old(p[..]), key)
    {
      var m := WordBytes(key);
      var i := 0;
      while i < p.Length
        invariant 0 <= i <= p.Length
        invariant forall j :: 0 <= j < i ==> p[j] == Xor(old(p[j]), m[j % 4])
        invariant forall j :: i <= j < p.Length ==> p[j] == old(p[j])
      {
        p[i] := Xor(p[i], m[i % 4]);
        i := i + 1;
      }
    }

    /** The second byte and the extended length. */
    static method MakeLength(n: nat, masked: bool) returns (s: seq<Byte>)
      requires n < 0x8000_0000_0000_0000
      ensures s == LengthPart(n, masked)
    {
      var b := if masked then 0x80 else 0;
      if n <= 125 {
        s := [b + n];
      } else if n <= 0xFFFF {
        s := [b + 126, n / 0x100, n % 0x100];
      } else {
        s := [b + 127] + WordBytes(n / 0x1_0000_0000) + WordBytes(n % 0x1_0000_0000);
      }
    }

    static method MakeFrame(opcode: nat, payload: seq<Byte>, lastframe: bool, key: int) returns (frame: seq<Byte>)
      requires 0 <= key < 0x1_0000_0000
      ensures frame == Frame(opcode, payload, lastframe, key)
    {
      hide LengthPart, WordBytes, Masked;
      var n := |payload|;
      if n > 0x7FFF_FFFF_FFFF_FFFF { return []; }
      var length := MakeLength(n, key != 0);
      frame := [HeadByte(opcode, lastframe)] + length;
      if key != 0 {
        var buffer := new Byte[n](i requires 0 <= i < n => payload[i]);
        assert buffer[..] == payload;
        ProcessMask(buffer, key);
        Assoc(frame, WordBytes(key), buffer[..]);
        frame := frame + WordBytes(key);
        frame := frame + buffer[..];
      } else {
        frame := frame + payload;
      }
    }
  }
}
