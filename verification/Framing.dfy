/** Newline framing of the Codex app-server's stdio, and the call that waits for its own answer
    (src/adapters/codex/rpc.rs). What one read of the pipe gives is arbitrary: `pipe` holds the
    reads that will come, each with any number of bytes. */
module Framing {
  type Byte = b: nat | b < 256
  type Bytes = seq<Byte>

  const NEWLINE: Byte := 10
  const FRAME_LIMIT := 4 * 1024 * 1024

  /** One attempt to read the pipe before the deadline. */
  datatype Read =
    | Data(bytes: Bytes)
    | Interrupted
    | Eof
    | Failed
    | Expired

  datatype Received =
    | Line(line: Bytes)
    | TooLarge
    | Closed
    | OsError
    | Timeout
    | Invalid

  // ---- What a stream says, whatever its reads ----

  function Arriving(pipe: seq<Read>): Bytes {
    if pipe == [] then []
    else (if pipe[0].Data? then pipe[0].bytes else []) + Arriving(pipe[1..])
  }

  /** Reads without an end of file (which is a read of no bytes), an error or an expired deadline. */
  predicate Healthy(pipe: seq<Read>) {
    forall r :: r in pipe ==> r.Interrupted? || (r.Data? && r.bytes != [])
  }

  function FirstLine(s: Bytes): (line: Bytes)
    ensures NEWLINE !in line && line <= s
    ensures line == s || (|line| < |s| && s[|line|] == NEWLINE)
    ensures NEWLINE in s ==> |line| < |s|
  {
    if s == [] || s[0] == NEWLINE then [] else [s[0]] + FirstLine(s[1..])
  }

  function AfterLine(s: Bytes): Bytes
    requires NEWLINE in s
  {
    s[|FirstLine(s)| + 1..]
  }

  /** The complete lines of a stream, and the bytes after the last of them. */
  function Lines(s: Bytes): seq<Bytes>
    decreases |s|
  {
    if NEWLINE in s then [FirstLine(s)] + Lines(AfterLine(s)) else []
  }

  function Remainder(s: Bytes): Bytes
    decreases |s|
  {
    if NEWLINE in s then Remainder(AfterLine(s)) else s
  }

  lemma FirstLineUnique(s: Bytes, line: Bytes, rest: Bytes)
    requires NEWLINE !in line && s == line + [NEWLINE] + rest
    ensures NEWLINE in s && FirstLine(s) == line && AfterLine(s) == rest
  {
    var found := FirstLine(s);
    assert s[|line|] == NEWLINE && line == s[..|line|] && found == s[..|found|];
    assert forall i :: 0 <= i < |line| ==> s[i] == line[i];
    assert forall i :: 0 <= i < |found| ==> s[i] == found[i];
  }

  /** A stream is its lines, each with its newline, and the remainder. */
  lemma {:induction false} FirstLineOfMore(s: Bytes, more: Bytes)
    requires NEWLINE in s
    ensures FirstLine(s + more) == FirstLine(s) && AfterLine(s + more) == AfterLine(s) + more
  {
    var line := FirstLine(s);
    assert s + more == line + [NEWLINE] + (AfterLine(s) + more);
    FirstLineUnique(s + more, line, AfterLine(s) + more);
  }

  // ---- UTF-8 (sections 3 and 4 of RFC 3629) ----

  predicate Continues(s: Bytes, i: nat) {
    i < |s| && 0x80 <= s[i] <= 0xBF
  }

  predicate Utf8(s: Bytes)
    decreases |s|
  {
    if s == [] then true
    else if s[0] <= 0x7F then Utf8(s[1..])
    else if 0xC2 <= s[0] <= 0xDF then Continues(s, 1) && Utf8(s[2..])
    else if 0xE0 <= s[0] <= 0xEF then
      Continues(s, 1) && Continues(s, 2) && (s[0] == 0xE0 ==> 0xA0 <= s[1]) && (s[0] == 0xED ==> s[1] <= 0x9F)
      && Utf8(s[3..])
    else if 0xF0 <= s[0] <= 0xF4 then
      Continues(s, 1) && Continues(s, 2) && Continues(s, 3) && (s[0] == 0xF0 ==> 0x90 <= s[1])
      && (s[0] == 0xF4 ==> s[1] <= 0x8F) && Utf8(s[4..])
    else false
  }

  /** A Unicode scalar value, and its encoding by the table of section 3 of RFC 3629. */
  type Scalar = c: nat | c <= 0x10FFFF && !(0xD800 <= c <= 0xDFFF)

  function Encoded(c: Scalar): Bytes {
    if c <= 0x7F then [c]
    else if c <= 0x7FF then [0xC0 + c / 64, 0x80 + c % 64]
    else if c <= 0xFFFF then [0xE0 + c / 64 / 64, 0x80 + c / 64 % 64, 0x80 + c % 64]
    else [0xF0 + c / 64 / 64 / 64, 0x80 + c / 64 / 64 % 64, 0x80 + c / 64 % 64, 0x80 + c % 64]
  }

  function EncodedText(text: seq<Scalar>): Bytes {
    if text == [] then [] else Encoded(text[0]) + EncodedText(text[1..])
  }

  lemma EncodedThen(c: Scalar, rest: Bytes)
    ensures Utf8(Encoded(c) + rest) <==> Utf8(rest)
  {
    var s := Encoded(c) + rest;
    assert s[|Encoded(c)|..] == rest;
    if 0x7FF < c <= 0xFFFF {
      assert s[0] == 0xE0 ==> c / 64 / 64 == 0;
      assert s[0] == 0xED ==> c / 64 / 64 == 13;
    }
  }

  lemma {:induction false} EncodedIsUtf8(text: seq<Scalar>)
    ensures Utf8(EncodedText(text))
  {
    if text == [] {
    } else {
      EncodedIsUtf8(text[1..]);
      EncodedThen(text[0], EncodedText(text[1..]));
    }
  }

  lemma Digits64(high: nat, low: nat)
    requires low < 64
    ensures (high * 64 + low) / 64 == high && (high * 64 + low) % 64 == low
  {
  }

  /** The value of the bits in the bytes of one scalar value. */
  function Bits(high: nat, next: Byte): nat
    requires 0x80 <= next <= 0xBF
  {
    high * 64 + (next - 0x80)
  }

  lemma BitsOf(high: nat, next: Byte)
    requires 0x80 <= next <= 0xBF
    ensures Bits(high, next) / 64 == high && 0x80 + Bits(high, next) % 64 == next
    ensures high * 64 <= Bits(high, next) < high * 64 + 64
  {
    Digits64(high, next - 0x80);
  }

  lemma TwoBytes(s: Bytes) returns (c: Scalar)
    requires |s| >= 2 && 0xC2 <= s[0] <= 0xDF && Continues(s, 1)
    ensures Encoded(c) == s[..2]
  {
    var high: nat := (s[0] as int) - 0xC0;
    BitsOf(high, s[1]);
    c := Bits(high, s[1]);
    hide Bits;
  }

  lemma ThreeBytes(s: Bytes) returns (c: Scalar)
    requires |s| >= 3 && 0xE0 <= s[0] <= 0xEF && Continues(s, 1) && Continues(s, 2)
    requires (s[0] == 0xE0 ==> 0xA0 <= s[1]) && (s[0] == 0xED ==> s[1] <= 0x9F)
    ensures Encoded(c) == s[..3]
  {
    var high: nat := (s[0] as int) - 0xE0;
    BitsOf(high, s[1]);
    BitsOf(Bits(high, s[1]), s[2]);
    var value := Bits(Bits(high, s[1]), s[2]);
    assert Bits(high, s[1]) == high * 64 + (s[1] - 0x80);
    hide Bits;
    c := value;
  }

  lemma FourBytes(s: Bytes) returns (c: Scalar)
    requires |s| >= 4 && 0xF0 <= s[0] <= 0xF4 && Continues(s, 1) && Continues(s, 2) && Continues(s, 3)
    requires (s[0] == 0xF0 ==> 0x90 <= s[1]) && (s[0] == 0xF4 ==> s[1] <= 0x8F)
    ensures Encoded(c) == s[..4]
  {
    var high: nat := (s[0] as int) - 0xF0;
    BitsOf(high, s[1]);
    BitsOf(Bits(high, s[1]), s[2]);
    BitsOf(Bits(Bits(high, s[1]), s[2]), s[3]);
    var value := Bits(Bits(Bits(high, s[1]), s[2]), s[3]);
    assert Bits(high, s[1]) == high * 64 + (s[1] - 0x80);
    hide Bits;
    c := value;
  }

  /** The scalar value that the first bytes of a line encode. */
  lemma FirstScalar(s: Bytes) returns (c: Scalar, rest: Bytes)
    requires Utf8(s) && s != []
    ensures s == Encoded(c) + rest && Utf8(rest)
  {
    if s[0] <= 0x7F {
      c, rest := s[0], s[1..];
    } else {
      hide Encoded;
      if s[0] <= 0xDF {
        c := TwoBytes(s);
        rest := s[2..];
      } else if s[0] <= 0xEF {
        c := ThreeBytes(s);
        rest := s[3..];
      } else {
        c := FourBytes(s);
        rest := s[4..];
      }
    }
  }

  lemma {:induction false} Utf8Decodes(s: Bytes) returns (text: seq<Scalar>)
    requires Utf8(s)
    ensures EncodedText(text) == s
    decreases |s|
  {
    if s == [] {
      text := [];
    } else {
      hide Utf8;
      var c, rest := FirstScalar(s);
      assert |rest| < |s|;
      var others := Utf8Decodes(rest);
      text := [c] + others;
      assert text[1..] == others;
    }
  }

  /** A line is text exactly if it is the encoding of some sequence of scalar values. */
  lemma Utf8IsEncoded(s: Bytes)
    ensures Utf8(s) <==> exists text :: EncodedText(text) == s
  {
    if Utf8(s) {
      var text := Utf8Decodes(s);
    } else if text :| EncodedText(text) == s {
      EncodedIsUtf8(text);
    }
  }

  // ---- One call of `recv` ----

  datatype State = State(buffer: Bytes, pipe: seq<Read>)

  function Pending(s: State): Bytes {
    s.buffer + Arriving(s.pipe)
  }

  /** Read until the buffer holds a newline. `None` means that it does. */
  function Fill(s: State): (r: (State, Received))
    ensures NEWLINE in r.0.buffer ==> r.1 == Line([])
    decreases |s.pipe|
  {
    if NEWLINE in s.buffer then (s, Line([]))
    else if |s.buffer| >= FRAME_LIMIT then (s, TooLarge)
    else if s.pipe == [] then (s, Timeout)
    else
      var rest := s.pipe[1..];
      match s.pipe[0]
      case Data(bytes) => if bytes == [] then (State(s.buffer, rest), Closed) else Fill(State(s.buffer + bytes, rest))
      case Interrupted => Fill(State(s.buffer, rest))
      case Eof => (State(s.buffer, rest), Closed)
      case Failed => (State(s.buffer, rest), OsError)
      case Expired => (State(s.buffer, rest), Timeout)
  }

  function NextFrame(s: State): (State, Received) {
    var (filled, stop) := Fill(s);
    if NEWLINE !in filled.buffer then (filled, stop)
    else
      var line := FirstLine(filled.buffer);
      (State(AfterLine(filled.buffer), filled.pipe),
       if |line| > FRAME_LIMIT then TooLarge else if Utf8(line) then Line(line) else Invalid)
  }

  /** Reading moves bytes from the pipe to the buffer and loses none. */
  lemma {:induction false} FillKeepsBytes(s: State)
    ensures Pending(Fill(s).0) == Pending(s)
    decreases |s.pipe|
  {
    if NEWLINE !in s.buffer && |s.buffer| < FRAME_LIMIT && s.pipe != [] {
      var rest := s.pipe[1..];
      match s.pipe[0]
      case Data(bytes) =>
        assert s.buffer + (bytes + Arriving(rest)) == s.buffer + bytes + Arriving(rest);
        if bytes != [] {
          FillKeepsBytes(State(s.buffer + bytes, rest));
        }
      case Interrupted =>
        FillKeepsBytes(State(s.buffer, rest));
      case _ =>
    }
  }

  /** A line below the limit arrives whatever the reads are; without one, healthy reads drain. */
  lemma {:induction false} FillFindsLine(s: State)
    requires Healthy(s.pipe)
    requires |FirstLine(Pending(s))| < FRAME_LIMIT
    ensures NEWLINE in Pending(s) ==> NEWLINE in Fill(s).0.buffer
    ensures NEWLINE !in Pending(s) ==> Fill(s) == (State(Pending(s), []), Timeout)
    ensures forall r :: r in Fill(s).0.pipe ==> r in s.pipe
    decreases |s.pipe|
  {
    if NEWLINE in s.buffer {
      assert NEWLINE in Pending(s);
    } else {
      var line := FirstLine(Pending(s));
      FirstLineIsLong(s.buffer, Arriving(s.pipe));
      if s.pipe == [] {
        assert Pending(s) == s.buffer;
      } else {
        var rest := s.pipe[1..];
        var next := State(if s.pipe[0].Data? then s.buffer + s.pipe[0].bytes else s.buffer, rest);
        assert Pending(next) == Pending(s);
        FillFindsLine(next);
      }
    }
  }

  /** What one `recv` does, in terms of the whole stream. */
  lemma RecvTakesOneLine(s: State)
    ensures var (after, r) := NextFrame(s);
            && (r.Line? ==> NEWLINE in Pending(s) && r.line == FirstLine(Pending(s)) && |r.line| <= FRAME_LIMIT
                            && Utf8(r.line) && Pending(after) == AfterLine(Pending(s)))
            && (r.Invalid? ==> NEWLINE in Pending(s) && !Utf8(FirstLine(Pending(s))) && Pending(after) == AfterLine(Pending(s)))
            && (r.TooLarge? ==> |FirstLine(Pending(s))| >= FRAME_LIMIT)
            && (!r.Line? && !r.Invalid? && !r.TooLarge? ==> Pending(after) == Pending(s))
  {
    var (filled, stop) := Fill(s);
    FillKeepsBytes(s);
    StopIsNoLine(s);
    if NEWLINE in filled.buffer {
      FirstLineOfMore(filled.buffer, Arriving(filled.pipe));
    } else if |filled.buffer| >= FRAME_LIMIT {
      FirstLineIsLong(filled.buffer, Arriving(filled.pipe));
    }
  }

  lemma {:induction false} StopIsNoLine(s: State)
    ensures var (filled, stop) := Fill(s);
            NEWLINE !in filled.buffer ==>
              stop in {TooLarge, Closed, OsError, Timeout} && (stop == TooLarge <==> |filled.buffer| >= FRAME_LIMIT)
    decreases |s.pipe|
  {
    if NEWLINE !in s.buffer && |s.buffer| < FRAME_LIMIT && s.pipe != [] {
      var rest := s.pipe[1..];
      if s.pipe[0].Data? && s.pipe[0].bytes != [] {
        StopIsNoLine(State(s.buffer + s.pipe[0].bytes, rest));
      } else if s.pipe[0].Interrupted? {
        StopIsNoLine(State(s.buffer, rest));
      }
    }
  }

  lemma {:induction false} FillDrains(s: State)
    requires Healthy(s.pipe)
    ensures var filled := Fill(s).0; NEWLINE in filled.buffer || |filled.buffer| >= FRAME_LIMIT || filled.pipe == []
    decreases |s.pipe|
  {
    if NEWLINE in s.buffer || |s.buffer| >= FRAME_LIMIT || s.pipe == [] {
    } else {
      FillDrains(AfterRead(s));
    }
  }

  /** A line over the limit, also one that never ends, is refused however healthy reads split it. */
  lemma LongLineIsRefused(s: State)
    requires Healthy(s.pipe) && |FirstLine(Pending(s))| > FRAME_LIMIT
    ensures NextFrame(s).1 == TooLarge
  {
    var (filled, stop) := Fill(s);
    FillKeepsBytes(s);
    FillDrains(s);
    StopIsNoLine(s);
    assert filled.pipe == [] ==> Pending(filled) == filled.buffer;
    if NEWLINE in filled.buffer {
      FirstLineOfMore(filled.buffer, Arriving(filled.pipe));
    }
  }

  lemma FirstLineIsLong(s: Bytes, more: Bytes)
    requires NEWLINE !in s
    ensures |FirstLine(s + more)| >= |s|
  {
    assert forall i :: 0 <= i < |s| ==> (s + more)[i] == s[i];
  }

  // ---- Every split into reads ----

  /** What successive calls give, until one gives no line of the stream, and the state they leave. */
  function RecvAll(s: State): (seq<Received>, State)
    decreases |Pending(s)|
  {
    var (after, r) := NextFrame(s);
    RecvTakesOneLine(s);
    if r.Line? || r.Invalid? then var (more, last) := RecvAll(after); ([r] + more, last) else ([], after)
  }

  /** What a call gives for a line: the line, or an error for one that is no text. */
  function FrameOf(line: Bytes): Received {
    if Utf8(line) then Line(line) else Invalid
  }

  function Frames(lines: seq<Bytes>): (frames: seq<Received>)
    ensures |frames| == |lines| && forall i :: 0 <= i < |lines| ==> frames[i] == FrameOf(lines[i])
  {
    if lines == [] then [] else [FrameOf(lines[0])] + Frames(lines[1..])
  }

  predicate ShortLines(s: Bytes) {
    (forall line :: line in Lines(s) ==> |line| < FRAME_LIMIT) && |Remainder(s)| < FRAME_LIMIT
  }

  /** For every split of the stream into reads, there is one call for each line, in order, that gives the
      line or reports that it is no text; what they leave is exactly the remainder. */
  lemma {:induction false} EveryLineIsReceived(s: State)
    requires Healthy(s.pipe)
    requires ShortLines(Pending(s))
    ensures RecvAll(s) == (Frames(Lines(Pending(s))), State(Remainder(Pending(s)), []))
    decreases |Pending(s)|
  {
    var all := Pending(s);
    var (after, r) := NextFrame(s);
    RecvTakesOneLine(s);
    if NEWLINE in all {
      assert Lines(all)[0] == FirstLine(all);
      assert Lines(all)[1..] == Lines(AfterLine(all));
      FillFindsLine(s);
      FillKeepsBytes(s);
      FirstLineOfMore(Fill(s).0.buffer, Arriving(Fill(s).0.pipe));
      EveryLineIsReceived(after);
    } else {
      assert FirstLine(all) == all;
      FillFindsLine(s);
    }
  }

  /** So for a stream of text, successive calls give exactly its lines in order. */
  lemma FramingIgnoresChunks(s: State)
    requires Healthy(s.pipe)
    requires ShortLines(Pending(s)) && forall line :: line in Lines(Pending(s)) ==> Utf8(line)
    ensures var (received, last) := RecvAll(s);
            && last == State(Remainder(Pending(s)), [])
            && |received| == |Lines(Pending(s))|
            && forall i :: 0 <= i < |received| ==> received[i] == Line(Lines(Pending(s))[i])
  {
    EveryLineIsReceived(s);
  }

  /** Some read ends exactly when `n` bytes are in the buffer. */
  predicate CutAt(s: State, n: nat)
    decreases |s.pipe|
  {
    |s.buffer| == n
    || (s.pipe != [] && CutAt(AfterRead(s), n))
  }

  function AfterRead(s: State): State
    requires s.pipe != []
  {
    State(if s.pipe[0].Data? then s.buffer + s.pipe[0].bytes else s.buffer, s.pipe[1..])
  }

  /** Only a line of exactly the limit depends on the reads: it is refused when a read ends just
      before its newline, and returned otherwise. */
  lemma LineAtLimit(s: State)
    requires Healthy(s.pipe) && NEWLINE in Pending(s)
    requires |FirstLine(Pending(s))| == FRAME_LIMIT && Utf8(FirstLine(Pending(s)))
    ensures NextFrame(s).1 == if CutAt(s, FRAME_LIMIT) then TooLarge else Line(FirstLine(Pending(s)))
  {
    FillAtLimit(s);
    FillKeepsBytes(s);
    var filled := Fill(s).0;
    if NEWLINE in filled.buffer {
      FirstLineOfMore(filled.buffer, Arriving(filled.pipe));
    }
  }

  lemma {:induction false} FillAtLimit(s: State)
    requires Healthy(s.pipe) && NEWLINE in Pending(s) && |FirstLine(Pending(s))| == FRAME_LIMIT
    ensures if CutAt(s, FRAME_LIMIT) then NEWLINE !in Fill(s).0.buffer && Fill(s).1 == TooLarge
            else NEWLINE in Fill(s).0.buffer
    decreases |s.pipe|
  {
    hide FirstLine;
    if NEWLINE in s.buffer {
      FirstLineOfMore(s.buffer, Arriving(s.pipe));
      NoCutPastLine(s, FRAME_LIMIT);
    } else {
      FirstLineIsLong(s.buffer, Arriving(s.pipe));
      if |s.buffer| < FRAME_LIMIT {
        assert s.pipe == [] ==> Pending(s) == s.buffer;
        assert Pending(AfterRead(s)) == Pending(s);
        FillAtLimit(AfterRead(s));
      }
    }
  }

  lemma {:induction false} NoCutPastLine(s: State, n: nat)
    requires n < |s.buffer|
    ensures !CutAt(s, n)
    decreases |s.pipe|
  {
    if s.pipe == [] {
    } else {
      NoCutPastLine(AfterRead(s), n);
    }
  }

  // ---- The process and its calls ----

  class StdioProcess {
    var buffer: Bytes
    var pipe: seq<Read>

    function Snapshot(): State
      reads this
    {
      State(buffer, pipe)
    }

    constructor (script: seq<Read>)
      ensures Snapshot() == State([], script)
    {
      buffer, pipe := [], script;
    }

    /** `late` tells whether the deadline has passed before the call. */
    method Recv(late: bool) returns (r: Received)
      modifies this
      ensures (Snapshot(), r) == if late then (old(Snapshot()), Timeout) else NextFrame(old(Snapshot()))
    {
      if late {
        return Timeout;
      }
      while NEWLINE !in buffer
        invariant Fill(Snapshot()) == Fill(old(Snapshot()))
        decreases |pipe|
      {
        if |buffer| >= FRAME_LIMIT {
          return TooLarge;
        }
        if pipe == [] {
          return Timeout;
        }
        var read := pipe[0];
        pipe := pipe[1..];
        match read
        case Data(bytes) =>
          if bytes == [] {
            return Closed;
          }
          buffer := buffer + bytes;
        case Interrupted =>
        case Eof => return Closed;
        case Failed => return OsError;
        case Expired => return Timeout;
      }
      var line := FirstLine(buffer);
      buffer := AfterLine(buffer);
      if |line| > FRAME_LIMIT {
        return TooLarge;
      }
      return if Utf8(line) then Line(line) else Invalid;
    }
  }

  /** A JSON value in the place of a request's id. Numbers are those of serde_json: an integer or a
      double. The counter stays below 2^53, where every integer is a double. */
  datatype Id = Missing | Integer(n: int) | Float(f: real) | Boolean(b: bool) | Other

  function SameId(id: Id, counter: int): bool {
    match id
    case Integer(n) => n == counter
    case Float(f) => f == counter as real
    case Boolean(b) => b && counter == 1
    case _ => false
  }

  datatype Frame = Frame(id: Id, error: bool, result: bool)
  /** What the decoder makes of a line: not JSON or no object, or an object. */
  type Decoder = Bytes -> Decoded
  datatype Decoded = NoObject | Object(frame: Frame)

  datatype Answer =
    | Result(line: Bytes)
    | Rejected(line: Bytes)
    | InvalidResponse
    | RpcClosed
    | WriteFailed
    | DeadlineExpired
    | Transport(failure: Received)

  /** Lines as the peer wrote them. */
  function Written(lines: seq<Bytes>): Bytes {
    if lines == [] then [] else Written(lines[..|lines| - 1]) + lines[|lines| - 1] + [NEWLINE]
  }

  lemma WrittenOneMore(all: Bytes, lines: seq<Bytes>, line: Bytes, before: Bytes, after: Bytes)
    requires all == Written(lines) + before && before == line + [NEWLINE] + after
    ensures all == Written(lines + [line]) + after
  {
    assert (lines + [line])[..|lines|] == lines;
  }

  /** The ids that count as the number of a call: the integer, the same number as a double, and `true` for
      the first call. */
  function OwnIds(counter: int): set<Id> {
    {Integer(counter), Float(counter as real)} + if counter == 1 then {Boolean(true)} else {}
  }

  lemma SameIdIsOwn(id: Id, counter: int)
    ensures SameId(id, counter) <==> id in OwnIds(counter)
  {
  }

  /** The line is an object for another call. */
  predicate NotFor(decode: Decoder, line: Bytes, counter: int) {
    decode(line).Object? && decode(line).frame.id !in OwnIds(counter)
  }

  /** The frame that a call took for its own. */
  datatype Accepted = Accepted(call: int, id: Id)

  /** The frames of the calls of one connection, in order. */
  ghost predicate InCallOrder(accepted: seq<Accepted>, counter: int) {
    && (forall i :: 0 <= i < |accepted| ==> accepted[i].call <= counter && accepted[i].id in OwnIds(accepted[i].call))
    && (forall i, j :: 0 <= i < j < |accepted| ==> accepted[i].call < accepted[j].call)
  }

  lemma MoreCalls(accepted: seq<Accepted>, before: int, after: int)
    requires InCallOrder(accepted, before) && before <= after
    ensures InCallOrder(accepted, after)
  {
  }

  lemma AcceptedMore(accepted: seq<Accepted>, before: int, frame: Accepted)
    requires InCallOrder(accepted, before) && before < frame.call && frame.id in OwnIds(frame.call)
    ensures InCallOrder(accepted + [frame], frame.call)
  {
  }

  /** No two calls of a connection take frames with the same id: a late answer to one call is never the
      answer to another. */
  lemma AcceptedApart(accepted: seq<Accepted>, counter: int)
    requires InCallOrder(accepted, counter)
    ensures forall i, j :: 0 <= i < j < |accepted| ==> accepted[i].id != accepted[j].id
  {
    forall i, j | 0 <= i < j < |accepted|
      ensures accepted[i].id != accepted[j].id
    {
      assert accepted[i].call != accepted[j].call;
    }
  }

  class Rpc {
    const process: StdioProcess
    var counter: int
    var closing: bool
    ghost var accepted: seq<Accepted>

    ghost predicate Valid()
      reads this
    {
      InCallOrder(accepted, counter)
    }

    constructor (process: StdioProcess)
      ensures this.process == process && counter == 0 && !closing && accepted == [] && Valid()
    {
      this.process, counter, closing, accepted := process, 0, false, [];
    }

    method Close()
      modifies this`closing
      ensures closing
    {
      closing := true;
    }

    /** The next frame of the connection, which is a stdio process here. */
    method Recv() returns (r: Received)
      modifies process
      ensures r.Line? ==> NEWLINE !in r.line && |r.line| <= FRAME_LIMIT
                          && old(Pending(process.Snapshot())) == r.line + [NEWLINE] + Pending(process.Snapshot())
      ensures r == Timeout ==> Pending(process.Snapshot()) == old(Pending(process.Snapshot()))
    {
      hide NextFrame, FirstLine;
      RecvTakesOneLine(process.Snapshot());
      var late: bool :| true;
      r := process.Recv(late);
    }

    /** One call. It takes lines from the stream in order: `skipped` carry other ids, and a result or
        a rejection comes from the next line, which carries this call's own number. */
    method CallUntil(decode: Decoder) returns (answer: Answer, skipped: seq<Bytes>)
      requires Valid()
      modifies this`counter, this`accepted, process
      ensures Valid()
      ensures old(closing) ==> answer == RpcClosed && counter == old(counter) && process.Snapshot() == old(process.Snapshot())
      ensures !old(closing) ==> counter == old(counter) + 1
      ensures forall line :: line in skipped ==> NEWLINE !in line && |line| <= FRAME_LIMIT && NotFor(decode, line, counter)
      ensures answer.Result? || answer.Rejected? ==>
                && NEWLINE !in answer.line && |answer.line| <= FRAME_LIMIT
                && old(Pending(process.Snapshot())) == Written(skipped + [answer.line]) + Pending(process.Snapshot())
                && decode(answer.line).Object? && decode(answer.line).frame.id in OwnIds(counter)
                && accepted == old(accepted) + [Accepted(counter, decode(answer.line).frame.id)]
                && (answer.Rejected? <==> decode(answer.line).frame.error)
                && (answer.Result? ==> decode(answer.line).frame.result)
      ensures !answer.Result? && !answer.Rejected? ==> accepted == old(accepted)
      ensures answer.DeadlineExpired? || answer == Transport(Timeout) || answer.WriteFailed? ==>
                old(Pending(process.Snapshot())) == Written(skipped) + Pending(process.Snapshot())
    {
      hide InCallOrder, OwnIds;
      skipped := [];
      if closing {
        return RpcClosed, [];
      }
      ghost var last := counter;
      counter := counter + 1;
      assert InCallOrder(accepted, counter) by { MoreCalls(accepted, last, counter); }
      ghost var all := Pending(process.Snapshot());
      assert all == Written([]) + all;
      if * {
        return WriteFailed, [];
      }
      while true
        invariant forall line :: line in skipped ==> NEWLINE !in line && |line| <= FRAME_LIMIT && NotFor(decode, line, counter)
        invariant all == Written(skipped) + Pending(process.Snapshot())
        invariant counter == old(counter) + 1 && closing == old(closing) && accepted == old(accepted) && Valid()
        decreases |Pending(process.Snapshot())|
      {
        if * {
          return DeadlineExpired, skipped;
        }
        ghost var before := Pending(process.Snapshot());
        var received := Recv();
        if !received.Line? {
          return if received.Invalid? then InvalidResponse else Transport(received), skipped;
        }
        var line := received.line;
        WrittenOneMore(all, skipped, line, before, Pending(process.Snapshot()));
        var decoded := decode(line);
        if decoded.NoObject? {
          return InvalidResponse, skipped;
        }
        var frame := decoded.frame;
        SameIdIsOwn(frame.id, counter);
        if SameId(frame.id, counter) {
          if !frame.error && !frame.result {
            return InvalidResponse, skipped;
          }
          AcceptedMore(accepted, last, Accepted(counter, frame.id));
          accepted := accepted + [Accepted(counter, frame.id)];
          return if frame.error then Rejected(line) else Result(line), skipped;
        }
        skipped := skipped + [line];
      }
    }
  }
}
