/** The Haver service over the wire: the dispatching server, the client that sends through a Finagle
    service, and the client that keeps a sequence number. */
module ThriftService {
  import opened Options
  import opened Wire
  import opened ThriftStructs

  /** What a future ends with. */
  datatype Future<T> = Value(v: T) | Exception(x: Thrown)

  datatype Thrown = ReadFailure(why: ReadError) | App(error: AppError) | User(code: int)

  /** The implementation behind the service; `hi` may return null. */
  datatype Iface = Iface(
    hi: Future<Option<string>>, add: (int, int) -> Future<int>, blocking_call: Future<int>)

  function Failing(name: string, seqid: int, error: AppError): seq<Token> {
    [MessageBegin(name, EXCEPTION, seqid), Failure(error), MessageEnd]
  }

  function Replying(name: string, seqid: int, fields: seq<Field>): seq<Token> {
    [MessageBegin(name, REPLY, seqid)] + EncodeStruct(fields) + [MessageEnd]
  }

  function Internal(name: string): AppError {
    AppError(INTERNAL_ERROR, "Internal error processing " + name)
  }

  function IntFields(v: int): seq<Field> {
    [Field(0, VI32(v))]
  }

  function StringFields(v: Option<string>): seq<Field> {
    if v.Some? then [Field(0, VStr(v.value))] else []
  }

  function IntReply(name: string, seqid: int, f: Future<int>): seq<Token> {
    match f
    case Value(v) => Replying(name, seqid, IntFields(v))
    case Exception(_) => Failing(name, seqid, Internal(name))
  }

  function StringReply(name: string, seqid: int, f: Future<Option<string>>): seq<Token> {
    match f
    case Value(v) => Replying(name, seqid, StringFields(v))
    case Exception(_) => Failing(name, seqid, Internal(name))
  }

  function IntOf(got: map<int, Value>, id: int): int {
    if id in got && got[id].VI32? then got[id].n else 0
  }

  /** The future failed, or it tells the client that the arguments could not be read. */
  predicate Reports(f: Future<seq<Token>>, name: string, seqid: int) {
    f.Exception? || f == Value(Failing(name, seqid, AppError(PROTOCOL_ERROR, "malformed")))
  }

  /** The arguments of a message, unless they or its end cannot be read. */
  datatype Arguments = Given(got: map<int, Value>) | NotRead(why: ReadError) | NotEnded(why: ReadError)

  function ArgumentsIn(known: Known, ts: seq<Token>): Arguments
    requires Readable(known)
  {
    match ReadStruct(known, ts)
    case Failed(why) => NotRead(why)
    case Parsed(got, rest) =>
      match Expect(MessageEnd, rest)
      case Broken(why) => NotEnded(why)
      case Left(_) => Given(got)
  }

  /** What should come of a message: a reply, an error raised, or, for malformed arguments, a report if the
      rest of the message can be read. */
  datatype Verdict = Reply(ts: seq<Token>) | Raises(why: ReadError) | Garbled

  function Unread(a: Arguments): Verdict
    requires !a.Given?
  {
    if a.NotRead? && a.why != EndOfStream then Garbled else Raises(a.why)
  }

  /** What should come of a message whose arguments are `ts`. */
  function Dispatch(iface: Iface, name: string, seqid: int, ts: seq<Token>): Verdict {
    if name == "hi" then
      var a := ArgumentsIn(NO_ARGS, ts);
      if a.Given? then Reply(StringReply(name, seqid, iface.hi)) else Unread(a)
    else if name == "add" then
      var a := ArgumentsIn(ADD_ARGS, ts);
      if a.Given? then Reply(IntReply(name, seqid, iface.add(IntOf(a.got, 1), IntOf(a.got, 2)))) else Unread(a)
    else if name == "blocking_call" then
      var a := ArgumentsIn(NO_ARGS, ts);
      if a.Given? then Reply(IntReply(name, seqid, iface.blocking_call)) else Unread(a)
    else
      match Skip(TStruct, ts)
      case Broken(why) => Raises(why)
      case Left(rest) =>
        match Expect(MessageEnd, rest)
        case Broken(why) => Raises(why)
        case Left(_) => Reply(Failing(name, seqid, AppError(UNKNOWN_METHOD, "Invalid method name: '" + name + "'")))
  }

  /** Right for a message. */
  predicate Answers(f: Future<seq<Token>>, iface: Iface, name: string, seqid: int, ts: seq<Token>) {
    match Dispatch(iface, name, seqid, ts)
    case Reply(reply) => f == Value(reply)
    case Raises(why) => f == Exception(ReadFailure(why))
    case Garbled => Reports(f, name, seqid)
  }

  /** The server side. */
  class Service {
    const iface: Iface

    constructor (i: Iface)
      ensures iface == i
    {
      iface := i;
    }

    method WriteFailure(name: string, seqid: int, error: AppError) returns (ts: seq<Token>)
      ensures ts == Failing(name, seqid, error)
    {
      var oprot := new Output();
      oprot.Put(MessageBegin(name, EXCEPTION, seqid));
      oprot.Put(Failure(error));
      oprot.Put(MessageEnd);
      ts := oprot.written;
    }

    /** The arguments could not be read. */
    method ReportArgs(iprot: Input, name: string, seqid: int, why: ReadError) returns (f: Future<seq<Token>>)
      modifies iprot
      ensures if why == EndOfStream then f == Exception(ReadFailure(why)) else Reports(f, name, seqid)
    {
      if why == EndOfStream { return Exception(ReadFailure(why)); }
      var e := iprot.Take(MessageEnd);
      if e.Some? { return Exception(ReadFailure(e.value)); }
      var ts := WriteFailure(name, seqid, AppError(PROTOCOL_ERROR, "malformed"));
      f := Value(ts);
    }

    method ReplyInt(name: string, seqid: int, future: Future<int>) returns (f: Future<seq<Token>>)
      ensures f == Value(IntReply(name, seqid, future))
    {
      match future
      case Value(v) =>
        var result := new IntResult();
        result.success, result.isSet := v, true;
        var oprot := new Output();
        oprot.Put(MessageBegin(name, REPLY, seqid));
        result.Write(oprot);
        oprot.Put(MessageEnd);
        assert oprot.written == Replying(name, seqid, IntFields(v));
        f := Value(oprot.written);
      case Exception(_) =>
        var ts := WriteFailure(name, seqid, Internal(name));
        f := Value(ts);
    }

    method ReplyString(name: string, seqid: int, future: Future<Option<string>>) returns (f: Future<seq<Token>>)
      ensures f == Value(StringReply(name, seqid, future))
    {
      match future
      case Value(v) =>
        var result := new StringResult();
        result.success := v;
        var oprot := new Output();
        oprot.Put(MessageBegin(name, REPLY, seqid));
        result.Write(oprot);
        oprot.Put(MessageEnd);
        assert oprot.written == Replying(name, seqid, StringFields(v));
        f := Value(oprot.written);
      case Exception(_) =>
        var ts := WriteFailure(name, seqid, Internal(name));
        f := Value(ts);
    }

    method HandleAdd(iprot: Input, seqid: int) returns (f: Future<seq<Token>>)
      modifies iprot
      ensures Answers(f, iface, "add", seqid, old(iprot.unread))
    {
      var args := new AddArgs();
      var e := args.Read(iprot);
      if e.Some? {
        f := ReportArgs(iprot, "add", seqid, e.value);
        return;
      }
      e := iprot.Take(MessageEnd);
      if e.Some? { return Exception(ReadFailure(e.value)); }
      f := ReplyInt("add", seqid, iface.add(args.a, args.b));
    }

    method HandleHi(iprot: Input, seqid: int) returns (f: Future<seq<Token>>)
      modifies iprot
      ensures Answers(f, iface, "hi", seqid, old(iprot.unread))
    {
      var e := ReadNoArgs(iprot);
      if e.Some? {
        f := ReportArgs(iprot, "hi", seqid, e.value);
        return;
      }
      e := iprot.Take(MessageEnd);
      if e.Some? { return Exception(ReadFailure(e.value)); }
      f := ReplyString("hi", seqid, iface.hi);
    }

    method HandleBlockingCall(iprot: Input, seqid: int) returns (f: Future<seq<Token>>)
      modifies iprot
      ensures Answers(f, iface, "blocking_call", seqid, old(iprot.unread))
    {
      var e := ReadNoArgs(iprot);
      if e.Some? {
        f := ReportArgs(iprot, "blocking_call", seqid, e.value);
        return;
      }
      e := iprot.Take(MessageEnd);
      if e.Some? { return Exception(ReadFailure(e.value)); }
      f := ReplyInt("blocking_call", seqid, iface.blocking_call);
    }

    method HandleUnknown(iprot: Input, name: string, seqid: int) returns (f: Future<seq<Token>>)
      requires name != "hi" && name != "add" && name != "blocking_call"
      modifies iprot
      ensures Answers(f, iface, name, seqid, old(iprot.unread))
    {
      var e := iprot.SkipValue(TStruct);
      if e.Some? { return Exception(ReadFailure(e.value)); }
      e := iprot.Take(MessageEnd);
      if e.Some? { return Exception(ReadFailure(e.value)); }
      var ts := WriteFailure(name, seqid, AppError(UNKNOWN_METHOD, "Invalid method name: '" + name + "'"));
      f := Value(ts);
    }

    /** Read the message header and hand the rest to the function of that name. */
    method Apply(request: seq<Token>) returns (f: Future<seq<Token>>)
      ensures request == [] ==> f == Exception(ReadFailure(EndOfStream))
      ensures request != [] && !request[0].MessageBegin? ==> f == Exception(ReadFailure(Malformed))
      ensures request != [] && request[0].MessageBegin? ==>
                Answers(f, iface, request[0].name, request[0].seqid, request[1..])
    {
      if request == [] { return Exception(ReadFailure(EndOfStream)); }
      match request[0]
      case MessageBegin(name, _, seqid) =>
        var iprot := new Input(request[1..]);
        if name == "hi" {
          f := HandleHi(iprot, seqid);
        } else if name == "add" {
          f := HandleAdd(iprot, seqid);
        } else if name == "blocking_call" {
          f := HandleBlockingCall(iprot, seqid);
        } else {
          f := HandleUnknown(iprot, name, seqid);
        }
      case _ => f := Exception(ReadFailure(Malformed));
    }
  }

  // ---------------------------------------------------------------- the client

  /** The message header and what follows it, for a client that expects sequence number `seqid`. */
  datatype Opened = Body(ts: seq<Token>) | Refused(x: Thrown)

  function OpenReply(name: string, seqid: int, ts: seq<Token>): Opened {
    if ts == [] then Refused(ReadFailure(EndOfStream))
    else if !ts[0].MessageBegin? then Refused(ReadFailure(Malformed))
    else if ts[0].mtype.EXCEPTION? then
      if |ts| == 1 then Refused(ReadFailure(EndOfStream))
      else if !ts[1].Failure? then Refused(ReadFailure(Malformed))
      else
        match Expect(MessageEnd, ts[2..])
        case Broken(why) => Refused(ReadFailure(why))
        case Left(_) => Refused(App(ts[1].error))
    else if ts[0].seqid != seqid then
      Refused(App(AppError(BAD_SEQUENCE_ID, name + " failed: out of sequence response")))
    else Body(ts[1..])
  }

  function Missing(name: string): Thrown {
    App(AppError(MISSING_RESULT, name + " failed: unknown result"))
  }

  function ReceivedInt(name: string, seqid: int, ts: seq<Token>): Future<int> {
    match OpenReply(name, seqid, ts)
    case Refused(x) => Exception(x)
    case Body(body) =>
      match ReadStruct(INT_RESULT, body)
      case Failed(why) => Exception(ReadFailure(why))
      case Parsed(got, rest) =>
        match Expect(MessageEnd, rest)
        case Broken(why) => Exception(ReadFailure(why))
        case Left(_) => if 0 in got then Value(IntOf(got, 0)) else Exception(Missing(name))
  }

  function ReceivedString(name: string, seqid: int, ts: seq<Token>): Future<string> {
    match OpenReply(name, seqid, ts)
    case Refused(x) => Exception(x)
    case Body(body) =>
      match ReadStruct(STRING_RESULT, body)
      case Failed(why) => Exception(ReadFailure(why))
      case Parsed(got, rest) =>
        match Expect(MessageEnd, rest)
        case Broken(why) => Exception(ReadFailure(why))
        case Left(_) => if 0 in got && got[0].VStr? then Value(got[0].s) else Exception(Missing(name))
  }

  /** A client with its own sequence number. */
  class Client {
    var seqid: int

    constructor ()
      ensures seqid == 0
    {
      seqid := 0;
    }

    /** The first part of every `recv_`: the header, an exception sent instead of a result, and the
        check of the sequence number. */
    method Open(name: string, iprot: Input) returns (refused: Option<Thrown>)
      modifies iprot
      ensures match OpenReply(name, seqid, old(iprot.unread))
              case Refused(x) => refused == Some(x)
              case Body(ts) => refused == None && iprot.unread == ts
    {
      if iprot.unread == [] { return Some(ReadFailure(EndOfStream)); }
      match iprot.unread[0]
      case MessageBegin(_, mtype, msgSeqid) =>
        ghost var all := iprot.unread;
        iprot.unread := iprot.unread[1..];
        if mtype == EXCEPTION {
          if iprot.unread == [] { return Some(ReadFailure(EndOfStream)); }
          if !iprot.unread[0].Failure? { return Some(ReadFailure(Malformed)); }
          var x := iprot.unread[0].error;
          iprot.unread := iprot.unread[1..];
          assert iprot.unread == all[2..];
          var e := iprot.Take(MessageEnd);
          return Some(if e.Some? then ReadFailure(e.value) else App(x));
        }
        if msgSeqid != seqid {
          return Some(App(AppError(BAD_SEQUENCE_ID, name + " failed: out of sequence response")));
        }
        refused := None;
      case _ => refused := Some(ReadFailure(Malformed));
    }

    method RecvInt(name: string, iprot: Input) returns (f: Future<int>)
      modifies iprot
      ensures f == ReceivedInt(name, seqid, old(iprot.unread))
    {
      var refused := Open(name, iprot);
      if refused.Some? { return Exception(refused.value); }
      var result := new IntResult();
      var e := result.Read(iprot);
      if e.Some? { return Exception(ReadFailure(e.value)); }
      e := iprot.Take(MessageEnd);
      if e.Some? { return Exception(ReadFailure(e.value)); }
      if result.isSet { return Value(result.success); }
      f := Exception(Missing(name));
    }

    method RecvString(name: string, iprot: Input) returns (f: Future<string>)
      modifies iprot
      ensures f == ReceivedString(name, seqid, old(iprot.unread))
    {
      var refused := Open(name, iprot);
      if refused.Some? { return Exception(refused.value); }
      var result := new StringResult();
      var e := result.Read(iprot);
      if e.Some? { return Exception(ReadFailure(e.value)); }
      e := iprot.Take(MessageEnd);
      if e.Some? { return Exception(ReadFailure(e.value)); }
      if result.success.Some? { return Value(result.success.value); }
      f := Exception(Missing(name));
    }
  }

  // ---------------------------------------------------------------- both ends together

  /** A request as a client writes it: a header, one struct of well-typed fields, the end. */
  function Request(name: string, mtype: MessageType, seqid: int, fs: seq<Field>): seq<Token> {
    [MessageBegin(name, mtype, seqid)] + EncodeStruct(fs) + [MessageEnd]
  }

  lemma {:induction false} ArgumentsOf(known: Known, fs: seq<Field>)
    requires Readable(known) && WellTypedFields(fs)
    ensures ArgumentsIn(known, EncodeStruct(fs) + [MessageEnd]) == Given(LastTyped(known, fs))
    ensures Skip(TStruct, EncodeStruct(fs) + [MessageEnd]) == Left([MessageEnd])
  {
    ReadsLastOccurrences(known, fs, [MessageEnd]);
    SkipConsumesStruct(fs, [MessageEnd]);
  }

  /** What the server should answer to a well-formed request, however many unknown, repeated or
      wrongly typed fields it carries. */
  function Expected(iface: Iface, name: string, seqid: int, fs: seq<Field>): seq<Token> {
    if name == "hi" then StringReply(name, seqid, iface.hi)
    else if name == "add" then
      var got := LastTyped(ADD_ARGS, fs);
      IntReply(name, seqid, iface.add(IntOf(got, 1), IntOf(got, 2)))
    else if name == "blocking_call" then IntReply(name, seqid, iface.blocking_call)
    else Failing(name, seqid, AppError(UNKNOWN_METHOD, "Invalid method name: '" + name + "'"))
  }

  lemma {:induction false} DispatchWellFormed(iface: Iface, name: string, seqid: int, fs: seq<Field>)
    requires WellTypedFields(fs)
    ensures Dispatch(iface, name, seqid, EncodeStruct(fs) + [MessageEnd]) == Reply(Expected(iface, name, seqid, fs))
  {
    ArgumentsOf(NO_ARGS, fs);
    ArgumentsOf(ADD_ARGS, fs);
  }

  /** Whatever is asked, the reply carries the name and the sequence number of the request. */
  lemma {:induction false} ReplyEchoesTheRequest(
    iface: Iface, name: string, seqid: int, ts: seq<Token>, f: Future<seq<Token>>)
    requires Answers(f, iface, name, seqid, ts) && f.Value?
    ensures f.v != [] && f.v[0].MessageBegin? && f.v[0].name == name && f.v[0].seqid == seqid
  {
  }

  lemma {:induction false} RequestTokens(name: string, mtype: MessageType, seqid: int, fs: seq<Field>)
    ensures var r := Request(name, mtype, seqid, fs);
            r != [] && r[0] == MessageBegin(name, mtype, seqid) && r[1..] == EncodeStruct(fs) + [MessageEnd]
  {
  }

  /** A result as the caller sees it: the implementation's value, or an internal error. */
  function SeenInt(name: string, f: Future<int>): Future<int> {
    match f
    case Value(v) => Value(v)
    case Exception(_) => Exception(App(Internal(name)))
  }

  /** The same for a string, which arrives only if it is not null. */
  function SeenString(name: string, f: Future<Option<string>>): Future<string> {
    match f
    case Value(v) => if v.Some? then Value(v.value) else Exception(Missing(name))
    case Exception(_) => Exception(App(Internal(name)))
  }

  lemma {:induction false} ReplyBody(name: string, seqid: int, fs: seq<Field>, known: Known)
    requires Readable(known) && WellTypedFields(fs)
    ensures OpenReply(name, seqid, Replying(name, seqid, fs)) == Body(EncodeStruct(fs) + [MessageEnd])
    ensures ReadStruct(known, EncodeStruct(fs) + [MessageEnd]) == Parsed(LastTyped(known, fs), [MessageEnd])
  {
    assert Replying(name, seqid, fs)[1..] == EncodeStruct(fs) + [MessageEnd];
    ReadsLastOccurrences(known, fs, [MessageEnd]);
  }

  lemma {:induction false} OneField(known: Known, f: Field)
    ensures LastTyped(known, [f]) ==
            if f.id in known && known[f.id] == TypeOf(f.value) then map[f.id := f.value] else map[]
  {
    assert [f][..0] == [];
    assert LastTyped(known, [f][..0]) == map[];
  }

  function OutOfSequence(name: string): Thrown {
    App(AppError(BAD_SEQUENCE_ID, name + " failed: out of sequence response"))
  }

  /** A client that expects number `mine` gets the reply of a server to number `theirs`: it sees the outcome
      if and only if the numbers agree or the implementation failed; any other reply is refused. */
  lemma {:induction false} IntArrives(name: string, mine: int, theirs: int, f: Future<int>)
    ensures var got := ReceivedInt(name, mine, IntReply(name, theirs, f));
            && (got == SeenInt(name, f) <==> mine == theirs || f.Exception?)
            && (got != SeenInt(name, f) ==> got == Exception(OutOfSequence(name)))
  {
    match f
    case Value(v) =>
      ReplyBody(name, theirs, IntFields(v), INT_RESULT);
      OneField(INT_RESULT, Field(0, VI32(v)));
    case Exception(_) =>
      assert Failing(name, theirs, Internal(name))[2..] == [MessageEnd];
  }

  lemma {:induction false} StringArrives(name: string, mine: int, theirs: int, f: Future<Option<string>>)
    ensures var got := ReceivedString(name, mine, StringReply(name, theirs, f));
            && (got == SeenString(name, f) <==> mine == theirs || f.Exception?)
            && (got != SeenString(name, f) ==> got == Exception(OutOfSequence(name)))
  {
    match f
    case Value(v) =>
      ReplyBody(name, theirs, StringFields(v), STRING_RESULT);
      if v.Some? {
        OneField(STRING_RESULT, Field(0, VStr(v.value)));
      }
    case Exception(_) =>
      assert Failing(name, theirs, Internal(name))[2..] == [MessageEnd];
  }

  function AddFields(a: int, b: int): seq<Field> {
    [Field(1, VI32(a)), Field(2, VI32(b))]
  }

  /** Reading the arguments of `add` back gives what was written. */
  lemma {:induction false} AddArgsRoundTrip(a: int, b: int, rest: seq<Token>)
    ensures ReadStruct(ADD_ARGS, EncodeStruct(AddFields(a, b)) + rest) == Parsed(map[1 := VI32(a), 2 := VI32(b)], rest)
  {
    ReadsLastOccurrences(ADD_ARGS, AddFields(a, b), rest);
    OneField(ADD_ARGS, Field(1, VI32(a)));
    assert AddFields(a, b)[..1] == [Field(1, VI32(a))];
  }

  /** `equals` of the source: both fields, whether or not they are marked as set. */
  predicate Equal(x: AddArgs, y: AddArgs)
    reads x, y
  {
    x.a == y.a && x.b == y.b
  }

  /** Write one argument struct and read it into another: they are equal, and both fields of the second are
      marked as set, whatever it held before. */
  method WriteThenRead(x: AddArgs, y: AddArgs) returns (e: Option<ReadError>)
    modifies y
    ensures e == None && Equal(x, y) && y.aIsSet && y.bIsSet
    ensures y.a == old(x.a) && y.b == old(x.b)
  {
    var oprot := new Output();
    x.Write(oprot);
    var iprot := new Input(oprot.written);
    AddArgsRoundTrip(x.a, x.b, []);
    assert oprot.written + [] == oprot.written == EncodeStruct(AddFields(x.a, x.b));
    e := y.Read(iprot);
  }

  /** 32-bit increment. */
  function Next32(n: int): int {
    if n == 0x7fff_ffff then -0x8000_0000 else n + 1
  }

  /** Calls that go through a Finagle service: every call writes sequence number 0 and reads the
      answer with a client of its own. */
  class ServiceToClient {
    const service: Service

    constructor (s: Service)
      ensures service == s
    {
      service := s;
    }

    method Add(a: int, b: int) returns (f: Future<int>)
      ensures f == SeenInt("add", service.iface.add(a, b))
    {
      var request := WriteAdd(0, a, b);
      var done := service.Apply(request);
      ServedAdd(service.iface, 0, a, b);
      RequestTokens("add", CALL, 0, AddFields(a, b));
      var client := new Client();
      var iprot := new Input(done.v);
      f := client.RecvInt("add", iprot);
      IntArrives("add", 0, 0, service.iface.add(a, b));
    }

    method Hi() returns (f: Future<string>)
      ensures f == SeenString("hi", service.iface.hi)
    {
      var request := WriteNoArgs("hi", 0);
      var done := service.Apply(request);
      DispatchWellFormed(service.iface, "hi", 0, []);
      RequestTokens("hi", CALL, 0, []);
      var client := new Client();
      var iprot := new Input(done.v);
      f := client.RecvString("hi", iprot);
      StringArrives("hi", 0, 0, service.iface.hi);
    }

    method BlockingCall() returns (f: Future<int>)
      ensures f == SeenInt("blocking_call", service.iface.blocking_call)
    {
      var request := WriteNoArgs("blocking_call", 0);
      var done := service.Apply(request);
      DispatchWellFormed(service.iface, "blocking_call", 0, []);
      RequestTokens("blocking_call", CALL, 0, []);
      var client := new Client();
      var iprot := new Input(done.v);
      f := client.RecvInt("blocking_call", iprot);
      IntArrives("blocking_call", 0, 0, service.iface.blocking_call);
    }
  }

  method WriteAdd(seqid: int, a: int, b: int) returns (request: seq<Token>)
    ensures request == Request("add", CALL, seqid, AddFields(a, b))
  {
    var oprot := new Output();
    oprot.Put(MessageBegin("add", CALL, seqid));
    var args := new AddArgs();
    args.SetA(a);
    args.SetB(b);
    args.Write(oprot);
    oprot.Put(MessageEnd);
    request := oprot.written;
    assert request == Request("add", CALL, seqid, AddFields(a, b));
  }

  method WriteNoArgs(name: string, seqid: int) returns (request: seq<Token>)
    ensures request == Request(name, CALL, seqid, [])
  {
    var oprot := new Output();
    oprot.Put(MessageBegin(name, CALL, seqid));
    oprot.Put(StructBegin);
    oprot.Put(FieldStop);
    oprot.Put(StructEnd);
    oprot.Put(MessageEnd);
    request := oprot.written;
    assert EncodeStruct([]) == [StructBegin, FieldStop, StructEnd];
  }

  lemma {:induction false} ServedAdd(iface: Iface, seqid: int, a: int, b: int)
    ensures Dispatch(iface, "add", seqid, EncodeStruct(AddFields(a, b)) + [MessageEnd])
            == Reply(IntReply("add", seqid, iface.add(a, b)))
  {
    AddArgsRoundTrip(a, b, [MessageEnd]);
  }

  /** The plain client on a connection to the service: one call, with the next sequence number.  Its
      sequence check never fires, whatever number it has reached. */
  method CallAdd(client: Client, service: Service, a: int, b: int) returns (f: Future<int>)
    modifies client
    ensures client.seqid == Next32(old(client.seqid))
    ensures f == SeenInt("add", service.iface.add(a, b))
  {
    client.seqid := Next32(client.seqid);
    var request := WriteAdd(client.seqid, a, b);
    var done := service.Apply(request);
    ServedAdd(service.iface, client.seqid, a, b);
    RequestTokens("add", CALL, client.seqid, AddFields(a, b));
    var iprot := new Input(done.v);
    f := client.RecvInt("add", iprot);
    IntArrives("add", client.seqid, client.seqid, service.iface.add(a, b));
  }

  /** The answer to some call of `add` reaches a client that expects number `client.seqid`: it is taken for the
      outcome of its own call only if it carries that number or is an error. */
  method ReceiveAdd(client: Client, theirs: int, outcome: Future<int>) returns (f: Future<int>)
    ensures f == if client.seqid == theirs || outcome.Exception? then SeenInt("add", outcome)
                 else Exception(OutOfSequence("add"))
  {
    var iprot := new Input(IntReply("add", theirs, outcome));
    f := client.RecvInt("add", iprot);
    IntArrives("add", client.seqid, theirs, outcome);
  }

  /** The same for `hi`. */
  method ReceiveHi(client: Client, theirs: int, outcome: Future<Option<string>>) returns (f: Future<string>)
    ensures f == if client.seqid == theirs || outcome.Exception? then SeenString("hi", outcome)
                 else Exception(OutOfSequence("hi"))
  {
    var iprot := new Input(StringReply("hi", theirs, outcome));
    f := client.RecvString("hi", iprot);
    StringArrives("hi", client.seqid, theirs, outcome);
  }

  /** A null string does not arrive, though the implementation succeeded: the value is seen if and
      only if it is not null. */
  lemma {:induction false} NullStringIsMissing(seqid: int, v: Option<string>)
    ensures ReceivedString("hi", seqid, StringReply("hi", seqid, Value(v))).Value? <==> v.Some?
    ensures v.None? ==> ReceivedString("hi", seqid, StringReply("hi", seqid, Value(v))) == Exception(Missing("hi"))
  {
    StringArrives("hi", seqid, seqid, Value(v));
  }
}
