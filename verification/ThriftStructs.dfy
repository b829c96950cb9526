/** The argument and result structs of the Haver service: how they are written, and the loop that
    reads them back from any stream of fields. */
module ThriftStructs {
  import opened Options
  import opened Wire

  /** What reading a struct gives: the fields that were known and of the expected type, and the rest
      of the stream. */
  datatype Parsed = Parsed(got: map<int, Value>, rest: seq<Token>) | Failed(why: ReadError)

  /** The fields a struct expects, with their types. */
  type Known = map<int, TType>

  const ADD_ARGS: Known := map[1 := TI32, 2 := TI32]
  const NO_ARGS: Known := map[]
  const INT_RESULT: Known := map[0 := TI32]
  const STRING_RESULT: Known := map[0 := TString]

  /** The stubs read integers and strings themselves; everything else is skipped. */
  predicate Readable(known: Known) {
    forall id :: id in known ==> known[id] == TI32 || known[id] == TString
  }

  function ReadFields(known: Known, ts: seq<Token>, got: map<int, Value>): Parsed
    requires Readable(known)
    decreases |ts|
  {
    if ts == [] then Failed(EndOfStream)
    else if ts[0].FieldStop? then Parsed(got, ts[1..])
    else if !ts[0].FieldBegin? then Failed(Malformed)
    else
      var r := Skip(ts[0].ftype, ts[1..]);
      if r.Broken? then Failed(r.why)
      else
        var q := Expect(FieldEnd, r.ts);
        if q.Broken? then Failed(q.why)
        else ReadFields(known, q.ts, Store(known, ts[0].id, ts[0].ftype, ts[1], got))
  }

  /** Remember the value of a field that is known and of the expected type. */
  function Store(known: Known, id: int, t: TType, value: Token, got: map<int, Value>): map<int, Value> {
    if id in known && known[id] == t then
      match value
      case I32(n) => got[id := VI32(n)]
      case Str(s) => got[id := VStr(s)]
      case _ => got
    else got
  }

  function ReadStruct(known: Known, ts: seq<Token>): Parsed
    requires Readable(known)
  {
    var r := Expect(StructBegin, ts);
    if r.Broken? then Failed(r.why)
    else
      match ReadFields(known, r.ts, map[])
      case Failed(why) => Failed(why)
      case Parsed(got, rest) =>
        var q := Expect(StructEnd, rest);
        if q.Broken? then Failed(q.why) else Parsed(got, q.ts)
  }

  // ---------------------------------------------------------------- any well-formed stream

  /** The last value of each known field, among its occurrences of the expected type. */
  function LastTyped(known: Known, fs: seq<Field>): map<int, Value> {
    if fs == [] then map[]
    else
      var f := fs[|fs| - 1];
      var m := LastTyped(known, fs[..|fs| - 1]);
      if f.id in known && known[f.id] == TypeOf(f.value) then m[f.id := f.value] else m
  }

  /** `fs[k]` is the last occurrence of a known field with the expected type. */
  predicate IsLast(known: Known, fs: seq<Field>, k: int) {
    && 0 <= k < |fs| && fs[k].id in known && known[fs[k].id] == TypeOf(fs[k].value)
    && forall j :: k < j < |fs| ==> fs[j].id != fs[k].id || TypeOf(fs[j].value) != known[fs[k].id]
  }

  lemma {:induction false} LastIsKept(known: Known, fs: seq<Field>, k: int)
    requires IsLast(known, fs, k)
    ensures fs[k].id in LastTyped(known, fs) && LastTyped(known, fs)[fs[k].id] == fs[k].value
  {
    var n := |fs| - 1;
    if k < n {
      var init := fs[..n];
      assert init[k] == fs[k];
      assert IsLast(known, init, k);
      LastIsKept(known, init, k);
      assert fs[n].id != fs[k].id || TypeOf(fs[n].value) != known[fs[k].id];
    }
  }

  lemma {:induction false} KeptIsLast(known: Known, fs: seq<Field>, id: int) returns (k: nat)
    requires id in LastTyped(known, fs)
    ensures IsLast(known, fs, k) && fs[k].id == id
  {
    var n := |fs| - 1;
    var init := fs[..n];
    if id == fs[n].id && id in known && known[id] == TypeOf(fs[n].value) {
      k := n;
    } else {
      k := KeptIsLast(known, init, id);
      assert fs[k] == init[k];
      assert forall j :: k < j < n ==> fs[j] == init[j];
    }
  }

  lemma {:induction false} LastTypedIsLast(known: Known, fs: seq<Field>)
    ensures forall k :: IsLast(known, fs, k) ==>
              fs[k].id in LastTyped(known, fs) && LastTyped(known, fs)[fs[k].id] == fs[k].value
    ensures forall id :: id in LastTyped(known, fs) ==> exists k :: IsLast(known, fs, k) && fs[k].id == id
  {
    forall k | IsLast(known, fs, k)
      ensures fs[k].id in LastTyped(known, fs) && LastTyped(known, fs)[fs[k].id] == fs[k].value
    {
      LastIsKept(known, fs, k);
    }
    forall id | id in LastTyped(known, fs) ensures exists k :: IsLast(known, fs, k) && fs[k].id == id {
      var k := KeptIsLast(known, fs, id);
    }
  }

  lemma {:induction false} LastTypedCons(known: Known, f: Field, fs: seq<Field>)
    ensures LastTyped(known, [f] + fs) == LastTyped(known, [f]) + LastTyped(known, fs)
  {
    if fs == [] {
      assert [f] + fs == [f];
    } else {
      assert ([f] + fs)[..|fs|] == [f] + fs[..|fs| - 1];
      LastTypedCons(known, f, fs[..|fs| - 1]);
    }
  }

  lemma {:induction false} FieldsApart(fs: seq<Field>, tail: seq<Token>)
    requires fs != []
    ensures EncodeFields(fs) + tail == EncodeField(fs[0]) + (EncodeFields(fs[1..]) + tail)
  {
  }

  lemma {:induction false} GotMore(known: Known, fs: seq<Field>, got: map<int, Value>)
    requires fs != []
    ensures got + LastTyped(known, [fs[0]]) + LastTyped(known, fs[1..]) == got + LastTyped(known, fs)
  {
    assert fs == [fs[0]] + fs[1..];
    LastTypedCons(known, fs[0], fs[1..]);
  }

  lemma {:induction false} ReadFieldsOfStruct(known: Known, fs: seq<Field>, rest: seq<Token>, got: map<int, Value>)
    requires Readable(known) && WellTypedFields(fs)
    ensures ReadFields(known, EncodeFields(fs) + ([FieldStop] + rest), got) == Parsed(got + LastTyped(known, fs), rest)
    decreases |fs|
  {
    if fs == [] {
      var ts := [FieldStop] + rest;
      assert EncodeFields(fs) + ts == ts && ts[1..] == rest;
      assert got + LastTyped(known, fs) == got;
    } else {
      FieldsApart(fs, [FieldStop] + rest);
      GotMore(known, fs, got);
      StoreField(known, fs[0], EncodeFields(fs[1..]) + ([FieldStop] + rest), got);
      ReadFieldsOfStruct(known, fs[1..], rest, got + LastTyped(known, [fs[0]]));
    }
  }

  lemma {:induction false} StoreField(known: Known, f: Field, behind: seq<Token>, got: map<int, Value>)
    requires Readable(known) && WellTyped(f.value)
    ensures ReadFields(known, EncodeField(f) + behind, got)
            == ReadFields(known, behind, got + LastTyped(known, [f]))
  {
    var ts := EncodeField(f) + behind;
    SkipConsumesOneField(f, behind);
    assert [f][..0] == [];
    assert Store(known, f.id, TypeOf(f.value), ts[1], got) == got + LastTyped(known, [f]) by {
      if f.id in known && known[f.id] == TypeOf(f.value) {
        assert ts[1] == Encode(f.value)[0];
      }
    }
  }

  /** On any well-formed struct, with unknown fields, wrong types, repetitions and nested values,
      reading consumes exactly that struct and leaves each known field at its last occurrence of
      the expected type. */
  lemma {:induction false} ReadsLastOccurrences(known: Known, fs: seq<Field>, rest: seq<Token>)
    requires Readable(known) && WellTypedFields(fs)
    ensures ReadStruct(known, EncodeStruct(fs) + rest) == Parsed(LastTyped(known, fs), rest)
  {
    StructTokens(fs, rest);
    ReadFieldsOfStruct(known, fs, [StructEnd] + rest, map[]);
    assert map[] + LastTyped(known, fs) == LastTyped(known, fs);
    assert ([StructEnd] + rest)[1..] == rest;
  }

  // ---------------------------------------------------------------- the protocol objects

  /** What `readFieldBegin` returns. */
  datatype Header = Stop | Header(t: TType, id: int)

  datatype Read<T> = Got(value: T) | Err(why: ReadError)

  /** A protocol over a memory transport: the tokens not yet read. */
  class Input {
    var unread: seq<Token>

    constructor (ts: seq<Token>)
      ensures unread == ts
    {
      unread := ts;
    }

    method Take(t: Token) returns (e: Option<ReadError>)
      modifies this
      ensures match Expect(t, old(unread))
              case Left(ts) => e == None && unread == ts
              case Broken(why) => e == Some(why) && unread == old(unread)
    {
      if unread == [] { return Some(EndOfStream); }
      if unread[0] != t { return Some(Malformed); }
      unread := unread[1..];
      e := None;
    }

    method ReadFieldBegin() returns (r: Read<Header>)
      modifies this
      ensures old(unread) == [] ==> r == Err(EndOfStream)
      ensures old(unread) != [] && old(unread)[0].FieldStop? ==> r == Got(Stop) && unread == old(unread)[1..]
      ensures old(unread) != [] && old(unread)[0].FieldBegin? ==>
                r == Got(Header(old(unread)[0].ftype, old(unread)[0].id)) && unread == old(unread)[1..]
      ensures old(unread) != [] && !old(unread)[0].FieldStop? && !old(unread)[0].FieldBegin? ==> r == Err(Malformed)
    {
      if unread == [] { return Err(EndOfStream); }
      match unread[0]
      case FieldStop =>
        unread := unread[1..];
        r := Got(Stop);
      case FieldBegin(t, id) =>
        unread := unread[1..];
        r := Got(Header(t, id));
      case _ => r := Err(Malformed);
    }

    method ReadI32() returns (r: Read<int>)
      modifies this
      ensures match Skip(TI32, old(unread))
              case Left(ts) => old(unread)[0].I32? && r == Got(old(unread)[0].n) && unread == ts
              case Broken(why) => r == Err(why)
    {
      if unread == [] { return Err(EndOfStream); }
      if !unread[0].I32? { return Err(Malformed); }
      r := Got(unread[0].n);
      unread := unread[1..];
    }

    method ReadString() returns (r: Read<string>)
      modifies this
      ensures match Skip(TString, old(unread))
              case Left(ts) => old(unread)[0].Str? && r == Got(old(unread)[0].s) && unread == ts
              case Broken(why) => r == Err(why)
    {
      if unread == [] { return Err(EndOfStream); }
      if !unread[0].Str? { return Err(Malformed); }
      r := Got(unread[0].s);
      unread := unread[1..];
    }

    /** TProtocolUtil.skip. */
    method SkipValue(t: TType) returns (e: Option<ReadError>)
      modifies this
      ensures match Skip(t, old(unread))
              case Left(ts) => e == None && unread == ts
              case Broken(why) => e == Some(why)
    {
      match Skip(t, unread)
      case Left(ts) =>
        unread := ts;
        e := None;
      case Broken(why) => e := Some(why);
    }
  }

  class AddArgs {
    var a: int
    var b: int
    var aIsSet: bool
    var bIsSet: bool

    constructor ()
      ensures a == 0 && b == 0 && !aIsSet && !bIsSet
    {
      a, b, aIsSet, bIsSet := 0, 0, false, false;
    }

    method SetA(v: int)
      modifies this
      ensures a == v && aIsSet && b == old(b) && bIsSet == old(bIsSet)
    {
      a, aIsSet := v, true;
    }

    method SetB(v: int)
      modifies this
      ensures b == v && bIsSet && a == old(a) && aIsSet == old(aIsSet)
    {
      b, bIsSet := v, true;
    }

    /** The fields, after reading `got` into a struct that held `was`. */
    predicate Holds(got: map<int, Value>, was: (int, int, bool, bool))
      reads this
    {
      && a == (if 1 in got && got[1].VI32? then got[1].n else was.0)
      && b == (if 2 in got && got[2].VI32? then got[2].n else was.1)
      && (aIsSet <==> was.2 || 1 in got)
      && (bIsSet <==> was.3 || 2 in got)
    }

    /** One field value: read it if it is known and an I32, skip it otherwise. */
    method ReadField(iprot: Input, t: TType, id: int, ghost got: map<int, Value>, ghost was: (int, int, bool, bool))
      returns (e: Option<ReadError>)
      requires Holds(got, was)
      modifies this, iprot
      ensures match Skip(t, old(iprot.unread))
              case Broken(why) => e == Some(why)
              case Left(ts) =>
                && e == None && iprot.unread == ts
                && Holds(Store(ADD_ARGS, id, t, old(iprot.unread)[0], got), was)
    {
      if id == 1 && t == TI32 {
        var r := iprot.ReadI32();
        if r.Err? { return Some(r.why); }
        SetA(r.value);
      } else if id == 2 && t == TI32 {
        var r := iprot.ReadI32();
        if r.Err? { return Some(r.why); }
        SetB(r.value);
      } else {
        e := iprot.SkipValue(t);
        return;
      }
      e := None;
    }

    /** Read a struct from whatever stream is there. */
    method Read(iprot: Input) returns (e: Option<ReadError>)
      modifies this, iprot
      ensures match ReadStruct(ADD_ARGS, old(iprot.unread))
              case Failed(why) => e == Some(why)
              case Parsed(got, rest) =>
                e == None && iprot.unread == rest && Holds(got, old((a, b, aIsSet, bIsSet)))
    {
      e := iprot.Take(StructBegin);
      if e.Some? { return; }
      ghost var start := iprot.unread;
      ghost var got: map<int, Value> := map[];
      ghost var was := (a, b, aIsSet, bIsSet);
      while true
        invariant Holds(got, was)
        invariant ReadFields(ADD_ARGS, iprot.unread, got) == ReadFields(ADD_ARGS, start, map[])
        decreases |iprot.unread|
      {
        ghost var ts := iprot.unread;
        var h := iprot.ReadFieldBegin();
        if h.Err? { return Some(h.why); }
        if h.value.Stop? { break; }
        e := ReadField(iprot, h.value.t, h.value.id, got, was);
        if e.Some? { return; }
        e := iprot.Take(FieldEnd);
        if e.Some? { return; }
        got := Store(ADD_ARGS, h.value.id, h.value.t, ts[1], got);
      }
      e := iprot.Take(StructEnd);
    }

    method Write(oprot: Output)
      modifies oprot
      ensures oprot.written == old(oprot.written) + EncodeStruct([Field(1, VI32(a)), Field(2, VI32(b))])
    {
      oprot.Put(StructBegin);
      oprot.PutField(Field(1, VI32(a)));
      oprot.PutField(Field(2, VI32(b)));
      oprot.Put(FieldStop);
      oprot.Put(StructEnd);
      EncodeTwo(Field(1, VI32(a)), Field(2, VI32(b)));
    }
  }

  lemma {:induction false} EncodeOne(f: Field)
    ensures EncodeFields([f]) == EncodeField(f)
    ensures EncodeStruct([f]) == [StructBegin] + EncodeField(f) + [FieldStop] + [StructEnd]
  {
    assert [f][1..] == [];
    assert EncodeFields([f]) == EncodeField(f);
  }

  lemma {:induction false} EncodeTwo(f: Field, g: Field)
    ensures EncodeStruct([f, g]) == [StructBegin] + EncodeField(f) + EncodeField(g) + [FieldStop] + [StructEnd]
  {
    assert [f, g][1..] == [g];
    EncodeOne(g);
    assert EncodeFields([f, g]) == EncodeField(f) + EncodeField(g);
  }

  /** A protocol over a memory buffer: the tokens written so far. */
  class Output {
    var written: seq<Token>

    constructor ()
      ensures written == []
    {
      written := [];
    }

    method Put(t: Token)
      modifies this
      ensures written == old(written) + [t]
    {
      written := written + [t];
    }

    /** writeFieldBegin, the value, writeFieldEnd. */
    method PutField(f: Field)
      modifies this
      ensures written == old(written) + EncodeField(f)
    {
      written := written + [FieldBegin(TypeOf(f.value), f.id)];
      written := written + Encode(f.value);
      written := written + [FieldEnd];
    }
  }

  /** `add_result`, and `blocking_call_result`, which is the same. */
  class IntResult {
    var success: int
    var isSet: bool

    constructor ()
      ensures success == 0 && !isSet
    {
      success, isSet := 0, false;
    }

    predicate Holds(got: map<int, Value>)
      reads this
    {
      && (isSet <==> 0 in got)
      && success == (if 0 in got && got[0].VI32? then got[0].n else 0)
    }

    method ReadField(iprot: Input, t: TType, id: int, ghost got: map<int, Value>) returns (e: Option<ReadError>)
      requires Holds(got)
      modifies this, iprot
      ensures match Skip(t, old(iprot.unread))
              case Broken(why) => e == Some(why)
              case Left(ts) =>
                e == None && iprot.unread == ts && Holds(Store(INT_RESULT, id, t, old(iprot.unread)[0], got))
    {
      if id == 0 && t == TI32 {
        var r := iprot.ReadI32();
        if r.Err? { return Some(r.why); }
        success, isSet := r.value, true;
        e := None;
      } else {
        e := iprot.SkipValue(t);
      }
    }

    method Read(iprot: Input) returns (e: Option<ReadError>)
      requires !isSet && success == 0
      modifies this, iprot
      ensures match ReadStruct(INT_RESULT, old(iprot.unread))
              case Failed(why) => e == Some(why)
              case Parsed(got, rest) => e == None && iprot.unread == rest && Holds(got)
    {
      e := iprot.Take(StructBegin);
      if e.Some? { return; }
      ghost var start := iprot.unread;
      ghost var got: map<int, Value> := map[];
      while true
        invariant Holds(got)
        invariant ReadFields(INT_RESULT, iprot.unread, got) == ReadFields(INT_RESULT, start, map[])
        decreases |iprot.unread|
      {
        ghost var ts := iprot.unread;
        var h := iprot.ReadFieldBegin();
        if h.Err? { return Some(h.why); }
        if h.value.Stop? { break; }
        e := ReadField(iprot, h.value.t, h.value.id, got);
        if e.Some? { return; }
        e := iprot.Take(FieldEnd);
        if e.Some? { return; }
        got := Store(INT_RESULT, h.value.id, h.value.t, ts[1], got);
      }
      e := iprot.Take(StructEnd);
    }

    method Write(oprot: Output)
      modifies oprot
      ensures oprot.written == old(oprot.written) + EncodeStruct(if isSet then [Field(0, VI32(success))] else [])
    {
      EncodeOne(Field(0, VI32(success)));
      oprot.Put(StructBegin);
      if isSet {
        oprot.PutField(Field(0, VI32(success)));
      }
      oprot.Put(FieldStop);
      oprot.Put(StructEnd);
    }
  }

  /** `hi_result`: the result is set exactly when it is not null. */
  class StringResult {
    var success: Option<string>

    constructor ()
      ensures success == None
    {
      success := None;
    }

    predicate Holds(got: map<int, Value>)
      reads this
    {
      success == if 0 in got && got[0].VStr? then Some(got[0].s) else None
    }

    method ReadField(iprot: Input, t: TType, id: int, ghost got: map<int, Value>) returns (e: Option<ReadError>)
      requires Holds(got)
      modifies this, iprot
      ensures match Skip(t, old(iprot.unread))
              case Broken(why) => e == Some(why)
              case Left(ts) =>
                e == None && iprot.unread == ts && Holds(Store(STRING_RESULT, id, t, old(iprot.unread)[0], got))
    {
      if id == 0 && t == TString {
        var r := iprot.ReadString();
        if r.Err? { return Some(r.why); }
        success := Some(r.value);
        e := None;
      } else {
        e := iprot.SkipValue(t);
      }
    }

    method Read(iprot: Input) returns (e: Option<ReadError>)
      requires success == None
      modifies this, iprot
      ensures match ReadStruct(STRING_RESULT, old(iprot.unread))
              case Failed(why) => e == Some(why)
              case Parsed(got, rest) => e == None && iprot.unread == rest && Holds(got)
    {
      e := iprot.Take(StructBegin);
      if e.Some? { return; }
      ghost var start := iprot.unread;
      ghost var got: map<int, Value> := map[];
      while true
        invariant Holds(got)
        invariant ReadFields(STRING_RESULT, iprot.unread, got) == ReadFields(STRING_RESULT, start, map[])
        decreases |iprot.unread|
      {
        ghost var ts := iprot.unread;
        var h := iprot.ReadFieldBegin();
        if h.Err? { return Some(h.why); }
        if h.value.Stop? { break; }
        e := ReadField(iprot, h.value.t, h.value.id, got);
        if e.Some? { return; }
        e := iprot.Take(FieldEnd);
        if e.Some? { return; }
        got := Store(STRING_RESULT, h.value.id, h.value.t, ts[1], got);
      }
      e := iprot.Take(StructEnd);
    }

    method Write(oprot: Output)
      modifies oprot
      ensures oprot.written ==
              old(oprot.written) + EncodeStruct(if success.Some? then [Field(0, VStr(success.value))] else [])
    {
      oprot.Put(StructBegin);
      if success.Some? {
        EncodeOne(Field(0, VStr(success.value)));
        oprot.PutField(Field(0, VStr(success.value)));
      }
      oprot.Put(FieldStop);
      oprot.Put(StructEnd);
    }
  }

  /** `hi_args` and `blocking_call_args` know no field: reading skips all that is there. */
  method ReadNoArgs(iprot: Input) returns (e: Option<ReadError>)
    modifies iprot
    ensures match ReadStruct(NO_ARGS, old(iprot.unread))
            case Failed(why) => e == Some(why)
            case Parsed(_, rest) => e == None && iprot.unread == rest
  {
    e := iprot.Take(StructBegin);
    if e.Some? { return; }
    ghost var start := iprot.unread;
    while true
      invariant ReadFields(NO_ARGS, iprot.unread, map[]) == ReadFields(NO_ARGS, start, map[])
      decreases |iprot.unread|
    {
      var h := iprot.ReadFieldBegin();
      if h.Err? { return Some(h.why); }
      if h.value.Stop? { break; }
      e := iprot.SkipValue(h.value.t);
      if e.Some? { return; }
      e := iprot.Take(FieldEnd);
      if e.Some? { return; }
    }
    e := iprot.Take(StructEnd);
  }
}
