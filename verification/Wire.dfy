/** The wire between Thrift stubs, as the sequence of protocol calls that write it and read it back.
    Values nest; a reader that does not know a field skips one whole value. */
module Wire {
  datatype TType = TBool | TByte | TDouble | TI16 | TI32 | TI64 | TString | TStruct | TMap | TSet | TList

  datatype MessageType = CALL | REPLY | EXCEPTION

  /** The kinds of TApplicationException that the stubs use. */
  datatype Kind = UNKNOWN_METHOD | BAD_SEQUENCE_ID | MISSING_RESULT | INTERNAL_ERROR | PROTOCOL_ERROR

  datatype AppError = AppError(kind: Kind, message: string)

  datatype Token =
    | MessageBegin(name: string, mtype: MessageType, seqid: int)
    | MessageEnd
    | StructBegin
    | StructEnd
    | FieldBegin(ftype: TType, id: int)
    | FieldEnd
    | FieldStop
    | I32(n: int)
    | Str(s: string)
    | Scalar(stype: TType, bits: int)
    | ListBegin(elem: TType, size: nat)
    | ListEnd
    | SetBegin(elem: TType, size: nat)
    | SetEnd
    | MapBegin(key: TType, val: TType, size: nat)
    | MapEnd
    | Failure(error: AppError)

  datatype Value =
    | VI32(n: int)
    | VStr(s: string)
    | VScalar(stype: TType, bits: int)
    | VStruct(fields: seq<Field>)
    | VList(elem: TType, items: seq<Value>)
    | VSet(elem: TType, items: seq<Value>)
    | VMap(key: TType, val: TType, pairs: seq<Pair>)

  datatype Field = Field(id: int, value: Value)

  datatype Pair = Pair(k: Value, v: Value)

  /** Why reading failed: the stream has the wrong shape, or ends too early. */
  datatype ReadError = Malformed | EndOfStream

  datatype Rest = Left(ts: seq<Token>) | Broken(why: ReadError)

  predicate IsScalar(t: TType) {
    t.TBool? || t.TByte? || t.TDouble? || t.TI16? || t.TI64?
  }

  function TypeOf(v: Value): TType {
    match v
    case VI32(_) => TI32
    case VStr(_) => TString
    case VScalar(t, _) => t
    case VStruct(_) => TStruct
    case VList(_, _) => TList
    case VSet(_, _) => TSet
    case VMap(_, _, _) => TMap
  }

  /** Containers hold what they declare. */
  predicate WellTyped(v: Value) {
    match v
    case VScalar(t, _) => IsScalar(t)
    case VStruct(fs) => forall f :: f in fs ==> WellTyped(f.value)
    case VList(t, vs) => forall x :: x in vs ==> TypeOf(x) == t && WellTyped(x)
    case VSet(t, vs) => forall x :: x in vs ==> TypeOf(x) == t && WellTyped(x)
    case VMap(kt, vt, ps) =>
      forall p :: p in ps ==> TypeOf(p.k) == kt && TypeOf(p.v) == vt && WellTyped(p.k) && WellTyped(p.v)
    case _ => true
  }

  predicate WellTypedFields(fs: seq<Field>) {
    forall f :: f in fs ==> WellTyped(f.value)
  }

  function Encode(v: Value): seq<Token>
    decreases v, 0
  {
    match v
    case VI32(n) => [I32(n)]
    case VStr(s) => [Str(s)]
    case VScalar(t, n) => [Scalar(t, n)]
    case VStruct(fs) => EncodeStruct(fs)
    case VList(t, vs) => [ListBegin(t, |vs|)] + EncodeItems(vs) + [ListEnd]
    case VSet(t, vs) => [SetBegin(t, |vs|)] + EncodeItems(vs) + [SetEnd]
    case VMap(kt, vt, ps) => [MapBegin(kt, vt, |ps|)] + EncodePairs(ps) + [MapEnd]
  }

  function EncodeStruct(fs: seq<Field>): seq<Token>
    decreases fs, 2
  {
    [StructBegin] + EncodeFields(fs) + [FieldStop, StructEnd]
  }

  function EncodeFields(fs: seq<Field>): seq<Token>
    decreases fs, 1
  {
    if fs == [] then [] else EncodeField(fs[0]) + EncodeFields(fs[1..])
  }

  function EncodeField(f: Field): seq<Token>
    decreases f, 0
  {
    [FieldBegin(TypeOf(f.value), f.id)] + Encode(f.value) + [FieldEnd]
  }

  function EncodeItems(vs: seq<Value>): seq<Token>
    decreases vs, 1
  {
    if vs == [] then [] else Encode(vs[0]) + EncodeItems(vs[1..])
  }

  function EncodePairs(ps: seq<Pair>): seq<Token>
    decreases ps, 1
  {
    if ps == [] then [] else EncodePair(ps[0]) + EncodePairs(ps[1..])
  }

  function EncodePair(p: Pair): seq<Token>
    decreases p, 0
  {
    Encode(p.k) + Encode(p.v)
  }

  // ---------------------------------------------------------------- reading

  /** Consume one token that must be there. */
  function Expect(t: Token, ts: seq<Token>): (r: Rest)
    ensures r.Left? ==> |r.ts| < |ts|
  {
    if ts == [] then Broken(EndOfStream) else if ts[0] == t then Left(ts[1..]) else Broken(Malformed)
  }

  /** Consume one value of type `t`. */
  function Skip(t: TType, ts: seq<Token>): (r: Rest)
    ensures r.Left? ==> |r.ts| < |ts|
    decreases |ts|, 1, 0
  {
    if ts == [] then Broken(EndOfStream)
    else
      match (t, ts[0])
      case (TI32, I32(_)) => Left(ts[1..])
      case (TString, Str(_)) => Left(ts[1..])
      case (TStruct, StructBegin) =>
        var r := SkipFields(ts[1..]);
        if r.Broken? then r else Expect(StructEnd, r.ts)
      case (TList, ListBegin(e, n)) =>
        var r := SkipItems(e, n, ts[1..]);
        if r.Broken? then r else Expect(ListEnd, r.ts)
      case (TSet, SetBegin(e, n)) =>
        var r := SkipItems(e, n, ts[1..]);
        if r.Broken? then r else Expect(SetEnd, r.ts)
      case (TMap, MapBegin(k, v, n)) =>
        var r := SkipPairs(k, v, n, ts[1..]);
        if r.Broken? then r else Expect(MapEnd, r.ts)
      case (_, Scalar(s, _)) => if s == t && IsScalar(t) then Left(ts[1..]) else Broken(Malformed)
      case _ => Broken(Malformed)
  }

  function SkipFields(ts: seq<Token>): (r: Rest)
    ensures r.Left? ==> |r.ts| < |ts|
    decreases |ts|, 0, 0
  {
    if ts == [] then Broken(EndOfStream)
    else if ts[0].FieldStop? then Left(ts[1..])
    else if !ts[0].FieldBegin? then Broken(Malformed)
    else
      var r := Skip(ts[0].ftype, ts[1..]);
      if r.Broken? then r
      else
        var q := Expect(FieldEnd, r.ts);
        if q.Broken? then q else SkipFields(q.ts)
  }

  function SkipItems(t: TType, n: nat, ts: seq<Token>): (r: Rest)
    ensures r.Left? ==> |r.ts| <= |ts|
    decreases |ts|, 2, n
  {
    if n == 0 then Left(ts)
    else
      var r := Skip(t, ts);
      if r.Broken? then r else SkipItems(t, n - 1, r.ts)
  }

  function SkipPairs(k: TType, v: TType, n: nat, ts: seq<Token>): (r: Rest)
    ensures r.Left? ==> |r.ts| <= |ts|
    decreases |ts|, 2, n
  {
    if n == 0 then Left(ts)
    else
      var r := Skip(k, ts);
      if r.Broken? then r
      else
        var q := Skip(v, r.ts);
        if q.Broken? then q else SkipPairs(k, v, n - 1, q.ts)
  }

  // ---------------------------------------------------------------- skipping what was written

  /** Skipping consumes exactly one written value, however deeply it nests. */
  lemma {:induction false} SkipConsumesOneValue(v: Value, rest: seq<Token>)
    requires WellTyped(v)
    ensures Skip(TypeOf(v), Encode(v) + rest) == Left(rest)
    decreases v, 0
  {
    match v
    case VStruct(fs) => SkipConsumesStruct(fs, rest);
    case VList(t, vs) => SkipConsumesList(t, vs, rest);
    case VSet(t, vs) => SkipConsumesSet(t, vs, rest);
    case VMap(kt, vt, ps) => SkipConsumesMap(kt, vt, ps, rest);
    case _ =>
      assert (Encode(v) + rest)[1..] == rest;
  }

  lemma {:induction false} Bracketed(a: Token, mid: seq<Token>, z: Token, rest: seq<Token>)
    ensures ([a] + mid + [z] + rest)[1..] == mid + ([z] + rest)
    ensures ([z] + rest)[1..] == rest
  {
  }

  lemma {:induction false} SkipList(e: TType, n: nat, ts: seq<Token>, tail: seq<Token>)
    requires ts != [] && ts[0] == ListBegin(e, n) && SkipItems(e, n, ts[1..]) == Left(tail)
    requires tail != [] && tail[0] == ListEnd
    ensures Skip(TList, ts) == Left(tail[1..])
  {
  }

  lemma {:induction false} SkipSet(e: TType, n: nat, ts: seq<Token>, tail: seq<Token>)
    requires ts != [] && ts[0] == SetBegin(e, n) && SkipItems(e, n, ts[1..]) == Left(tail)
    requires tail != [] && tail[0] == SetEnd
    ensures Skip(TSet, ts) == Left(tail[1..])
  {
  }

  lemma {:induction false} SkipMap(k: TType, v: TType, n: nat, ts: seq<Token>, tail: seq<Token>)
    requires ts != [] && ts[0] == MapBegin(k, v, n) && SkipPairs(k, v, n, ts[1..]) == Left(tail)
    requires tail != [] && tail[0] == MapEnd
    ensures Skip(TMap, ts) == Left(tail[1..])
  {
  }

  lemma {:induction false} SkipConsumesList(t: TType, vs: seq<Value>, rest: seq<Token>)
    requires forall x :: x in vs ==> TypeOf(x) == t && WellTyped(x)
    ensures Skip(TList, [ListBegin(t, |vs|)] + EncodeItems(vs) + [ListEnd] + rest) == Left(rest)
    decreases vs, 2
  {
    Bracketed(ListBegin(t, |vs|), EncodeItems(vs), ListEnd, rest);
    SkipConsumesItems(t, vs, [ListEnd] + rest);
    SkipList(t, |vs|, [ListBegin(t, |vs|)] + EncodeItems(vs) + [ListEnd] + rest, [ListEnd] + rest);
  }

  lemma {:induction false} SkipConsumesSet(t: TType, vs: seq<Value>, rest: seq<Token>)
    requires forall x :: x in vs ==> TypeOf(x) == t && WellTyped(x)
    ensures Skip(TSet, [SetBegin(t, |vs|)] + EncodeItems(vs) + [SetEnd] + rest) == Left(rest)
    decreases vs, 2
  {
    Bracketed(SetBegin(t, |vs|), EncodeItems(vs), SetEnd, rest);
    SkipConsumesItems(t, vs, [SetEnd] + rest);
    SkipSet(t, |vs|, [SetBegin(t, |vs|)] + EncodeItems(vs) + [SetEnd] + rest, [SetEnd] + rest);
  }

  lemma {:induction false} SkipConsumesMap(kt: TType, vt: TType, ps: seq<Pair>, rest: seq<Token>)
    requires forall p :: p in ps ==> TypeOf(p.k) == kt && TypeOf(p.v) == vt && WellTyped(p.k) && WellTyped(p.v)
    ensures Skip(TMap, [MapBegin(kt, vt, |ps|)] + EncodePairs(ps) + [MapEnd] + rest) == Left(rest)
    decreases ps, 2
  {
    Bracketed(MapBegin(kt, vt, |ps|), EncodePairs(ps), MapEnd, rest);
    SkipConsumesPairs(kt, vt, ps, [MapEnd] + rest);
    SkipMap(kt, vt, |ps|, [MapBegin(kt, vt, |ps|)] + EncodePairs(ps) + [MapEnd] + rest, [MapEnd] + rest);
  }

  lemma {:induction false} SkipConsumesStruct(fs: seq<Field>, rest: seq<Token>)
    requires WellTypedFields(fs)
    ensures Skip(TStruct, EncodeStruct(fs) + rest) == Left(rest)
    decreases fs, 2
  {
    StructTokens(fs, rest);
    SkipConsumesFields(fs, [StructEnd] + rest);
    assert ([StructEnd] + rest)[1..] == rest;
  }

  /** A written struct, token by token at its ends. */
  lemma {:induction false} StructTokens(fs: seq<Field>, rest: seq<Token>)
    ensures var ts := EncodeStruct(fs) + rest;
            ts != [] && ts[0] == StructBegin && ts[1..] == EncodeFields(fs) + ([FieldStop] + ([StructEnd] + rest))
  {
    assert [FieldStop, StructEnd] + rest == [FieldStop] + ([StructEnd] + rest);
  }

  lemma {:induction false} SkipConsumesFields(fs: seq<Field>, rest: seq<Token>)
    requires WellTypedFields(fs)
    ensures SkipFields(EncodeFields(fs) + ([FieldStop] + rest)) == Left(rest)
    decreases fs, 1
  {
    var ts := EncodeFields(fs) + ([FieldStop] + rest);
    if fs == [] {
      assert ts[1..] == rest;
    } else {
      var behind := EncodeFields(fs[1..]) + ([FieldStop] + rest);
      assert ts == EncodeField(fs[0]) + behind;
      SkipConsumesOneField(fs[0], behind);
      SkipConsumesFields(fs[1..], rest);
    }
  }

  lemma {:induction false} SkipConsumesOneField(f: Field, behind: seq<Token>)
    requires WellTyped(f.value)
    ensures var ts := EncodeField(f) + behind;
            && ts != [] && ts[0] == FieldBegin(TypeOf(f.value), f.id)
            && ts[1..] == Encode(f.value) + ([FieldEnd] + behind)
            && Skip(TypeOf(f.value), ts[1..]) == Left([FieldEnd] + behind)
            && ([FieldEnd] + behind)[1..] == behind
            && SkipFields(ts) == SkipFields(behind)
    decreases f, 0
  {
    var ts := EncodeField(f) + behind;
    assert ts[1..] == Encode(f.value) + ([FieldEnd] + behind);
    SkipConsumesOneValue(f.value, [FieldEnd] + behind);
    assert ([FieldEnd] + behind)[1..] == behind;
  }

  lemma {:induction false} SkipConsumesItems(t: TType, vs: seq<Value>, rest: seq<Token>)
    requires forall x :: x in vs ==> TypeOf(x) == t && WellTyped(x)
    ensures SkipItems(t, |vs|, EncodeItems(vs) + rest) == Left(rest)
    decreases vs, 1
  {
    if vs == [] {
      assert EncodeItems(vs) + rest == rest;
    } else {
      assert EncodeItems(vs) + rest == Encode(vs[0]) + (EncodeItems(vs[1..]) + rest);
      SkipConsumesOneValue(vs[0], EncodeItems(vs[1..]) + rest);
      SkipConsumesItems(t, vs[1..], rest);
    }
  }

  lemma {:induction false} SkipConsumesPairs(kt: TType, vt: TType, ps: seq<Pair>, rest: seq<Token>)
    requires forall p :: p in ps ==> TypeOf(p.k) == kt && TypeOf(p.v) == vt && WellTyped(p.k) && WellTyped(p.v)
    ensures SkipPairs(kt, vt, |ps|, EncodePairs(ps) + rest) == Left(rest)
    decreases ps, 1
  {
    if ps == [] {
      assert EncodePairs(ps) + rest == rest;
    } else {
      var behind := EncodePairs(ps[1..]) + rest;
      assert EncodePairs(ps) + rest == EncodePair(ps[0]) + behind;
      SkipConsumesOnePair(ps[0], behind);
      SkipConsumesPairs(kt, vt, ps[1..], rest);
    }
  }

  lemma {:induction false} SkipConsumesOnePair(p: Pair, behind: seq<Token>)
    requires WellTyped(p.k) && WellTyped(p.v)
    ensures Skip(TypeOf(p.k), EncodePair(p) + behind) == Left(Encode(p.v) + behind)
    ensures Skip(TypeOf(p.v), Encode(p.v) + behind) == Left(behind)
    decreases p, 0
  {
    assert EncodePair(p) + behind == Encode(p.k) + (Encode(p.v) + behind);
    SkipConsumesOneValue(p.k, Encode(p.v) + behind);
    SkipConsumesOneValue(p.v, behind);
  }
}
