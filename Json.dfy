/**
 * The JSON tree the decoders read, and the reads a Swift `Decoder` container
 * offers: `decode(_:forKey:)` on a keyed container and `decode(_:)` on an
 * unkeyed one.  A record decoder is a sequence of such reads; `ReadAll`
 * performs them in order and fails with the first error, so no partially
 * built value is ever produced.
 */
module Json {
  import opened Wrappers
  import opened Numerals

  datatype JValue =
    | JNull
    | JBool(b: bool)
    | JInt(i: int)
    | JStr(s: string)
    | JArr(items: seq<JValue>)
    | JObj(fields: map<string, JValue>)

  /** The closed string enumerations of the exchange (BnSymbol, BnAsset, ...). */
  datatype Vocabulary = Symbol | Asset | OrderStatus | TimeInForce | OrderType | OrderSide

  /** What a single read asks for. */
  datatype Kind =
    | KInteger           // Int / Int64, a JSON number
    | KString            // String
    | KDouble            // a JSON string converted with toDouble
    | KBool              // Bool
    | KDate              // Date, through the decoder's date strategy
    | KEnum(vocabulary: Vocabulary)  // a raw-value enumeration

  datatype Position = Key(name: string) | Index(at: nat)

  datatype DecodeError =
    | NotAContainer                     // the value is not the object or array the container needs
    | KeyNotFound(key: string)
    | ValueNotFound(position: Position) // JSON null, or an unkeyed container at its end
    | TypeMismatch(position: Position, expected: Kind)
    | NumberOutOfRange(position: Position)
    | MalformedNumber(position: Position)
    | BadDate(position: Position)
    | UnknownRawValue(position: Position, vocabulary: Vocabulary)
    | NotAnArray(position: Position)    // a `[T]` read met something else
    | UnknownFilterType(tag: string)    // NSError(domain: "JSON", code: 555)
    | NotJson                           // the bytes are not JSON at all

  /** A decoded scalar; enumerations decode to their raw string. */
  datatype Field = FInt(i: int) | FStr(s: string) | FReal(x: real) | FBool(b: bool) | FDate(d: int)

  /**
   * The conversions the source delegates to code outside this model:
   * `toDouble` on a string, the decoder's date strategy, and the raw-value
   * tables of the exchange's enumerations.
   */
  datatype Codec = Codec(
    toDouble: string -> Option<real>,
    toDate: JValue -> Option<int>,
    known: (Vocabulary, string) -> bool)

  /** One keyed read: the wire key and what is read there. */
  datatype Slot = Slot(key: string, kind: Kind)

  type Schema = seq<Slot>

  predicate Conforms(f: Field, k: Kind) {
    match k
    case KInteger => f.FInt?
    case KString => f.FStr?
    case KDouble => f.FReal?
    case KBool => f.FBool?
    case KDate => f.FDate?
    case KEnum(_) => f.FStr?
  }

  /** A value of the record's field that the wire format can carry. */
  predicate Admissible(c: Codec, f: Field, k: Kind) {
    Conforms(f, k) &&
    match k
    case KInteger => Int64Min <= f.i <= Int64Max
    case KEnum(v) => c.known(v, f.s)
    case _ => true
  }

  /** Decoding one present JSON value as `kind`; `position` only labels errors. */
  function ReadValue(c: Codec, v: JValue, position: Position, kind: Kind): (r: Result<Field, DecodeError>)
    ensures v.JNull? ==> r == Err(ValueNotFound(position))
    ensures r.Ok? ==> Admissible(c, r.value, kind)
  {
    if v.JNull? then Err(ValueNotFound(position))
    else match kind
      case KInteger =>
        if !v.JInt? then Err(TypeMismatch(position, kind))
        else if !(Int64Min <= v.i <= Int64Max) then Err(NumberOutOfRange(position))
        else Ok(FInt(v.i))
      case KString =>
        if v.JStr? then Ok(FStr(v.s)) else Err(TypeMismatch(position, kind))
      case KDouble =>
        if !v.JStr? then Err(TypeMismatch(position, kind))
        else (match c.toDouble(v.s)
          case None => Err(MalformedNumber(position))
          case Some(x) => Ok(FReal(x)))
      case KBool =>
        if v.JBool? then Ok(FBool(v.b)) else Err(TypeMismatch(position, kind))
      case KDate =>
        (match c.toDate(v)
          case None => Err(BadDate(position))
          case Some(d) => Ok(FDate(d)))
      case KEnum(voc) =>
        if !v.JStr? then Err(TypeMismatch(position, kind))
        else if !c.known(voc, v.s) then Err(UnknownRawValue(position, voc))
        else Ok(FStr(v.s))
  }

  /** `container.decode(_, forKey:)` */
  function ReadKey(c: Codec, o: map<string, JValue>, slot: Slot): (r: Result<Field, DecodeError>)
    ensures slot.key !in o ==> r == Err(KeyNotFound(slot.key))
    ensures r.Ok? ==> Admissible(c, r.value, slot.kind)
  {
    if slot.key !in o then Err(KeyNotFound(slot.key))
    else ReadValue(c, o[slot.key], Key(slot.key), slot.kind)
  }

  /** `decode(_:)` on an unkeyed container whose cursor stands at `index`. */
  function ReadItem(c: Codec, items: seq<JValue>, index: nat, kind: Kind): (r: Result<Field, DecodeError>)
    ensures index >= |items| ==> r == Err(ValueNotFound(Index(index)))
    ensures r.Ok? ==> Admissible(c, r.value, kind)
  {
    if index >= |items| then Err(ValueNotFound(Index(index)))
    else ReadValue(c, items[index], Index(index), kind)
  }

  predicate Typed(fields: seq<Field>, schema: Schema) {
    |fields| == |schema| &&
    forall i | 0 <= i < |schema| :: Conforms(fields[i], schema[i].kind)
  }

  ghost predicate AllRead(c: Codec, o: map<string, JValue>, schema: Schema) {
    forall i | 0 <= i < |schema| :: ReadKey(c, o, schema[i]).Ok?
  }

  /** `fields[i]` is what the i-th read of `schema` yields in `o`. */
  ghost predicate ReadsAs(c: Codec, o: map<string, JValue>, schema: Schema, fields: seq<Field>) {
    |fields| == |schema| &&
    forall i | 0 <= i < |schema| :: ReadKey(c, o, schema[i]) == Ok(fields[i])
  }

  /** `e` is the error of the first read of `schema` that fails in `o`. */
  ghost predicate FirstFailure(c: Codec, o: map<string, JValue>, schema: Schema, e: DecodeError) {
    exists i | 0 <= i < |schema| ::
      ReadKey(c, o, schema[i]) == Err(e) && forall j | 0 <= j < i :: ReadKey(c, o, schema[j]).Ok?
  }

  /** The reads of `schema`, in order, all or nothing. */
  function ReadAll(c: Codec, o: map<string, JValue>, schema: Schema): (r: Result<seq<Field>, DecodeError>)
    ensures r.Ok? <==> AllRead(c, o, schema)
    ensures r.Ok? ==> ReadsAs(c, o, schema, r.value)
    ensures r.Err? ==> FirstFailure(c, o, schema, r.error)
    ensures r.Ok? ==> Typed(r.value, schema)
  {
    if schema == [] then Ok([])
    else
      var f :- ReadKey(c, o, schema[0]);
      var rest :- ReadAll(c, o, schema[1..]);
      Ok([f] + rest)
  }

  /**
   * What a keyed decoder promises: a non-object fails at the container,
   * otherwise the schema's reads all succeed and give the fields in order,
   * or the first read that fails gives the error.
   */
  ghost predicate KeyedOutcome(c: Codec, j: JValue, schema: Schema, r: Result<seq<Field>, DecodeError>) {
    (!j.JObj? ==> r == Err(NotAContainer)) &&
    (j.JObj? ==>
      (r.Ok? <==> AllRead(c, j.fields, schema)) &&
      (r.Ok? ==> ReadsAs(c, j.fields, schema, r.value)) &&
      (r.Err? ==> FirstFailure(c, j.fields, schema, r.error)))
  }

  /** `decoder.container(keyedBy:)` followed by the reads of `schema`. */
  function DecodeObject(c: Codec, j: JValue, schema: Schema): (r: Result<seq<Field>, DecodeError>)
    ensures KeyedOutcome(c, j, schema, r)
    ensures r.Ok? ==> Typed(r.value, schema)
  {
    if !j.JObj? then Err(NotAContainer) else ReadAll(c, j.fields, schema)
  }

  /** The same promise for an unkeyed container read position by position. */
  ghost predicate PositionalOutcome(c: Codec, j: JValue, layout: seq<Kind>, r: Result<seq<Field>, DecodeError>) {
    (!j.JArr? ==> r == Err(NotAContainer)) &&
    (j.JArr? ==>
      (r.Ok? <==> forall i | 0 <= i < |layout| :: ReadItem(c, j.items, i, layout[i]).Ok?) &&
      (r.Ok? ==>
        |r.value| == |layout| &&
        forall i | 0 <= i < |layout| :: ReadItem(c, j.items, i, layout[i]) == Ok(r.value[i])) &&
      (r.Err? ==> exists i | 0 <= i < |layout| ::
        ReadItem(c, j.items, i, layout[i]) == Err(r.error) &&
        forall k | 0 <= k < i :: ReadItem(c, j.items, k, layout[k]).Ok?))
  }

  /** Decoding a JSON array as `[T]`: every element in order, the first failure wins. */
  function ReadEach<T>(decode: JValue -> Result<T, DecodeError>, items: seq<JValue>): (r: Result<seq<T>, DecodeError>)
    ensures r.Ok? <==> forall i | 0 <= i < |items| :: decode(items[i]).Ok?
    ensures r.Ok? ==> |r.value| == |items| && forall i | 0 <= i < |items| :: decode(items[i]) == Ok(r.value[i])
    ensures r.Err? ==> exists i | 0 <= i < |items| ::
      decode(items[i]) == Err(r.error) && forall k | 0 <= k < i :: decode(items[k]).Ok?
  {
    if items == [] then Ok([])
    else
      var head :- decode(items[0]);
      var rest := items[1..];
      assert forall i | 0 <= i < |rest| :: rest[i] == items[i + 1];
      match ReadEach(decode, rest)
      case Err(e) =>
        var i :| 0 <= i < |rest| && decode(rest[i]) == Err(e) && forall k | 0 <= k < i :: decode(rest[k]).Ok?;
        assert decode(items[i + 1]) == Err(e);
        Err(e)
      case Ok(tail) =>
        Ok([head] + tail)
  }

  /** Elements that each decode to the matching value decode together to the values. */
  lemma ReadEachAll<T>(decode: JValue -> Result<T, DecodeError>, items: seq<JValue>, values: seq<T>)
    requires |values| == |items| && forall i | 0 <= i < |items| :: decode(items[i]) == Ok(values[i])
    ensures ReadEach(decode, items) == Ok(values)
  {
    var r := ReadEach(decode, items);
    assert r.value == values;
  }

  /** The read at position `k` is the first to fail: the layout fails with its error. */
  lemma PositionalFails(c: Codec, items: seq<JValue>, layout: seq<Kind>, k: nat)
    requires k < |layout| && ReadItem(c, items, k, layout[k]).Err?
    requires forall i | 0 <= i < k :: ReadItem(c, items, i, layout[i]).Ok?
    ensures PositionalOutcome(c, JArr(items), layout, Err(ReadItem(c, items, k, layout[k]).error))
  {
  }

  /** Every read of the layout succeeds: the layout yields the fields read. */
  lemma PositionalSucceeds(c: Codec, items: seq<JValue>, layout: seq<Kind>, fields: seq<Field>)
    requires |fields| == |layout|
    requires forall i | 0 <= i < |layout| :: ReadItem(c, items, i, layout[i]) == Ok(fields[i])
    ensures PositionalOutcome(c, JArr(items), layout, Ok(fields))
  {
  }

  // ---- the encoding direction, used to state round trips ----

  /** How a value is written on the wire: the inverse conversions of a `Codec`. */
  datatype Renderer = Renderer(double: real -> string, date: int -> JValue)

  /**
   * `w` writes the field `f` so that `c` reads it back: `toDouble` recovers
   * the double from its rendering, and the date strategy the date from its
   * JSON form.  Integers, strings and booleans need nothing.
   */
  predicate ReadsBack(c: Codec, w: Renderer, f: Field) {
    match f
    case FReal(x) => c.toDouble(w.double(x)) == Some(x)
    case FDate(d) => w.date(d) != JNull && c.toDate(w.date(d)) == Some(d)
    case _ => true
  }

  predicate AllReadBack(c: Codec, w: Renderer, fields: seq<Field>) {
    forall i | 0 <= i < |fields| :: ReadsBack(c, w, fields[i])
  }

  function EncodeField(w: Renderer, f: Field): JValue {
    match f
    case FInt(i) => JInt(i)
    case FStr(s) => JStr(s)
    case FReal(x) => JStr(w.double(x))
    case FBool(b) => JBool(b)
    case FDate(d) => w.date(d)
  }

  function KeysOf(schema: Schema): set<string> {
    if schema == [] then {} else {schema[0].key} + KeysOf(schema[1..])
  }

  lemma {:induction false} KeysOfAt(schema: Schema, i: nat)
    requires i < |schema|
    ensures schema[i].key in KeysOf(schema)
  {
    if i > 0 {
      KeysOfAt(schema[1..], i - 1);
    }
  }

  predicate DistinctKeys(schema: Schema) {
    schema == [] || (schema[0].key !in KeysOf(schema[1..]) && DistinctKeys(schema[1..]))
  }

  lemma {:induction false} KeysOfJoin(a: Schema, b: Schema)
    ensures KeysOf(a + b) == KeysOf(a) + KeysOf(b)
  {
    if a == [] {
      assert a + b == b;
    } else {
      assert (a + b)[1..] == a[1..] + b;
      KeysOfJoin(a[1..], b);
    }
  }

  /** Joining two schemas keeps the keys distinct when neither shares a key with the other. */
  lemma {:induction false} DistinctKeysJoin(a: Schema, b: Schema)
    requires DistinctKeys(a) && DistinctKeys(b) && KeysOf(a) !! KeysOf(b)
    ensures DistinctKeys(a + b) && KeysOf(a + b) == KeysOf(a) + KeysOf(b)
  {
    if a != [] {
      assert (a + b)[1..] == a[1..] + b;
      DistinctKeysJoin(a[1..], b);
    } else {
      assert a + b == b;
    }
  }

  lemma DistinctKeysJoin3(a: Schema, b: Schema, c: Schema)
    requires DistinctKeys(a) && DistinctKeys(b) && DistinctKeys(c)
    requires KeysOf(a) !! KeysOf(b) && KeysOf(a) !! KeysOf(c) && KeysOf(b) !! KeysOf(c)
    ensures DistinctKeys(a + b + c) && KeysOf(a + b + c) == KeysOf(a) + KeysOf(b) + KeysOf(c)
  {
    DistinctKeysJoin(a, b);
    DistinctKeysJoin(a + b, c);
  }

  lemma DistinctKeysJoin4(a: Schema, b: Schema, c: Schema, d: Schema)
    requires DistinctKeys(a) && DistinctKeys(b) && DistinctKeys(c) && DistinctKeys(d)
    requires KeysOf(a) !! KeysOf(b) && KeysOf(a) !! KeysOf(c) && KeysOf(a) !! KeysOf(d)
    requires KeysOf(b) !! KeysOf(c) && KeysOf(b) !! KeysOf(d) && KeysOf(c) !! KeysOf(d)
    ensures DistinctKeys(a + b + c + d)
  {
    DistinctKeysJoin3(a, b, c);
    DistinctKeysJoin(a + b + c, d);
  }

  ghost predicate AllAdmissible(c: Codec, fields: seq<Field>, schema: Schema) {
    |fields| == |schema| &&
    forall i | 0 <= i < |schema| :: Admissible(c, fields[i], schema[i].kind)
  }

  /** The JSON object holding `fields` under the keys of `schema`. */
  function EncodeObject(w: Renderer, schema: Schema, fields: seq<Field>): map<string, JValue>
    requires |fields| == |schema|
  {
    if schema == [] then map[]
    else EncodeObject(w, schema[1..], fields[1..])[schema[0].key := EncodeField(w, fields[0])]
  }

  lemma {:induction false} EncodeObjectAt(w: Renderer, schema: Schema, fields: seq<Field>, i: nat)
    requires |fields| == |schema| && DistinctKeys(schema) && i < |schema|
    ensures schema[i].key in EncodeObject(w, schema, fields)
    ensures EncodeObject(w, schema, fields)[schema[i].key] == EncodeField(w, fields[i])
  {
    if i > 0 {
      EncodeObjectAt(w, schema[1..], fields[1..], i - 1);
      KeysOfAt(schema[1..], i - 1);
    }
  }

  lemma ReadValueRoundTrip(c: Codec, w: Renderer, f: Field, k: Kind, position: Position)
    requires ReadsBack(c, w, f) && Admissible(c, f, k)
    ensures ReadValue(c, EncodeField(w, f), position, k) == Ok(f)
  {
    if k == KDate {
      assert c.toDate(w.date(f.d)) == Some(f.d);
    } else if k == KDouble {
      assert c.toDouble(w.double(f.x)) == Some(f.x);
    }
  }

  /** Whatever admissible fields are written under distinct keys are read back unchanged. */
  lemma ReadAllRoundTrip(c: Codec, w: Renderer, schema: Schema, fields: seq<Field>)
    requires AllReadBack(c, w, fields) && DistinctKeys(schema) && AllAdmissible(c, fields, schema)
    ensures ReadAll(c, EncodeObject(w, schema, fields), schema) == Ok(fields)
  {
    var o := EncodeObject(w, schema, fields);
    forall i | 0 <= i < |schema|
      ensures ReadKey(c, o, schema[i]) == Ok(fields[i])
    {
      EncodeObjectAt(w, schema, fields, i);
      ReadValueRoundTrip(c, w, fields[i], schema[i].kind, Key(schema[i].key));
    }
    ReadAllOfReads(c, o, schema, fields);
  }

  /** When every read of `schema` yields its field, `ReadAll` yields exactly those fields. */
  lemma ReadAllOfReads(c: Codec, o: map<string, JValue>, schema: Schema, fields: seq<Field>)
    requires |fields| == |schema|
    requires forall i | 0 <= i < |schema| :: ReadKey(c, o, schema[i]) == Ok(fields[i])
    ensures ReadAll(c, o, schema) == Ok(fields)
  {
    var r := ReadAll(c, o, schema);
    assert AllRead(c, o, schema);
    assert ReadsAs(c, o, schema, r.value);
    assert r.value == fields;
  }

  lemma DecodeObjectRoundTrip(c: Codec, w: Renderer, schema: Schema, fields: seq<Field>)
    requires AllReadBack(c, w, fields) && DistinctKeys(schema) && AllAdmissible(c, fields, schema)
    ensures DecodeObject(c, JObj(EncodeObject(w, schema, fields)), schema) == Ok(fields)
  {
    ReadAllRoundTrip(c, w, schema, fields);
  }

  /** Keys outside `schema` are never consulted: extraneous keys do not change the outcome. */
  lemma {:induction false} ReadAllLocal(c: Codec, o1: map<string, JValue>, o2: map<string, JValue>, schema: Schema)
    requires forall k | k in KeysOf(schema) :: (k in o1 <==> k in o2) && (k in o1 ==> o1[k] == o2[k])
    ensures ReadAll(c, o1, schema) == ReadAll(c, o2, schema)
  {
    if schema != [] {
      ReadAllLocal(c, o1, o2, schema[1..]);
    }
  }
}
