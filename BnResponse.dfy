/**
 * The hand-written `init(from:)` decoders of the exchange's REST responses:
 * the two tag-discriminated filter families, the keyed records, the
 * positional Kline record, and the non-empty-balance filter of an account.
 *
 * Every keyed record is described by a schema: the wire keys it reads, in the
 * order the initializer reads them, and what is read under each.  A record's
 * `...Fields` function lists its values in that same order.
 */
module BnResponse {
  import opened Wrappers
  import opened Numerals
  import opened Json

  const FilterTypeSlot: Slot := Slot("filterType", KString)

  /** Reads the discriminator of a filter object. */
  function ReadTag(c: Codec, j: JValue): (r: Result<string, DecodeError>)
    ensures !j.JObj? ==> r == Err(NotAContainer)
    ensures j.JObj? && "filterType" !in j.fields ==> r == Err(KeyNotFound("filterType"))
    ensures j.JObj? && "filterType" in j.fields ==>
      (r.Ok? <==> j.fields["filterType"].JStr?) &&
      (r.Ok? ==> r.value == j.fields["filterType"].s)
  {
    if !j.JObj? then Err(NotAContainer)
    else
      var f :- ReadKey(c, j.fields, FilterTypeSlot);
      Ok(f.s)
  }

  // ---------------------------------------------------------------------------
  // ExchangeInfo.ExchangeFilter
  // ---------------------------------------------------------------------------

  datatype ExchangeFilter = ExchangeMaxNumOrders(limit: int) | ExchangeMaxAlgoOrders(limit: int)

  datatype ExchangeFilterType = ExchangeMaxNumOrdersType | ExchangeMaxAlgoOrdersType

  function ExchangeFilterRaw(t: ExchangeFilterType): string {
    match t
    case ExchangeMaxNumOrdersType => "EXCHANGE_MAX_NUM_ORDERS"
    case ExchangeMaxAlgoOrdersType => "EXCHANGE_MAX_ALGO_ORDERS"
  }

  /** `FilterType(rawValue:)`: the closed tag table, exactly inverse to the raw values. */
  function ExchangeFilterTypeOf(raw: string): (r: Option<ExchangeFilterType>)
    ensures r.Some? ==> ExchangeFilterRaw(r.value) == raw
    ensures r.None? ==> forall t :: ExchangeFilterRaw(t) != raw
  {
    if raw == "EXCHANGE_MAX_NUM_ORDERS" then Some(ExchangeMaxNumOrdersType)
    else if raw == "EXCHANGE_MAX_ALGO_ORDERS" then Some(ExchangeMaxAlgoOrdersType)
    else None
  }

  function ExchangeFilterTypeFor(f: ExchangeFilter): ExchangeFilterType {
    match f
    case ExchangeMaxNumOrders(_) => ExchangeMaxNumOrdersType
    case ExchangeMaxAlgoOrders(_) => ExchangeMaxAlgoOrdersType
  }

  /** The keys each exchange-filter variant reads: only `limit`, as an integer. */
  function ExchangeFilterSchema(t: ExchangeFilterType): Schema {
    [Slot("limit", KInteger)]
  }

  function ExchangeFilterFields(f: ExchangeFilter): seq<Field> {
    [FInt(f.limit)]
  }

  function ExchangeFilterOf(t: ExchangeFilterType, fields: seq<Field>): (f: ExchangeFilter)
    requires Typed(fields, ExchangeFilterSchema(t))
    ensures ExchangeFilterTypeFor(f) == t && ExchangeFilterFields(f) == fields
  {
    match t
    case ExchangeMaxNumOrdersType => ExchangeMaxNumOrders(fields[0].i)
    case ExchangeMaxAlgoOrdersType => ExchangeMaxAlgoOrders(fields[0].i)
  }

  /** `ExchangeFilter.init(from:)` */
  function DecodeExchangeFilter(c: Codec, j: JValue): (r: Result<ExchangeFilter, DecodeError>)
    ensures ReadTag(c, j).Err? ==> r == Err(ReadTag(c, j).error)
    ensures ReadTag(c, j).Ok? && ExchangeFilterTypeOf(ReadTag(c, j).value).None? ==>
      r == Err(UnknownFilterType(ReadTag(c, j).value))
    ensures r.Ok? ==>
      ReadTag(c, j) == Ok(ExchangeFilterRaw(ExchangeFilterTypeFor(r.value))) &&
      ReadsAs(c, j.fields, ExchangeFilterSchema(ExchangeFilterTypeFor(r.value)), ExchangeFilterFields(r.value))
  {
    var raw :- ReadTag(c, j);
    match ExchangeFilterTypeOf(raw)
    case None => Err(UnknownFilterType(raw))
    case Some(t) =>
      var fields :- ReadAll(c, j.fields, ExchangeFilterSchema(t));
      Ok(ExchangeFilterOf(t, fields))
  }

  /** A known tag decodes exactly when that variant's own reads succeed. */
  lemma ExchangeFilterKnownTag(c: Codec, j: JValue, t: ExchangeFilterType)
    requires ReadTag(c, j) == Ok(ExchangeFilterRaw(t))
    ensures DecodeExchangeFilter(c, j).Ok? <==> AllRead(c, j.fields, ExchangeFilterSchema(t))
    ensures DecodeExchangeFilter(c, j).Ok? ==> ExchangeFilterTypeFor(DecodeExchangeFilter(c, j).value) == t
    ensures DecodeExchangeFilter(c, j).Err? ==>
      FirstFailure(c, j.fields, ExchangeFilterSchema(t), DecodeExchangeFilter(c, j).error)
  {
    assert ExchangeFilterTypeOf(ExchangeFilterRaw(t)) == Some(t);
  }

  function EncodeExchangeFilter(w: Renderer, f: ExchangeFilter): JValue {
    var t := ExchangeFilterTypeFor(f);
    JObj(EncodeObject(w, ExchangeFilterSchema(t), ExchangeFilterFields(f))["filterType" := JStr(ExchangeFilterRaw(t))])
  }

  lemma ExchangeFilterRoundTrip(c: Codec, w: Renderer, f: ExchangeFilter)
    requires Int64Min <= f.limit <= Int64Max
    ensures DecodeExchangeFilter(c, EncodeExchangeFilter(w, f)) == Ok(f)
  {
    var t := ExchangeFilterTypeFor(f);
    var o := EncodeObject(w, ExchangeFilterSchema(t), ExchangeFilterFields(f));
    var o' := o["filterType" := JStr(ExchangeFilterRaw(t))];
    ReadAllRoundTrip(c, w, ExchangeFilterSchema(t), ExchangeFilterFields(f));
    ReadAllLocal(c, o, o', ExchangeFilterSchema(t));
    assert ExchangeFilterTypeOf(ExchangeFilterRaw(t)) == Some(t);
  }

  // ---------------------------------------------------------------------------
  // ExchangeInfo.SymbolInfo.Filter
  // ---------------------------------------------------------------------------

  datatype SymbolFilter =
    | PriceFilter(minPrice: real, maxPrice: real, tickSize: real)
    | LotSize(minQuantity: real, maxQuantity: real, stepSize: real)
    | MinNotional(minNotional: real)
    | MaxNumOrders(limit: int)
    | MaxAlgoOrders(limit: int)

  datatype SymbolFilterType = PriceFilterType | LotSizeType | MinNotionalType | MaxNumOrdersType | MaxAlgoOrdersType

  function SymbolFilterRaw(t: SymbolFilterType): string {
    match t
    case PriceFilterType => "PRICE_FILTER"
    case LotSizeType => "LOT_SIZE"
    case MinNotionalType => "MIN_NOTIONAL"
    case MaxNumOrdersType => "MAX_NUM_ORDERS"
    case MaxAlgoOrdersType => "MAX_ALGO_ORDERS"
  }

  /** `FilterType(rawValue:)`: the closed tag table, exactly inverse to the raw values. */
  function SymbolFilterTypeOf(raw: string): (r: Option<SymbolFilterType>)
    ensures r.Some? ==> SymbolFilterRaw(r.value) == raw
    ensures r.None? ==> forall t :: SymbolFilterRaw(t) != raw
  {
    if raw == "PRICE_FILTER" then Some(PriceFilterType)
    else if raw == "LOT_SIZE" then Some(LotSizeType)
    else if raw == "MIN_NOTIONAL" then Some(MinNotionalType)
    else if raw == "MAX_NUM_ORDERS" then Some(MaxNumOrdersType)
    else if raw == "MAX_ALGO_ORDERS" then Some(MaxAlgoOrdersType)
    else None
  }

  function SymbolFilterTypeFor(f: SymbolFilter): SymbolFilterType {
    match f
    case PriceFilter(_, _, _) => PriceFilterType
    case LotSize(_, _, _) => LotSizeType
    case MinNotional(_) => MinNotionalType
    case MaxNumOrders(_) => MaxNumOrdersType
    case MaxAlgoOrders(_) => MaxAlgoOrdersType
  }

  /** The wire keys each variant reads (lot sizes use `minQty`/`maxQty`, not the field names). */
  function SymbolFilterSchema(t: SymbolFilterType): Schema {
    match t
    case PriceFilterType => [Slot("minPrice", KDouble), Slot("maxPrice", KDouble), Slot("tickSize", KDouble)]
    case LotSizeType => [Slot("minQty", KDouble), Slot("maxQty", KDouble), Slot("stepSize", KDouble)]
    case MinNotionalType => [Slot("minNotional", KDouble)]
    case MaxNumOrdersType => [Slot("limit", KInteger)]
    case MaxAlgoOrdersType => [Slot("limit", KInteger)]
  }

  /** Each variant reads distinct keys, none of them the discriminator. */
  lemma SymbolFilterSchemaKeys(t: SymbolFilterType)
    ensures DistinctKeys(SymbolFilterSchema(t))
    ensures "filterType" !in KeysOf(SymbolFilterSchema(t))
  {
    match t
    case PriceFilterType =>
      assert DistinctKeys(SymbolFilterSchema(PriceFilterType));
      assert "filterType" !in KeysOf(SymbolFilterSchema(PriceFilterType));
    case LotSizeType =>
      assert DistinctKeys(SymbolFilterSchema(LotSizeType));
      assert "filterType" !in KeysOf(SymbolFilterSchema(LotSizeType));
    case _ =>
  }

  function SymbolFilterFields(f: SymbolFilter): seq<Field> {
    match f
    case PriceFilter(lo, hi, tick) => [FReal(lo), FReal(hi), FReal(tick)]
    case LotSize(lo, hi, step) => [FReal(lo), FReal(hi), FReal(step)]
    case MinNotional(m) => [FReal(m)]
    case MaxNumOrders(n) => [FInt(n)]
    case MaxAlgoOrders(n) => [FInt(n)]
  }

  function SymbolFilterOf(t: SymbolFilterType, fields: seq<Field>): (f: SymbolFilter)
    requires Typed(fields, SymbolFilterSchema(t))
    ensures SymbolFilterTypeFor(f) == t && SymbolFilterFields(f) == fields
  {
    match t
    case PriceFilterType => PriceFilter(fields[0].x, fields[1].x, fields[2].x)
    case LotSizeType => LotSize(fields[0].x, fields[1].x, fields[2].x)
    case MinNotionalType => MinNotional(fields[0].x)
    case MaxNumOrdersType => MaxNumOrders(fields[0].i)
    case MaxAlgoOrdersType => MaxAlgoOrders(fields[0].i)
  }

  /** `SymbolInfo.Filter.init(from:)` */
  function DecodeSymbolFilter(c: Codec, j: JValue): (r: Result<SymbolFilter, DecodeError>)
    ensures ReadTag(c, j).Err? ==> r == Err(ReadTag(c, j).error)
    ensures ReadTag(c, j).Ok? && SymbolFilterTypeOf(ReadTag(c, j).value).None? ==>
      r == Err(UnknownFilterType(ReadTag(c, j).value))
    ensures r.Ok? ==>
      ReadTag(c, j) == Ok(SymbolFilterRaw(SymbolFilterTypeFor(r.value))) &&
      ReadsAs(c, j.fields, SymbolFilterSchema(SymbolFilterTypeFor(r.value)), SymbolFilterFields(r.value))
  {
    var raw :- ReadTag(c, j);
    match SymbolFilterTypeOf(raw)
    case None => Err(UnknownFilterType(raw))
    case Some(t) =>
      var fields :- ReadAll(c, j.fields, SymbolFilterSchema(t));
      Ok(SymbolFilterOf(t, fields))
  }

  /** A known tag decodes exactly when that variant's own reads succeed, first failure first. */
  lemma SymbolFilterKnownTag(c: Codec, j: JValue, t: SymbolFilterType)
    requires ReadTag(c, j) == Ok(SymbolFilterRaw(t))
    ensures DecodeSymbolFilter(c, j).Ok? <==> AllRead(c, j.fields, SymbolFilterSchema(t))
    ensures DecodeSymbolFilter(c, j).Ok? ==> SymbolFilterTypeFor(DecodeSymbolFilter(c, j).value) == t
    ensures DecodeSymbolFilter(c, j).Err? ==>
      FirstFailure(c, j.fields, SymbolFilterSchema(t), DecodeSymbolFilter(c, j).error)
  {
    assert SymbolFilterTypeOf(SymbolFilterRaw(t)) == Some(t);
  }

  /** Keys of other variants are never consulted: two objects with the same tag that agree
      on that variant's keys decode alike, whatever else they hold. */
  lemma SymbolFilterLocal(c: Codec, o1: map<string, JValue>, o2: map<string, JValue>, t: SymbolFilterType)
    requires "filterType" in o1 && "filterType" in o2
    requires o1["filterType"] == o2["filterType"] == JStr(SymbolFilterRaw(t))
    requires forall k | k in KeysOf(SymbolFilterSchema(t)) :: (k in o1 <==> k in o2) && (k in o1 ==> o1[k] == o2[k])
    ensures DecodeSymbolFilter(c, JObj(o1)) == DecodeSymbolFilter(c, JObj(o2))
  {
    assert SymbolFilterTypeOf(SymbolFilterRaw(t)) == Some(t);
    ReadAllLocal(c, o1, o2, SymbolFilterSchema(t));
  }

  function EncodeSymbolFilter(w: Renderer, f: SymbolFilter): JValue {
    var t := SymbolFilterTypeFor(f);
    JObj(EncodeObject(w, SymbolFilterSchema(t), SymbolFilterFields(f))["filterType" := JStr(SymbolFilterRaw(t))])
  }

  lemma SymbolFilterRoundTrip(c: Codec, w: Renderer, f: SymbolFilter)
    requires AllReadBack(c, w, SymbolFilterFields(f))
    requires (f.MaxNumOrders? || f.MaxAlgoOrders?) ==> Int64Min <= f.limit <= Int64Max
    ensures DecodeSymbolFilter(c, EncodeSymbolFilter(w, f)) == Ok(f)
  {
    var t := SymbolFilterTypeFor(f);
    var o := EncodeObject(w, SymbolFilterSchema(t), SymbolFilterFields(f));
    var o' := o["filterType" := JStr(SymbolFilterRaw(t))];
    SymbolFilterSchemaKeys(t);
    ReadAllRoundTrip(c, w, SymbolFilterSchema(t), SymbolFilterFields(f));
    ReadAllLocal(c, o, o', SymbolFilterSchema(t));
    assert SymbolFilterTypeOf(SymbolFilterRaw(t)) == Some(t);
  }
  /** PRICE_FILTER: the three bounds are the strings under the keys of the same names, through toDouble. */
  lemma PriceFilterFromStrings(c: Codec, o: map<string, JValue>, lo: string, hi: string, tick: string)
    requires "filterType" in o && o["filterType"] == JStr("PRICE_FILTER")
    requires "minPrice" in o && o["minPrice"] == JStr(lo)
    requires "maxPrice" in o && o["maxPrice"] == JStr(hi)
    requires "tickSize" in o && o["tickSize"] == JStr(tick)
    ensures c.toDouble(lo).Some? && c.toDouble(hi).Some? && c.toDouble(tick).Some? ==>
      DecodeSymbolFilter(c, JObj(o)) ==
      Ok(PriceFilter(c.toDouble(lo).value, c.toDouble(hi).value, c.toDouble(tick).value))
    ensures c.toDouble(lo).None? ==> DecodeSymbolFilter(c, JObj(o)) == Err(MalformedNumber(Key("minPrice")))
  {
    assert SymbolFilterTypeOf("PRICE_FILTER") == Some(PriceFilterType);
  }

  /** LOT_SIZE reads the wire keys `minQty`, `maxQty` and `stepSize`. */
  lemma LotSizeFromStrings(c: Codec, o: map<string, JValue>, lo: string, hi: string, step: string)
    requires "filterType" in o && o["filterType"] == JStr("LOT_SIZE")
    requires "minQty" in o && o["minQty"] == JStr(lo)
    requires "maxQty" in o && o["maxQty"] == JStr(hi)
    requires "stepSize" in o && o["stepSize"] == JStr(step)
    requires c.toDouble(lo).Some? && c.toDouble(hi).Some? && c.toDouble(step).Some?
    ensures DecodeSymbolFilter(c, JObj(o)) ==
      Ok(LotSize(c.toDouble(lo).value, c.toDouble(hi).value, c.toDouble(step).value))
  {
    assert SymbolFilterTypeOf("LOT_SIZE") == Some(LotSizeType);
  }

  /** A LOT_SIZE object without `minQty` fails there, whatever it holds under `minQuantity`. */
  lemma LotSizeNeedsWireKey(c: Codec, o: map<string, JValue>)
    requires "filterType" in o && o["filterType"] == JStr("LOT_SIZE")
    requires "minQty" !in o
    ensures DecodeSymbolFilter(c, JObj(o)) == Err(KeyNotFound("minQty"))
  {
    assert SymbolFilterTypeOf("LOT_SIZE") == Some(LotSizeType);
  }

  /** The two tag tables share no tag: each family's decoder rejects the other's tags. */
  lemma FilterTagTablesDisjoint(t: ExchangeFilterType, u: SymbolFilterType)
    ensures SymbolFilterTypeOf(ExchangeFilterRaw(t)) == None
    ensures ExchangeFilterTypeOf(SymbolFilterRaw(u)) == None
  {
  }


  // ---------------------------------------------------------------------------
  // Trade
  // ---------------------------------------------------------------------------

  datatype Trade = Trade(
    id: int, price: real, quantity: real, time: int, isBuyerMaker: bool, isBestMatch: bool)

  const TradeSchema: Schema := [
    Slot("id", KInteger), Slot("price", KDouble), Slot("qty", KDouble), Slot("time", KDate),
    Slot("isBuyerMaker", KBool), Slot("isBestMatch", KBool)]

  function TradeFields(v: Trade): seq<Field> {
    [FInt(v.id), FReal(v.price), FReal(v.quantity), FDate(v.time), FBool(v.isBuyerMaker),
     FBool(v.isBestMatch)]
  }

  function TradeOf(fields: seq<Field>): (v: Trade)
    requires Typed(fields, TradeSchema)
    ensures TradeFields(v) == fields
  {
    Trade(fields[0].i, fields[1].x, fields[2].x, fields[3].d, fields[4].b, fields[5].b)
  }

  /** `Trade.init(from:)`: the reads of `TradeSchema`, all or nothing. */
  function DecodeTrade(c: Codec, j: JValue): (r: Result<Trade, DecodeError>)
    ensures KeyedOutcome(c, j, TradeSchema, if r.Ok? then Ok(TradeFields(r.value)) else Err(r.error))
  {
    var fields :- DecodeObject(c, j, TradeSchema);
    Ok(TradeOf(fields))
  }

  lemma TradeRoundTrip(c: Codec, w: Renderer, v: Trade)
    requires AllReadBack(c, w, TradeFields(v)) && AllAdmissible(c, TradeFields(v), TradeSchema)
    ensures DecodeTrade(c, JObj(EncodeObject(w, TradeSchema, TradeFields(v)))) == Ok(v)
  {
    DecodeObjectRoundTrip(c, w, TradeSchema, TradeFields(v));
  }

  // ---------------------------------------------------------------------------
  // AggTrade
  // ---------------------------------------------------------------------------

  datatype AggTrade = AggTrade(
    aggregateTradeId: int, price: real, quantity: real, firstTradeId: int, lastTradeId: int,
    timestamp: int, isBuyerMaker: bool, isBestMatch: bool)

  /**
   * The reads `AggTrade.init(from:)` performs.  The timestamp is decoded from
   * the last-trade-id key "l" a second time; the "T" key its coding keys
   * declare for it is never read.
   */
  const AggTradeSchema: Schema := AggTradeHeadSlots + AggTradeTailSlots

  /** The reads the coding keys declare: the timestamp under "T". */
  const AggTradeIntendedSchema: Schema := AggTradeHeadSlots + AggTradeIntendedTailSlots

  const AggTradeHeadSlots: Schema := [
    Slot("a", KInteger), Slot("p", KDouble), Slot("q", KDouble), Slot("f", KInteger)]

  const AggTradeTailSlots: Schema := [
    Slot("l", KInteger), Slot("l", KDate), Slot("m", KBool), Slot("M", KBool)]

  const AggTradeIntendedTailSlots: Schema := [
    Slot("l", KInteger), Slot("T", KDate), Slot("m", KBool), Slot("M", KBool)]

  function AggTradeFields(v: AggTrade): seq<Field> {
    [FInt(v.aggregateTradeId), FReal(v.price), FReal(v.quantity), FInt(v.firstTradeId),
     FInt(v.lastTradeId), FDate(v.timestamp), FBool(v.isBuyerMaker), FBool(v.isBestMatch)]
  }

  function AggTradeOf(fields: seq<Field>): (v: AggTrade)
    requires Typed(fields, AggTradeSchema)
    ensures AggTradeFields(v) == fields
  {
    AggTrade(fields[0].i, fields[1].x, fields[2].x, fields[3].i, fields[4].i, fields[5].d, fields[6].b,
      fields[7].b)
  }

  /** `AggTrade.init(from:)` as written: the reads of `AggTradeSchema`, all or nothing. */
  function DecodeAggTrade(c: Codec, j: JValue): (r: Result<AggTrade, DecodeError>)
    ensures KeyedOutcome(c, j, AggTradeSchema, if r.Ok? then Ok(AggTradeFields(r.value)) else Err(r.error))
  {
    var fields :- DecodeObject(c, j, AggTradeSchema);
    Ok(AggTradeOf(fields))
  }

  /** The decoder with the timestamp read from "T", as the coding keys intend. */
  function DecodeAggTradeIntended(c: Codec, j: JValue): (r: Result<AggTrade, DecodeError>)
    ensures KeyedOutcome(c, j, AggTradeIntendedSchema, if r.Ok? then Ok(AggTradeFields(r.value)) else Err(r.error))
  {
    var fields :- DecodeObject(c, j, AggTradeIntendedSchema);
    assert Typed(fields, AggTradeSchema);
    Ok(AggTradeOf(fields))
  }

  /** As written, a decoded timestamp is always the date reading of the last trade id. */
  lemma AggTradeTimestampIsLastTradeId(c: Codec, j: JValue)
    requires DecodeAggTrade(c, j).Ok?
    ensures c.toDate(JInt(DecodeAggTrade(c, j).value.lastTradeId)) == Some(DecodeAggTrade(c, j).value.timestamp)
  {
    var v := DecodeAggTrade(c, j).value;
    assert ReadKey(c, j.fields, AggTradeSchema[4]) == Ok(FInt(v.lastTradeId));
    assert ReadKey(c, j.fields, AggTradeSchema[5]) == Ok(FDate(v.timestamp));
  }

  /** As written, the "T" entry of the object is never consulted. */
  lemma AggTradeIgnoresT(c: Codec, o: map<string, JValue>, t: JValue)
    ensures DecodeAggTrade(c, JObj(o["T" := t])) == DecodeAggTrade(c, JObj(o))
  {
    KeysOfJoin(AggTradeHeadSlots, AggTradeTailSlots);
    assert "T" !in KeysOf(AggTradeHeadSlots);
    assert "T" !in KeysOf(AggTradeTailSlots);
    ReadAllLocal(c, o["T" := t], o, AggTradeSchema);
  }

  lemma AggTradeHeadKeys()
    ensures DistinctKeys(AggTradeHeadSlots)
  {
  }

  lemma AggTradeIntendedTailKeys()
    ensures DistinctKeys(AggTradeIntendedTailSlots)
  {
  }

  lemma AggTradeIntendedHeadTailApart()
    ensures KeysOf(AggTradeHeadSlots) !! KeysOf(AggTradeIntendedTailSlots)
  {
  }

  lemma AggTradeIntendedKeysDistinct()
    ensures DistinctKeys(AggTradeIntendedSchema)
  {
    AggTradeHeadKeys();
    AggTradeIntendedTailKeys();
    AggTradeIntendedHeadTailApart();
    DistinctKeysJoin(AggTradeHeadSlots, AggTradeIntendedTailSlots);
  }

  /** Every read of a correctly encoded aggregate trade except the timestamp's yields its field. */
  lemma AggTradeEncodedReads(c: Codec, w: Renderer, v: AggTrade, i: nat)
    requires AllReadBack(c, w, AggTradeFields(v)) && AllAdmissible(c, AggTradeFields(v), AggTradeIntendedSchema)
    requires i < 8 && i != 5
    ensures ReadKey(c, EncodeObject(w, AggTradeIntendedSchema, AggTradeFields(v)), AggTradeSchema[i]) ==
      Ok(AggTradeFields(v)[i])
  {
    AggTradeIntendedKeysDistinct();
    EncodeObjectAt(w, AggTradeIntendedSchema, AggTradeFields(v), i);
    ReadValueRoundTrip(c, w, AggTradeFields(v)[i], AggTradeSchema[i].kind, Key(AggTradeSchema[i].key));
  }

  /**
   * What the as-written decoder makes of a correctly encoded aggregate trade:
   * every field but the timestamp comes back, and the timestamp is replaced by
   * the date reading of the last trade id (or the decode fails there).
   */
  lemma AggTradeTimestampReplaced(c: Codec, w: Renderer, v: AggTrade)
    requires AllReadBack(c, w, AggTradeFields(v)) && AllAdmissible(c, AggTradeFields(v), AggTradeIntendedSchema)
    ensures c.toDate(JInt(v.lastTradeId)).Some? ==>
      DecodeAggTrade(c, JObj(EncodeObject(w, AggTradeIntendedSchema, AggTradeFields(v)))) ==
      Ok(v.(timestamp := c.toDate(JInt(v.lastTradeId)).value))
    ensures c.toDate(JInt(v.lastTradeId)).None? ==>
      DecodeAggTrade(c, JObj(EncodeObject(w, AggTradeIntendedSchema, AggTradeFields(v)))) ==
      Err(BadDate(Key("l")))
  {
    var o := EncodeObject(w, AggTradeIntendedSchema, AggTradeFields(v));
    forall i | 0 <= i < 8 && i != 5
      ensures ReadKey(c, o, AggTradeSchema[i]) == Ok(AggTradeFields(v)[i])
    {
      AggTradeEncodedReads(c, w, v, i);
    }
    assert o["l"] == JInt(v.lastTradeId) by {
      AggTradeEncodedReads(c, w, v, 4);
    }
    match c.toDate(JInt(v.lastTradeId))
    case Some(d) =>
      var fields := AggTradeFields(v.(timestamp := d));
      assert ReadKey(c, o, AggTradeSchema[5]) == Ok(fields[5]);
      ReadAllOfReads(c, o, AggTradeSchema, fields);
    case None =>
      var r := ReadAll(c, o, AggTradeSchema);
      assert ReadKey(c, o, AggTradeSchema[5]) == Err(BadDate(Key("l")));
      assert !AllRead(c, o, AggTradeSchema);
      assert r.error == BadDate(Key("l"));
  }

  /** The corrected decoder reads back every encoded aggregate trade unchanged. */
  lemma AggTradeIntendedRoundTrip(c: Codec, w: Renderer, v: AggTrade)
    requires AllReadBack(c, w, AggTradeFields(v)) && AllAdmissible(c, AggTradeFields(v), AggTradeIntendedSchema)
    ensures DecodeAggTradeIntended(c, JObj(EncodeObject(w, AggTradeIntendedSchema, AggTradeFields(v)))) == Ok(v)
  {
    AggTradeIntendedKeysDistinct();
    DecodeObjectRoundTrip(c, w, AggTradeIntendedSchema, AggTradeFields(v));
  }

  /** A codec that reads dates as integer milliseconds and "0" as the only number. */
  function MillisecondCodec(): Codec {
    Codec(
      (s: string) => if s == "0" then Some(0.0) else None,
      (v: JValue) => if v.JInt? then Some(v.i) else None,
      (voc: Vocabulary, s: string) => true)
  }

  /** An aggregate trade object whose timestamp (1000) differs from its last trade id (2). */
  function AggTradeSample(): map<string, JValue> {
    map["a" := JInt(1), "p" := JStr("0"), "q" := JStr("0"), "f" := JInt(1),
        "l" := JInt(2), "T" := JInt(1000), "m" := JBool(true), "M" := JBool(false)]
  }

  /** On the sample, the as-written decoder reports timestamp 2, the last trade id. */
  lemma AggTradeSampleAsWritten()
    ensures DecodeAggTrade(MillisecondCodec(), JObj(AggTradeSample())) ==
      Ok(AggTrade(1, 0.0, 0.0, 1, 2, 2, true, false))
  {
    var fields := AggTradeFields(AggTrade(1, 0.0, 0.0, 1, 2, 2, true, false));
    forall i | 0 <= i < 8
      ensures ReadKey(MillisecondCodec(), AggTradeSample(), AggTradeSchema[i]) == Ok(fields[i])
    {
    }
    ReadAllOfReads(MillisecondCodec(), AggTradeSample(), AggTradeSchema, fields);
  }

  /** On the sample, the corrected decoder reports timestamp 1000. */
  lemma AggTradeSampleIntended()
    ensures DecodeAggTradeIntended(MillisecondCodec(), JObj(AggTradeSample())) ==
      Ok(AggTrade(1, 0.0, 0.0, 1, 2, 1000, true, false))
  {
    var fields := AggTradeFields(AggTrade(1, 0.0, 0.0, 1, 2, 1000, true, false));
    forall i | 0 <= i < 8
      ensures ReadKey(MillisecondCodec(), AggTradeSample(), AggTradeIntendedSchema[i]) == Ok(fields[i])
    {
    }
    ReadAllOfReads(MillisecondCodec(), AggTradeSample(), AggTradeIntendedSchema, fields);
  }

  /** The two decoders disagree on the sample: the timestamp is lost as written. */
  lemma AggTradeTimestampLost()
    ensures DecodeAggTrade(MillisecondCodec(), JObj(AggTradeSample())).Ok?
    ensures DecodeAggTradeIntended(MillisecondCodec(), JObj(AggTradeSample())).Ok?
    ensures DecodeAggTrade(MillisecondCodec(), JObj(AggTradeSample())).value.timestamp == 2
    ensures DecodeAggTradeIntended(MillisecondCodec(), JObj(AggTradeSample())).value.timestamp == 1000
  {
    AggTradeSampleAsWritten();
    AggTradeSampleIntended();
  }

  /** A renderer that writes 0 as "0" and dates as integer milliseconds, matching `MillisecondCodec`. */
  function SampleRenderer(): Renderer {
    Renderer((x: real) => if x == 0.0 then "0" else "", (d: int) => JInt(d))
  }

  /**
   * The hypotheses of the corrected round trip can be met: with the sample
   * codec and renderer, the sample trade's encoding decodes back to it.
   */
  lemma AggTradeIntendedRoundTripApplies()
    ensures var v := AggTrade(1, 0.0, 0.0, 1, 2, 1000, true, false);
      AllReadBack(MillisecondCodec(), SampleRenderer(), AggTradeFields(v)) &&
      AllAdmissible(MillisecondCodec(), AggTradeFields(v), AggTradeIntendedSchema) &&
      DecodeAggTradeIntended(MillisecondCodec(),
        JObj(EncodeObject(SampleRenderer(), AggTradeIntendedSchema, AggTradeFields(v)))) == Ok(v)
  {
    var v := AggTrade(1, 0.0, 0.0, 1, 2, 1000, true, false);
    var c, w := MillisecondCodec(), SampleRenderer();
    forall i | 0 <= i < 8
      ensures ReadsBack(c, w, AggTradeFields(v)[i]) && Admissible(c, AggTradeFields(v)[i], AggTradeIntendedSchema[i].kind)
    {
    }
    AggTradeIntendedRoundTrip(c, w, v);
  }

  // ---------------------------------------------------------------------------
  // Kline
  // ---------------------------------------------------------------------------

  datatype Kline = Kline(
    openTime: int, open: real, high: real, low: real, close: real, volume: real, closeTime: int,
    quoteAssetVolume: real, numberOfTrades: int, takerBuyBaseAssetVolume: real,
    takerBuyQuoteAssetVolume: real)

  /** What `Kline.init(from:)` reads at each position of the array. */
  const KlineLayout: seq<Kind> := [
    KDate, KDouble, KDouble, KDouble, KDouble, KDouble, KDate, KDouble, KInteger, KDouble, KDouble]

  function KlineFields(k: Kline): seq<Field> {
    [FDate(k.openTime), FReal(k.open), FReal(k.high), FReal(k.low), FReal(k.close),
     FReal(k.volume), FDate(k.closeTime), FReal(k.quoteAssetVolume), FInt(k.numberOfTrades),
     FReal(k.takerBuyBaseAssetVolume), FReal(k.takerBuyQuoteAssetVolume)]
  }

  /**
   * What `Kline.init(from:)` yields: the eleven reads of the layout in
   * order through one cursor, the first failure ending the decode.
   */
  function KlineOf(c: Codec, j: JValue): Result<Kline, DecodeError> {
    if !j.JArr? then Err(NotAContainer)
    else
      var items := j.items;
      var openTime :- ReadItem(c, items, 0, KDate);
      var open :- ReadItem(c, items, 1, KDouble);
      var high :- ReadItem(c, items, 2, KDouble);
      var low :- ReadItem(c, items, 3, KDouble);
      var close :- ReadItem(c, items, 4, KDouble);
      var volume :- ReadItem(c, items, 5, KDouble);
      var closeTime :- ReadItem(c, items, 6, KDate);
      var quoteAssetVolume :- ReadItem(c, items, 7, KDouble);
      var numberOfTrades :- ReadItem(c, items, 8, KInteger);
      var takerBuyBase :- ReadItem(c, items, 9, KDouble);
      var takerBuyQuote :- ReadItem(c, items, 10, KDouble);
      Ok(Kline(openTime.d, open.x, high.x, low.x, close.x, volume.x, closeTime.d, quoteAssetVolume.x,
        numberOfTrades.i, takerBuyBase.x, takerBuyQuote.x))
  }
  /**
   * `Kline.init(from:)`: the cursor `currentIndex` of the unkeyed container
   * steps one element forward after every successful `decode(_:)`.
   */
  method DecodeKline(c: Codec, j: JValue) returns (r: Result<Kline, DecodeError>)
    ensures r == KlineOf(c, j)
  {
    if !j.JArr? {
      return Err(NotAContainer);
    }
    var items, currentIndex := j.items, 0;
    var openTime :- ReadItem(c, items, currentIndex, KDate);
    currentIndex := currentIndex + 1;
    var open :- ReadItem(c, items, currentIndex, KDouble);
    currentIndex := currentIndex + 1;
    var high :- ReadItem(c, items, currentIndex, KDouble);
    currentIndex := currentIndex + 1;
    var low :- ReadItem(c, items, currentIndex, KDouble);
    currentIndex := currentIndex + 1;
    var close :- ReadItem(c, items, currentIndex, KDouble);
    currentIndex := currentIndex + 1;
    var volume :- ReadItem(c, items, currentIndex, KDouble);
    currentIndex := currentIndex + 1;
    var closeTime :- ReadItem(c, items, currentIndex, KDate);
    currentIndex := currentIndex + 1;
    var quoteAssetVolume :- ReadItem(c, items, currentIndex, KDouble);
    currentIndex := currentIndex + 1;
    var numberOfTrades :- ReadItem(c, items, currentIndex, KInteger);
    currentIndex := currentIndex + 1;
    var takerBuyBase :- ReadItem(c, items, currentIndex, KDouble);
    currentIndex := currentIndex + 1;
    var takerBuyQuote :- ReadItem(c, items, currentIndex, KDouble);
    r := Ok(Kline(openTime.d, open.x, high.x, low.x, close.x, volume.x, closeTime.d, quoteAssetVolume.x,
      numberOfTrades.i, takerBuyBase.x, takerBuyQuote.x));
  }
  /** A kline that fails to decode fails with the error of its first failing read. */
  lemma KlineOfFails(c: Codec, j: JValue)
    requires KlineOf(c, j).Err?
    ensures PositionalOutcome(c, j, KlineLayout, Err(KlineOf(c, j).error))
  {
    if j.JArr? {
      if forall i | 0 <= i < 6 :: ReadItem(c, j.items, i, KlineLayout[i]).Ok? {
        KlineFailsLate(c, j);
      } else {
        KlineFailsEarly(c, j);
      }
    }
  }

  lemma KlineFailsEarly(c: Codec, j: JValue)
    requires j.JArr? && !forall i | 0 <= i < 6 :: ReadItem(c, j.items, i, KlineLayout[i]).Ok?
    ensures KlineOf(c, j).Err? && PositionalOutcome(c, j, KlineLayout, Err(KlineOf(c, j).error))
  {
    var items := j.items;
    if ReadItem(c, items, 0, KDate).Err? {
      PositionalFails(c, items, KlineLayout, 0);
    } else if ReadItem(c, items, 1, KDouble).Err? {
      PositionalFails(c, items, KlineLayout, 1);
    } else if ReadItem(c, items, 2, KDouble).Err? {
      PositionalFails(c, items, KlineLayout, 2);
    } else if ReadItem(c, items, 3, KDouble).Err? {
      PositionalFails(c, items, KlineLayout, 3);
    } else if ReadItem(c, items, 4, KDouble).Err? {
      PositionalFails(c, items, KlineLayout, 4);
    } else if ReadItem(c, items, 5, KDouble).Err? {
      PositionalFails(c, items, KlineLayout, 5);
    }
  }

  lemma KlineFailsLate(c: Codec, j: JValue)
    requires j.JArr? && forall i | 0 <= i < 6 :: ReadItem(c, j.items, i, KlineLayout[i]).Ok?
    requires KlineOf(c, j).Err?
    ensures PositionalOutcome(c, j, KlineLayout, Err(KlineOf(c, j).error))
  {
    var items := j.items;
    assert ReadItem(c, items, 0, KlineLayout[0]).Ok? && ReadItem(c, items, 1, KlineLayout[1]).Ok? &&
      ReadItem(c, items, 2, KlineLayout[2]).Ok? && ReadItem(c, items, 3, KlineLayout[3]).Ok? &&
      ReadItem(c, items, 4, KlineLayout[4]).Ok? && ReadItem(c, items, 5, KlineLayout[5]).Ok?;
    if ReadItem(c, items, 6, KDate).Err? {
      PositionalFails(c, items, KlineLayout, 6);
    } else if ReadItem(c, items, 7, KDouble).Err? {
      PositionalFails(c, items, KlineLayout, 7);
    } else if ReadItem(c, items, 8, KInteger).Err? {
      PositionalFails(c, items, KlineLayout, 8);
    } else if ReadItem(c, items, 9, KDouble).Err? {
      PositionalFails(c, items, KlineLayout, 9);
    } else if ReadItem(c, items, 10, KDouble).Err? {
      PositionalFails(c, items, KlineLayout, 10);
    }
  }

  lemma KlineOfSucceeds(c: Codec, j: JValue)
    requires KlineOf(c, j).Ok?
    ensures PositionalOutcome(c, j, KlineLayout, Ok(KlineFields(KlineOf(c, j).value)))
  {
    PositionalSucceeds(c, j.items, KlineLayout, KlineFields(KlineOf(c, j).value));
  }

  function EncodeItems(w: Renderer, fields: seq<Field>): (r: seq<JValue>)
    ensures |r| == |fields| && forall i | 0 <= i < |fields| :: r[i] == EncodeField(w, fields[i])
  {
    if fields == [] then [] else [EncodeField(w, fields[0])] + EncodeItems(w, fields[1..])
  }

  /** Reads that yield the fields of `v`, position by position, decode as `v`. */
  lemma KlineReadsAs(c: Codec, items: seq<JValue>, v: Kline)
    requires forall i | 0 <= i < |KlineLayout| :: ReadItem(c, items, i, KlineLayout[i]) == Ok(KlineFields(v)[i])
    ensures KlineOf(c, JArr(items)) == Ok(v)
  {
    assert ReadItem(c, items, 0, KlineLayout[0]) == Ok(KlineFields(v)[0]);
    assert ReadItem(c, items, 1, KlineLayout[1]) == Ok(KlineFields(v)[1]);
    assert ReadItem(c, items, 2, KlineLayout[2]) == Ok(KlineFields(v)[2]);
    assert ReadItem(c, items, 3, KlineLayout[3]) == Ok(KlineFields(v)[3]);
    assert ReadItem(c, items, 4, KlineLayout[4]) == Ok(KlineFields(v)[4]);
    assert ReadItem(c, items, 5, KlineLayout[5]) == Ok(KlineFields(v)[5]);
    assert ReadItem(c, items, 6, KlineLayout[6]) == Ok(KlineFields(v)[6]);
    assert ReadItem(c, items, 7, KlineLayout[7]) == Ok(KlineFields(v)[7]);
    assert ReadItem(c, items, 8, KlineLayout[8]) == Ok(KlineFields(v)[8]);
    assert ReadItem(c, items, 9, KlineLayout[9]) == Ok(KlineFields(v)[9]);
    assert ReadItem(c, items, 10, KlineLayout[10]) == Ok(KlineFields(v)[10]);
  }

  /**
   * An encoded kline decodes as itself, whatever further elements follow it
   * (the exchange sends a twelfth one).
   */
  lemma KlineRoundTrip(c: Codec, w: Renderer, v: Kline, extra: seq<JValue>)
    requires AllReadBack(c, w, KlineFields(v)) && forall i | 0 <= i < |KlineLayout| :: Admissible(c, KlineFields(v)[i], KlineLayout[i])
    ensures KlineOf(c, JArr(EncodeItems(w, KlineFields(v)) + extra)) == Ok(v)
  {
    var items := EncodeItems(w, KlineFields(v)) + extra;
    forall i | 0 <= i < |KlineLayout|
      ensures ReadItem(c, items, i, KlineLayout[i]) == Ok(KlineFields(v)[i])
    {
      ReadValueRoundTrip(c, w, KlineFields(v)[i], KlineLayout[i], Index(i));
    }
    KlineReadsAs(c, items, v);
  }

  // ---------------------------------------------------------------------------
  // Change24h
  // ---------------------------------------------------------------------------

  datatype Change24h = Change24h(
    symbol: string, priceChange: real, priceChangePercent: real, weightedAvgPrice: real,
    prevClosePrice: real, lastPrice: real, lastQty: real, bidPrice: real, askPrice: real,
    openPrice: real, highPrice: real, lowPrice: real, volume: real, quoteVolume: real,
    openTime: int, closeTime: int, fristId: int, lastId: int, count: int)

  const Change24hSchema: Schema :=
    Change24hChangeSlots + Change24hQuoteSlots + Change24hRangeSlots + Change24hWindowSlots

  const Change24hChangeSlots: Schema := [
    Slot("symbol", KEnum(Symbol)), Slot("priceChange", KDouble),
    Slot("priceChangePercent", KDouble), Slot("weightedAvgPrice", KDouble),
    Slot("prevClosePrice", KDouble)]
  const Change24hQuoteSlots: Schema := [
    Slot("lastPrice", KDouble), Slot("lastQty", KDouble), Slot("bidPrice", KDouble),
    Slot("askPrice", KDouble), Slot("openPrice", KDouble)]
  const Change24hRangeSlots: Schema := [
    Slot("highPrice", KDouble), Slot("lowPrice", KDouble), Slot("volume", KDouble),
    Slot("quoteVolume", KDouble)]
  /** The key `fristId` is spelled as the exchange spells it. */
  const Change24hWindowSlots: Schema := [
    Slot("openTime", KDate), Slot("closeTime", KDate), Slot("fristId", KInteger),
    Slot("lastId", KInteger), Slot("count", KInteger)]

  // Each fact below is a separate lemma: the solver checks literal keys cheaply one group at a time.
  lemma Change24hChangeKeys()
    ensures DistinctKeys(Change24hChangeSlots)
  {
  }

  lemma Change24hQuoteKeys()
    ensures DistinctKeys(Change24hQuoteSlots)
  {
  }

  lemma Change24hRangeKeys()
    ensures DistinctKeys(Change24hRangeSlots)
  {
  }

  lemma Change24hWindowKeys()
    ensures DistinctKeys(Change24hWindowSlots)
  {
  }

  lemma Change24hChangeQuoteApart()
    ensures KeysOf(Change24hChangeSlots) !! KeysOf(Change24hQuoteSlots)
  {
  }

  lemma Change24hChangeRangeApart()
    ensures KeysOf(Change24hChangeSlots) !! KeysOf(Change24hRangeSlots)
  {
  }

  lemma Change24hChangeWindowApart()
    ensures KeysOf(Change24hChangeSlots) !! KeysOf(Change24hWindowSlots)
  {
  }

  lemma Change24hQuoteRangeApart()
    ensures KeysOf(Change24hQuoteSlots) !! KeysOf(Change24hRangeSlots)
  {
  }

  lemma Change24hQuoteWindowApart()
    ensures KeysOf(Change24hQuoteSlots) !! KeysOf(Change24hWindowSlots)
  {
  }

  lemma Change24hRangeWindowApart()
    ensures KeysOf(Change24hRangeSlots) !! KeysOf(Change24hWindowSlots)
  {
  }

  lemma Change24hKeysDistinct()
    ensures DistinctKeys(Change24hSchema)
  {
    Change24hChangeKeys();
    Change24hQuoteKeys();
    Change24hRangeKeys();
    Change24hWindowKeys();
    Change24hChangeQuoteApart();
    Change24hChangeRangeApart();
    Change24hChangeWindowApart();
    Change24hQuoteRangeApart();
    Change24hQuoteWindowApart();
    Change24hRangeWindowApart();
    DistinctKeysJoin4(Change24hChangeSlots, Change24hQuoteSlots, Change24hRangeSlots, Change24hWindowSlots);
  }

  function Change24hFields(v: Change24h): seq<Field> {
    [FStr(v.symbol), FReal(v.priceChange), FReal(v.priceChangePercent), FReal(v.weightedAvgPrice),
     FReal(v.prevClosePrice), FReal(v.lastPrice), FReal(v.lastQty), FReal(v.bidPrice),
     FReal(v.askPrice), FReal(v.openPrice), FReal(v.highPrice), FReal(v.lowPrice), FReal(v.volume),
     FReal(v.quoteVolume), FDate(v.openTime), FDate(v.closeTime), FInt(v.fristId), FInt(v.lastId),
     FInt(v.count)]
  }

  function Change24hOf(fields: seq<Field>): (v: Change24h)
    requires Typed(fields, Change24hSchema)
    ensures Change24hFields(v) == fields
  {
    Change24h(fields[0].s, fields[1].x, fields[2].x, fields[3].x, fields[4].x, fields[5].x, fields[6].x,
      fields[7].x, fields[8].x, fields[9].x, fields[10].x, fields[11].x, fields[12].x, fields[13].x,
      fields[14].d, fields[15].d, fields[16].i, fields[17].i, fields[18].i)
  }

  /** `Change24h.init(from:)`: the reads of `Change24hSchema`, all or nothing. */
  function DecodeChange24h(c: Codec, j: JValue): (r: Result<Change24h, DecodeError>)
    ensures KeyedOutcome(c, j, Change24hSchema, if r.Ok? then Ok(Change24hFields(r.value)) else Err(r.error))
  {
    var fields :- DecodeObject(c, j, Change24hSchema);
    Ok(Change24hOf(fields))
  }

  lemma Change24hRoundTrip(c: Codec, w: Renderer, v: Change24h)
    requires AllReadBack(c, w, Change24hFields(v)) && AllAdmissible(c, Change24hFields(v), Change24hSchema)
    ensures DecodeChange24h(c, JObj(EncodeObject(w, Change24hSchema, Change24hFields(v)))) == Ok(v)
  {
    Change24hKeysDistinct();
    DecodeObjectRoundTrip(c, w, Change24hSchema, Change24hFields(v));
  }

  // ---------------------------------------------------------------------------
  // Price
  // ---------------------------------------------------------------------------

  datatype Price = Price(
    symbol: string, price: real)

  const PriceSchema: Schema := [
    Slot("symbol", KEnum(Symbol)), Slot("price", KDouble)]

  function PriceFields(v: Price): seq<Field> {
    [FStr(v.symbol), FReal(v.price)]
  }

  function PriceOf(fields: seq<Field>): (v: Price)
    requires Typed(fields, PriceSchema)
    ensures PriceFields(v) == fields
  {
    Price(fields[0].s, fields[1].x)
  }

  /** `Price.init(from:)`: the reads of `PriceSchema`, all or nothing. */
  function DecodePrice(c: Codec, j: JValue): (r: Result<Price, DecodeError>)
    ensures KeyedOutcome(c, j, PriceSchema, if r.Ok? then Ok(PriceFields(r.value)) else Err(r.error))
  {
    var fields :- DecodeObject(c, j, PriceSchema);
    Ok(PriceOf(fields))
  }

  lemma PriceRoundTrip(c: Codec, w: Renderer, v: Price)
    requires AllReadBack(c, w, PriceFields(v)) && AllAdmissible(c, PriceFields(v), PriceSchema)
    ensures DecodePrice(c, JObj(EncodeObject(w, PriceSchema, PriceFields(v)))) == Ok(v)
  {
    DecodeObjectRoundTrip(c, w, PriceSchema, PriceFields(v));
  }

  // ---------------------------------------------------------------------------
  // BookTicker
  // ---------------------------------------------------------------------------

  datatype BookTicker = BookTicker(
    symbol: string, bidPrice: real, bidQuantity: real, askPrice: real, askQuantity: real)

  const BookTickerSchema: Schema := [
    Slot("symbol", KEnum(Symbol)), Slot("bidPrice", KDouble), Slot("bidQty", KDouble),
    Slot("askPrice", KDouble), Slot("askQty", KDouble)]

  function BookTickerFields(v: BookTicker): seq<Field> {
    [FStr(v.symbol), FReal(v.bidPrice), FReal(v.bidQuantity), FReal(v.askPrice),
     FReal(v.askQuantity)]
  }

  function BookTickerOf(fields: seq<Field>): (v: BookTicker)
    requires Typed(fields, BookTickerSchema)
    ensures BookTickerFields(v) == fields
  {
    BookTicker(fields[0].s, fields[1].x, fields[2].x, fields[3].x, fields[4].x)
  }

  /** `BookTicker.init(from:)`: the reads of `BookTickerSchema`, all or nothing. */
  function DecodeBookTicker(c: Codec, j: JValue): (r: Result<BookTicker, DecodeError>)
    ensures KeyedOutcome(c, j, BookTickerSchema, if r.Ok? then Ok(BookTickerFields(r.value)) else Err(r.error))
  {
    var fields :- DecodeObject(c, j, BookTickerSchema);
    Ok(BookTickerOf(fields))
  }

  lemma BookTickerRoundTrip(c: Codec, w: Renderer, v: BookTicker)
    requires AllReadBack(c, w, BookTickerFields(v)) && AllAdmissible(c, BookTickerFields(v), BookTickerSchema)
    ensures DecodeBookTicker(c, JObj(EncodeObject(w, BookTickerSchema, BookTickerFields(v)))) == Ok(v)
  {
    DecodeObjectRoundTrip(c, w, BookTickerSchema, BookTickerFields(v));
  }

  // ---------------------------------------------------------------------------
  // Account.Balance
  // ---------------------------------------------------------------------------

  datatype Balance = Balance(
    asset: string, free: real, locked: real)

  const BalanceSchema: Schema := [
    Slot("asset", KEnum(Asset)), Slot("free", KDouble), Slot("locked", KDouble)]

  function BalanceFields(v: Balance): seq<Field> {
    [FStr(v.asset), FReal(v.free), FReal(v.locked)]
  }

  function BalanceOf(fields: seq<Field>): (v: Balance)
    requires Typed(fields, BalanceSchema)
    ensures BalanceFields(v) == fields
  {
    Balance(fields[0].s, fields[1].x, fields[2].x)
  }

  /** `Account.Balance.init(from:)`: the reads of `BalanceSchema`, all or nothing. */
  function DecodeBalance(c: Codec, j: JValue): (r: Result<Balance, DecodeError>)
    ensures KeyedOutcome(c, j, BalanceSchema, if r.Ok? then Ok(BalanceFields(r.value)) else Err(r.error))
  {
    var fields :- DecodeObject(c, j, BalanceSchema);
    Ok(BalanceOf(fields))
  }

  lemma BalanceRoundTrip(c: Codec, w: Renderer, v: Balance)
    requires AllReadBack(c, w, BalanceFields(v)) && AllAdmissible(c, BalanceFields(v), BalanceSchema)
    ensures DecodeBalance(c, JObj(EncodeObject(w, BalanceSchema, BalanceFields(v)))) == Ok(v)
  {
    DecodeObjectRoundTrip(c, w, BalanceSchema, BalanceFields(v));
  }
  predicate HoldsSomething(b: Balance) {
    b.free + b.locked > 0.0
  }

  /**
   * `Account.nonEmptyBalances`: of the account's `balances`, those with
   * `free + locked > 0`, in their order.
   */
  function NonEmptyBalances(balances: seq<Balance>): (r: seq<Balance>)
    ensures forall b :: b in r <==> b in balances && HoldsSomething(b)
    ensures |r| <= |balances|
  {
    if balances == [] then []
    else (if HoldsSomething(balances[0]) then [balances[0]] else []) + NonEmptyBalances(balances[1..])
  }

  /** The filter works piecewise, so the kept balances keep their relative order. */
  lemma {:induction false} NonEmptyBalancesAppend(xs: seq<Balance>, ys: seq<Balance>)
    ensures NonEmptyBalances(xs + ys) == NonEmptyBalances(xs) + NonEmptyBalances(ys)
  {
    if xs == [] {
      assert xs + ys == ys;
    } else {
      assert (xs + ys)[1..] == xs[1..] + ys;
      NonEmptyBalancesAppend(xs[1..], ys);
    }
  }

  /** A balance is kept exactly as often as it occurs when it holds something, and never otherwise. */
  lemma {:induction false} NonEmptyBalancesCount(balances: seq<Balance>, b: Balance)
    ensures multiset(NonEmptyBalances(balances))[b] == if HoldsSomething(b) then multiset(balances)[b] else 0
  {
    if balances != [] {
      NonEmptyBalancesCount(balances[1..], b);
      assert balances == [balances[0]] + balances[1..];
    }
  }

  /** Filtering twice keeps what filtering once keeps. */
  lemma {:induction false} NonEmptyBalancesIdempotent(balances: seq<Balance>)
    ensures NonEmptyBalances(NonEmptyBalances(balances)) == NonEmptyBalances(balances)
  {
    if balances != [] {
      var head := if HoldsSomething(balances[0]) then [balances[0]] else [];
      NonEmptyBalancesAppend(head, NonEmptyBalances(balances[1..]));
      NonEmptyBalancesIdempotent(balances[1..]);
      assert NonEmptyBalances(head) == head;
    }
  }


  // ---------------------------------------------------------------------------
  // Order.Result
  // ---------------------------------------------------------------------------

  datatype OrderResult = OrderResult(
    symbol: string, orderId: int, clientOrderId: string, transactTime: int, price: real,
    originalQuantity: real, executedQuantity: real, status: string, timeInForce: string,
    orderType: string, side: string)

  const OrderResultSchema: Schema :=
    OrderResultHeadSlots + OrderResultTailSlots

  const OrderResultHeadSlots: Schema := [
    Slot("symbol", KEnum(Symbol)), Slot("orderId", KInteger), Slot("clientOrderId", KString),
    Slot("transactTime", KDate), Slot("price", KDouble), Slot("origQty", KDouble)]
  const OrderResultTailSlots: Schema := [
    Slot("executedQty", KDouble), Slot("status", KEnum(OrderStatus)),
    Slot("timeInForce", KEnum(TimeInForce)), Slot("type", KEnum(OrderType)),
    Slot("side", KEnum(OrderSide))]

  // Each fact below is a separate lemma: the solver checks literal keys cheaply one group at a time.
  lemma OrderResultHeadKeys()
    ensures DistinctKeys(OrderResultHeadSlots)
  {
  }

  lemma OrderResultTailKeys()
    ensures DistinctKeys(OrderResultTailSlots)
  {
  }

  lemma OrderResultHeadTailApart()
    ensures KeysOf(OrderResultHeadSlots) !! KeysOf(OrderResultTailSlots)
  {
  }

  lemma OrderResultKeysDistinct()
    ensures DistinctKeys(OrderResultSchema)
  {
    OrderResultHeadKeys();
    OrderResultTailKeys();
    OrderResultHeadTailApart();
    DistinctKeysJoin(OrderResultHeadSlots, OrderResultTailSlots);
  }

  function OrderResultFields(v: OrderResult): seq<Field> {
    [FStr(v.symbol), FInt(v.orderId), FStr(v.clientOrderId), FDate(v.transactTime), FReal(v.price),
     FReal(v.originalQuantity), FReal(v.executedQuantity), FStr(v.status), FStr(v.timeInForce),
     FStr(v.orderType), FStr(v.side)]
  }

  function OrderResultOf(fields: seq<Field>): (v: OrderResult)
    requires Typed(fields, OrderResultSchema)
    ensures OrderResultFields(v) == fields
  {
    OrderResult(fields[0].s, fields[1].i, fields[2].s, fields[3].d, fields[4].x, fields[5].x, fields[6].x,
      fields[7].s, fields[8].s, fields[9].s, fields[10].s)
  }

  /** `Order.Result.init(from:)`: the reads of `OrderResultSchema`, all or nothing. */
  function DecodeOrderResult(c: Codec, j: JValue): (r: Result<OrderResult, DecodeError>)
    ensures KeyedOutcome(c, j, OrderResultSchema, if r.Ok? then Ok(OrderResultFields(r.value)) else Err(r.error))
  {
    var fields :- DecodeObject(c, j, OrderResultSchema);
    Ok(OrderResultOf(fields))
  }

  lemma OrderResultRoundTrip(c: Codec, w: Renderer, v: OrderResult)
    requires AllReadBack(c, w, OrderResultFields(v)) && AllAdmissible(c, OrderResultFields(v), OrderResultSchema)
    ensures DecodeOrderResult(c, JObj(EncodeObject(w, OrderResultSchema, OrderResultFields(v)))) == Ok(v)
  {
    OrderResultKeysDistinct();
    DecodeObjectRoundTrip(c, w, OrderResultSchema, OrderResultFields(v));
  }

  // ---------------------------------------------------------------------------
  // Order.Full.Fill
  // ---------------------------------------------------------------------------

  datatype Fill = Fill(
    price: real, quantity: real, commission: real, commissionAsset: string)

  const FillSchema: Schema := [
    Slot("price", KDouble), Slot("qty", KDouble), Slot("commission", KDouble),
    Slot("commissionAsset", KEnum(Asset))]

  function FillFields(v: Fill): seq<Field> {
    [FReal(v.price), FReal(v.quantity), FReal(v.commission), FStr(v.commissionAsset)]
  }

  function FillOf(fields: seq<Field>): (v: Fill)
    requires Typed(fields, FillSchema)
    ensures FillFields(v) == fields
  {
    Fill(fields[0].x, fields[1].x, fields[2].x, fields[3].s)
  }

  /** `Order.Full.Fill.init(from:)`: the reads of `FillSchema`, all or nothing. */
  function DecodeFill(c: Codec, j: JValue): (r: Result<Fill, DecodeError>)
    ensures KeyedOutcome(c, j, FillSchema, if r.Ok? then Ok(FillFields(r.value)) else Err(r.error))
  {
    var fields :- DecodeObject(c, j, FillSchema);
    Ok(FillOf(fields))
  }

  lemma FillRoundTrip(c: Codec, w: Renderer, v: Fill)
    requires AllReadBack(c, w, FillFields(v)) && AllAdmissible(c, FillFields(v), FillSchema)
    ensures DecodeFill(c, JObj(EncodeObject(w, FillSchema, FillFields(v)))) == Ok(v)
  {
    DecodeObjectRoundTrip(c, w, FillSchema, FillFields(v));
  }

  // ---------------------------------------------------------------------------
  // Order.Full
  // ---------------------------------------------------------------------------

  /** `Order.Full`: the fields of `Order.Result` and the fills. */
  datatype OrderFull = OrderFull(order: OrderResult, fills: seq<Fill>)

  function FillDecoder(c: Codec): JValue -> Result<Fill, DecodeError> {
    j => DecodeFill(c, j)
  }

  /** Decoding a JSON array as `[Fill]`: every element in order, the first failure wins. */
  function DecodeFills(c: Codec, items: seq<JValue>): (r: Result<seq<Fill>, DecodeError>)
    ensures r.Ok? <==> forall i | 0 <= i < |items| :: DecodeFill(c, items[i]).Ok?
    ensures r.Ok? ==> |r.value| == |items| && forall i | 0 <= i < |items| :: DecodeFill(c, items[i]) == Ok(r.value[i])
    ensures r.Err? ==> exists i | 0 <= i < |items| ::
      DecodeFill(c, items[i]) == Err(r.error) && forall k | 0 <= k < i :: DecodeFill(c, items[k]).Ok?
  {
    ReadEach(FillDecoder(c), items)
  }

  /** `container.decode([Fill].self, forKey: .fills)` */
  function ReadFills(c: Codec, o: map<string, JValue>): (r: Result<seq<Fill>, DecodeError>)
    ensures "fills" !in o ==> r == Err(KeyNotFound("fills"))
    ensures "fills" in o && o["fills"].JNull? ==> r == Err(ValueNotFound(Key("fills")))
    ensures "fills" in o && !o["fills"].JNull? && !o["fills"].JArr? ==> r == Err(NotAnArray(Key("fills")))
    ensures r.Ok? ==> "fills" in o && o["fills"].JArr? && |r.value| == |o["fills"].items|
  {
    if "fills" !in o then Err(KeyNotFound("fills"))
    else match o["fills"]
      case JNull => Err(ValueNotFound(Key("fills")))
      case JArr(items) => DecodeFills(c, items)
      case _ => Err(NotAnArray(Key("fills")))
  }

  /** `Order.Full.init(from:)`: the reads of `Order.Result`, then the fills. */
  function DecodeOrderFull(c: Codec, j: JValue): (r: Result<OrderFull, DecodeError>)
    ensures DecodeOrderResult(c, j).Err? ==> r == Err(DecodeOrderResult(c, j).error)
    ensures DecodeOrderResult(c, j).Ok? && ReadFills(c, j.fields).Err? ==> r == Err(ReadFills(c, j.fields).error)
    ensures r.Ok? <==> DecodeOrderResult(c, j).Ok? && ReadFills(c, j.fields).Ok?
    ensures r.Ok? ==> DecodeOrderResult(c, j) == Ok(r.value.order) && ReadFills(c, j.fields) == Ok(r.value.fills)
  {
    var order :- DecodeOrderResult(c, j);
    var fills :- ReadFills(c, j.fields);
    Ok(OrderFull(order, fills))
  }

  function EncodeFill(w: Renderer, f: Fill): JValue {
    JObj(EncodeObject(w, FillSchema, FillFields(f)))
  }

  function EncodeFills(w: Renderer, fills: seq<Fill>): (r: seq<JValue>)
    ensures |r| == |fills| && forall i | 0 <= i < |fills| :: r[i] == EncodeFill(w, fills[i])
  {
    if fills == [] then [] else [EncodeFill(w, fills[0])] + EncodeFills(w, fills[1..])
  }

  function EncodeOrderFull(w: Renderer, v: OrderFull): JValue {
    JObj(EncodeObject(w, OrderResultSchema, OrderResultFields(v.order))["fills" := JArr(EncodeFills(w, v.fills))])
  }

  lemma FillsRoundTrip(c: Codec, w: Renderer, fills: seq<Fill>)
    requires forall i | 0 <= i < |fills| :: AllReadBack(c, w, FillFields(fills[i])) && AllAdmissible(c, FillFields(fills[i]), FillSchema)
    ensures DecodeFills(c, EncodeFills(w, fills)) == Ok(fills)
  {
    var items := EncodeFills(w, fills);
    forall i | 0 <= i < |items|
      ensures FillDecoder(c)(items[i]) == Ok(fills[i])
    {
      FillRoundTrip(c, w, fills[i]);
    }
    ReadEachAll(FillDecoder(c), items, fills);
  }

  lemma OrderResultOmitsFills()
    ensures "fills" !in KeysOf(OrderResultSchema)
  {
    KeysOfJoin(OrderResultHeadSlots, OrderResultTailSlots);
    OrderResultHeadOmitsFills();
    OrderResultTailOmitsFills();
  }

  lemma OrderResultHeadOmitsFills()
    ensures "fills" !in KeysOf(OrderResultHeadSlots)
  {
  }

  lemma OrderResultTailOmitsFills()
    ensures "fills" !in KeysOf(OrderResultTailSlots)
  {
  }

  lemma OrderFullRoundTrip(c: Codec, w: Renderer, v: OrderFull)
    requires AllReadBack(c, w, OrderResultFields(v.order)) && AllAdmissible(c, OrderResultFields(v.order), OrderResultSchema)
    requires forall i | 0 <= i < |v.fills| :: AllReadBack(c, w, FillFields(v.fills[i])) && AllAdmissible(c, FillFields(v.fills[i]), FillSchema)
    ensures DecodeOrderFull(c, EncodeOrderFull(w, v)) == Ok(v)
  {
    OrderFullOrderPart(c, w, v);
    OrderFullFillsPart(c, w, v);
  }

  /** The `fills` key beside the order's keys does not disturb the order's reads. */
  lemma OrderFullOrderPart(c: Codec, w: Renderer, v: OrderFull)
    requires AllReadBack(c, w, OrderResultFields(v.order)) && AllAdmissible(c, OrderResultFields(v.order), OrderResultSchema)
    ensures DecodeOrderResult(c, EncodeOrderFull(w, v)) == Ok(v.order)
  {
    var o := EncodeObject(w, OrderResultSchema, OrderResultFields(v.order));
    var o' := o["fills" := JArr(EncodeFills(w, v.fills))];
    OrderResultRoundTrip(c, w, v.order);
    OrderResultOmitsFills();
    ReadAllLocal(c, o, o', OrderResultSchema);
    assert DecodeObject(c, JObj(o'), OrderResultSchema) == DecodeObject(c, JObj(o), OrderResultSchema);
  }

  lemma OrderFullFillsPart(c: Codec, w: Renderer, v: OrderFull)
    requires forall i | 0 <= i < |v.fills| :: AllReadBack(c, w, FillFields(v.fills[i])) && AllAdmissible(c, FillFields(v.fills[i]), FillSchema)
    ensures EncodeOrderFull(w, v).JObj? && ReadFills(c, EncodeOrderFull(w, v).fields) == Ok(v.fills)
  {
    FillsRoundTrip(c, w, v.fills);
  }

  // ---------------------------------------------------------------------------
  // QueryOrder
  // ---------------------------------------------------------------------------

  datatype QueryOrder = QueryOrder(
    symbol: string, orderId: int, clientOrderId: string, price: real, originalQuantity: real,
    executedQuantity: real, status: string, timeInForce: string, orderType: string, side: string,
    stopPrice: real, icebergQuantity: real, time: int, isWorking: bool)

  const QueryOrderSchema: Schema :=
    QueryOrderHeadSlots + QueryOrderMiddleSlots + QueryOrderTailSlots

  const QueryOrderHeadSlots: Schema := [
    Slot("symbol", KEnum(Symbol)), Slot("orderId", KInteger), Slot("clientOrderId", KString),
    Slot("price", KDouble), Slot("origQty", KDouble)]
  const QueryOrderMiddleSlots: Schema := [
    Slot("executedQty", KDouble), Slot("status", KEnum(OrderStatus)),
    Slot("timeInForce", KEnum(TimeInForce)), Slot("type", KEnum(OrderType)),
    Slot("side", KEnum(OrderSide))]
  const QueryOrderTailSlots: Schema := [
    Slot("stopPrice", KDouble), Slot("icebergQty", KDouble), Slot("time", KDate),
    Slot("isWorking", KBool)]

  // Each fact below is a separate lemma: the solver checks literal keys cheaply one group at a time.
  lemma QueryOrderHeadKeys()
    ensures DistinctKeys(QueryOrderHeadSlots)
  {
  }

  lemma QueryOrderMiddleKeys()
    ensures DistinctKeys(QueryOrderMiddleSlots)
  {
  }

  lemma QueryOrderTailKeys()
    ensures DistinctKeys(QueryOrderTailSlots)
  {
  }

  lemma QueryOrderHeadMiddleApart()
    ensures KeysOf(QueryOrderHeadSlots) !! KeysOf(QueryOrderMiddleSlots)
  {
  }

  lemma QueryOrderHeadTailApart()
    ensures KeysOf(QueryOrderHeadSlots) !! KeysOf(QueryOrderTailSlots)
  {
  }

  lemma QueryOrderMiddleTailApart()
    ensures KeysOf(QueryOrderMiddleSlots) !! KeysOf(QueryOrderTailSlots)
  {
  }

  lemma QueryOrderKeysDistinct()
    ensures DistinctKeys(QueryOrderSchema)
  {
    QueryOrderHeadKeys();
    QueryOrderMiddleKeys();
    QueryOrderTailKeys();
    QueryOrderHeadMiddleApart();
    QueryOrderHeadTailApart();
    QueryOrderMiddleTailApart();
    DistinctKeysJoin3(QueryOrderHeadSlots, QueryOrderMiddleSlots, QueryOrderTailSlots);
  }

  function QueryOrderFields(v: QueryOrder): seq<Field> {
    [FStr(v.symbol), FInt(v.orderId), FStr(v.clientOrderId), FReal(v.price),
     FReal(v.originalQuantity), FReal(v.executedQuantity), FStr(v.status), FStr(v.timeInForce),
     FStr(v.orderType), FStr(v.side), FReal(v.stopPrice), FReal(v.icebergQuantity), FDate(v.time),
     FBool(v.isWorking)]
  }

  function QueryOrderOf(fields: seq<Field>): (v: QueryOrder)
    requires Typed(fields, QueryOrderSchema)
    ensures QueryOrderFields(v) == fields
  {
    QueryOrder(fields[0].s, fields[1].i, fields[2].s, fields[3].x, fields[4].x, fields[5].x, fields[6].s,
      fields[7].s, fields[8].s, fields[9].s, fields[10].x, fields[11].x, fields[12].d, fields[13].b)
  }

  /** `QueryOrder.init(from:)`: the reads of `QueryOrderSchema`, all or nothing. */
  function DecodeQueryOrder(c: Codec, j: JValue): (r: Result<QueryOrder, DecodeError>)
    ensures KeyedOutcome(c, j, QueryOrderSchema, if r.Ok? then Ok(QueryOrderFields(r.value)) else Err(r.error))
  {
    var fields :- DecodeObject(c, j, QueryOrderSchema);
    Ok(QueryOrderOf(fields))
  }

  lemma QueryOrderRoundTrip(c: Codec, w: Renderer, v: QueryOrder)
    requires AllReadBack(c, w, QueryOrderFields(v)) && AllAdmissible(c, QueryOrderFields(v), QueryOrderSchema)
    ensures DecodeQueryOrder(c, JObj(EncodeObject(w, QueryOrderSchema, QueryOrderFields(v)))) == Ok(v)
  {
    QueryOrderKeysDistinct();
    DecodeObjectRoundTrip(c, w, QueryOrderSchema, QueryOrderFields(v));
  }

  // ---------------------------------------------------------------------------
  // MyTrades
  // ---------------------------------------------------------------------------

  datatype MyTrade = MyTrade(
    id: int, orderId: int, price: real, quantity: real, commission: real, commissionAsset: string,
    time: int, isBuyer: bool, isMaker: bool, isBestMatch: bool)

  const MyTradeSchema: Schema :=
    MyTradeHeadSlots + MyTradeTailSlots

  const MyTradeHeadSlots: Schema := [
    Slot("id", KInteger), Slot("orderId", KInteger), Slot("price", KDouble), Slot("qty", KDouble),
    Slot("commission", KDouble)]
  const MyTradeTailSlots: Schema := [
    Slot("commissionAsset", KEnum(Asset)), Slot("time", KDate), Slot("isBuyer", KBool),
    Slot("isMaker", KBool), Slot("isBestMatch", KBool)]

  // Each fact below is a separate lemma: the solver checks literal keys cheaply one group at a time.
  lemma MyTradeHeadKeys()
    ensures DistinctKeys(MyTradeHeadSlots)
  {
  }

  lemma MyTradeTailKeys()
    ensures DistinctKeys(MyTradeTailSlots)
  {
  }

  lemma MyTradeHeadTailApart()
    ensures KeysOf(MyTradeHeadSlots) !! KeysOf(MyTradeTailSlots)
  {
  }

  lemma MyTradeKeysDistinct()
    ensures DistinctKeys(MyTradeSchema)
  {
    MyTradeHeadKeys();
    MyTradeTailKeys();
    MyTradeHeadTailApart();
    DistinctKeysJoin(MyTradeHeadSlots, MyTradeTailSlots);
  }

  function MyTradeFields(v: MyTrade): seq<Field> {
    [FInt(v.id), FInt(v.orderId), FReal(v.price), FReal(v.quantity), FReal(v.commission),
     FStr(v.commissionAsset), FDate(v.time), FBool(v.isBuyer), FBool(v.isMaker),
     FBool(v.isBestMatch)]
  }

  function MyTradeOf(fields: seq<Field>): (v: MyTrade)
    requires Typed(fields, MyTradeSchema)
    ensures MyTradeFields(v) == fields
  {
    MyTrade(fields[0].i, fields[1].i, fields[2].x, fields[3].x, fields[4].x, fields[5].s, fields[6].d,
      fields[7].b, fields[8].b, fields[9].b)
  }

  /** `MyTrades.init(from:)`: the reads of `MyTradeSchema`, all or nothing. */
  function DecodeMyTrade(c: Codec, j: JValue): (r: Result<MyTrade, DecodeError>)
    ensures KeyedOutcome(c, j, MyTradeSchema, if r.Ok? then Ok(MyTradeFields(r.value)) else Err(r.error))
  {
    var fields :- DecodeObject(c, j, MyTradeSchema);
    Ok(MyTradeOf(fields))
  }

  lemma MyTradeRoundTrip(c: Codec, w: Renderer, v: MyTrade)
    requires AllReadBack(c, w, MyTradeFields(v)) && AllAdmissible(c, MyTradeFields(v), MyTradeSchema)
    ensures DecodeMyTrade(c, JObj(EncodeObject(w, MyTradeSchema, MyTradeFields(v)))) == Ok(v)
  {
    MyTradeKeysDistinct();
    DecodeObjectRoundTrip(c, w, MyTradeSchema, MyTradeFields(v));
  }
}
