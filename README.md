# Cremona exchange clients: response decoding, request signing and reply resolution

This project models three pieces of the Cremona trading bot's exchange clients in Dafny and proves properties about them:

- **Binance REST response decoders** (`BnResponse.swift`). These are the hand-written `init(from:)` initializers:
  - the two tag-discriminated filter families (`ExchangeInfo.ExchangeFilter` and `SymbolInfo.Filter`);
  - the keyed records (`Trade`, `AggTrade`, `Change24h`, `Price`, `BookTicker`, `Account.Balance`, `Order.Result`, `Order.Full` with its `Fill`s, `QueryOrder`, `MyTrades`);
  - the positional `Kline` record, read through an unkeyed container;
  - `Account.nonEmptyBalances`.
- **The Bitmex REST request pipeline** (`BxRestAPI.swift`):
  - parameter compaction (`Dictionary.compacted`, `stringValue`);
  - the signed path and body (`pathAndData`);
  - the authentication headers (`httpHeaders`);
  - the `{"error":{name,message}}` envelope (`ErrorBox`, `BxResponse.Error`);
  - `customRequest`: header choice, failure before dispatch, and the three-way resolution of a reply.
- **Bitmex credentials and request signature** (`Bitmex.swift`):
  - `ApiDetails` and `setup`;
  - the nonce as a clock reading;
  - `signature`, the hex rendering of a MAC over `verb ++ path ++ decimal(nonce) ++ data`.

Modules:

- `Wrappers`: `Option` and `Result`.
- `Numerals`: `Int64`, bytes, the base-10 rendering `String(nonce)` and its parser, and lowercase hex rendering (`toHexString`) and its parser.
- `Json`:
  - the JSON tree;
  - the reads a Swift decoder container offers: `ReadKey` for `decode(_:forKey:)` and `ReadItem` for `decode(_:)`;
  - `ReadAll`, which performs a record's reads in order and stops at the first failure;
  - `ReadEach`, which decodes a `[T]` array;
  - an encoding direction used to state round trips. A `Renderer` writes doubles as strings and dates as JSON; the round trips assume only that each value actually encoded reads back through the codec (`ReadsBack`).
- `BnResponse`: the Binance decoders.
  - Each keyed record has a *schema*: its wire keys in the order the initializer reads them, and the kind read under each.
  - `XFields` lists a record's values in that order.
  - `DecodeX` is the initializer.
  - `XRoundTrip` proves that decoding an encoded record gives it back.
- `Bitmex`: credentials, clock and signature.
- `BxRestApi`: the request pipeline.
  - `Resolve` is the resolution of a reply as a pure function of the transport result, the success decoder and the envelope decoder.
  - `CustomRequest` is a method over a `Clock`, a `Transport` and a `Handler`. It states what is read, sent and handed to the handler.

Conversions the source delegates to libraries are parameters of the model:

- `toDouble`, the decoder's date strategy and the raw-value tables of the exchange enumerations are fields of a `Codec`;
- URL encoding is an `Encoder` that may fail;
- HMAC-SHA256 is a `Mac`;
- JSON parsing of the reply bytes is a `Parser`;
- the wall clock is the `reading` function of a `Clock`;
- the network is the `respond` function of a `Transport`.

## Model

| member | source | states |
|---|---|---|
| Json.ReadValue | Sources/Binance/Rest/BnResponse.swift:362-367 | a JSON null is "value not found"; any value it yields is admissible for the kind read (an Int64 in range, a known enumeration raw value) |
| Json.ReadKey | Sources/Binance/Rest/BnResponse.swift:362 | a missing key fails with `KeyNotFound` for that key; a value it yields is admissible |
| Json.ReadItem | Sources/Binance/Rest/BnResponse.swift:399 | reading past the end of an unkeyed container fails with `ValueNotFound` at that index; a value it yields is admissible |
| Json.ReadAll | Sources/Binance/Rest/BnResponse.swift:360-368 | a record's reads succeed iff every single read succeeds, then yield exactly the values read; on failure the error is that of the first failing read, with all earlier reads successful |
| Json.DecodeObject | Sources/Binance/Rest/BnResponse.swift:361 | a non-object fails before any read; otherwise the outcome is `ReadAll`'s: all-or-nothing, with the first error |
| Json.ReadEach | Sources/Binance/Rest/BnResponse.swift:538 | a `[T]` decode succeeds iff every element decodes, then yields each element's value in order; otherwise it fails with the first failing element's error |
| Json.ReadEachAll | Sources/Binance/Rest/BnResponse.swift:538 | an array whose elements decode to given values decodes to exactly that sequence |
| Json.PositionalFails | Sources/Binance/Rest/BnResponse.swift:397-410 | when the k-th positional read is the first to fail, the decode outcome is that read's error |
| Json.PositionalSucceeds | Sources/Binance/Rest/BnResponse.swift:397-410 | when every positional read succeeds, the outcome is the sequence of values read |
| Json.ReadValueRoundTrip | Sources/Binance/Rest/BnResponse.swift:363 | a field written as JSON (a double as its string rendering) reads back as the same field |
| Json.ReadAllRoundTrip | Sources/Binance/Rest/BnResponse.swift:360-368 | the reads of a schema with distinct keys over the object encoding of admissible fields yield those fields |
| Json.ReadAllOfReads | Sources/Binance/Rest/BnResponse.swift:360-368 | if each read yields a given value, the record's reads yield exactly those values |
| Json.DecodeObjectRoundTrip | Sources/Binance/Rest/BnResponse.swift:360-368 | keyed decoding of an encoded object gives back the encoded fields |
| Json.ReadAllLocal | Sources/Binance/Rest/BnResponse.swift:360-368 | a record's reads depend only on the keys of its schema: objects that agree there decode alike |
| BnResponse.ReadTag | Sources/Binance/Rest/BnResponse.swift:325-326 | the `filterType` read fails on a non-object and on a missing key, and succeeds exactly when the value is a string, yielding it |
| BnResponse.ExchangeFilterTypeOf | Sources/Binance/Rest/BnResponse.swift:285-288 | the exchange tag table is the exact inverse of the raw values: a recognised tag has that raw value, and an unrecognised one is no variant's raw value |
| BnResponse.ExchangeFilterOf | Sources/Binance/Rest/BnResponse.swift:296-303 | the variant built from the `limit` read has the chosen tag and carries exactly the value read |
| BnResponse.DecodeExchangeFilter | Sources/Binance/Rest/BnResponse.swift:284-304 | a failed tag read is the error; a tag outside the table throws `UnknownFilterType`, never a default variant; a result's tag is the one read, and its `limit` is the integer under `limit` |
| BnResponse.ExchangeFilterKnownTag | Sources/Binance/Rest/BnResponse.swift:296-303 | with a known tag the decode succeeds iff its `limit` read succeeds; it then yields that tag's variant, and otherwise the first failed read's error |
| BnResponse.ExchangeFilterRoundTrip | Sources/Binance/Rest/BnResponse.swift:284-304 | an encoded exchange filter decodes to itself |
| BnResponse.SymbolFilterTypeOf | Sources/Binance/Rest/BnResponse.swift:317-323 | the symbol-filter tag table is the exact inverse of the five raw values |
| BnResponse.SymbolFilterSchemaKeys | Sources/Binance/Rest/BnResponse.swift:308-314 | each variant reads distinct keys, none of them `filterType` |
| BnResponse.SymbolFilterOf | Sources/Binance/Rest/BnResponse.swift:331-351 | the variant built has the chosen tag and carries exactly the values read for it |
| BnResponse.DecodeSymbolFilter | Sources/Binance/Rest/BnResponse.swift:316-352 | a failed tag read is the error; a tag outside the five throws `UnknownFilterType`; a result's tag is the one read, and its values are those under that variant's wire keys |
| BnResponse.SymbolFilterKnownTag | Sources/Binance/Rest/BnResponse.swift:331-351 | with a known tag the decode succeeds iff all of that variant's reads succeed, yielding that variant; otherwise it fails with the first failed read's error |
| BnResponse.SymbolFilterLocal | Sources/Binance/Rest/BnResponse.swift:342-350 | with a given tag, only that variant's keys are consulted: objects that agree on them decode alike, whatever other variants' keys hold |
| BnResponse.SymbolFilterRoundTrip | Sources/Binance/Rest/BnResponse.swift:316-352 | an encoded symbol filter decodes to itself |
| BnResponse.PriceFilterFromStrings | Sources/Binance/Rest/BnResponse.swift:317-336 | `PRICE_FILTER` yields `priceFilter` from the strings under `minPrice`, `maxPrice` and `tickSize` through `toDouble`; in the model, a `minPrice` that `toDouble` rejects fails there (see "Left out") |
| BnResponse.LotSizeFromStrings | Sources/Binance/Rest/BnResponse.swift:337-341 | `LOT_SIZE` reads the wire keys `minQty`, `maxQty` and `stepSize` |
| BnResponse.LotSizeNeedsWireKey | Sources/Binance/Rest/BnResponse.swift:338 | a lot-size object without `minQty` fails with `KeyNotFound("minQty")`, whatever a `minQuantity` key holds |
| BnResponse.FilterTagTablesDisjoint | Sources/Binance/Rest/BnResponse.swift:285-323 | no exchange-filter tag is a symbol-filter tag: each family rejects the other's tags |
| BnResponse.TradeOf | Sources/Binance/Rest/BnResponse.swift:362-367 | the record built carries exactly the values read |
| BnResponse.DecodeTrade | Sources/Binance/Rest/BnResponse.swift:355-369 | all-or-nothing over `id`, `price`, `qty`, `time`, `isBuyerMaker`, `isBestMatch`: success iff every read succeeds, else the first error |
| BnResponse.TradeRoundTrip | Sources/Binance/Rest/BnResponse.swift:355-369 | an encoded trade decodes to itself |
| BnResponse.AggTradeOf | Sources/Binance/Rest/BnResponse.swift:385-392 | the record built carries exactly the values read |
| BnResponse.DecodeAggTrade | Sources/Binance/Rest/BnResponse.swift:383-393 | all-or-nothing over the reads as written, including the timestamp read as a date from key `l` |
| BnResponse.AggTradeTimestampIsLastTradeId | Sources/Binance/Rest/BnResponse.swift:389-390 | in a decoded aggregate trade, the timestamp is the date reading of the `lastTradeId` number |
| BnResponse.AggTradeIgnoresT | Sources/Binance/Rest/BnResponse.swift:378-390 | the value under `T` never influences the decode |
| BnResponse.AggTradeTimestampReplaced | Sources/Binance/Rest/BnResponse.swift:390 | a trade encoded with its timestamp under `T` decodes with the timestamp replaced by the date reading of `l`, or fails with `BadDate` at `l` |
| BnResponse.AggTradeTimestampLost | Sources/Binance/Rest/BnResponse.swift:390 | on a concrete message with `l` = 2 and `T` = 1000, the decoder yields timestamp 2, while reading `T` yields 1000 |
| BnResponse.AggTradeSampleAsWritten | Sources/Binance/Rest/BnResponse.swift:383-393 | the concrete message decodes as written to a trade with timestamp 2 |
| BnResponse.DecodeAggTradeIntended | Sources/Binance/Rest/BnResponse.swift:378 | the corrected decoder: all-or-nothing over the same reads, with the timestamp read from `T` |
| BnResponse.AggTradeIntendedRoundTrip | Sources/Binance/Rest/BnResponse.swift:371-393 | the corrected decoder gives back every encoded aggregate trade |
| BnResponse.AggTradeSampleIntended | Sources/Binance/Rest/BnResponse.swift:378 | the corrected decoder reads timestamp 1000 from the concrete message |
| BnResponse.AggTradeIntendedRoundTripApplies | Sources/Binance/Rest/BnResponse.swift:371-393 | the hypotheses of the corrected round trip are met by a concrete codec and renderer, and the sample trade comes back |
| BnResponse.DecodeKline | Sources/Binance/Rest/BnResponse.swift:397-410 | the cursor-stepping decoder computes `KlineOf`: eleven reads at positions 0 to 10 in order, stopping at the first failure |
| BnResponse.KlineOfFails | Sources/Binance/Rest/BnResponse.swift:398-409 | a failed kline decode fails with the error of the first failing positional read, all earlier reads having succeeded; a non-array fails before any read |
| BnResponse.KlineFailsEarly | Sources/Binance/Rest/BnResponse.swift:399-404 | if one of the first six reads fails, the decode fails with the first such read's error |
| BnResponse.KlineFailsLate | Sources/Binance/Rest/BnResponse.swift:405-409 | if the first six reads succeed and the decode fails, the error is that of the first failing later read |
| BnResponse.KlineOfSucceeds | Sources/Binance/Rest/BnResponse.swift:399-409 | a successful kline decode holds exactly the eleven positional values in the fixed order: date, five doubles, date, double, integer, two doubles |
| BnResponse.EncodeItems | Sources/Binance/Rest/BnResponse.swift:397-410 | the array encoding holds each field at its position |
| BnResponse.KlineReadsAs | Sources/Binance/Rest/BnResponse.swift:399-409 | if the eleven positional reads yield a kline's fields, the decode yields that kline |
| BnResponse.KlineRoundTrip | Sources/Binance/Rest/BnResponse.swift:397-410 | an encoded kline, followed by any further elements, decodes to itself: elements after the eleventh are never read |
| BnResponse.Change24hOf | Sources/Binance/Rest/BnResponse.swift:420-439 | the record built carries exactly the values read |
| BnResponse.DecodeChange24h | Sources/Binance/Rest/BnResponse.swift:418-440 | all-or-nothing over the nineteen keyed reads |
| BnResponse.Change24hRoundTrip | Sources/Binance/Rest/BnResponse.swift:413-441 | an encoded 24-hour change decodes to itself |
| BnResponse.PriceOf | Sources/Binance/Rest/BnResponse.swift:450-451 | the record built carries exactly the values read |
| BnResponse.DecodePrice | Sources/Binance/Rest/BnResponse.swift:448-452 | all-or-nothing over `symbol` and `price` |
| BnResponse.PriceRoundTrip | Sources/Binance/Rest/BnResponse.swift:443-453 | an encoded price decodes to itself |
| BnResponse.BookTickerOf | Sources/Binance/Rest/BnResponse.swift:462-466 | the record built carries exactly the values read |
| BnResponse.DecodeBookTicker | Sources/Binance/Rest/BnResponse.swift:460-467 | all-or-nothing over `symbol`, `bidPrice`, `bidQty`, `askPrice`, `askQty` |
| BnResponse.BookTickerRoundTrip | Sources/Binance/Rest/BnResponse.swift:455-468 | an encoded book ticker decodes to itself |
| BnResponse.BalanceOf | Sources/Binance/Rest/BnResponse.swift:477-479 | the record built carries exactly the values read |
| BnResponse.DecodeBalance | Sources/Binance/Rest/BnResponse.swift:475-480 | all-or-nothing over `asset`, `free`, `locked` |
| BnResponse.BalanceRoundTrip | Sources/Binance/Rest/BnResponse.swift:470-481 | an encoded balance decodes to itself |
| BnResponse.NonEmptyBalances | Sources/Binance/Rest/BnResponse.swift:258 | a balance is kept iff it is among the inputs and `free + locked > 0`; the result is no longer than the input |
| BnResponse.NonEmptyBalancesAppend | Sources/Binance/Rest/BnResponse.swift:258 | filtering distributes over concatenation, so the original order is kept |
| BnResponse.NonEmptyBalancesCount | Sources/Binance/Rest/BnResponse.swift:258 | every balance that holds something keeps its multiplicity, and every other balance is dropped |
| BnResponse.NonEmptyBalancesIdempotent | Sources/Binance/Rest/BnResponse.swift:258 | filtering twice equals filtering once |
| BnResponse.OrderResultOf | Sources/Binance/Rest/BnResponse.swift:490-501 | the record built carries exactly the values read |
| BnResponse.DecodeOrderResult | Sources/Binance/Rest/BnResponse.swift:488-502 | all-or-nothing over the eleven keyed reads, with `origQty` and `executedQty` as wire keys |
| BnResponse.OrderResultRoundTrip | Sources/Binance/Rest/BnResponse.swift:483-503 | an encoded order result decodes to itself |
| BnResponse.FillOf | Sources/Binance/Rest/BnResponse.swift:512-515 | the record built carries exactly the values read |
| BnResponse.DecodeFill | Sources/Binance/Rest/BnResponse.swift:510-516 | all-or-nothing over `price`, `qty`, `commission`, `commissionAsset` |
| BnResponse.FillRoundTrip | Sources/Binance/Rest/BnResponse.swift:505-517 | an encoded fill decodes to itself |
| BnResponse.DecodeFills | Sources/Binance/Rest/BnResponse.swift:538 | the fills array decodes iff every element decodes as a fill, element by element in order; otherwise it fails with the first failing fill's error |
| BnResponse.ReadFills | Sources/Binance/Rest/BnResponse.swift:538 | a missing `fills` key, a null or a non-array each fail with their own error; success yields one fill per array element |
| BnResponse.DecodeOrderFull | Sources/Binance/Rest/BnResponse.swift:524-539 | the order's reads come first, and their error wins; then the fills; success iff both succeed, and then the value holds both results |
| BnResponse.EncodeFills | Sources/Binance/Rest/BnResponse.swift:538 | the array encoding holds each fill's object at its position |
| BnResponse.FillsRoundTrip | Sources/Binance/Rest/BnResponse.swift:538 | an encoded array of fills decodes to itself |
| BnResponse.OrderResultOmitsFills | Sources/Binance/Rest/BnResponse.swift:521 | `fills` is not among the order's own keys |
| BnResponse.OrderFullOrderPart | Sources/Binance/Rest/BnResponse.swift:526-537 | the `fills` entry beside the order's keys does not disturb the order's reads |
| BnResponse.OrderFullFillsPart | Sources/Binance/Rest/BnResponse.swift:538 | the fills of an encoded full order read back as the original fills |
| BnResponse.OrderFullRoundTrip | Sources/Binance/Rest/BnResponse.swift:519-540 | an encoded full order decodes to itself |
| BnResponse.QueryOrderOf | Sources/Binance/Rest/BnResponse.swift:549-562 | the record built carries exactly the values read |
| BnResponse.DecodeQueryOrder | Sources/Binance/Rest/BnResponse.swift:547-563 | all-or-nothing over the fourteen keyed reads, with `icebergQty` as a wire key |
| BnResponse.QueryOrderRoundTrip | Sources/Binance/Rest/BnResponse.swift:542-564 | an encoded order query decodes to itself |
| BnResponse.MyTradeOf | Sources/Binance/Rest/BnResponse.swift:573-582 | the record built carries exactly the values read |
| BnResponse.DecodeMyTrade | Sources/Binance/Rest/BnResponse.swift:571-583 | all-or-nothing over the ten keyed reads |
| BnResponse.MyTradeRoundTrip | Sources/Binance/Rest/BnResponse.swift:566-584 | an encoded account trade decodes to itself |
| Numerals.DigitChar | Sources/Bitmex/Bitmex.swift:46 | the character of a decimal digit is a digit character of that value |
| Numerals.NatDigits | Sources/Bitmex/Bitmex.swift:46 | the rendering of a natural number is non-empty, all digits, and has no leading zero |
| Numerals.Decimal | Sources/Bitmex/Bitmex.swift:46 | `String(nonce)` is non-empty and starts with `-` iff the number is negative |
| Numerals.ParseNat | Sources/Bitmex/Bitmex.swift:46 | the reference parser accepts exactly the non-empty digit strings |
| Numerals.ParseInt64 | Sources/Bitmex/Bitmex.swift:46 | the reference parser accepts only an optional sign (`-` or `+`) followed by digits, and the sign decides the sign of the value |
| Numerals.NatDigitsRoundTrip | Sources/Bitmex/Bitmex.swift:46 | the rendering of a natural number parses back to it |
| Numerals.DecimalRoundTrip | Sources/Bitmex/Bitmex.swift:46 | the base-10 rendering of an Int64 parses back to the same Int64 |
| Numerals.HexDigit | Sources/Bitmex/Bitmex.swift:47 | a nibble renders as a lowercase hex digit |
| Numerals.HexValue | Sources/Bitmex/Bitmex.swift:47 | a hex digit's value is a nibble that renders back to the same digit |
| Numerals.HexString | Sources/Bitmex/Bitmex.swift:47 | `toHexString` yields two lowercase hex characters per byte |
| Numerals.HexRoundTrip | Sources/Bitmex/Bitmex.swift:47 | the hex rendering of bytes parses back to the same bytes |
| Bitmex.ApiDetails.constructor | Sources/Bitmex/Bitmex.swift:34-37 | before any setup, both credential fields are `"---"` |
| Bitmex.Setup | Sources/Bitmex/Bitmex.swift:29-32 | `setup` sets `id` and `secret` to the given values and changes nothing else |
| Bitmex.Clock.Nonce | Sources/Bitmex/Bitmex.swift:43 | the nonce is the current clock reading, and each call consults the clock once |
| Bitmex.SigningInput | Sources/Bitmex/Bitmex.swift:46 | the signing input is as long as the verb, path, decimal nonce and data together |
| Bitmex.SigningInputPieces | Sources/Bitmex/Bitmex.swift:46 | the signing input is exactly verb, path, decimal nonce and data, side by side with no delimiters, and its nonce piece parses back to the nonce |
| Bitmex.BodilessSigningInput | Sources/Bitmex/Bitmex.swift:45-46 | with the default empty data, a request signs verb, path and nonce only |
| Bitmex.Signature | Sources/Bitmex/Bitmex.swift:45-48 | the signature is two lowercase hex characters per MAC byte, and decodes back to the MAC of the secret and the signing input |
| Bitmex.SignatureOfInput | Sources/Bitmex/Bitmex.swift:47 | the signature depends only on the secret and the signing input |
| Bitmex.SigningInputCollision | Sources/Bitmex/Bitmex.swift:46 | without delimiters, path `/api/v1/order1` with nonce 23 signs the same string as `/api/v1/order` with nonce 123 |
| BxRestApi.DateStrategyFor | Sources/Bitmex/BxRestAPI.swift:66-69 | `.s` selects ISO 8601; `.ms` selects the formatter with pattern `yyyy-MM-dd'T'HH:mm:ss.SSSZZZZ`, which is not the `.ms` raw value |
| BxRestApi.EntryText | Sources/Bitmex/BxRestAPI.swift:139 | an entry renders as `{key:value}`, three characters longer than key and value together |
| BxRestApi.JoinedEntries | Sources/Bitmex/BxRestAPI.swift:138-140 | a dictionary's `stringValue` is empty iff the dictionary is, and is otherwise braced at both ends |
| BxRestApi.EntriesKept | Sources/Bitmex/BxRestAPI.swift:130-140 | a dictionary-valued parameter survives compaction iff it is non-empty |
| BxRestApi.Compaction | Sources/Bitmex/BxRestAPI.swift:127-134 | the result has key k iff the value at k is non-nil with a non-empty `stringValue`, and then maps k to that `stringValue` |
| BxRestApi.Compacted | Sources/Bitmex/BxRestAPI.swift:127-134 | the `for` loop over the parameters builds exactly `Compaction` of them |
| BxRestApi.CompactionIdempotent | Sources/Bitmex/BxRestAPI.swift:127-134 | compacting already compacted parameters changes nothing |
| BxRestApi.SignedPartsOf | Sources/Bitmex/BxRestAPI.swift:105-107 | the signed path is `url.path`, followed by `?` and the query exactly when a query exists; the data is `""` exactly when the body is absent or empty |
| BxRestApi.SplitQueryInverts | Sources/Bitmex/BxRestAPI.swift:106-107 | for a `url.path` without `?`, the signed path splits back into that path and the query |
| BxRestApi.SplitQueryAfter | Sources/Bitmex/BxRestAPI.swift:106-107 | splitting a `?`-free prefix followed by `?query` gives back the prefix and the query |
| BxRestApi.PathAndData | Sources/Bitmex/BxRestAPI.swift:102-108 | fails iff the encoder throws, with the encoder's error; otherwise it yields the signed path and data |
| BxRestApi.HttpHeaders | Sources/Bitmex/BxRestAPI.swift:110-112 | the headers are exactly `api-nonce`, `api-key` and `api-signature`, carrying the key, the signature, and the nonce in base 10, which parses back to it |
| BxRestApi.SignedHeadersShareNonce | Sources/Bitmex/BxRestAPI.swift:53-58 | the `api-nonce` header is the very text of the nonce inside the signing input, it parses back to that nonce, and the signature header decodes to the MAC of that input |
| BxRestApi.DecodeBxError | Sources/Bitmex/BxRestAPI.swift:115-119 | `BxResponse.Error` decodes all-or-nothing over `name` and `message` |
| BxRestApi.DecodeErrorBox | Sources/Bitmex/BxRestAPI.swift:23-25 | the envelope fails on a non-object, a missing `error` key or a null there, and otherwise is the decode of `BxResponse.Error` under `error` |
| BxRestApi.ErrorBoxRoundTrip | Sources/Bitmex/BxRestAPI.swift:23-25 | an error wrapped under `error`, beside any other keys, decodes back to itself |
| BxRestApi.Description | Sources/Bitmex/BxRestAPI.swift:120-122 | the description is the name, then `": "`, then the message |
| BxRestApi.Resolve | Sources/Bitmex/BxRestAPI.swift:73-98 | a transport failure is passed on unchanged; success iff the body decodes as `T`, with that value; an exchange error iff `T` fails and the envelope decodes, carrying the envelope's error; when both decodes fail, the failure is `Undecodable` with the original `T` decode error |
| BxRestApi.TransportFailureUndecoded | Sources/Bitmex/BxRestAPI.swift:95-97 | on a transport failure neither decoder is consulted: any decoders give the same outcome |
| BxRestApi.SuccessIgnoresEnvelope | Sources/Bitmex/BxRestAPI.swift:76-79 | when `T` decodes, the envelope decoder is not consulted |
| BxRestApi.EnvelopeReachesHandler | Sources/Bitmex/BxRestAPI.swift:81-86 | a body that fails as `T` but holds an error envelope resolves to that exchange error |
| BxRestApi.NoEnvelopeKeepsOriginalError | Sources/Bitmex/BxRestAPI.swift:82-92 | a body that is neither a `T` nor an error envelope (not JSON, or JSON of another shape) reaches the handler as `Undecodable` with the original `T` decode error, not the envelope's |
| BxRestApi.ObjectWithoutErrorIsNoEnvelope | Sources/Bitmex/BxRestAPI.swift:23-25 | a JSON object without an `error` key, such as `{}`, is not an error envelope |
| BxRestApi.Transport.Send | Sources/Bitmex/BxRestAPI.swift:71-73 | dispatch records the request and returns the transport's response to it |
| BxRestApi.Handler.Handle | Sources/Bitmex/BxRestAPI.swift:41 | the handler records each outcome it receives |
| BxRestApi.CustomRequest | Sources/Bitmex/BxRestAPI.swift:41-100 | the handler is called exactly once. With `.none`, the clock is not read and the compacted parameters are sent without headers. With `.signature`, the clock is read once; if `pathAndData` fails, nothing is sent and the handler gets that failure; otherwise the request carries the signed headers for that one nonce. After a dispatch, the handler gets the resolution of the response under the chosen date strategy |

## Left out

- The Alamofire transport, asynchronous delivery of the response, and all `print` logging. Dispatch is the `respond` function of a `Transport`, and the callback runs in line.
- URL construction (`appendingPathComponent`) and `URLEncoding.default`. The model receives `url.path` as given, and the encoder is a parameter that may fail with a reason.
- HMAC-SHA256 and the UTF-8 encoding of the key and message. `Mac` is any function of the secret and the signing input to bytes.
- The wall-clock nonce and its floating-point rounding. `Clock.reading` is a parameter.
- `toDouble`, the `Date` decoding strategies and `DateFormatter`. These are `Codec` parameters, and doubles are `real`. The time format is modelled only as the choice of strategy.
- PriceFilterFromStrings, ReadValue: a failed `toDouble` becomes a thrown `MalformedNumber`; the source's `toDouble` returns a plain `Double` and does not throw, and its definition is not part of this model.
- Mutation of the shared `decoder.dateDecodingStrategy`. It matters only under concurrent requests. The model passes the chosen strategy to the decoders directly.
- `RestMethod` is modelled only by its raw-value token (`Verb`). Its mapping to Alamofire's HTTP method is not modelled.
- Swift dictionary iteration order. `JoinedEntries` takes the entries in a given order.
- `StringConvertible` conformances other than `String` and `[String: String]` are not modelled.
- JSON numbers with a fraction or an exponent are not modelled: the JSON tree carries only integers, so a fractional number where an integer is expected is not represented.
- The `[Fill]` decode uses the array decoder of the standard library. Its errors are modelled as `ValueNotFound` for null and `NotAnArray` for other non-arrays.
- The compiler-synthesised decoders are not modelled: `Ping`, `Time`, `ExchangeInfo`, `RateLimit`, `SymbolInfo`, `Depth`, `Order.Ack`, `CancelOrder`, `Account` and `TestOrder`. Of `Account`, only `nonEmptyBalances` is modelled, as a function on its `balances`.
- The static `socket` and `rest` singletons, and `BxInstrumentOld.description`, which uses floating-point rounding.
- `Sources/Bitmex/Rest/BxStats.swift`. It holds endpoint declarations and plain response structs, with no logic.
- `BxRestAPI.init` is modelled only by its two credentials (`RestApi`). Its formatter pattern is `FormatterPattern`.
- The key-distinctness lemmas of the record schemas (`...Keys`, `...Apart`, `...KeysDistinct`), `OrderResultHeadOmitsFills` and `OrderResultTailOmitsFills` are proof helpers and have no rows above.

## Findings

| source | as written | input that shows it | evidently intended | confidence | as-written member | corrected member |
|---|---|---|---|---|---|---|
| Sources/Binance/Rest/BnResponse.swift:390 | `timestamp` is decoded as a `Date` from key `l` (`lastTradeId`), so the timestamp is the last trade id read as a date, and `T` is never read | `{"a":1,"p":"0","q":"0","f":1,"l":2,"T":1000,"m":true,"M":false}` decodes with timestamp 2 instead of 1000 | the timestamp is read from `T`, the coding key declared for it at line 378 | high, not executed | BnResponse.AggTradeTimestampLost | BnResponse.AggTradeIntendedRoundTrip |

The model keeps the decoder as written in `DecodeAggTrade`, since that is the behaviour of the program. `DecodeAggTradeIntended` is the corrected decoder, and `AggTradeIntendedRoundTrip` proves that it gives back every encoded aggregate trade. `AggTradeTimestampReplaced` shows the general case: as written, the timestamp of any encoded trade is replaced by the date reading of its last trade id.

The `.ms` time format selects a formatter whose pattern is `yyyy-MM-dd'T'HH:mm:ss.SSSZZZZ`, set in `BxRestAPI.init`. It is not the `.ms` raw value, which ends in `ZZZZZ`, so that raw value is never used to decode (`DateStrategyFor`). Nothing shows this is unintended, so it is recorded here, not as a finding.
