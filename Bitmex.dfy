/**
 * The exchange-wide credentials and the request signature of the Bitmex
 * client: the signature is the hex rendering of an HMAC over the
 * delimiter-free concatenation of verb, path, decimal nonce and body.
 */
module Bitmex {
  import opened Wrappers
  import opened Numerals

  /** A `RestMethod`, by the token its raw value puts on the wire ("GET", "POST", ...). */
  datatype Verb = Verb(token: string)

  /**
   * HMAC-SHA256 keyed with the secret's bytes over the UTF-8 bytes of the
   * input.  The computation itself is outside this model: any function of
   * the two strings to bytes.
   */
  type Mac = (string, string) -> seq<byte>

  /** `ApiDetails`: the id and secret the client signs with. */
  class ApiDetails {
    var id: string
    var secret: string

    /** Before any `setup`, both fields hold the placeholder "---". */
    constructor()
      ensures id == "---" && secret == "---"
    {
      id := "---";
      secret := "---";
    }
  }

  /** `setup(id:secret:)`: overwrites both credential fields and nothing else. */
  method Setup(api: ApiDetails, id: string, secret: string)
    modifies api
    ensures api.id == id && api.secret == secret
  {
    api.id := id;
    api.secret := secret;
  }

  /**
   * The source of `Bitmex.nonce`: the wall clock in milliseconds.  Its
   * values are a parameter of the model (`reading(k)` is what the k-th
   * consultation sees); `readings` counts the consultations so far.
   */
  class Clock {
    const reading: nat -> Int64
    var readings: nat

    constructor(reading: nat -> Int64)
      ensures this.reading == reading && readings == 0
    {
      this.reading := reading;
      readings := 0;
    }

    /** `Bitmex.nonce`: one reading of the clock. */
    method Nonce() returns (nonce: Int64)
      modifies this
      ensures nonce == reading(old(readings)) && readings == old(readings) + 1
    {
      nonce := reading(readings);
      readings := readings + 1;
    }
  }

  /** The string `signature` authenticates. */
  function SigningInput(verb: Verb, path: string, nonce: Int64, data: string): (s: string)
    ensures |s| == |verb.token| + |path| + |Decimal(nonce)| + |data|
  {
    verb.token + path + Decimal(nonce) + data
  }

  /** `signature(secret:verb:path:nonce:data:)` */
  function Signature(mac: Mac, secret: string, verb: Verb, path: string, nonce: Int64, data: string): (sig: string)
    ensures |sig| == 2 * |mac(secret, SigningInput(verb, path, nonce, data))|
    ensures forall i | 0 <= i < |sig| :: IsLowerHex(sig[i])
    ensures ParseHex(sig) == Some(mac(secret, SigningInput(verb, path, nonce, data)))
  {
    var bytes := mac(secret, SigningInput(verb, path, nonce, data));
    HexRoundTrip(bytes);
    HexString(bytes)
  }

  /**
   * The pieces of the signing input sit side by side in the fixed order verb,
   * path, nonce, data, and the nonce piece is its base-10 rendering, which
   * parses back to the same Int64.
   */
  lemma SigningInputPieces(verb: Verb, path: string, nonce: Int64, data: string)
    ensures var s := SigningInput(verb, path, nonce, data);
      var a := |verb.token|;
      var b := a + |path|;
      var n := b + |Decimal(nonce)|;
      s[..a] == verb.token && s[a..b] == path && s[b..n] == Decimal(nonce) && s[n..] == data &&
      ParseInt64(s[b..n]) == Some(nonce)
  {
    var s := SigningInput(verb, path, nonce, data);
    var a := |verb.token|;
    var b := a + |path|;
    var n := b + |Decimal(nonce)|;
    assert s == ((verb.token + path) + Decimal(nonce)) + data;
    assert s[..n] == (verb.token + path) + Decimal(nonce);
    assert s[..b] == verb.token + path;
    assert s[b..n] == s[..n][b..];
    assert s[a..b] == s[..b][a..];
    DecimalRoundTrip(nonce);
  }

  /** A request without a body signs verb, path and nonce only. */
  lemma BodilessSigningInput(verb: Verb, path: string, nonce: Int64)
    ensures SigningInput(verb, path, nonce, "") == verb.token + path + Decimal(nonce)
    ensures SigningInput(verb, path, nonce, "")[..|verb.token| + |path|] == verb.token + path
  {
    var s := SigningInput(verb, path, nonce, "");
    assert s == (verb.token + path) + Decimal(nonce);
  }

  /**
   * The signature depends on the request only through the signing input:
   * two requests whose inputs concatenate to the same string carry the same
   * signature under one secret.
   */
  lemma SignatureOfInput(mac: Mac, secret: string, verb: Verb, path: string, nonce: Int64, data: string,
                         verb': Verb, path': string, nonce': Int64, data': string)
    requires SigningInput(verb, path, nonce, data) == SigningInput(verb', path', nonce', data')
    ensures Signature(mac, secret, verb, path, nonce, data) == Signature(mac, secret, verb', path', nonce', data')
  {
  }

  /**
   * No delimiters: a path ending in a digit and a shorter nonce give the same
   * signing input as the shorter path with the digit moved into the nonce.
   */
  lemma SigningInputCollision()
    ensures SigningInput(Verb("GET"), "/api/v1/order1", 23, "") == SigningInput(Verb("GET"), "/api/v1/order", 123, "")
  {
    assert Decimal(23) == "23" by {
      assert NatDigits(2) == "2";
      assert NatDigits(23) == NatDigits(2) + [DigitChar(3)];
    }
    assert Decimal(123) == "123" by {
      assert NatDigits(1) == "1";
      assert NatDigits(12) == NatDigits(1) + [DigitChar(2)];
      assert NatDigits(123) == NatDigits(12) + [DigitChar(3)];
    }
  }
}
