/**
 * The Wirecard Checkout Seamless payment provider: the order-ident encoding,
 * the request fingerprint, the verification of the gateway's callback and the
 * statuses the adapter derives from callbacks and backend replies.
 *
 * The hash functions, the gateway's replies, `urlencode` and the dumps of a
 * response (`json_encode`, `print_r`, the price's string form) are parameters.
 * Every field value is a string: an amount arrives already rounded and
 * formatted, and PHP's null concatenates like the empty string.
 */
module WirecardSeamless {
  import opened Wrappers
  import opened PhpArray
  import opened PhpString
  import opened PaymentStatus

  /** A PHP array of string fields, as posted to and received from the gateway. */
  type Fields = seq<(string, string)>

  /** `$a[$k]` where a missing key reads as the empty string (`isset(...) ? ... : ''`). */
  function Field(a: Fields, k: string): string {
    Get(a, k).GetOr("")
  }

  // ---------------------------------------------------------------- order ident

  /** `ENCODED_ORDERIDENT_DELIMITER`, the gateway-safe stand-in for `~`. */
  const Delimiter: string := "---"

  /** `encodeOrderIdent`: `str_replace('~', '---', $ident)`. */
  function EncodeOrderIdent(ident: string): (r: string)
    ensures '~' !in r
    ensures '~' !in ident ==> r == ident
  {
    if ident == [] then []
    else (if ident[0] == '~' then Delimiter else [ident[0]]) + EncodeOrderIdent(ident[1..])
  }

  /** `decodeOrderIdent`: `str_replace('---', '~', $s)`, scanning left to right. */
  function DecodeOrderIdent(s: string): (r: string)
    ensures |r| <= |s|
  {
    if s == [] then []
    else if |s| >= 3 && s[..3] == Delimiter then "~" + DecodeOrderIdent(s[3..])
    else [s[0]] + DecodeOrderIdent(s[1..])
  }

  /** The delimiter `---` starts at position `i` of `s`. */
  predicate DelimiterAt(s: string, i: int) {
    0 <= i && i + 3 <= |s| && s[i..i + 3] == Delimiter
  }

  /** A decoded string that starts with `-` came from one that starts with `-` but not with `---`. */
  lemma DecodeStartsWithDash(s: string)
    requires |DecodeOrderIdent(s)| >= 1 && DecodeOrderIdent(s)[0] == '-'
    ensures s != [] && s[0] == '-' && !(|s| >= 3 && s[..3] == Delimiter)
    ensures DecodeOrderIdent(s)[1..] == DecodeOrderIdent(s[1..])
  {
  }

  /** A decoded ident never contains `---`. */
  lemma {:induction false} DecodedHasNoDelimiter(s: string)
    ensures forall i :: !DelimiterAt(DecodeOrderIdent(s), i)
  {
    if s != [] {
      var replaced := |s| >= 3 && s[..3] == Delimiter;
      var t := if replaced then s[3..] else s[1..];
      DecodedHasNoDelimiter(t);
      var r, r' := DecodeOrderIdent(s), DecodeOrderIdent(t);
      assert r[1..] == r';
      forall i | DelimiterAt(r, i) ensures false {
        if i > 0 {
          assert r[i..i + 3] == r'[i - 1..i + 2];
          assert DelimiterAt(r', i - 1);
        } else {
          assert r[0] == '-' && r[1] == '-' && r[2] == '-';
          assert !replaced;
          DecodeStartsWithDash(s[1..]);
          assert s[1..][1..] == s[2..];
          DecodeStartsWithDash(s[2..]);
        }
      }
    }
  }

  /** Decoding an encoded ident gives it back when it contains no `-`. */
  lemma {:induction false} DecodeEncode(ident: string)
    requires '-' !in ident
    ensures DecodeOrderIdent(EncodeOrderIdent(ident)) == ident
  {
    if ident != [] {
      DecodeEncode(ident[1..]);
      var e := EncodeOrderIdent(ident[1..]);
      if ident[0] == '~' {
        assert (Delimiter + e)[..3] == Delimiter && (Delimiter + e)[3..] == e;
      } else {
        assert ([ident[0]] + e)[1..] == e;
      }
      assert ident == [ident[0]] + ident[1..];
    }
  }

  /** With a `-` next to a `~` the round trip fails: `-~` encodes to `----`, which decodes to `~-`. */
  lemma DashBreaksRoundTrip()
    ensures EncodeOrderIdent("-~") == "----"
    ensures DecodeOrderIdent("----") == "~-"
  {
    assert EncodeOrderIdent("~") == "---";
    assert "----"[..3] == Delimiter && "----"[3..] == "-";
    assert DecodeOrderIdent("-") == "-";
  }

  // ---------------------------------------------------------------- fingerprints

  /** The SHA-512 functions of PHP's `hash` extension, as hex digests. */
  datatype Hashing = Hashing(sha512: string -> string, hmacSha512: (string, string) -> string)

  /** The adapter's settings for the configured mode. */
  datatype Settings = Settings(
    customerId: string,
    shopId: string,
    secret: string,
    password: string,
    hashAlgorithm: string,
    iframeCssUrl: string,
    customerStatement: string,
    paymentMethods: string,
    paypalActivateItemLevel: bool)

  /** `calculateFingerprint`: keyed HMAC-SHA-512 with the secret for `hmac_sha512`, plain SHA-512 otherwise. */
  function CalculateFingerprint(settings: Settings, hashing: Hashing, seed: string): (fp: string)
    ensures settings.hashAlgorithm == "hmac_sha512" ==> fp == hashing.hmacSha512(seed, settings.secret)
    ensures settings.hashAlgorithm != "hmac_sha512" ==> fp == hashing.sha512(seed)
  {
    if settings.hashAlgorithm != "hmac_sha512" then hashing.sha512(seed)
    else hashing.hmacSha512(seed, settings.secret)
  }

  /** The field values concatenated in insertion order. */
  function ConcatValues(fields: Fields): string {
    if fields == [] then "" else ConcatValues(fields[..|fields| - 1]) + fields[|fields| - 1].1
  }

  /** Every field name followed by a comma, in insertion order. */
  function KeyList(fields: Fields): string {
    if fields == [] then "" else KeyList(fields[..|fields| - 1]) + fields[|fields| - 1].0 + ","
  }

  /** The order string `generateFingerprint` builds. */
  function FingerprintOrder(fields: Fields, withOrder: bool, ignoreSecret: bool): string {
    KeyList(fields) + (if ignoreSecret then "" else "secret,") + (if withOrder then "requestFingerprintOrder" else "")
  }

  /** The seed `generateFingerprint` hashes. */
  function FingerprintSeed(fields: Fields, secret: string, withOrder: bool, ignoreSecret: bool): string {
    ConcatValues(fields) + (if ignoreSecret then "" else secret)
      + (if withOrder then FingerprintOrder(fields, withOrder, ignoreSecret) else "")
  }

  /** What `generateFingerprint` returns: the fingerprint, or with `withOrder` the pair of fingerprint and order string. */
  datatype Fingerprint = Plain(fingerprint: string) | WithOrder(fingerprint: string, order: string)

  function FingerprintOf(settings: Settings, hashing: Hashing, fields: Fields, withOrder: bool, ignoreSecret: bool): Fingerprint {
    var fp := CalculateFingerprint(settings, hashing, FingerprintSeed(fields, settings.secret, withOrder, ignoreSecret));
    if withOrder then WithOrder(fp, FingerprintOrder(fields, withOrder, ignoreSecret)) else Plain(fp)
  }

  /** The key list is the comma-joined keys, ahead of whatever is joined after them. */
  lemma {:induction false} KeyListImplode(fields: Fields, rest: seq<string>)
    requires |rest| >= 1
    ensures KeyList(fields) + Implode(",", rest) == Implode(",", Keys(fields) + rest)
  {
    if fields != [] {
      var init, k := fields[..|fields| - 1], fields[|fields| - 1].0;
      calc {
        KeyList(fields) + Implode(",", rest);
        KeyList(init) + (k + "," + Implode(",", rest));
        { assert ([k] + rest)[1..] == rest; }
        KeyList(init) + Implode(",", [k] + rest);
        { KeyListImplode(init, [k] + rest); }
        Implode(",", Keys(init) + ([k] + rest));
        { assert Keys(fields) == Keys(init) + [k];
          assert Keys(init) + ([k] + rest) == Keys(fields) + rest; }
        Implode(",", Keys(fields) + rest);
      }
    } else {
      assert Keys(fields) + rest == rest;
    }
  }

  /**
   * The order string of a signed request lists the field names, then `secret`,
   * then `requestFingerprintOrder`: exploding it on commas gives those names back.
   */
  lemma SignedOrderExplodes(fields: Fields)
    requires forall i :: 0 <= i < |fields| ==> ',' !in fields[i].0
    ensures Explode(',', FingerprintOrder(fields, true, false)) == Keys(fields) + ["secret", "requestFingerprintOrder"]
  {
    SignedOrderShape(fields);
    OrderListExplodes(fields, "secret", "requestFingerprintOrder");
  }

  lemma SignedOrderShape(fields: Fields)
    ensures FingerprintOrder(fields, true, false) == KeyList(fields) + "secret" + "," + "requestFingerprintOrder"
    ensures ',' !in "secret" && ',' !in "requestFingerprintOrder"
  {
  }

  lemma OrderListExplodes(fields: Fields, a: string, b: string)
    requires forall i :: 0 <= i < |fields| ==> ',' !in fields[i].0
    requires ',' !in a && ',' !in b
    ensures Explode(',', KeyList(fields) + a + "," + b) == Keys(fields) + [a, b]
  {
    var names := Keys(fields) + [a, b];
    KeyListImplode(fields, [a, b]);
    ImplodePair(",", a, b);
    assert KeyList(fields) + a + "," + b == Implode(",", names);
    NamesWithoutComma(fields, [a, b]);
    ExplodeImplode(',', names);
  }

  lemma ImplodePair(glue: string, a: string, b: string)
    ensures Implode(glue, [a, b]) == a + glue + b
  {
    assert [a, b][1..] == [b];
  }

  lemma NamesWithoutComma(fields: Fields, tail: seq<string>)
    requires forall i :: 0 <= i < |fields| ==> ',' !in fields[i].0
    requires forall i :: 0 <= i < |tail| ==> ',' !in tail[i]
    ensures forall i :: 0 <= i < |Keys(fields) + tail| ==> ',' !in (Keys(fields) + tail)[i]
  {
  }

  // ---------------------------------------------------------------- callback verification

  /** What the name `key` of the response's order list adds to the verification string. */
  function Contribution(response: Fields, secret: string, key: string): string {
    if key == "secret" then secret else Field(response, key)
  }

  /** The verification string `handleResponse` rebuilds from the response's order list. */
  function VerificationString(order: seq<string>, response: Fields, secret: string): string {
    if order == [] then ""
    else VerificationString(order[..|order| - 1], response, secret) + Contribution(response, secret, order[|order| - 1])
  }

  /** The names `paymentState`, `orderNumber` and `paymentType`, which a signed callback must cover. */
  predicate IsMandatory(key: string) {
    key == "paymentState" || key == "orderNumber" || key == "paymentType"
  }

  /** How many entries of the order list name a mandatory field whose value is non-empty; repeats count again. */
  function MandatoryHits(order: seq<string>, response: Fields): nat {
    if order == [] then 0
    else
      var key := order[|order| - 1];
      MandatoryHits(order[..|order| - 1], response) + (if IsMandatory(key) && |Field(response, key)| > 0 then 1 else 0)
  }

  /** One more name of the order list: what it adds to the string, to the mandatory hits and to the use of the secret. */
  lemma VerificationStep(order: seq<string>, i: int, response: Fields, secret: string)
    requires 0 <= i < |order|
    ensures VerificationString(order[..i + 1], response, secret)
      == VerificationString(order[..i], response, secret) + Contribution(response, secret, order[i])
    ensures MandatoryHits(order[..i + 1], response)
      == MandatoryHits(order[..i], response) + (if IsMandatory(order[i]) && |Field(response, order[i])| > 0 then 1 else 0)
    ensures ("secret" in order[..i + 1]) == ("secret" in order[..i] || order[i] == "secret")
  {
    assert order[..i + 1][..i] == order[..i];
    assert order[..i + 1] == order[..i] + [order[i]];
  }

  /** The check at the end of the verification: fingerprint equal, exactly three mandatory hits, secret used. */
  predicate Verified(settings: Settings, hashing: Hashing, response: Fields) {
    var order := Explode(',', Field(response, "responseFingerprintOrder"));
    && CalculateFingerprint(settings, hashing, VerificationString(order, response, settings.secret)) == Field(response, "responseFingerprint")
    && MandatoryHits(order, response) == 3
    && "secret" in order
  }

  /** The verification string over names of fields that the response holds is their values in order. */
  lemma {:induction false} VerificationOfSignedFields(signed: Fields, response: Fields, secret: string)
    requires forall i :: 0 <= i < |signed| ==> signed[i].0 != "secret" && Get(response, signed[i].0) == Some(signed[i].1)
    ensures VerificationString(Keys(signed), response, secret) == ConcatValues(signed)
  {
    if signed != [] {
      var init := signed[..|signed| - 1];
      assert Keys(signed)[..|signed| - 1] == Keys(init);
      VerificationOfSignedFields(init, response, secret);
    }
  }

  /** Appending names to the order list appends their contributions. */
  lemma {:induction false} VerificationStringAppend(order: seq<string>, more: seq<string>, response: Fields, secret: string)
    ensures VerificationString(order + more, response, secret)
         == VerificationString(order, response, secret) + VerificationString(more, response, secret)
  {
    if more != [] {
      assert (order + more)[..|order + more| - 1] == order + more[..|more| - 1];
      VerificationStringAppend(order, more[..|more| - 1], response, secret);
    } else {
      assert order + more == order;
    }
  }

  /** Appending names to the order list adds their hits. */
  lemma {:induction false} MandatoryHitsAppend(order: seq<string>, more: seq<string>, response: Fields)
    ensures MandatoryHits(order + more, response) == MandatoryHits(order, response) + MandatoryHits(more, response)
  {
    if more != [] {
      assert (order + more)[..|order + more| - 1] == order + more[..|more| - 1];
      MandatoryHitsAppend(order, more[..|more| - 1], response);
    } else {
      assert order + more == order;
    }
  }

  /** The mandatory names with a non-empty value that occur in `order`. */
  function MandatoryPresent(order: seq<string>, response: Fields): set<string> {
    set k | k in order && IsMandatory(k) && |Field(response, k)| > 0
  }

  /** Without repeated names, the hits are the mandatory names present. */
  lemma {:induction false} MandatoryHitsDistinct(order: seq<string>, response: Fields)
    requires forall i, j :: 0 <= i < j < |order| ==> order[i] != order[j]
    ensures MandatoryHits(order, response) == |MandatoryPresent(order, response)|
  {
    if order != [] {
      var init, key := order[..|order| - 1], order[|order| - 1];
      MandatoryHitsDistinct(init, response);
      assert key !in init;
      assert order == init + [key];
      if IsMandatory(key) && |Field(response, key)| > 0 {
        assert MandatoryPresent(order, response) == MandatoryPresent(init, response) + {key};
      } else {
        assert MandatoryPresent(order, response) == MandatoryPresent(init, response);
      }
    }
  }

  /** The order string the gateway sends for the signed fields `signed`. */
  function SignedOrder(signed: Fields): string {
    Implode(",", Keys(signed) + ["secret", "responseFingerprintOrder"])
  }

  /** The two fields the gateway appends to a callback. */
  function Trailer(order: string, fp: string): Fields {
    [("responseFingerprintOrder", order), ("responseFingerprint", fp)]
  }

  /**
   * The callback the gateway sends for the signed fields `signed`: their names,
   * then `secret` and `responseFingerprintOrder`, make up the order string, and
   * the fingerprint covers the values in that order, the secret and the order
   * string itself.
   */
  function SignedCallback(settings: Settings, hashing: Hashing, signed: Fields): Fields {
    var order := SignedOrder(signed);
    signed + Trailer(order, CalculateFingerprint(settings, hashing, ConcatValues(signed) + settings.secret + order))
  }

  /** None of the signed names collides with a name the verification treats specially. */
  predicate PlainNames(signed: Fields) {
    forall i :: 0 <= i < |signed| ==>
      (',' !in signed[i].0 && signed[i].0 != "secret"
       && signed[i].0 != "responseFingerprintOrder" && signed[i].0 != "responseFingerprint")
  }

  /** The conditions under which the gateway's signature covers what the adapter checks. */
  predicate WellSigned(signed: Fields) {
    && UniqueKeys(signed)
    && PlainNames(signed)
    && |Field(signed, "paymentState")| > 0
    && |Field(signed, "orderNumber")| > 0
    && |Field(signed, "paymentType")| > 0
  }

  /** A callback signed the way the gateway signs passes the adapter's verification. */
  lemma HonestCallbackVerified(settings: Settings, hashing: Hashing, signed: Fields)
    requires WellSigned(signed)
    ensures Verified(settings, hashing, SignedCallback(settings, hashing, signed))
  {
    var order := SignedOrder(signed);
    var fp := CalculateFingerprint(settings, hashing, ConcatValues(signed) + settings.secret + order);
    var response := signed + Trailer(order, fp);
    var names := Keys(signed) + ["secret", "responseFingerprintOrder"];
    TrailerLookups(signed, order, fp);
    SignedOrderNames(signed);
    TrailerString(signed, order, fp, settings.secret);
    TrailerHits(signed, order, fp);
    assert names[|signed|] == "secret";
  }

  /** The signed names, `secret` and `responseFingerprintOrder` are what the order string explodes into. */
  lemma SignedOrderNames(signed: Fields)
    requires PlainNames(signed)
    ensures Explode(',', SignedOrder(signed)) == Keys(signed) + ["secret", "responseFingerprintOrder"]
  {
    NamesWithoutComma(signed, ["secret", "responseFingerprintOrder"]);
    ExplodeImplode(',', Keys(signed) + ["secret", "responseFingerprintOrder"]);
  }

  /** In a callback, the signed fields and the two trailing fields look up as sent. */
  lemma TrailerLookups(signed: Fields, order: string, fp: string)
    requires UniqueKeys(signed) && PlainNames(signed)
    ensures Get(signed + Trailer(order, fp), "responseFingerprintOrder") == Some(order)
    ensures Get(signed + Trailer(order, fp), "responseFingerprint") == Some(fp)
    ensures forall i :: 0 <= i < |signed| ==> Get(signed + Trailer(order, fp), signed[i].0) == Some(signed[i].1)
    ensures forall k :: k in Keys(signed) ==> Get(signed + Trailer(order, fp), k) == Get(signed, k)
  {
    var tail := Trailer(order, fp);
    assert "responseFingerprintOrder" !in Keys(signed) && "responseFingerprint" !in Keys(signed);
    GetAppend(signed, tail, "responseFingerprintOrder");
    GetAppend(signed, tail, "responseFingerprint");
    forall i | 0 <= i < |signed| ensures Get(signed + tail, signed[i].0) == Some(signed[i].1) {
      GetAppend(signed, tail, signed[i].0);
      GetAt(signed, i);
    }
    forall k | k in Keys(signed) ensures Get(signed + tail, k) == Get(signed, k) {
      GetAppend(signed, tail, k);
    }
  }

  /** The verification string of a callback is the values, the secret and the order string. */
  lemma TrailerString(signed: Fields, order: string, fp: string, secret: string)
    requires UniqueKeys(signed) && PlainNames(signed)
    ensures VerificationString(Keys(signed) + ["secret", "responseFingerprintOrder"], signed + Trailer(order, fp), secret)
         == ConcatValues(signed) + secret + order
  {
    var response := signed + Trailer(order, fp);
    var tail := ["secret", "responseFingerprintOrder"];
    TrailerLookups(signed, order, fp);
    VerificationOfSignedFields(signed, response, secret);
    VerificationStringAppend(Keys(signed), tail, response, secret);
    TailContributions(response, secret);
  }

  /** The two names that close a signed order list contribute the secret and the order string, and no hit. */
  lemma TailContributions(response: Fields, secret: string)
    ensures VerificationString(["secret", "responseFingerprintOrder"], response, secret)
         == secret + Field(response, "responseFingerprintOrder")
    ensures MandatoryHits(["secret", "responseFingerprintOrder"], response) == 0
  {
    var tail := ["secret", "responseFingerprintOrder"];
    assert tail[..1] == ["secret"] && ["secret"][..0] == [];
    assert VerificationString(["secret"], response, secret) == secret;
    assert VerificationString(tail, response, secret) == secret + Contribution(response, secret, tail[1]);
    assert MandatoryHits(["secret"], response) == 0;
    assert MandatoryHits(tail, response) == MandatoryHits(["secret"], response);
  }

  /** A well-signed callback covers each mandatory field exactly once. */
  lemma TrailerHits(signed: Fields, order: string, fp: string)
    requires WellSigned(signed)
    ensures MandatoryHits(Keys(signed) + ["secret", "responseFingerprintOrder"], signed + Trailer(order, fp)) == 3
  {
    var response := signed + Trailer(order, fp);
    var tail := ["secret", "responseFingerprintOrder"];
    TrailerLookups(signed, order, fp);
    MandatoryHitsAppend(Keys(signed), tail, response);
    TailContributions(response, "");
    MandatoryHitsDistinct(Keys(signed), response);
    GetSome(signed, "paymentState");
    GetSome(signed, "orderNumber");
    GetSome(signed, "paymentType");
    AllThreePresent(Keys(signed), response);
  }

  lemma MandatoryNamesDistinct()
    ensures "paymentState" != "orderNumber" && "paymentState" != "paymentType" && "orderNumber" != "paymentType"
  {
    assert |"paymentState"| != |"orderNumber"| && |"paymentState"| != |"paymentType"|;
    assert "orderNumber"[0] != "paymentType"[0];
  }

  lemma CardinalityOfThree(a: string, b: string, c: string)
    requires a != b && a != c && b != c
    ensures |{a, b, c}| == 3
  {
  }

  /** When all three mandatory names are listed with values, all three are present. */
  lemma AllThreePresent(order: seq<string>, response: Fields)
    requires "paymentState" in order && |Field(response, "paymentState")| > 0
    requires "orderNumber" in order && |Field(response, "orderNumber")| > 0
    requires "paymentType" in order && |Field(response, "paymentType")| > 0
    ensures |MandatoryPresent(order, response)| == 3
  {
    var three := {"paymentState", "orderNumber", "paymentType"};
    assert MandatoryPresent(order, response) <= three by {}
    assert three <= MandatoryPresent(order, response) by {}
    MandatoryNamesDistinct();
    CardinalityOfThree("paymentState", "orderNumber", "paymentType");
    assert MandatoryPresent(order, response) == three;
  }

  // ---------------------------------------------------------------- callback to status

  /** The fields copied into the authorized data. */
  const AuthorizedKeys: seq<string> := ["orderNumber", "paymentType", "paymentState", "amount", "currency", "gatewayReferenceNumber"]

  /** The routing parameters removed from a non-prepayment callback before it is inspected. */
  const RoutingKeys: seq<string> := ["controller", "action", "document", "docPath", "pimcore_request_source"]

  /** The fields a verifiable callback must carry, in the order the error message lists them. */
  const RequiredKeys: seq<string> := ["responseFingerprintOrder", "responseFingerprint"]

  /** A PHP value that is set and truthy: not null, not `""`, not `"0"`. */
  predicate Truthy(v: Option<string>) {
    v.Some? && !Falsy(v.value)
  }

  predicate IsPrepayment(response: Fields) {
    Get(response, "paymentType") == Some("PREPAYMENT")
  }

  /** The callback reports errors, or the payment is pending or cancelled. */
  predicate CancelBranch(response: Fields) {
    || Truthy(Get(response, "errors"))
    || Get(response, "paymentState") == Some("PENDING")
    || Get(response, "paymentState") == Some("CANCEL")
  }

  /** The callback without the routing parameters. */
  function CleanResponse(response: Fields): (clean: Fields)
    ensures forall k :: k in RoutingKeys ==> Get(clean, k) == None
  {
    RemoveAll(response, RoutingKeys)
  }

  /** Removing the routing parameters leaves every other field as it was. */
  lemma CleanResponseGet(response: Fields, k: string)
    requires k !in RoutingKeys
    ensures Get(CleanResponse(response), k) == Get(response, k)
  {
  }

  /** A name whose length no routing parameter has is not a routing parameter. */
  lemma NotRouting(k: string)
    requires |k| != 6 && |k| != 7 && |k| != 8 && |k| != 10 && |k| != 22
    ensures k !in RoutingKeys
  {
    assert |"controller"| == 10 && |"action"| == 6 && |"document"| == 8;
    assert |"docPath"| == 7 && |"pimcore_request_source"| == 22;
  }

  /** The fields the status mapping reads are not routing parameters. */
  lemma CleanKeepsStatusFields(response: Fields)
    ensures var clean := CleanResponse(response);
      && Get(clean, "errors") == Get(response, "errors")
      && Get(clean, "paymentState") == Get(response, "paymentState")
      && Get(clean, "orderNumber") == Get(response, "orderNumber")
      && Get(clean, "responseFingerprintOrder") == Get(response, "responseFingerprintOrder")
      && Get(clean, "responseFingerprint") == Get(response, "responseFingerprint")
  {
    assert "errors" !in RoutingKeys by {
      assert "errors"[0] !in {'c', 'a', 'd', 'p'};
    }
    CleanResponseGet(response, "errors");
    NotRouting("paymentState");
    NotRouting("orderNumber");
    NotRouting("responseFingerprintOrder");
    NotRouting("responseFingerprint");
    CleanResponseGet(response, "paymentState");
    CleanResponseGet(response, "orderNumber");
    CleanResponseGet(response, "responseFingerprintOrder");
    CleanResponseGet(response, "responseFingerprint");
  }

  /** The authorized data the adapter stores: the six fields of the callback, with `SUCCESS` for a prepayment. */
  function AuthorizedDataOf(response: Fields): (data: Fields)
    ensures forall i :: 0 <= i < |data| ==> data[i].0 in AuthorizedKeys
    ensures forall k :: k !in AuthorizedKeys ==> Get(data, k) == None
    ensures forall k :: k in AuthorizedKeys && !(IsPrepayment(response) && k == "paymentState") ==> Get(data, k) == Get(response, k)
    ensures IsPrepayment(response) ==> Get(data, "paymentState") == Some("SUCCESS")
  {
    var data := IntersectKey(response, AuthorizedKeys);
    if IsPrepayment(response) then
      var r := Put(data, "paymentState", "SUCCESS");
      assert forall i :: 0 <= i < |r| ==> r[i].0 in AuthorizedKeys by {
        forall i | 0 <= i < |r| ensures r[i].0 in AuthorizedKeys {
          assert Keys(r)[i] == r[i].0;
          if i < |data| {
            assert Keys(data)[i] == data[i].0;
          }
        }
      }
      r
    else data
  }

  /** How a response is rendered into status data: `json_encode`, `print_r` and the price's string form. */
  datatype Dumps = Dumps(json: Fields -> string, printR: Fields -> string, price: (Option<string>, Option<string>) -> string)

  /** The callback passes the required-field check and the fingerprint verification. */
  predicate Accepted(settings: Settings, hashing: Hashing, response: Fields) {
    var clean := CleanResponse(response);
    MissingKeys(clean, RequiredKeys) == [] && Verified(settings, hashing, clean)
  }

  const MissingMessage: string := "required fields are missing! required: "
  const VerificationFailed: string := "The verification of the response data was not successful."

  /** `handleResponse`: the status for a callback, or the exception it throws. */
  function HandleResponseResult(settings: Settings, hashing: Hashing, dumps: Dumps, response: Fields): (r: Result<Status, string>)
    ensures r.Ok? ==> r.value.internalPaymentId == Some(DecodeOrderIdent(Field(response, "orderIdent")))
    ensures r.Ok? ==> r.value.state == Authorized || r.value.state == Cancelled
    ensures IsPrepayment(response) ==> r.Ok? && r.value.state == Authorized
    ensures !IsPrepayment(response) && CancelBranch(response) ==> r.Ok? && r.value.state == Cancelled
    ensures r.Err? <==> !IsPrepayment(response) && !CancelBranch(response) && !Accepted(settings, hashing, response)
    ensures r.Ok? && r.value.state == Authorized <==>
      || IsPrepayment(response)
      || (&& !CancelBranch(response) && Accepted(settings, hashing, response)
          && Get(response, "orderNumber").Some? && Get(response, "paymentState") == Some("SUCCESS"))
  {
    var ident := Some(DecodeOrderIdent(Field(response, "orderIdent")));
    CleanKeepsStatusFields(response);
    if IsPrepayment(response) then
      Ok(Status(ident, Some(""), Some(""), Authorized,
        [("seamless_amount", Some("")), ("seamless_paymentType", Some("PREPAYMENT")),
         ("seamless_paymentState", Some("SUCCESS")), ("seamless_response", Some(""))]))
    else
      var clean := CleanResponse(response);
      if CancelBranch(clean) then
        Ok(Status(ident, Get(clean, "orderNumber"), Get(clean, "avsResponseMessage"), Cancelled,
          [("seamless_amount", Some("")), ("seamless_paymentType", Some("")),
           ("seamless_paymentState", Some("")), ("seamless_response", Some(dumps.json(clean)))]))
      else if MissingKeys(clean, RequiredKeys) != [] then
        Err(MissingMessage + Implode(", ", MissingKeys(clean, RequiredKeys)))
      else if !Verified(settings, hashing, clean) then
        Err(VerificationFailed)
      else
        var data := AuthorizedDataOf(response);
        var success := Get(clean, "orderNumber").Some? && Get(clean, "paymentState") == Some("SUCCESS");
        Ok(Status(ident, Get(clean, "orderNumber"), Get(clean, "avsResponseMessage"),
          if success then Authorized else Cancelled,
          [("seamless_amount", Some(dumps.price(Get(data, "amount"), Get(data, "currency")))),
           ("seamless_paymentType", Get(clean, "paymentType")),
           ("seamless_paymentState", Get(clean, "paymentState")),
           ("seamless_response", Some(dumps.printR(clean)))]))
  }

  /** A callback missing either fingerprint field is rejected, and the message names what is missing. */
  lemma MissingFingerprintRejected(settings: Settings, hashing: Hashing, dumps: Dumps, response: Fields)
    requires !IsPrepayment(response) && !CancelBranch(response)
    requires "responseFingerprintOrder" !in Keys(response) || "responseFingerprint" !in Keys(response)
    ensures HandleResponseResult(settings, hashing, dumps, response)
         == Err(MissingMessage + Implode(", ", MissingKeys(CleanResponse(response), RequiredKeys)))
  {
    var clean := CleanResponse(response);
    CleanKeepsStatusFields(response);
    GetSome(response, "responseFingerprintOrder");
    GetSome(response, "responseFingerprint");
    GetSome(clean, "responseFingerprintOrder");
    GetSome(clean, "responseFingerprint");
    assert "responseFingerprintOrder" !in Keys(clean) || "responseFingerprint" !in Keys(clean);
    assert MissingKeys(clean, RequiredKeys) != [] by {
      assert "responseFingerprintOrder" in RequiredKeys && "responseFingerprint" in RequiredKeys;
    }
  }

  /** An honestly signed callback that reports success is authorized. */
  lemma HonestSuccessAuthorized(settings: Settings, hashing: Hashing, dumps: Dumps, signed: Fields)
    requires WellSigned(signed)
    requires forall i :: 0 <= i < |signed| ==> signed[i].0 !in RoutingKeys
    requires !IsPrepayment(signed) && !CancelBranch(signed)
    requires Get(signed, "paymentState") == Some("SUCCESS")
    ensures var r := HandleResponseResult(settings, hashing, dumps, SignedCallback(settings, hashing, signed));
      r.Ok? && r.value.state == Authorized
  {
    var response := SignedCallback(settings, hashing, signed);
    var order := SignedOrder(signed);
    var fp := CalculateFingerprint(settings, hashing, ConcatValues(signed) + settings.secret + order);
    assert response == signed + Trailer(order, fp);
    TrailerStatusFields(signed, order, fp);
    assert Accepted(settings, hashing, response) by {
      RoutingFree(signed, order, fp);
      HonestCallbackVerified(settings, hashing, signed);
      TrailerLookups(signed, order, fp);
      GetSome(response, "responseFingerprintOrder");
      GetSome(response, "responseFingerprint");
      NoneMissing(response, RequiredKeys);
    }
  }

  /** The signature trailer leaves the fields that decide the status alone. */
  lemma TrailerStatusFields(signed: Fields, order: string, fp: string)
    ensures IsPrepayment(signed + Trailer(order, fp)) == IsPrepayment(signed)
    ensures CancelBranch(signed + Trailer(order, fp)) == CancelBranch(signed)
    ensures Get(signed + Trailer(order, fp), "orderNumber") == Get(signed, "orderNumber")
    ensures Get(signed + Trailer(order, fp), "paymentState") == Get(signed, "paymentState")
  {
    assert |"errors"| == 6 && |"paymentState"| == 12 && |"paymentType"| == 11 && |"orderNumber"| == 11;
    TrailerOther(signed, order, fp, "errors");
    TrailerOther(signed, order, fp, "paymentState");
    TrailerOther(signed, order, fp, "paymentType");
    TrailerOther(signed, order, fp, "orderNumber");
  }

  /** A callback without routing parameters is its own cleaned form. */
  lemma RoutingFree(signed: Fields, order: string, fp: string)
    requires forall i :: 0 <= i < |signed| ==> signed[i].0 !in RoutingKeys
    ensures CleanResponse(signed + Trailer(order, fp)) == signed + Trailer(order, fp)
  {
    var response := signed + Trailer(order, fp);
    forall k | k in RoutingKeys ensures k !in Keys(response) {
      assert k != "responseFingerprintOrder" && k != "responseFingerprint" by {
        assert |"controller"| == 10 && |"action"| == 6 && |"document"| == 8;
        assert |"docPath"| == 7 && |"pimcore_request_source"| == 22;
        assert |"responseFingerprintOrder"| == 24 && |"responseFingerprint"| == 19;
      }
      assert k !in Keys(signed);
      GetAppend(signed, Trailer(order, fp), k);
      GetSome(response, k);
    }
    RemoveAllAbsent(response, RoutingKeys);
  }

  /** Outside the two trailing names, a callback looks up like its signed fields. */
  lemma TrailerOther(signed: Fields, order: string, fp: string, k: string)
    requires k != "responseFingerprintOrder" && k != "responseFingerprint"
    ensures Get(signed + Trailer(order, fp), k) == Get(signed, k)
  {
    GetAppend(signed, Trailer(order, fp), k);
    GetSome(signed, k);
    GetSome(Trailer(order, fp), k);
  }

  // ---------------------------------------------------------------- basket items for PayPal

  /** An order line as `addPaypalFields` reads it; the unit amounts and the tax rate arrive rounded. */
  datatype OrderItem = OrderItem(
    productNumber: string, productName: string, amount: string,
    unitNetAmount: string, unitTaxRate: string, unitGrossAmount: string)

  /** A price modification of the order (a shipping cost, a discount). */
  datatype PriceModification = PriceModification(name: string, netAmount: string, taxRate: string, amount: string)

  /** The suffixes of the seven fields sent per basket item. */
  const BasketSuffixes: seq<string> :=
    ["ArticleNumber", "Name", "Description", "Quantity", "UnitNetAmount", "UnitTaxRate", "UnitGrossAmount"]

  /** `sprintf('basketItem%d<suffix>', $n)`. */
  function BasketKey(n: nat, suffix: string): string {
    "basketItem" + NatToString(n) + suffix
  }

  /** The name starts with `basketItem`, as every field `addPaypalFields` writes does. */
  predicate HasBasketPrefix(k: string) {
    |k| >= 10 && k[..10] == "basketItem"
  }

  /** The values an order item sends, in suffix order: its name doubles as description. */
  function ItemValues(item: OrderItem): seq<string> {
    [item.productNumber, item.productName, item.productName, item.amount,
     item.unitNetAmount, item.unitTaxRate, item.unitGrossAmount]
  }

  /** The values a price modification sends: its name three times and quantity 1. */
  function ModificationValues(m: PriceModification): seq<string> {
    [m.name, m.name, m.name, "1", m.netAmount, m.taxRate, m.amount]
  }

  /** The fields of basket item `n`: each suffix paired with the value in the same place. */
  function BasketLine(n: nat, suffixes: seq<string>, values: seq<string>): (line: Fields)
    ensures |line| <= |suffixes| && |line| <= |values|
  {
    if suffixes == [] || values == [] then []
    else [(BasketKey(n, suffixes[0]), values[0])] + BasketLine(n, suffixes[1..], values[1..])
  }

  /** The fields of a run of basket lines: line `i` (from 0) is basket item `i + 1`. */
  function BasketEntries(suffixes: seq<string>, lines: seq<seq<string>>): Fields {
    if lines == [] then []
    else BasketEntries(suffixes, lines[..|lines| - 1]) + BasketLine(|lines|, suffixes, lines[|lines| - 1])
  }

  function ItemLines(items: seq<OrderItem>): (lines: seq<seq<string>>)
    ensures |lines| == |items|
    ensures forall i :: 0 <= i < |items| ==> lines[i] == ItemValues(items[i])
  {
    if items == [] then [] else ItemLines(items[..|items| - 1]) + [ItemValues(items[|items| - 1])]
  }

  function ModificationLines(mods: seq<PriceModification>): (lines: seq<seq<string>>)
    ensures |lines| == |mods|
    ensures forall i :: 0 <= i < |mods| ==> lines[i] == ModificationValues(mods[i])
  {
    if mods == [] then [] else ModificationLines(mods[..|mods| - 1]) + [ModificationValues(mods[|mods| - 1])]
  }

  /** The basket lines `addPaypalFields` merges: the items, then the modifications. */
  function PaypalBasket(items: seq<OrderItem>, mods: seq<PriceModification>): Fields {
    BasketEntries(BasketSuffixes, ItemLines(items) + ModificationLines(mods))
  }

  /** `addPaypalFields` as a function of the fields it extends: the basket merged, then the count under `basketItems`. */
  function PaypalFields(fields: Fields, items: seq<OrderItem>, mods: seq<PriceModification>): Fields {
    Put(PutAll(fields, PaypalBasket(items, mods)), "basketItems", NatToString(|items| + |mods|))
  }

  /** The two loops of `addPaypalFields` merged every line; writing the last counter value completes the fields. */
  lemma PaypalFieldsOfMerged(fields: Fields, items: seq<OrderItem>, mods: seq<PriceModification>, merged: Fields, counter: int)
    requires merged == PutAll(fields, BasketEntries(BasketSuffixes, ItemLines(items) + ModificationLines(mods)))
    requires counter == |items| + |mods| + 1
    ensures counter - 1 >= 0 && Put(merged, "basketItems", NatToString(counter - 1)) == PaypalFields(fields, items, mods)
  {
    assert NatToString(counter - 1) == NatToString(|items| + |mods|);
  }

  /**
   * No suffix starts with a digit, so the number in a basket key ends where
   * the suffix begins, and no suffix occurs twice.
   */
  predicate SuffixesOk(suffixes: seq<string>) {
    (forall i :: 0 <= i < |suffixes| ==> |suffixes[i]| > 0 && !IsDigit(suffixes[i][0]))
    && Distinct(suffixes)
  }

  predicate Distinct(ss: seq<string>) {
    ss == [] || (ss[0] !in ss[1..] && Distinct(ss[1..]))
  }

  /** Basket keys name their number and suffix uniquely. */
  lemma BasketKeyInjective(n: nat, m: nat, s: string, t: string)
    requires |s| > 0 && !IsDigit(s[0]) && |t| > 0 && !IsDigit(t[0])
    requires BasketKey(n, s) == BasketKey(m, t)
    ensures n == m && s == t
  {
    var a, b := NatToString(n), NatToString(m);
    assert a + s == BasketKey(n, s)[10..] == BasketKey(m, t)[10..] == b + t;
    assert a == (a + s)[..|a|] == (b + t)[..|b|] == b;
    NatToStringInjective(n, m);
    assert s == (a + s)[|a|..] == (b + t)[|b|..] == t;
  }

  /** Every basket key has the basket prefix and is not the count field `basketItems`. */
  lemma BasketKeyShape(n: nat, s: string)
    ensures HasBasketPrefix(BasketKey(n, s))
    ensures BasketKey(n, s) != "basketItems"
  {
    var k := BasketKey(n, s);
    assert k[..10] == "basketItem";
    assert k[10] == NatToString(n)[0];
  }

  lemma BasketSuffixesOk()
    ensures SuffixesOk(BasketSuffixes)
  {
    var ss := BasketSuffixes;
    assert |ss[0]| == 13 && |ss[1]| == 4 && |ss[2]| == 11 && |ss[3]| == 8;
    assert |ss[4]| == 13 && |ss[5]| == 11 && |ss[6]| == 15;
    assert ss[0][0] != ss[4][0] && ss[2][0] != ss[5][0];
    assert Distinct(ss[6..]);
    assert Distinct(ss[5..]);
    assert Distinct(ss[4..]);
    assert Distinct(ss[3..]);
    assert Distinct(ss[2..]);
    assert Distinct(ss[1..]);
  }

  lemma {:induction false} LineAt(n: nat, suffixes: seq<string>, values: seq<string>, i: int)
    requires 0 <= i < |BasketLine(n, suffixes, values)|
    ensures BasketLine(n, suffixes, values)[i] == (BasketKey(n, suffixes[i]), values[i])
  {
    if i > 0 {
      LineAt(n, suffixes[1..], values[1..], i - 1);
    }
  }

  /** A basket line holds only keys with its own number, all with the basket prefix and none the count field. */
  lemma {:induction false} LineKeys(n: nat, suffixes: seq<string>, values: seq<string>, k: string)
    requires SuffixesOk(suffixes) && k in Keys(BasketLine(n, suffixes, values))
    ensures HasBasketPrefix(k) && k != "basketItems"
    ensures forall m: nat, t :: |t| > 0 && !IsDigit(t[0]) && k == BasketKey(m, t) ==> m == n
  {
    var line := BasketLine(n, suffixes, values);
    var i :| 0 <= i < |line| && Keys(line)[i] == k;
    LineAt(n, suffixes, values, i);
    BasketKeyShape(n, suffixes[i]);
    forall m: nat, t | |t| > 0 && !IsDigit(t[0]) && k == BasketKey(m, t) ensures m == n {
      BasketKeyInjective(n, m, suffixes[i], t);
    }
  }

  lemma {:induction false} LineUnique(n: nat, suffixes: seq<string>, values: seq<string>)
    requires SuffixesOk(suffixes)
    ensures UniqueKeys(BasketLine(n, suffixes, values))
  {
    if suffixes != [] && values != [] {
      var line := BasketLine(n, suffixes, values);
      assert line[1..] == BasketLine(n, suffixes[1..], values[1..]);
      assert SuffixesOk(suffixes[1..]) by {
        assert forall i :: 0 <= i < |suffixes[1..]| ==> suffixes[1..][i] == suffixes[i + 1];
      }
      assert suffixes[0] !in suffixes[1..];
      LineUnique(n, suffixes[1..], values[1..]);
      if line[0].0 in Keys(line[1..]) {
        var i :| 0 <= i < |line[1..]| && Keys(line[1..])[i] == line[0].0;
        LineAt(n, suffixes, values, 0);
        LineAt(n, suffixes, values, i + 1);
        BasketKeyInjective(n, n, suffixes[0], suffixes[i + 1]);
      }
    }
  }

  /** Each suffix of a basket line looks up the value in its place. */
  lemma {:induction false} LineGet(n: nat, suffixes: seq<string>, values: seq<string>, s: int)
    requires SuffixesOk(suffixes) && 0 <= s < |suffixes| && s < |values|
    ensures Get(BasketLine(n, suffixes, values), BasketKey(n, suffixes[s])) == Some(values[s])
  {
    LineLength(n, suffixes, values);
    LineUnique(n, suffixes, values);
    LineAt(n, suffixes, values, s);
    GetAt(BasketLine(n, suffixes, values), s);
  }

  lemma {:induction false} LineLength(n: nat, suffixes: seq<string>, values: seq<string>)
    ensures |BasketLine(n, suffixes, values)| == if |suffixes| <= |values| then |suffixes| else |values|
  {
    if suffixes != [] && values != [] {
      LineLength(n, suffixes[1..], values[1..]);
    }
  }

  /**
   * The keys of a run of lines: all basket keys, none the count field, and
   * none numbered outside `1..|lines|`.
   */
  lemma {:induction false} EntriesKeys(suffixes: seq<string>, lines: seq<seq<string>>, k: string)
    requires SuffixesOk(suffixes) && k in Keys(BasketEntries(suffixes, lines))
    ensures HasBasketPrefix(k) && k != "basketItems"
    ensures forall m: nat, t :: |t| > 0 && !IsDigit(t[0]) && k == BasketKey(m, t) ==> 1 <= m <= |lines|
  {
    var init := lines[..|lines| - 1];
    var line := BasketLine(|lines|, suffixes, lines[|lines| - 1]);
    KeysAppend(BasketEntries(suffixes, init), line);
    if k in Keys(BasketEntries(suffixes, init)) {
      EntriesKeys(suffixes, init, k);
    } else {
      LineKeys(|lines|, suffixes, lines[|lines| - 1], k);
    }
  }

  lemma {:induction false} EntriesUnique(suffixes: seq<string>, lines: seq<seq<string>>)
    requires SuffixesOk(suffixes)
    ensures UniqueKeys(BasketEntries(suffixes, lines))
  {
    if lines != [] {
      var init := lines[..|lines| - 1];
      var line := BasketLine(|lines|, suffixes, lines[|lines| - 1]);
      EntriesUnique(suffixes, init);
      LineUnique(|lines|, suffixes, lines[|lines| - 1]);
      forall k | k in Keys(BasketEntries(suffixes, init)) ensures k !in Keys(line) {
        EntriesKeys(suffixes, init, k);
        if k in Keys(line) {
          var i :| 0 <= i < |line| && Keys(line)[i] == k;
          LineAt(|lines|, suffixes, lines[|lines| - 1], i);
        }
      }
      UniqueAppend(BasketEntries(suffixes, init), line);
    }
  }

  /** Line `n - 1` of a run is basket item `n`. */
  lemma {:induction false} EntriesGet(suffixes: seq<string>, lines: seq<seq<string>>, n: nat, s: int)
    requires SuffixesOk(suffixes) && 0 <= s < |suffixes|
    requires 1 <= n <= |lines| && s < |lines[n - 1]|
    ensures Get(BasketEntries(suffixes, lines), BasketKey(n, suffixes[s])) == Some(lines[n - 1][s])
  {
    var init := lines[..|lines| - 1];
    var earlier := BasketEntries(suffixes, init);
    var key := BasketKey(n, suffixes[s]);
    GetAppend(earlier, BasketLine(|lines|, suffixes, lines[|lines| - 1]), key);
    if n == |lines| {
      if key in Keys(earlier) {
        EntriesKeys(suffixes, init, key);
      }
      LineGet(n, suffixes, lines[n - 1], s);
    } else {
      assert lines[n - 1] == init[n - 1];
      EntriesGet(suffixes, init, n, s);
      GetSome(earlier, key);
    }
  }

  /** How the PayPal fields look up: the count, then a basket entry, then the fields it extends. */
  lemma PaypalLookup(fields: Fields, items: seq<OrderItem>, mods: seq<PriceModification>, k: string)
    ensures var basket := PaypalBasket(items, mods);
      Get(PaypalFields(fields, items, mods), k)
        == if k == "basketItems" then Some(NatToString(|items| + |mods|))
           else if k in Keys(basket) then Get(basket, k) else Get(fields, k)
  {
    BasketSuffixesOk();
    EntriesUnique(BasketSuffixes, ItemLines(items) + ModificationLines(mods));
    PutAllGet(fields, PaypalBasket(items, mods), k);
  }

  /** Order item `n - 1` is basket item `n` in the PayPal fields. */
  lemma PaypalItem(fields: Fields, items: seq<OrderItem>, mods: seq<PriceModification>, n: nat, s: int)
    requires 1 <= n <= |items| && 0 <= s < 7
    ensures Get(PaypalFields(fields, items, mods), BasketKey(n, BasketSuffixes[s])) == Some(ItemValues(items[n - 1])[s])
  {
    var lines := ItemLines(items) + ModificationLines(mods);
    assert lines[n - 1] == ItemValues(items[n - 1]);
    PaypalBasketLookup(fields, items, mods, n, s);
  }

  /** Price modification `k` is basket item `|items| + k + 1` in the PayPal fields. */
  lemma PaypalModification(fields: Fields, items: seq<OrderItem>, mods: seq<PriceModification>, k: nat, s: int)
    requires k < |mods| && 0 <= s < 7
    ensures Get(PaypalFields(fields, items, mods), BasketKey(|items| + k + 1, BasketSuffixes[s]))
         == Some(ModificationValues(mods[k])[s])
  {
    var lines := ItemLines(items) + ModificationLines(mods);
    assert lines[|items| + k] == ModificationValues(mods[k]);
    PaypalBasketLookup(fields, items, mods, |items| + k + 1, s);
  }

  lemma PaypalBasketLookup(fields: Fields, items: seq<OrderItem>, mods: seq<PriceModification>, n: nat, s: int)
    requires 1 <= n <= |items| + |mods| && 0 <= s < 7
    requires s < |(ItemLines(items) + ModificationLines(mods))[n - 1]|
    ensures Get(PaypalFields(fields, items, mods), BasketKey(n, BasketSuffixes[s]))
         == Some((ItemLines(items) + ModificationLines(mods))[n - 1][s])
  {
    var lines := ItemLines(items) + ModificationLines(mods);
    var basket := PaypalBasket(items, mods);
    var key := BasketKey(n, BasketSuffixes[s]);
    assert Get(basket, key) == Some(lines[n - 1][s]) by {
      BasketSuffixesOk();
      EntriesGet(BasketSuffixes, lines, n, s);
    }
    GetSome(basket, key);
    BasketKeyShape(n, BasketSuffixes[s]);
    PaypalLookup(fields, items, mods, key);
  }

  /** The PayPal fields count the basket items and keep every field without the basket prefix. */
  lemma PaypalCountAndOthers(fields: Fields, items: seq<OrderItem>, mods: seq<PriceModification>, k: string)
    requires !HasBasketPrefix(k)
    ensures Get(PaypalFields(fields, items, mods), "basketItems") == Some(NatToString(|items| + |mods|))
    ensures Get(PaypalFields(fields, items, mods), k) == Get(fields, k)
  {
    var lines := ItemLines(items) + ModificationLines(mods);
    BasketSuffixesOk();
    assert k !in Keys(PaypalBasket(items, mods)) by {
      if k in Keys(PaypalBasket(items, mods)) {
        EntriesKeys(BasketSuffixes, lines, k);
      }
    }
    assert k != "basketItems" by {
      assert "basketItems"[..10] == "basketItem";
    }
    PaypalLookup(fields, items, mods, k);
  }

  /** One more basket line merged into the fields is the next run of lines merged. */
  lemma {:induction false} MergeNextLine(fields: Fields, suffixes: seq<string>, lines: seq<seq<string>>, values: seq<string>, n: nat)
    requires n == |lines| + 1
    ensures PutAll(fields, BasketEntries(suffixes, lines + [values]))
         == PutAll(PutAll(fields, BasketEntries(suffixes, lines)), BasketLine(n, suffixes, values))
  {
    assert (lines + [values])[..|lines|] == lines;
    assert |lines + [values]| == n;
    PutAllAppend(fields, BasketEntries(suffixes, lines), BasketLine(n, suffixes, values));
  }

  /** One pass of a merge loop of `addPaypalFields`. */
  lemma {:induction false} MergeStep(fields: Fields, suffixes: seq<string>, done: seq<seq<string>>, lines: seq<seq<string>>,
                                     i: nat, r: Fields, counter: nat)
    requires i < |lines| && counter == |done| + i + 1
    requires r == PutAll(fields, BasketEntries(suffixes, done + lines[..i]))
    ensures PutAll(r, BasketLine(counter, suffixes, lines[i]))
         == PutAll(fields, BasketEntries(suffixes, done + lines[..i + 1]))
  {
    var prefix := done + lines[..i];
    SliceSnoc(lines, i);
    AppendAssoc(done, lines[..i], [lines[i]]);
    MergeNextLine(fields, suffixes, prefix, lines[i], counter);
  }

  // ---------------------------------------------------------------- payment requests

  /** `confirmURL` with the encoded order ident appended as the query parameter `orderIdent`. */
  function ConfirmUrl(base: string, encodedIdent: string): (url: string)
    ensures |url| == |base| + 12 + |encodedIdent|
    ensures url[..|base|] == base
    ensures url[|base| + 1..] == "orderIdent=" + encodedIdent
  {
    base + (if '?' in base then "&" else "?") + "orderIdent=" + encodedIdent
  }

  /**
   * The separator rule: a URL without a query gets `?`, one with a query gets
   * `&`, so an encoded ident without `?` leaves exactly one `?` when there was none.
   */
  lemma {:induction false} ConfirmUrlSeparator(base: string, encodedIdent: string)
    requires '?' !in encodedIdent
    ensures var url := ConfirmUrl(base, encodedIdent);
      && url[|base|] == (if '?' in base then '&' else '?')
      && CountChar('?', url) == (if '?' in base then CountChar('?', base) else 1)
  {
    var sep: string := if '?' in base then "&" else "?";
    var tail := "orderIdent=" + encodedIdent;
    assert ConfirmUrl(base, encodedIdent) == (base + sep) + tail;
    assert '?' !in tail by {
      forall i | 0 <= i < |tail| ensures tail[i] != '?' {
        if i >= 11 {
          assert tail[i] == encodedIdent[i - 11];
        }
      }
    }
    assert CountChar('?', sep) == (if '?' in base then 0 else 1) by {
      assert sep[..0] == [];
    }
    CountCharAppend('?', base + sep, tail);
    CountCharAppend('?', base, sep);
  }

  /** A price as the gateway receives it: the amount rounded to two places, and the currency's short name. */
  datatype Price = Price(amount: string, currency: string)

  /** A name and address of the order, as `addPayolutionRequestFields` reads it. */
  datatype Consumer = Consumer(firstname: string, lastname: string, street: string, city: string, country: string, zip: string)

  /** The order behind a payment: billing and delivery, e-mail, lines and price modifications. */
  datatype Order = Order(
    customer: Consumer, delivery: Consumer, email: string,
    items: seq<OrderItem>, modifications: seq<PriceModification>)

  /** `$config['birthday']` when it is an array. */
  datatype Birthday = Birthday(year: string, month: string, day: string)

  /** The `$config` array of `getInitPaymentRedirectUrl`; a missing entry reads as the empty string. */
  datatype RedirectConfig = RedirectConfig(
    hasCart: bool,
    price: Option<Price>,
    grandTotal: Price,
    internalPaymentId: string,
    confirmUrl: string,
    paymentType: string,
    language: string,
    orderDescription: string,
    successUrl: string,
    cancelUrl: string,
    failureUrl: string,
    serviceUrl: string,
    pendingUrl: string,
    orderReference: string,
    birthday: Option<Birthday>,
    order: Order)

  /** What the request itself supplies: the browser's user agent and address, and `$_REQUEST['paymentType']`. */
  datatype Client = Client(userAgent: string, remoteAddr: string, requestPaymentType: string)

  /** `$a ?: $b` on strings. */
  function OrElse(a: string, b: string): (r: string)
    ensures !Falsy(a) ==> r == a
    ensures Falsy(a) ==> r == b
  {
    if Falsy(a) then b else a
  }

  /** The payment type of the config, or of the request when the config has none. */
  function PaymentTypeOf(config: RedirectConfig, client: Client): string {
    OrElse(config.paymentType, client.requestPaymentType)
  }

  /** The invoice check: the birthday is an array whose year, month and day are all truthy. */
  predicate BirthdayOk(birthday: Option<Birthday>) {
    birthday.Some? && !Falsy(birthday.value.year) && !Falsy(birthday.value.month) && !Falsy(birthday.value.day)
  }

  /** The billing and shipping fields of an invoice payment; the countries are trimmed. */
  function PayolutionEntries(order: Order): Fields {
    var c, d := order.customer, order.delivery;
    [("consumerBillingFirstname", c.firstname), ("consumerBillingLastname", c.lastname),
     ("consumerBillingAddress1", c.street), ("consumerBillingCity", c.city),
     ("consumerBillingCountry", Trim(c.country)), ("consumerBillingZipCode", c.zip),
     ("consumerEmail", order.email),
     ("consumerShippingFirstname", d.firstname), ("consumerShippingLastname", d.lastname),
     ("consumerShippingAddress1", d.street), ("consumerShippingCity", d.city),
     ("consumerShippingCountry", Trim(d.country)), ("consumerShippingZipCode", d.zip)]
  }

  /** `addPayolutionRequestFields`: the billing and shipping fields, or the exception for a missing birthday. */
  function PayolutionFields(fields: Fields, order: Order, birthday: Option<Birthday>): (r: Result<Fields, string>)
    ensures r.Err? <==> !BirthdayOk(birthday)
    ensures r.Err? ==> r.error == "no birthday passed"
  {
    if !BirthdayOk(birthday) then Err("no birthday passed")
    else Ok(PutAll(fields, PayolutionEntries(order)))
  }

  /** The eighteen fields every redirect request starts with, in the order they are posted. */
  function RedirectBaseFields(settings: Settings, config: RedirectConfig, client: Client, storageId: string,
                              urlencode: string -> string): Fields
  {
    var price := if config.price.Some? then config.price.value else config.grandTotal;
    var ident := EncodeOrderIdent(config.internalPaymentId);
    [("customerId", settings.customerId), ("shopId", settings.shopId),
     ("amount", price.amount), ("currency", price.currency),
     ("paymentType", PaymentTypeOf(config, client)),
     ("language", OrElse(config.language, "de")),
     ("orderDescription", OrElse(config.orderDescription, config.internalPaymentId)),
     ("successUrl", config.successUrl), ("cancelUrl", config.cancelUrl),
     ("failureUrl", config.failureUrl), ("serviceUrl", config.serviceUrl),
     ("pendingUrl", config.pendingUrl),
     ("confirmUrl", ConfirmUrl(config.confirmUrl, urlencode(ident))),
     ("consumerUserAgent", client.userAgent), ("consumerIpAddress", client.remoteAddr),
     ("storageId", storageId), ("orderIdent", ident), ("windowName", "wirecard_checkout")]
  }

  /** The base fields with the optional customer statement and order reference. */
  function RedirectOptionalFields(settings: Settings, config: RedirectConfig, base: Fields): Fields {
    var withStatement := if !Falsy(settings.customerStatement) then Put(base, "customerStatement", settings.customerStatement) else base;
    if !Falsy(config.orderReference) then Put(withStatement, "orderReference", config.orderReference) else withStatement
  }

  /** The invoice fields for `INVOICE`, then the basket fields for `PAYPAL` with item level on. */
  function RedirectExtraFields(settings: Settings, config: RedirectConfig, paymentType: string, fields: Fields): (r: Result<Fields, string>)
    ensures r.Err? <==> paymentType == "INVOICE" && !BirthdayOk(config.birthday)
  {
    var invoiced := if paymentType == "INVOICE" then PayolutionFields(fields, config.order, config.birthday) else Ok(fields);
    if invoiced.Err? then invoiced
    else if paymentType == "PAYPAL" && settings.paypalActivateItemLevel then
      Ok(PaypalFields(invoiced.value, config.order.items, config.order.modifications))
    else invoiced
  }

  /** The fields `getInitPaymentRedirectUrl` signs, or the exception it throws before signing. */
  function RedirectFields(settings: Settings, config: RedirectConfig, client: Client, storageId: string,
                          urlencode: string -> string): (r: Result<Fields, string>)
    ensures r.Err? <==> !config.hasCart || (PaymentTypeOf(config, client) == "INVOICE" && !BirthdayOk(config.birthday))
    ensures !config.hasCart ==> r == Err("no cart sent")
  {
    if !config.hasCart then Err("no cart sent")
    else
      var base := RedirectBaseFields(settings, config, client, storageId, urlencode);
      RedirectExtraFields(settings, config, PaymentTypeOf(config, client), RedirectOptionalFields(settings, config, base))
  }

  /** A PayPal redirect with item level on carries every basket line, and the count of lines. */
  lemma RedirectCarriesBasket(settings: Settings, config: RedirectConfig, client: Client, storageId: string,
                              urlencode: string -> string, n: nat, s: int)
    requires config.hasCart && PaymentTypeOf(config, client) == "PAYPAL" && settings.paypalActivateItemLevel
    requires 1 <= n <= |config.order.items| && 0 <= s < 7
    ensures var r := RedirectFields(settings, config, client, storageId, urlencode);
      && r.Ok?
      && Get(r.value, BasketKey(n, BasketSuffixes[s])) == Some(ItemValues(config.order.items[n - 1])[s])
      && Get(r.value, "basketItems") == Some(NatToString(|config.order.items| + |config.order.modifications|))
  {
    var base := RedirectBaseFields(settings, config, client, storageId, urlencode);
    var fields := RedirectOptionalFields(settings, config, base);
    PaypalItem(fields, config.order.items, config.order.modifications, n, s);
    assert !HasBasketPrefix("customerId") by {
      assert "customerId"[..10][0] != "basketItem"[0];
    }
    PaypalCountAndOthers(fields, config.order.items, config.order.modifications, "customerId");
  }

  /** `array_merge` of the request fields with the fingerprint and its order string: two writes in turn. */
  function SignedRequest(fields: Fields, fp: string, order: string): Fields {
    Put(Put(fields, "requestFingerprint", fp), "requestFingerprintOrder", order)
  }

  /**
   * The signed request carries the fingerprint, and an order string that names
   * every field, then `secret`, then `requestFingerprintOrder`.
   */
  lemma SignedRequestCarriesOrder(settings: Settings, hashing: Hashing, fields: Fields)
    requires forall i :: 0 <= i < |fields| ==> ',' !in fields[i].0
    ensures var fp := FingerprintOf(settings, hashing, fields, true, false);
      var post := SignedRequest(fields, fp.fingerprint, fp.order);
      && Get(post, "requestFingerprint") == Some(fp.fingerprint)
      && Get(post, "requestFingerprintOrder") == Some(fp.order)
      && Explode(',', fp.order) == Keys(fields) + ["secret", "requestFingerprintOrder"]
  {
    var fp := FingerprintOf(settings, hashing, fields, true, false);
    PutOther(Put(fields, "requestFingerprint", fp.fingerprint), "requestFingerprintOrder", fp.order, "requestFingerprint");
    SignedOrderExplodes(fields);
  }

  const NoRedirectUrl: string := "redirect url could not be evalutated"

  /** `getInitPaymentRedirectUrl`: the gateway's redirect URL for the signed request, or the exception. */
  function RedirectUrlResult(settings: Settings, hashing: Hashing, config: RedirectConfig, client: Client,
                             storageId: string, urlencode: string -> string, gateway: Fields -> Fields): (r: Result<string, string>)
    ensures r.Ok? ==> !Falsy(r.value)
    ensures RedirectFields(settings, config, client, storageId, urlencode).Err? 
      ==> r == Err(RedirectFields(settings, config, client, storageId, urlencode).error)
    ensures RedirectFields(settings, config, client, storageId, urlencode).Ok? && r.Err? ==> r.error == NoRedirectUrl
  {
    var fields := RedirectFields(settings, config, client, storageId, urlencode);
    if fields.Err? then Err(fields.error)
    else
      var fp := FingerprintOf(settings, hashing, fields.value, true, false);
      var reply := gateway(SignedRequest(fields.value, fp.fingerprint, fp.order));
      if Falsy(Field(reply, "redirectUrl")) then Err(NoRedirectUrl) else Ok(Field(reply, "redirectUrl"))
  }

  /** The six fields `initPayment` signs. */
  function InitPaymentFields(settings: Settings, orderIdent: string, language: string, websiteUrl: string): Fields {
    [("customerId", settings.customerId), ("shopId", settings.shopId),
     ("orderIdent", EncodeOrderIdent(orderIdent)),
     ("returnUrl", websiteUrl + "frontend/fallback_return.php"),
     ("language", OrElse(language, "de")), ("javascriptScriptVersion", "pci3")]
  }

  /**
   * What `initPayment` posts to the data-storage endpoint: the fingerprint is
   * taken before the optional iframe stylesheet URL is added, so that URL is posted unsigned.
   */
  function InitPaymentPost(settings: Settings, hashing: Hashing, orderIdent: string, language: string,
                           websiteUrl: string, hostUrl: string): Fields
  {
    var fields := InitPaymentFields(settings, orderIdent, language, websiteUrl);
    var fp := FingerprintOf(settings, hashing, fields, false, false).fingerprint;
    var withCss := if !Falsy(settings.iframeCssUrl) then Put(fields, "iframeCssUrl", hostUrl + settings.iframeCssUrl) else fields;
    Put(withCss, "requestFingerprint", fp)
  }

  /** The init request's fingerprint covers the six signed fields and the secret, whatever the stylesheet URL. */
  lemma InitPaymentSignature(settings: Settings, hashing: Hashing, orderIdent: string, language: string,
                             websiteUrl: string, hostUrl: string)
    ensures var fields := InitPaymentFields(settings, orderIdent, language, websiteUrl);
      Get(InitPaymentPost(settings, hashing, orderIdent, language, websiteUrl, hostUrl), "requestFingerprint")
        == Some(CalculateFingerprint(settings, hashing, ConcatValues(fields) + settings.secret))
    ensures !Falsy(settings.iframeCssUrl) ==>
      Get(InitPaymentPost(settings, hashing, orderIdent, language, websiteUrl, hostUrl), "iframeCssUrl")
        == Some(hostUrl + settings.iframeCssUrl)
  {
    var fields := InitPaymentFields(settings, orderIdent, language, websiteUrl);
    assert FingerprintSeed(fields, settings.secret, false, false) == ConcatValues(fields) + settings.secret by {
      assert ConcatValues(fields) + settings.secret + "" == ConcatValues(fields) + settings.secret;
    }
    var fp := FingerprintOf(settings, hashing, fields, false, false).fingerprint;
    if !Falsy(settings.iframeCssUrl) {
      PutOther(Put(fields, "iframeCssUrl", hostUrl + settings.iframeCssUrl), "requestFingerprint", fp, "iframeCssUrl");
    }
  }

  /** What `initPayment` hands to the template besides the config and script. */
  datatype InitView = InitView(javascriptUrl: Option<string>, orderIdent: string, paymentMethods: string)

  const NoOrderIdent: string := "pass orderIdent to initPayment method of WirecardSeampless payment provider"

  // ---------------------------------------------------------------- backend operations

  /** The fields of a backend request; the secret is signed but removed before posting. */
  function BackendFields(settings: Settings, orderNumber: string): Fields {
    [("customerId", settings.customerId), ("shopId", settings.shopId),
     ("password", settings.password), ("secret", settings.secret),
     ("language", "de"), ("orderNumber", orderNumber)]
  }

  /** A backend request as posted: signed with the secret among the fields, then stripped of it. */
  function BackendPost(settings: Settings, hashing: Hashing, fields: Fields): (post: Fields)
    ensures Get(post, "secret") == None
    ensures Get(post, "requestFingerprint") == Some(FingerprintOf(settings, hashing, fields, false, true).fingerprint)
  {
    var fp := FingerprintOf(settings, hashing, fields, false, true).fingerprint;
    RemoveGet(fields, "secret");
    PutOther(Remove(fields, "secret"), "requestFingerprint", fp, "secret");
    Put(Remove(fields, "secret"), "requestFingerprint", fp)
  }

  /** The fields `deposit` signs: the backend fields, the amount and the currency. */
  function DepositFields(settings: Settings, reference: string, price: Price): Fields {
    BackendFields(settings, reference) + [("amount", price.amount), ("currency", price.currency)]
  }

  /** Every value of a gateway reply, as status data. */
  function ReplyData(reply: Fields): (data: Data)
    ensures |data| == |reply|
    ensures forall i :: 0 <= i < |reply| ==> data[i] == (reply[i].0, Some(reply[i].1))
  {
    if reply == [] then [] else ReplyData(reply[..|reply| - 1]) + [(reply[|reply| - 1].0, Some(reply[|reply| - 1].1))]
  }

  /** The status `deposit` derives from the gateway's reply. */
  function DepositResult(reference: string, transactionId: string, price: Price, reply: Fields): (st: Status)
    ensures st.state == Cancelled <==> Truthy(Get(reply, "errors"))
    ensures st.state == Cancelled || st.state == Cleared
    ensures st.internalPaymentId == Some(transactionId) && st.paymentReference == Some(reference)
    ensures st.state == Cancelled ==> st.data == ReplyData(reply)
    ensures st.state == Cleared ==> st.data == [] && st.message == Some("deposit executed: " + price.amount + " " + price.currency)
  {
    if Truthy(Get(reply, "errors")) then
      Status(Some(transactionId), Some(reference), Some("executeDepit: deposit canceled"), Cancelled, ReplyData(reply))
    else
      Status(Some(transactionId), Some(reference), Some("deposit executed: " + price.amount + " " + price.currency), Cleared, [])
  }

  const ReversalCanceled: string := "approveReversal: payment approval canceled"

  /**
   * `approveReversal`: a prepayment is cancelled without asking the gateway; otherwise
   * a reply without errors gives a cancelled status and one with errors gives `false` (None).
   */
  function ReversalResult(settings: Settings, hashing: Hashing, reference: string, transactionId: string,
                          paymentType: string, gateway: Fields -> Fields): (r: Option<Status>)
    ensures r.Some? ==> r.value == Status(Some(reference), Some(transactionId), Some(ReversalCanceled), Cancelled, [])
    ensures paymentType == "PREPAYMENT" ==> r.Some?
    ensures paymentType != "PREPAYMENT" ==>
      (r.None? <==> Truthy(Get(gateway(BackendPost(settings, hashing, BackendFields(settings, transactionId))), "errors")))
  {
    if paymentType == "PREPAYMENT" then Some(Status(Some(reference), Some(transactionId), Some(ReversalCanceled), Cancelled, []))
    else
      var reply := gateway(BackendPost(settings, hashing, BackendFields(settings, transactionId)));
      if !Truthy(Get(reply, "errors")) then Some(Status(Some(reference), Some(transactionId), Some(ReversalCanceled), Cancelled, []))
      else None
  }

  /** A prepayment reversal does not depend on the gateway at all. */
  lemma PrepaymentReversalOffline(settings: Settings, hashing: Hashing, reference: string, transactionId: string,
                                  g1: Fields -> Fields, g2: Fields -> Fields)
    ensures ReversalResult(settings, hashing, reference, transactionId, "PREPAYMENT", g1)
         == ReversalResult(settings, hashing, reference, transactionId, "PREPAYMENT", g2)
  {
  }

  /** `executeDebit` and `executeCredit` are not implemented and always throw. */
  function NotImplemented(): (r: Result<Status, string>)
    ensures r.Err? && r.error == "not implemented yet"
  {
    Err("not implemented yet")
  }

  // ---------------------------------------------------------------- the adapter

  /**
   * The provider object: its settings, the data stored from the last callback,
   * and the data-storage id that `initPayment` keeps in the session.
   */
  class Adapter {
    const settings: Settings
    const hashing: Hashing
    const dumps: Dumps
    var authorizedData: Option<Fields>
    var dataStorageId: Option<string>

    constructor (settings: Settings, hashing: Hashing, dumps: Dumps)
      ensures this.settings == settings && this.hashing == hashing && this.dumps == dumps
      ensures authorizedData == None && dataStorageId == None
    {
      this.settings := settings;
      this.hashing := hashing;
      this.dumps := dumps;
      authorizedData := None;
      dataStorageId := None;
    }

    /** `generateFingerprint`: one pass over the fields builds the seed and the order string. */
    method GenerateFingerprint(fields: Fields, withOrder: bool, ignoreSecret: bool) returns (r: Fingerprint)
      ensures r == FingerprintOf(settings, hashing, fields, withOrder, ignoreSecret)
    {
      var seed := "";
      var order := "";
      var i := 0;
      while i < |fields|
        invariant 0 <= i <= |fields|
        invariant seed == ConcatValues(fields[..i])
        invariant order == KeyList(fields[..i])
      {
        assert fields[..i + 1][..i] == fields[..i];
        seed := seed + fields[i].1;
        order := order + fields[i].0 + ",";
        i := i + 1;
      }
      assert fields[..i] == fields;
      if !ignoreSecret {
        seed := seed + settings.secret;
        order := order + "secret,";
      }
      assert seed == ConcatValues(fields) + (if ignoreSecret then "" else settings.secret);
      assert order == KeyList(fields) + (if ignoreSecret then "" else "secret,");
      if withOrder {
        order := order + "requestFingerprintOrder";
        seed := seed + order;
      }
      assert order == FingerprintOrder(fields, withOrder, ignoreSecret) || !withOrder;
      assert seed == FingerprintSeed(fields, settings.secret, withOrder, ignoreSecret);
      var fp := CalculateFingerprint(settings, hashing, seed);
      if withOrder {
        r := WithOrder(fp, order);
      } else {
        r := Plain(fp);
      }
    }

    /** The verification loop of `handleResponse` over the response's order list. */
    method VerifyResponse(response: Fields) returns (ok: bool)
      ensures ok == Verified(settings, hashing, response)
    {
      var order := Explode(',', Field(response, "responseFingerprintOrder"));
      var fingerprintString := "";
      var mandatory := 0;
      var secretUsed := false;
      var i := 0;
      while i < |order|
        invariant 0 <= i <= |order|
        invariant fingerprintString == VerificationString(order[..i], response, settings.secret)
        invariant mandatory == MandatoryHits(order[..i], response)
        invariant secretUsed == ("secret" in order[..i])
      {
        VerificationStep(order, i, response, settings.secret);
        var key := order[i];
        var value := Field(response, key);
        ghost var hit := if IsMandatory(key) && |value| > 0 then 1 else 0;
        if key == "paymentState" && |value| > 0 {
          mandatory := mandatory + 1;
        }
        if key == "orderNumber" && |value| > 0 {
          mandatory := mandatory + 1;
        }
        if key == "paymentType" && |value| > 0 {
          mandatory := mandatory + 1;
        }
        assert mandatory == MandatoryHits(order[..i], response) + hit;
        if key == "secret" {
          fingerprintString := fingerprintString + settings.secret;
          secretUsed := true;
        } else {
          fingerprintString := fingerprintString + value;
        }
        i := i + 1;
      }
      assert order[..i] == order;
      var fingerprint := CalculateFingerprint(settings, hashing, fingerprintString);
      ok := fingerprint == Field(response, "responseFingerprint") && mandatory == 3 && secretUsed;
    }

    /**
     * `handleResponse`: stores the authorized data of every callback (a rejected
     * one included) and returns the status or the exception.
     */
    method HandleResponse(response: Fields) returns (r: Result<Status, string>)
      modifies this
      ensures r == HandleResponseResult(settings, hashing, dumps, response)
      ensures authorizedData == Some(AuthorizedDataOf(response))
      ensures dataStorageId == old(dataStorageId)
    {
      var ident := Some(DecodeOrderIdent(Field(response, "orderIdent")));
      var data := AuthorizedDataOf(response);
      authorizedData := Some(data);
      CleanKeepsStatusFields(response);
      if IsPrepayment(response) {
        r := Ok(Status(ident, Some(""), Some(""), Authorized,
          [("seamless_amount", Some("")), ("seamless_paymentType", Some("PREPAYMENT")),
           ("seamless_paymentState", Some("SUCCESS")), ("seamless_response", Some(""))]));
        return;
      }
      var clean := CleanResponse(response);
      if CancelBranch(clean) {
        r := Ok(Status(ident, Get(clean, "orderNumber"), Get(clean, "avsResponseMessage"), Cancelled,
          [("seamless_amount", Some("")), ("seamless_paymentType", Some("")),
           ("seamless_paymentState", Some("")), ("seamless_response", Some(dumps.json(clean)))]));
        return;
      }
      var missing := MissingKeys(clean, RequiredKeys);
      if missing != [] {
        r := Err(MissingMessage + Implode(", ", missing));
        return;
      }
      var ok := VerifyResponse(clean);
      if !ok {
        r := Err(VerificationFailed);
        return;
      }
      var success := Get(clean, "orderNumber").Some? && Get(clean, "paymentState") == Some("SUCCESS");
      r := Ok(Status(ident, Get(clean, "orderNumber"), Get(clean, "avsResponseMessage"),
        if success then Authorized else Cancelled,
        [("seamless_amount", Some(dumps.price(Get(data, "amount"), Get(data, "currency")))),
         ("seamless_paymentType", Get(clean, "paymentType")),
         ("seamless_paymentState", Get(clean, "paymentState")),
         ("seamless_response", Some(dumps.printR(clean)))]));
    }

    method GetAuthorizedData() returns (r: Option<Fields>)
      ensures r == authorizedData
    {
      r := authorizedData;
    }

    method SetAuthorizedData(data: Fields)
      modifies this
      ensures authorizedData == Some(data) && dataStorageId == old(dataStorageId)
    {
      authorizedData := Some(data);
    }

    /** `addPaypalFields`: merges seven fields per order line and per price modification, numbering from 1. */
    method AddPaypalFields(fields: Fields, items: seq<OrderItem>, mods: seq<PriceModification>) returns (r: Fields)
      ensures r == PaypalFields(fields, items, mods)
    {
      var counter;
      assert [] + ItemLines(items) == ItemLines(items);
      r, counter := MergeBasketLines(fields, fields, [], ItemLines(items), 1);
      r, counter := MergeBasketLines(fields, r, ItemLines(items), ModificationLines(mods), counter);
      PaypalFieldsOfMerged(fields, items, mods, r, counter);
      r := Put(r, "basketItems", NatToString(counter - 1));
    }

    /**
     * One loop of `addPaypalFields`: merges the seven fields of each line in
     * turn under the running item number `counter`.
     */
    method MergeBasketLines(ghost fields: Fields, r0: Fields, ghost done: seq<seq<string>>, lines: seq<seq<string>>,
                            counter0: nat) returns (r: Fields, counter: nat)
      requires r0 == PutAll(fields, BasketEntries(BasketSuffixes, done)) && counter0 == |done| + 1
      ensures r == PutAll(fields, BasketEntries(BasketSuffixes, done + lines)) && counter == counter0 + |lines|
    {
      r, counter := r0, counter0;
      var i := 0;
      assert done + lines[..0] == done;
      while i < |lines|
        invariant 0 <= i <= |lines| && counter == counter0 + i
        invariant r == PutAll(fields, BasketEntries(BasketSuffixes, done + lines[..i]))
      {
        MergeStep(fields, BasketSuffixes, done, lines, i, r, counter);
        r := PutAll(r, BasketLine(counter, BasketSuffixes, lines[i]));
        counter := counter + 1;
        i := i + 1;
      }
      assert lines[..i] == lines;
    }

    /**
     * `initPayment`: rejects a falsy order ident; otherwise posts the signed
     * request and keeps the reply's storage id for the redirect.
     */
    method InitPayment(orderIdent: string, language: string, websiteUrl: string, hostUrl: string,
                       gateway: Fields -> Fields) returns (r: Result<InitView, string>)
      modifies this
      ensures r.Err? <==> Falsy(orderIdent)
      ensures r.Err? ==> r.error == NoOrderIdent && dataStorageId == old(dataStorageId)
      ensures r.Ok? ==>
        var reply := gateway(InitPaymentPost(settings, hashing, orderIdent, language, websiteUrl, hostUrl));
        && dataStorageId == Get(reply, "storageId")
        && r.value == InitView(Get(reply, "javascriptUrl"), orderIdent, settings.paymentMethods)
      ensures authorizedData == old(authorizedData)
    {
      if Falsy(orderIdent) {
        r := Err(NoOrderIdent);
        return;
      }
      var fields := InitPaymentFields(settings, orderIdent, language, websiteUrl);
      var fp := GenerateFingerprint(fields, false, false);
      if !Falsy(settings.iframeCssUrl) {
        fields := Put(fields, "iframeCssUrl", hostUrl + settings.iframeCssUrl);
      }
      var post := Put(fields, "requestFingerprint", fp.fingerprint);
      var reply := gateway(post);
      dataStorageId := Get(reply, "storageId");
      r := Ok(InitView(Get(reply, "javascriptUrl"), orderIdent, settings.paymentMethods));
    }

    /** `getInitPaymentRedirectUrl`, reading the storage id `initPayment` kept (empty when there is none). */
    method GetInitPaymentRedirectUrl(config: RedirectConfig, client: Client, urlencode: string -> string,
                                     gateway: Fields -> Fields) returns (r: Result<string, string>)
      ensures r == RedirectUrlResult(settings, hashing, config, client, dataStorageId.GetOr(""), urlencode, gateway)
    {
      if !config.hasCart {
        r := Err("no cart sent");
        return;
      }
      ghost var expected := RedirectFields(settings, config, client, dataStorageId.GetOr(""), urlencode);
      var paymentType := PaymentTypeOf(config, client);
      var base := RedirectBaseFields(settings, config, client, dataStorageId.GetOr(""), urlencode);
      var fields := RedirectOptionalFields(settings, config, base);
      assert expected == RedirectExtraFields(settings, config, paymentType, fields);
      if paymentType == "INVOICE" {
        var invoiced := PayolutionFields(fields, config.order, config.birthday);
        if invoiced.Err? {
          r := Err(invoiced.error);
          return;
        }
        fields := invoiced.value;
      }
      if paymentType == "PAYPAL" && settings.paypalActivateItemLevel {
        fields := AddPaypalFields(fields, config.order.items, config.order.modifications);
      }
      assert expected == Ok(fields);
      var fp := GenerateFingerprint(fields, true, false);
      var reply := gateway(SignedRequest(fields, fp.fingerprint, fp.order));
      var url := Field(reply, "redirectUrl");
      if Falsy(url) {
        r := Err(NoRedirectUrl);
      } else {
        r := Ok(url);
      }
    }

    /** `deposit`: posts the signed deposit request and maps the reply. */
    method Deposit(reference: string, transactionId: string, price: Price, gateway: Fields -> Fields) returns (st: Status)
      ensures st == DepositResult(reference, transactionId, price,
        gateway(BackendPost(settings, hashing, DepositFields(settings, reference, price))))
    {
      var fields := DepositFields(settings, reference, price);
      var fp := GenerateFingerprint(fields, false, true);
      var post := Put(Remove(fields, "secret"), "requestFingerprint", fp.fingerprint);
      var reply := gateway(post);
      st := DepositResult(reference, transactionId, price, reply);
    }

    /** `approveReversal`, asking the gateway only for a payment that is not a prepayment. */
    method ApproveReversal(reference: string, transactionId: string, paymentType: string, gateway: Fields -> Fields)
      returns (r: Option<Status>)
      ensures r == ReversalResult(settings, hashing, reference, transactionId, paymentType, gateway)
    {
      if paymentType == "PREPAYMENT" {
        r := Some(Status(Some(reference), Some(transactionId), Some(ReversalCanceled), Cancelled, []));
        return;
      }
      var fields := BackendFields(settings, transactionId);
      var fp := GenerateFingerprint(fields, false, true);
      var reply := gateway(Put(Remove(fields, "secret"), "requestFingerprint", fp.fingerprint));
      if !Truthy(Get(reply, "errors")) {
        r := Some(Status(Some(reference), Some(transactionId), Some(ReversalCanceled), Cancelled, []));
      } else {
        r := None;
      }
    }
  }
}
