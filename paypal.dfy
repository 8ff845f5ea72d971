/**
 * The PayPal Express Checkout provider: the choice between the live and the
 * sandbox endpoint, the required-field checks on the checkout configuration
 * and on the callback, the authorized data kept from the callback, and the
 * mapping from the gateway's `Ack` to a payment status. The SOAP client is a
 * pair of functions from request to reply.
 */
module PayPal {
  import opened Wrappers
  import opened PhpArray
  import opened PhpString
  import opened PaymentStatus

  type Fields = seq<(string, string)>

  // ---------------------------------------------------------------- endpoint

  /** The host part of every PayPal URL: the live site for mode `live`, the sandbox for any other mode. */
  function EndpointUrlPart(mode: string): (part: string)
    ensures part == "paypal" <==> mode == "live"
    ensures part == "paypal" || part == "sandbox.paypal"
  {
    if mode == "live" then "paypal" else "sandbox.paypal"
  }

  function WsdlUrl(part: string): string {
    "https://www." + part + ".com/wsdl/PayPalSvc.wsdl"
  }

  function LocationUrl(part: string): string {
    "https://api-3t." + part + ".com/2.0"
  }

  /** The page the customer is sent to with the checkout token. */
  function PayUrl(part: string, token: string): string {
    "https://www." + part + ".com/cgi-bin/webscr?cmd=_express-checkout&token=" + token
  }

  // ---------------------------------------------------------------- requests and replies

  /** The API credentials configured for one mode. */
  datatype Credentials = Credentials(username: string, password: string, signature: string)

  /** `$price->getAmount()->asNumeric()` and the currency's short name. */
  datatype Price = Price(amount: string, currency: string)

  /** `createPaymentDetails`: the order total and its currency. */
  datatype PaymentDetails = PaymentDetails(orderTotal: string, currencyId: string)

  /** A property of the request details: a text, or the payment details object. */
  datatype Prop = Text(text: string) | Details(details: PaymentDetails)

  type Request = seq<(string, Prop)>

  datatype ExpressCheckoutRequest = ExpressCheckoutRequest(version: int, details: Request)

  datatype DebitRequest = DebitRequest(version: int, token: Option<string>, payerId: Option<string>, paymentDetails: PaymentDetails)

  datatype ErrorEntry = ErrorEntry(longMessage: string)

  /** `$ret->Errors`: a single error object, or an array of them. */
  datatype Errors = Single(error: ErrorEntry) | Many(errors: seq<ErrorEntry>)

  datatype SetReply = SetReply(ack: string, token: string, errors: Errors)

  datatype PaymentInfo = PaymentInfo(transactionId: string, transactionType: string, paymentType: string)

  datatype DebitReply = DebitReply(ack: string, paymentInfo: PaymentInfo, correlationId: string, errors: Errors)

  /** The SOAP client's two operations, and `(string)$price`. */
  datatype Soap = Soap(
    setExpressCheckout: ExpressCheckoutRequest -> SetReply,
    doExpressCheckoutPayment: DebitRequest -> DebitReply,
    priceString: Price -> string)

  /** The API version sent with every request. */
  const Protocol: int := 94

  predicate IsSuccess(ack: string) {
    ack == "Success" || ack == "SuccessWithWarning"
  }

  /** `createPaymentDetails`: the order total carries the price's amount and its currency's short name. */
  function CreatePaymentDetails(price: Price): (d: PaymentDetails)
    ensures d.orderTotal == price.amount && d.currencyId == price.currency
  {
    PaymentDetails(price.amount, price.currency)
  }


  /** A single error counts as a list of one. */
  function ErrorList(errors: Errors): seq<ErrorEntry> {
    match errors
    case Single(e) => [e]
    case Many(es) => es
  }

  // ---------------------------------------------------------------- error messages

  /** The long messages of the errors, each followed by a newline. */
  function JoinedMessages(es: seq<ErrorEntry>): string {
    if es == [] then "" else es[0].longMessage + "\n" + JoinedMessages(es[1..])
  }

  function LongMessages(es: seq<ErrorEntry>): (ms: seq<string>)
    ensures |ms| == |es|
    ensures forall i :: 0 <= i < |es| ==> ms[i] == es[i].longMessage
  {
    seq(|es|, i requires 0 <= i < |es| => es[i].longMessage)
  }

  /** The joined text is the messages imploded with newlines, plus the final newline. */
  lemma {:induction false} JoinedImplode(es: seq<ErrorEntry>)
    ensures JoinedMessages(es) == Implode("\n", LongMessages(es) + [""])
  {
    if es != [] {
      JoinedImplode(es[1..]);
      var parts := LongMessages(es) + [""];
      assert parts[0] == es[0].longMessage;
      assert parts[1..] == LongMessages(es[1..]) + [""];
    }
  }

  /** Splitting the joined text at newlines gives back every message, when none contains a newline. */
  lemma SplitMessages(es: seq<ErrorEntry>)
    requires forall i :: 0 <= i < |es| ==> '\n' !in es[i].longMessage
    ensures Explode('\n', JoinedMessages(es)) == LongMessages(es) + [""]
  {
    JoinedImplode(es);
    var parts := LongMessages(es) + [""];
    forall i | 0 <= i < |parts| ensures '\n' !in parts[i] {
      if i < |es| {
        assert parts[i] == es[i].longMessage;
      }
    }
    ExplodeImplode('\n', parts);
  }

  /** The loop that collects the long messages of the errors. */
  method CollectMessages(errors: Errors) returns (message: string)
    ensures message == JoinedMessages(ErrorList(errors))
  {
    var es := ErrorList(errors);
    message := "";
    var i := 0;
    while i < |es|
      invariant 0 <= i <= |es|
      invariant message + JoinedMessages(es[i..]) == JoinedMessages(es)
    {
      assert es[i..][1..] == es[i + 1..];
      message := message + es[i].longMessage + "\n";
      i := i + 1;
    }
    assert es[|es|..] == [];
  }

  // ---------------------------------------------------------------- initPayment

  /** The configuration keys `initPayment` requires, in the order the error message lists them. */
  const InitRequired: seq<string> := ["ReturnURL", "CancelURL", "OrderDescription", "InvoiceID"]

  const MissingMessage: string := "required fields are missing! required: "

  function Entry(config: Fields, k: string): Prop {
    Text(Get(config, k).GetOr(""))
  }

  /** The checkout details built from the configuration before the optional-config loop. */
  function BaseDetails(config: Fields, price: Price): Request {
    [("ReturnURL", Entry(config, "ReturnURL")),
     ("CancelURL", Entry(config, "CancelURL")),
     ("NoShipping", Text("1")),
     ("AllowNote", Text("0")),
     ("PaymentDetails", Details(CreatePaymentDetails(price))),
     ("OrderDescription", Entry(config, "OrderDescription")),
     ("InvoiceID", Entry(config, "InvoiceID"))]
  }

  /** Each configuration entry as a text property. */
  function TextEntries(config: Fields): (r: Request)
    ensures |r| == |config|
    ensures forall i :: 0 <= i < |config| ==> r[i] == (config[i].0, Text(config[i].1))
  {
    seq(|config|, i requires 0 <= i < |config| => (config[i].0, Text(config[i].1)))
  }

  /** What `initPayment` does with a configuration: the pay URL, or the message of the exception it throws. */
  function InitPaymentResult(part: string, soap: Soap, price: Price, config: Fields): (r: Result<string, string>)
    requires UniqueKeys(config)
    ensures MissingKeys(config, InitRequired) != [] ==>
      r == Err(MissingMessage + Implode(", ", MissingKeys(config, InitRequired)))
    ensures MissingKeys(config, InitRequired) == [] ==>
      var reply := soap.setExpressCheckout(ExpressCheckoutRequest(Protocol, BaseDetails(config, price)));
      && (r.Ok? <==> IsSuccess(reply.ack))
      && (r.Ok? ==> r.value == PayUrl(part, reply.token))
      && (r.Err? ==> r.error == JoinedMessages(ErrorList(reply.errors)))
  {
    var cfg := IntersectKey(config, InitRequired);
    InitRequiredCount(config);
    MissingOfIntersect(config, InitRequired, InitRequired);
    if |InitRequired| != |cfg| then
      Err(MissingMessage + Implode(", ", MissingKeys(cfg, InitRequired)))
    else
      var details := PutAll(BaseDetails(cfg, price), TextEntries(cfg));
      OptionalConfigUnchanged(config, price);
      var reply := soap.setExpressCheckout(ExpressCheckoutRequest(Protocol, details));
      if IsSuccess(reply.ack) then Ok(PayUrl(part, reply.token))
      else Err(JoinedMessages(ErrorList(reply.errors)))
  }

  lemma InitRequiredCount(config: Fields)
    requires UniqueKeys(config)
    ensures |IntersectKey(config, InitRequired)| == |InitRequired| <==> MissingKeys(config, InitRequired) == []
  {
    IntersectKeyCount(config, InitRequired);
  }

  /** Against the filtered configuration, the same names are missing as against the original. */
  lemma {:induction false} MissingOfIntersect<V>(a: seq<(string, V)>, names: seq<string>, required: seq<string>)
    requires forall k :: k in required ==> k in names
    ensures MissingKeys(IntersectKey(a, names), required) == MissingKeys(a, required)
  {
    if required != [] {
      var init := required[..|required| - 1];
      assert forall k :: k in init ==> k in required;
      MissingOfIntersect(a, names, init);
      IntersectKeyKeys(a, names, required[|required| - 1]);
    }
  }

  /** The filtered configuration gives the same details as the original one. */
  lemma BaseDetailsOfIntersect(config: Fields, price: Price)
    ensures BaseDetails(IntersectKey(config, InitRequired), price) == BaseDetails(config, price)
  {
    var cfg := IntersectKey(config, InitRequired);
    assert "ReturnURL" in InitRequired && "CancelURL" in InitRequired;
    assert "OrderDescription" in InitRequired && "InvoiceID" in InitRequired;
    assert Get(cfg, "ReturnURL") == Get(config, "ReturnURL");
    assert Get(cfg, "CancelURL") == Get(config, "CancelURL");
    assert Get(cfg, "OrderDescription") == Get(config, "OrderDescription");
    assert Get(cfg, "InvoiceID") == Get(config, "InvoiceID");
  }

  /**
   * The optional-config loop writes each filtered configuration entry again
   * under the name it already has, with the value it already has: the request
   * details stay exactly the four required values and the three fixed ones.
   */
  lemma OptionalConfigUnchanged(config: Fields, price: Price)
    requires UniqueKeys(config)
    requires MissingKeys(config, InitRequired) == []
    ensures var cfg := IntersectKey(config, InitRequired);
      PutAll(BaseDetails(cfg, price), TextEntries(cfg)) == BaseDetails(config, price)
  {
    var cfg := IntersectKey(config, InitRequired);
    var base := BaseDetails(cfg, price);
    IntersectKeyUnique(config, InitRequired);
    BaseDetailsUnique(cfg, price);
    var es := TextEntries(cfg);
    forall i | 0 <= i < |es| ensures Get(base, es[i].0) == Some(es[i].1) {
      GetAt(cfg, i);
      BaseDetailsLookup(cfg, price, cfg[i].0);
    }
    PutAllSame(base, es);
    BaseDetailsOfIntersect(config, price);
  }

  lemma BaseDetailsUnique(config: Fields, price: Price)
    ensures UniqueKeys(BaseDetails(config, price))
  {
  }

  /** A required name looks up its configuration value in the details. */
  lemma BaseDetailsLookup(config: Fields, price: Price, k: string)
    requires k in InitRequired
    ensures Get(BaseDetails(config, price), k) == Some(Entry(config, k))
  {
    var base := BaseDetails(config, price);
    BaseDetailsUnique(config, price);
    if k == "ReturnURL" {
      GetAt(base, 0);
    } else if k == "CancelURL" {
      GetAt(base, 1);
    } else if k == "OrderDescription" {
      GetAt(base, 5);
    } else {
      GetAt(base, 6);
    }
  }

  // ---------------------------------------------------------------- handleResponse and executeDebit

  /** The callback fields `handleResponse` requires, in the order the error message lists them. */
  const ResponseRequired: seq<string> := ["token", "PayerID", "InvoiceID", "amount", "currency"]

  /** The callback fields kept as authorized data. */
  const AuthorizedNames: seq<string> := ["token", "PayerID"]

  /** The status `executeDebit` derives from the gateway's reply. */
  function DebitStatus(soap: Soap, price: Price, reference: Option<string>, reply: DebitReply): (st: Status)
    ensures st.internalPaymentId == reference
    ensures st.state == Committed <==> IsSuccess(reply.ack)
    ensures st.state == Committed || st.state == Aborted
    ensures st.state == Committed ==>
      && st.paymentReference == Some(reply.paymentInfo.transactionId)
      && st.message == None
      && |st.data| == 3 && st.data[2] == ("paypal_amount", Some(soap.priceString(price)))
    ensures st.state == Aborted ==>
      && st.paymentReference == Some(reply.correlationId)
      && st.message == Some(JoinedMessages(ErrorList(reply.errors)))
      && st.data == []
  {
    if IsSuccess(reply.ack) then
      var info := reply.paymentInfo;
      Status(reference, Some(info.transactionId), None, Committed,
        [("paypal_TransactionType", Some(info.transactionType)),
         ("paypal_PaymentType", Some(info.paymentType)),
         ("paypal_amount", Some(soap.priceString(price)))])
    else
      Status(reference, Some(reply.correlationId), Some(JoinedMessages(ErrorList(reply.errors))), Aborted, [])
  }

  /** `$this->authorizedData[$k]`: null while no data is stored. */
  function AuthorizedValue(data: Option<Fields>, k: string): Option<string> {
    if data.Some? then Get(data.value, k) else None
  }

  /** The payment request `executeDebit` sends: the stored token and payer with the price. */
  function DebitRequestOf(data: Option<Fields>, price: Price): DebitRequest {
    DebitRequest(Protocol, AuthorizedValue(data, "token"), AuthorizedValue(data, "PayerID"), CreatePaymentDetails(price))
  }

  /** Filtering twice by nested name lists is filtering once by the inner list. */
  lemma {:induction false} IntersectKeyTwice<V>(a: seq<(string, V)>, outer: seq<string>, inner: seq<string>)
    requires forall k :: k in inner ==> k in outer
    ensures IntersectKey(IntersectKey(a, outer), inner) == IntersectKey(a, inner)
  {
    if a != [] {
      IntersectKeyTwice(a[1..], outer, inner);
      if a[0].0 in outer {
        var r := [a[0]] + IntersectKey(a[1..], outer);
        assert r[0] == a[0] && r[1..] == IntersectKey(a[1..], outer);
      }
    }
  }

  /** The authorized data of a complete callback: its token and payer id, nothing else. */
  lemma AuthorizedDataOfResponse(response: Fields)
    ensures IntersectKey(IntersectKey(response, ResponseRequired), AuthorizedNames) == IntersectKey(response, AuthorizedNames)
    ensures forall k :: Get(IntersectKey(response, AuthorizedNames), k) == (if k in AuthorizedNames then Get(response, k) else None)
  {
    IntersectKeyTwice(response, ResponseRequired, AuthorizedNames);
  }

  // ---------------------------------------------------------------- the adapter

  /** The provider object: its endpoint, its SOAP client and the authorized data of the last callback. */
  class Adapter {
    const endpointUrlPart: string
    const wsdl: string
    const location: string
    /** The credentials put into the SOAP header; null when none are configured for the mode. */
    const requesterCredentials: Option<Credentials>
    const soap: Soap
    var authorizedData: Option<Fields>

    constructor (mode: string, credentials: seq<(string, Credentials)>, soap: Soap)
      ensures endpointUrlPart == EndpointUrlPart(mode)
      ensures wsdl == WsdlUrl(endpointUrlPart) && location == LocationUrl(endpointUrlPart)
      ensures requesterCredentials == Get(credentials, mode)
      ensures this.soap == soap && authorizedData == None
    {
      var part := if mode == "live" then "paypal" else "sandbox.paypal";
      endpointUrlPart := part;
      wsdl := WsdlUrl(part);
      location := LocationUrl(part);
      requesterCredentials := Get(credentials, mode);
      this.soap := soap;
      authorizedData := None;
    }

    method GetName() returns (name: string)
      ensures name == "PayPal"
    {
      name := "PayPal";
    }

    /** `initPayment`: checks the required configuration, asks for a checkout token and returns the pay URL. */
    method InitPayment(price: Price, config: Fields) returns (r: Result<string, string>)
      requires UniqueKeys(config)
      ensures r == InitPaymentResult(endpointUrlPart, soap, price, config)
    {
      var cfg := IntersectKey(config, InitRequired);
      if |InitRequired| != |cfg| {
        r := Err(MissingMessage + Implode(", ", MissingKeys(cfg, InitRequired)));
        return;
      }
      var details := AddOptionalConfig(BaseDetails(cfg, price), cfg);
      var reply := soap.setExpressCheckout(ExpressCheckoutRequest(Protocol, details));
      if IsSuccess(reply.ack) {
        r := Ok(PayUrl(endpointUrlPart, reply.token));
      } else {
        var messages := CollectMessages(reply.errors);
        r := Err(messages);
      }
    }

    /** The "optional config" loop: sets each configuration entry as a property of the details. */
    method AddOptionalConfig(details: Request, config: Fields) returns (r: Request)
      ensures r == PutAll(details, TextEntries(config))
    {
      var es := TextEntries(config);
      r := details;
      var i := 0;
      while i < |config|
        invariant 0 <= i <= |config|
        invariant r == PutAll(details, es[..i])
      {
        assert es[..i + 1][..i] == es[..i];
        r := Put(r, config[i].0, Text(config[i].1));
        i := i + 1;
      }
      assert es[..|config|] == es;
    }

    /** `handleResponse`: checks the required callback fields, stores token and payer, and executes the debit. */
    method HandleResponse(response: Fields) returns (r: Result<Status, string>)
      requires UniqueKeys(response)
      modifies this
      ensures MissingKeys(response, ResponseRequired) != [] ==>
        && r == Err(MissingMessage + Implode(", ", MissingKeys(response, ResponseRequired)))
        && authorizedData == old(authorizedData)
      ensures MissingKeys(response, ResponseRequired) == [] ==>
        && authorizedData == Some(IntersectKey(response, AuthorizedNames))
        && var price := Price(Get(response, "amount").GetOr(""), Get(response, "currency").GetOr(""));
           r == Ok(DebitStatus(soap, price, Get(response, "InvoiceID"),
             soap.doExpressCheckoutPayment(DebitRequestOf(authorizedData, price))))
    {
      var checked := IntersectKey(response, ResponseRequired);
      IntersectKeyCount(response, ResponseRequired);
      MissingOfIntersect(response, ResponseRequired, ResponseRequired);
      if |ResponseRequired| != |checked| {
        r := Err(MissingMessage + Implode(", ", MissingKeys(checked, ResponseRequired)));
        return;
      }
      AuthorizedDataOfResponse(response);
      SetAuthorizedData(IntersectKey(checked, AuthorizedNames));
      ResponseValues(response);
      var price := Price(Get(checked, "amount").GetOr(""), Get(checked, "currency").GetOr(""));
      var st := ExecuteDebit(price, Get(checked, "InvoiceID"));
      r := Ok(st);
    }

    method GetAuthorizedData() returns (data: Option<Fields>)
      ensures data == authorizedData
    {
      data := authorizedData;
    }

    method SetAuthorizedData(data: Fields)
      modifies this
      ensures authorizedData == Some(data)
    {
      authorizedData := Some(data);
    }

    /** `executeDebit`: completes the checkout with the stored token and payer and maps the reply. */
    method ExecuteDebit(price: Price, reference: Option<string>) returns (st: Status)
      ensures st == DebitStatus(soap, price, reference, soap.doExpressCheckoutPayment(DebitRequestOf(authorizedData, price)))
    {
      var token, payer := AuthorizedValue(authorizedData, "token"), AuthorizedValue(authorizedData, "PayerID");
      var reply := soap.doExpressCheckoutPayment(DebitRequest(Protocol, token, payer, CreatePaymentDetails(price)));
      if IsSuccess(reply.ack) {
        var info := reply.paymentInfo;
        st := Status(reference, Some(info.transactionId), None, Committed,
          [("paypal_TransactionType", Some(info.transactionType)),
           ("paypal_PaymentType", Some(info.paymentType)),
           ("paypal_amount", Some(soap.priceString(price)))]);
      } else {
        var message := CollectMessages(reply.errors);
        st := Status(reference, Some(reply.correlationId), Some(message), Aborted, []);
      }
    }

    /** `executeCredit` is not implemented and always throws. */
    method ExecuteCredit(price: Price, reference: string, transactionId: string) returns (r: Result<Status, string>)
      ensures r == Err("not implemented")
    {
      r := Err("not implemented");
    }
  }

  /** A complete callback has every required field, read the same through the filtered array. */
  lemma ResponseValues(response: Fields)
    requires MissingKeys(response, ResponseRequired) == []
    ensures var checked := IntersectKey(response, ResponseRequired);
      && Get(checked, "amount") == Get(response, "amount") && Get(response, "amount").Some?
      && Get(checked, "currency") == Get(response, "currency") && Get(response, "currency").Some?
      && Get(checked, "InvoiceID") == Get(response, "InvoiceID")
  {
    assert "amount" in ResponseRequired && "currency" in ResponseRequired && "InvoiceID" in ResponseRequired;
    GetSome(response, "amount");
    GetSome(response, "currency");
  }
}
