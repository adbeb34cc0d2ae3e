/** The ZarrinPal gateway client of tasks/payments.py: the requests it builds
    and how it classifies the replies. The HTTP call is an input. */
module ZarrinPal {
  import opened Values

  const PaymentDescription := "Register workshops or talks"
  const PayUrl := "https://payment.zarinpal.com/pg/v4/payment/request.json"
  const VerifyUrl := "https://payment.zarinpal.com/pg/v4/payment/verify.json"
  /** START_PAY_URL up to its "{authority}" placeholder, which ends it. */
  const StartPayPrefix := "https://payment.zarinpal.com/pg/StartPay/"

  const StatusSuccess := 100
  const StatusVerified := 101

  /** Rials per Toman: the gateway takes Rials. */
  const RialsPerToman := 10

  /** The headers both calls send with their JSON body. */
  const JsonHeaders: map<string, string> := map["Content-Type" := "application/json", "Accept" := "application/json"]

  /** generate_link: START_PAY_URL with the authority substituted. */
  function GenerateLink(authority: Json): (r: string)
    ensures |r| == |StartPayPrefix| + |JsonText(authority)|
    ensures r[..|StartPayPrefix|] == StartPayPrefix && r[|StartPayPrefix|..] == JsonText(authority)
  {
    StartPayPrefix + JsonText(authority)
  }

  /** The authority read back from a payment link; the partner of GenerateLink. */
  function AuthorityOfLink(link: string): Option<string>
  {
    if |link| >= |StartPayPrefix| && link[..|StartPayPrefix|] == StartPayPrefix
    then Some(link[|StartPayPrefix|..]) else None
  }

  lemma LinkRoundTrip(authority: Json)
    ensures AuthorityOfLink(GenerateLink(authority)) == Some(JsonText(authority))
  {
  }

  datatype PayRequest = PayRequest(merchantId: string, amount: int, callbackUrl: string,
                                   description: string, metadata: map<string, string>)
  datatype VerifyRequest = VerifyRequest(merchantId: string, amount: int, authority: string)

  /** The "data" member of the decoded reply: absent, an object, or some
      other value (a list, say), on which .get raises AttributeError. */
  datatype DataField = NoData | Data(fields: map<string, Json>) | NotAnObject

  /** What requests.post did: raised a RequestException, or answered. */
  datatype HttpOutcome = RequestException(reason: string) | Responded(data: DataField)

  datatype CreateResult = CreateResult(status: string, authority: Json, error: Json, link: Json)
  datatype VerifyResult = VerifyResult(status: string, refId: Json, error: Json, cardPan: Json)

  /** dict.get(key) with None for a missing key. */
  function Get(m: map<string, Json>, key: string): Json
  {
    if key in m then m[key] else JNull
  }

  /** response.json().get('data', {}): None when .get raises. */
  function DataFields(d: DataField): (r: Option<map<string, Json>>)
    ensures d.NoData? ==> r == Some(map[])
    ensures d.Data? ==> r == Some(d.fields)
    ensures d.NotAnObject? <==> r.None?
  {
    match d
    case NoData => Some(map[])
    case Data(fields) => Some(fields)
    case NotAnObject => None
  }

  /** create_payment. The result is None when the call raises past its own
      handler (an AttributeError on a non-object "data"). */
  method CreatePayment(merchantId: string, callbackUrl: string, amount: int, mobile: string, email: string,
                       outcome: HttpOutcome)
    returns (url: string, headers: map<string, string>, request: PayRequest, result: Option<CreateResult>)
    ensures url == PayUrl && headers == JsonHeaders
    ensures request.amount == amount * RialsPerToman
    ensures request == PayRequest(merchantId, amount * RialsPerToman, callbackUrl, PaymentDescription,
                                  map["mobile" := mobile, "email" := email])
    ensures outcome.RequestException? ==>
              result == Some(CreateResult("error", JNull, JStr(outcome.reason), JNull))
    ensures outcome == Responded(NoData) ==> result == Some(CreateResult("failed", JNull, JNull, JNull))
    ensures outcome.Responded? && DataFields(outcome.data).None? ==> result.None?
    ensures outcome.Responded? && DataFields(outcome.data).Some? ==>
              var fields := DataFields(outcome.data).value;
              && result.Some?
              && (result.value.status == "success" <==> Get(fields, "code") == JInt(StatusSuccess))
              && (result.value.status != "success" ==> result.value.status == "failed")
              && (result.value.status == "success" ==>
                    && result.value.authority == Get(fields, "authority")
                    && result.value.error == JNull
                    && result.value.link == JStr(GenerateLink(result.value.authority)))
              && (result.value.status == "failed" ==>
                    && result.value.authority == JNull && result.value.link == JNull
                    && result.value.error == Get(fields, "message"))
  {
    var metadata: map<string, string> := map[];
    request := PayRequest(merchantId, amount * RialsPerToman, callbackUrl, PaymentDescription, metadata);
    metadata := metadata["mobile" := mobile];
    metadata := metadata["email" := email];
    request := request.(metadata := metadata);
    url, headers := PayUrl, JsonHeaders;
    // what requests.post(url, json=request, headers=headers) did is the outcome parameter
    if outcome.RequestException? {
      return url, headers, request, Some(CreateResult("error", JNull, JStr(outcome.reason), JNull));
    }
    var data := DataFields(outcome.data);
    if data.None? {
      return url, headers, request, None;
    }
    var fields := data.value;
    var code := Get(fields, "code");
    if code == JInt(StatusSuccess) {
      result := Some(CreateResult("success", Get(fields, "authority"), JNull,
                                  JStr(GenerateLink(Get(fields, "authority")))));
    } else {
      result := Some(CreateResult("failed", JNull, Get(fields, "message"), JNull));
    }
  }

  /** verify_payment. */
  method VerifyPayment(merchantId: string, authority: string, amount: int, outcome: HttpOutcome)
    returns (url: string, headers: map<string, string>, request: VerifyRequest, result: Option<VerifyResult>)
    ensures url == VerifyUrl && headers == JsonHeaders
    ensures request == VerifyRequest(merchantId, amount * RialsPerToman, authority)
    ensures outcome.RequestException? ==>
              result == Some(VerifyResult("unexpected", JNull, JStr(outcome.reason), JNull))
    ensures outcome == Responded(NoData) ==> result == Some(VerifyResult("failed", JNull, JNull, JNull))
    ensures outcome.Responded? && DataFields(outcome.data).None? ==> result.None?
    ensures outcome.Responded? && DataFields(outcome.data).Some? ==>
              var fields := DataFields(outcome.data).value;
              var code := Get(fields, "code");
              && result.Some?
              && (result.value.status == "success" <==> code == JInt(StatusSuccess) || code == JInt(StatusVerified))
              && (result.value.status != "success" ==> result.value.status == "failed")
              && (result.value.status == "success" ==>
                    && result.value.refId == Get(fields, "ref_id") && result.value.error == JNull
                    && result.value.cardPan == Get(fields, "card_pan"))
              && (result.value.status == "failed" ==>
                    && result.value.refId == JNull && result.value.cardPan == JNull
                    && result.value.error == Get(fields, "message"))
  {
    request := VerifyRequest(merchantId, amount * RialsPerToman, authority);
    url, headers := VerifyUrl, JsonHeaders;
    if outcome.RequestException? {
      return url, headers, request, Some(VerifyResult("unexpected", JNull, JStr(outcome.reason), JNull));
    }
    var data := DataFields(outcome.data);
    if data.None? {
      return url, headers, request, None;
    }
    var fields := data.value;
    var code := Get(fields, "code");
    if code == JInt(StatusSuccess) || code == JInt(StatusVerified) {
      result := Some(VerifyResult("success", Get(fields, "ref_id"), JNull, Get(fields, "card_pan")));
    } else {
      result := Some(VerifyResult("failed", JNull, Get(fields, "message"), JNull));
    }
  }
}
