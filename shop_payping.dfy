/** The PayPing gateway client of shop/payping.py: the link template, the
    request bodies and the status back-fill of the replies. The HTTP call is
    an input. */
module PayPing {
  import opened Values

  const StatusOk := 200

  const PaymentDescription := "register workshops or talks"
  const CallBack := "https://autgamecraft.ir/api/v2/service/verify/"
  const PayUrl := "https://api.payping.ir/v2/pay"
  const VerifyUrl := "https://api.payping.ir/v2/pay/verify"
  const GotoIpgPrefix := "https://api.payping.ir/v2/pay/gotoipg/"

  /** generatePayPingLink: the gateway page for a payment code. */
  function GeneratePayPingLink(code: string): (r: string)
    ensures |r| == |GotoIpgPrefix| + |code|
    ensures r[..|GotoIpgPrefix|] == GotoIpgPrefix && r[|GotoIpgPrefix|..] == code
  {
    GotoIpgPrefix + code
  }

  /** The code read back from a gateway link; the partner of GeneratePayPingLink. */
  function CodeOfLink(link: string): Option<string>
  {
    if |link| >= |GotoIpgPrefix| && link[..|GotoIpgPrefix|] == GotoIpgPrefix
    then Some(link[|GotoIpgPrefix|..]) else None
  }

  /** Every link is made from exactly one code, and that code can be read back. */
  lemma LinkRoundTrip(code: string, link: string)
    ensures CodeOfLink(GeneratePayPingLink(code)) == Some(code)
    ensures CodeOfLink(link) == Some(code) ==> GeneratePayPingLink(code) == link
  {
    if CodeOfLink(link) == Some(code) {
      assert link == link[..|GotoIpgPrefix|] + link[|GotoIpgPrefix|..];
    }
  }

  /** The headers every request carries: a JSON body and the bearer token. */
  function Headers(auth: string): (r: map<string, string>)
    ensures r.Keys == {"Content-Type", "Authorization"}
    ensures r["Content-Type"] == "application/json" && r["Authorization"] == "Bearer " + auth
  {
    map["Content-Type" := "application/json", "Authorization" := "Bearer " + auth]
  }

  datatype Body =
    | CreateBody(payerName: string, amount: real, payerIdentity: string, returnUrl: string,
                 description: string, clientRefId: int)
    | VerifyBody(refId: string, amount: real)

  /** A POST the client sends. */
  datatype PostRequest = PostRequest(url: string, headers: map<string, string>, body: Body)

  /** What the HTTP call answered: its status code and its decoded body.
      The body is None when the text does not decode to a JSON object, and
      also when requests.request itself raises; either way the client raises. */
  datatype HttpReply = HttpReply(statusCode: int, body: Option<map<string, Json>>)

  /** The reply the client returns: the decoded body, with "status" filled in
      from the HTTP status code only when the body has none. */
  function Backfilled(reply: HttpReply): (r: Option<map<string, Json>>)
    ensures r.Some? <==> reply.body.Some?
    ensures r.Some? ==> r.value.Keys == reply.body.value.Keys + {"status"}
    ensures r.Some? ==> forall k :: k in reply.body.value ==> r.value[k] == reply.body.value[k]
    ensures r.Some? && "status" !in reply.body.value ==> r.value["status"] == JInt(reply.statusCode)
  {
    match reply.body
    case None => None
    case Some(json) => Some(if "status" in json then json else json["status" := JInt(reply.statusCode)])
  }

  /** Back-filling a reply that already carries a status changes nothing,
      so the gateway's own status wins over the HTTP code. */
  lemma BackfillKeepsStatus(reply: HttpReply)
    requires reply.body.Some? && "status" in reply.body.value
    ensures Backfilled(reply) == reply.body
  {
  }

  /** The payer identity: the phone number when it is non-empty, else the email. */
  function PayerIdentity(phone: string, email: string): (r: string)
    ensures phone != "" ==> r == phone
    ensures phone == "" ==> r == email
  {
    if phone != "" then phone else email
  }

  /** A client holding its headers, as __init__ sets them. */
  class PayPingRequest {
    var headers: map<string, string>

    constructor (auth: string)
      ensures headers == Headers(auth)
      ensures headers["Authorization"] == "Bearer " + auth
    {
      headers := Headers(auth);
    }

    /** create_payment: the request it posts and the reply it hands back. */
    method CreatePayment(orderId: int, amount: real, name: string, phone: string, email: string, reply: HttpReply)
      returns (request: PostRequest, response: Option<map<string, Json>>)
      ensures request.url == PayUrl && request.headers == headers
      ensures request.body.CreateBody? && request.body.payerName == name
      ensures request.body.amount == amount && request.body.clientRefId == orderId
      ensures request.body.payerIdentity == PayerIdentity(phone, email)
      ensures request.body.returnUrl == CallBack && request.body.description == PaymentDescription
      ensures response == Backfilled(reply)
    {
      var payerIdentity := PayerIdentity(phone, email);
      var body := CreateBody(name, amount, payerIdentity, CallBack, PaymentDescription, orderId);
      request := PostRequest(PayUrl, headers, body);
      response := FillStatus(reply);
    }

    /** verify_payment: the body holds exactly the reference id and the amount. */
    method VerifyPayment(refId: string, amount: real, reply: HttpReply)
      returns (request: PostRequest, response: Option<map<string, Json>>)
      ensures request == PostRequest(VerifyUrl, headers, VerifyBody(refId, amount))
      ensures response == Backfilled(reply)
    {
      request := PostRequest(VerifyUrl, headers, VerifyBody(refId, amount));
      response := FillStatus(reply);
    }
  }

  /** json.loads(response.text), then json_response['status'] set in place
      when it is missing. */
  method FillStatus(reply: HttpReply) returns (response: Option<map<string, Json>>)
    ensures response == Backfilled(reply)
  {
    if reply.body.None? {
      return None;
    }
    var json := reply.body.value;
    if "status" !in json {
      json := json["status" := JInt(reply.statusCode)];
    }
    response := Some(json);
  }
}
