/** The records of shop/models.py, their validators and the derived
    remaining capacity. Costs and totals are exact reals, not IEEE floats. */
module ShopModels {
  import opened Values
  import Accounts

  // ----- payment states -----

  datatype PaymentState = Completed | Pending | Failed

  /** PAYMENT_STATES: the stored value and the label of each choice. */
  const PaymentStates: seq<(string, string)> :=
    [("COMPLETED", "COMPLETED"), ("PENDING", "PENDING"), ("FAILED", "FAILED")]

  /** The value a state is stored as; it is one of the choices. */
  function StateValue(s: PaymentState): (r: string)
    ensures exists i :: 0 <= i < |PaymentStates| && PaymentStates[i].0 == r
    ensures ParseState(r) == Some(s)
  {
    match s
    case Completed => assert PaymentStates[0].0 == "COMPLETED"; "COMPLETED"
    case Pending => assert PaymentStates[1].0 == "PENDING"; "PENDING"
    case Failed => assert PaymentStates[2].0 == "FAILED"; "FAILED"
  }

  /** The state a stored value stands for: only the three choices have one. */
  function ParseState(v: string): (r: Option<PaymentState>)
    ensures r.Some? <==> exists i :: 0 <= i < |PaymentStates| && PaymentStates[i].0 == v
  {
    if v == "COMPLETED" then assert PaymentStates[0].0 == v; Some(Completed)
    else if v == "PENDING" then assert PaymentStates[1].0 == v; Some(Pending)
    else if v == "FAILED" then assert PaymentStates[2].0 == v; Some(Failed)
    else None
  }

  /** Both Participation.payment_state and Payment.payment_state default to PENDING. */
  const DefaultPaymentState := Pending

  // ----- Presentation -----

  /** A presentation; start and end are instants as comparable integers. */
  datatype Presentation = Presentation(
    enTitle: string, faTitle: string, start: int, end: int,
    capacity: int, isRegistrationActive: bool, cost: real)

  const NegativeCost := "Cost cannot be negative."
  const EndBeforeStart := "End time must be after start time."

  /** Presentation.clean: the cost check first, then the time window. */
  function CleanPresentation(p: Presentation): (r: Result<()>)
    ensures r.Ok? <==> p.cost >= 0.0 && p.start < p.end
    ensures p.cost < 0.0 ==> r == Raised(NegativeCost)
    ensures p.cost >= 0.0 && p.start >= p.end ==> r == Raised(EndBeforeStart)
  {
    if p.cost < 0.0 then Raised(NegativeCost)
    else if p.start >= p.end then Raised(EndBeforeStart)
    else Ok(())
  }

  /** The attribute of a presentation a view reads by name, if there is one.
      The field once called `title` is now `en_title` and `fa_title`. */
  function Attribute(p: Presentation, name: string): Option<string>
  {
    if name == "en_title" then Some(p.enTitle)
    else if name == "fa_title" then Some(p.faTitle)
    else None
  }

  lemma NoTitleAttribute(p: Presentation)
    ensures Attribute(p, "title").None?
    ensures Attribute(p, "en_title") == Some(p.enTitle)
  {
  }

  // ----- Participation -----

  /** A user's seat in a presentation (by the presentation's key). */
  datatype Participation = Participation(user: Accounts.User, presentation: int, paymentState: PaymentState)

  /** Participation.objects.create(...) as participate calls it, with
      payment_state 'PENDING' (the field's default as well). */
  function NewParticipation(user: Accounts.User, presentation: int): (r: Participation)
    ensures r.user == user && r.presentation == presentation
    ensures r.paymentState == DefaultPaymentState && StateValue(r.paymentState) == "PENDING"
  {
    Participation(user, presentation, DefaultPaymentState)
  }

  /** The keys of the COMPLETED participations of one presentation. */
  function CompletedOf(participations: map<int, Participation>, presentation: int): set<int>
  {
    set k | k in participations && participations[k].presentation == presentation
                                 && participations[k].paymentState == Completed
  }

  /** get_remained_capacity: the capacity less the COMPLETED participations. */
  function RemainedCapacity(p: Presentation, key: int, participations: map<int, Participation>): (r: int)
    ensures r <= p.capacity
    ensures r == p.capacity - |CompletedOf(participations, key)|
  {
    p.capacity - |CompletedOf(participations, key)|
  }

  /** Adding or changing a participation that is not COMPLETED, and that was
      not COMPLETED before, leaves every remaining capacity as it was:
      PENDING and FAILED do not take a seat. */
  lemma CapacityIgnoresUncompleted(p: Presentation, key: int, participations: map<int, Participation>,
                                   k: int, q: Participation)
    requires q.paymentState != Completed
    requires k in participations ==> participations[k].paymentState != Completed
    ensures RemainedCapacity(p, key, participations[k := q]) == RemainedCapacity(p, key, participations)
  {
    assert CompletedOf(participations[k := q], key) == CompletedOf(participations, key);
  }

  /** Completing one PENDING participation of a presentation takes exactly one seat. */
  lemma CompletingTakesOneSeat(p: Presentation, key: int, participations: map<int, Participation>, k: int)
    requires k in participations && participations[k].presentation == key
    requires participations[k].paymentState != Completed
    ensures RemainedCapacity(p, key, participations[k := participations[k].(paymentState := Completed)])
            == RemainedCapacity(p, key, participations) - 1
  {
    var after := participations[k := participations[k].(paymentState := Completed)];
    assert CompletedOf(after, key) == CompletedOf(participations, key) + {k};
  }

  // ----- Coupon -----

  /** A coupon, keyed by its name: its stock and its percentage discount. */
  datatype Coupon = Coupon(name: string, count: int, percentage: int)

  const PercentageOutOfRange := "Enter a number between 0 to 100."
  const NegativeCount := "Coupon count cannot be negative."

  /** Coupon.clean: the percentage range first, then the count. */
  function CleanCoupon(c: Coupon): (r: Result<()>)
    ensures r.Ok? <==> 0 <= c.percentage <= 100 && c.count >= 0
    ensures (c.percentage < 0 || c.percentage > 100) ==> r == Raised(PercentageOutOfRange)
    ensures 0 <= c.percentage <= 100 && c.count < 0 ==> r == Raised(NegativeCount)
  {
    if c.percentage < 0 || c.percentage > 100 then Raised(PercentageOutOfRange)
    else if c.count < 0 then Raised(NegativeCount)
    else Ok(())
  }

  /** Coupon.is_valid: some stock left. A clean coupon is valid exactly
      when it can give up one unit and still pass clean (an invalid one's
      count would go negative). */
  predicate IsValidCoupon(c: Coupon)
    ensures CleanCoupon(c).Ok? ==> (IsValidCoupon(c) <==> CleanCoupon(c.(count := c.count - 1)).Ok?)
  {
    c.count > 0
  }

  /** The discounted total: total - total * (percentage / 100). */
  function Discounted(total: real, percentage: int): (r: real)
    ensures 0 <= percentage <= 100 && total >= 0.0 ==> 0.0 <= r <= total
    ensures percentage == 0 ==> r == total
    ensures percentage == 100 ==> r == 0.0
    ensures total > 0.0 && percentage < 100 ==> r > 0.0
  {
    total - total * (percentage as real / 100.0)
  }

  // ----- Payment -----

  /** A payment as stored: only the fields the Payment model declares
      (the participations and accessories relations are left out). */
  datatype Payment = Payment(
    user: Accounts.User, totalPrice: real, paymentState: PaymentState,
    authority: Option<string>, payLink: Option<string>, refId: Option<string>, cardPan: Option<string>,
    createdDate: int, verifiedDate: Option<int>, coupon: Option<string>)

  /** Payment.objects.create(total_price, user, coupon) at the given instant. */
  function NewPayment(user: Accounts.User, totalPrice: real, coupon: Option<string>, now: int): (r: Payment)
    ensures r.paymentState == DefaultPaymentState && StateValue(r.paymentState) == "PENDING"
    ensures r.authority.None? && r.payLink.None? && r.refId.None? && r.cardPan.None? && r.verifiedDate.None?
    ensures r.user == user && r.totalPrice == totalPrice && r.coupon == coupon && r.createdDate == now
  {
    Payment(user, totalPrice, DefaultPaymentState, None, None, None, None, now, None, coupon)
  }

  /** The stored record after the view assigns `payment_link` and saves, as
      written: payment_link is not a field of Payment, so nothing of it is kept. */
  function SaveLinkAsWritten(p: Payment, link: string): (r: Payment)
    ensures r.payLink == p.payLink
    ensures r == p
  {
    p
  }

  lemma LinkLostAsWritten(user: Accounts.User, total: real, now: int, link: string)
    ensures SaveLinkAsWritten(NewPayment(user, total, None, now), link).payLink != Some(link)
  {
  }

  /** The stored record with the gateway link kept in pay_link, the field
      the view evidently meant. */
  function WithPayLink(p: Payment, link: string): (r: Payment)
    ensures r.payLink == Some(link)
    ensures r.(payLink := p.payLink) == p
  {
    p.(payLink := Some(link))
  }

  /** The stored record after a successful verification, as written: the view
      assigns paymentID, trackID and hashed_card_number, none of which is a
      field, so only the state and the verification date are kept. */
  function CompleteAsWritten(p: Payment, refId: string, cardHash: string, now: int): (r: Payment)
    ensures r.paymentState == Completed && r.verifiedDate == Some(now)
    ensures r.refId == p.refId && r.cardPan == p.cardPan
    ensures r.(paymentState := p.paymentState, verifiedDate := p.verifiedDate) == p
  {
    p.(paymentState := Completed, verifiedDate := Some(now))
  }

  lemma ReferenceLostAsWritten(user: Accounts.User, total: real, created: int, refId: string, cardHash: string, now: int)
    ensures var p := CompleteAsWritten(NewPayment(user, total, None, created), refId, cardHash, now);
            p.refId != Some(refId) && p.cardPan != Some(cardHash)
  {
  }

  /** The stored record after a successful verification with the reference
      and the card hash kept in ref_id and card_pan; nothing else changes. */
  function CompletePayment(p: Payment, refId: string, cardHash: string, now: int): (r: Payment)
    ensures r.paymentState == Completed && r.verifiedDate == Some(now)
    ensures r.refId == Some(refId) && r.cardPan == Some(cardHash)
    ensures r.(paymentState := p.paymentState, verifiedDate := p.verifiedDate,
               refId := p.refId, cardPan := p.cardPan) == p
  {
    p.(paymentState := Completed, refId := Some(refId), cardPan := Some(cardHash), verifiedDate := Some(now))
  }
}
