/** The reservation and checkout state machine of shop/views.py: participate,
    payment and verify over one store of presentations, participations,
    coupons and payments. Gateway replies, the clock and the gateway's
    credential are parameters; each request is one sequential step. */
module ShopViews {
  import opened Values
  import opened ShopModels
  import Accounts
  import PayPing

  const Ok200 := 200
  const Created201 := 201
  const BadRequest400 := 400
  const NotFound404 := 404
  const NotAcceptable406 := 406
  const ServerError500 := 500

  /** What a response says, one constructor per message of the views. */
  datatype Detail =
    | PresentationNotFound | AlreadyParticipating | RegistrationClosed | NoRemainingCapacity
    | ParticipationCreated(key: int)
    | NoPendingParticipations | PresentationFull(title: string) | RegistrationClosedFor(title: string)
    | CouponOutOfStock | InvalidCoupon | TotalZeroVerified | ErrorCreatingLink | PaymentCreated(key: int)
    | MissingReference | PaymentNotFound | VerificationFailed | Verified
    | ServerError

  /** An HTTP response: its status code and its message. */
  datatype Reply = Reply(status: int, detail: Detail)

  // ----- participate -----

  /** The user already holds a participation, in any state, in the presentation. */
  predicate Participates(participations: map<int, Participation>, user: Accounts.User, presentation: int)
  {
    exists k :: k in participations && participations[k].user == user && participations[k].presentation == presentation
  }

  /** The answer of participate, its checks in the source's order: not found,
      already participating, registration closed, no capacity left. */
  function ParticipateReply(presentations: map<int, Presentation>, participations: map<int, Participation>,
                            user: Accounts.User, id: Option<int>, newKey: int): (r: Reply)
    ensures r.status == NotFound404 <==> id.None? || id.value !in presentations
    ensures r.status == NotFound404 ==> r.detail == PresentationNotFound
    ensures r.status != NotFound404 ==>
              (r.detail == AlreadyParticipating <==> Participates(participations, user, id.value))
    ensures r.status != NotFound404 && !Participates(participations, user, id.value) ==>
              (r.detail == RegistrationClosed <==> !presentations[id.value].isRegistrationActive)
    ensures r.status != NotFound404 && !Participates(participations, user, id.value)
            && presentations[id.value].isRegistrationActive ==>
              (r.detail == NoRemainingCapacity
               <==> RemainedCapacity(presentations[id.value], id.value, participations) <= 0)
    ensures r.status == Created201 <==>
              && id.Some? && id.value in presentations
              && !Participates(participations, user, id.value)
              && presentations[id.value].isRegistrationActive
              && RemainedCapacity(presentations[id.value], id.value, participations) > 0
    ensures r.status == Created201 ==> r.detail == ParticipationCreated(newKey)
    ensures r.status == NotFound404 || r.status == BadRequest400 || r.status == Created201
  {
    if id.None? || id.value !in presentations then Reply(NotFound404, PresentationNotFound)
    else if Participates(participations, user, id.value) then Reply(BadRequest400, AlreadyParticipating)
    else if !presentations[id.value].isRegistrationActive then Reply(BadRequest400, RegistrationClosed)
    else if RemainedCapacity(presentations[id.value], id.value, participations) <= 0
    then Reply(BadRequest400, NoRemainingCapacity)
    else Reply(Created201, ParticipationCreated(newKey))
  }

  /** The attributes of a participation a serializer can read by name. */
  function ParticipationField(q: Participation, name: string): Option<Json>
  {
    if name == "presentation_id" then Some(JInt(q.presentation)) else None
  }

  /** The 201 body as written: ParticipationSerializer requires
      has_accessories, which a Participation does not have, so building the
      body raises after the row was created and the client gets 500. */
  function CreatedReplyAsWritten(q: Participation, key: int): (r: Reply)
    ensures r.status == ServerError500
  {
    match ParticipationField(q, "has_accessories")
    case None => Reply(ServerError500, ServerError)
    case Some(_) => Reply(Created201, ParticipationCreated(key))
  }

  /** Every participate that passes its checks is answered 500 as written,
      although it stores the participation; the answer meant is 201. */
  lemma CreatedReplyDiscrepancy(presentations: map<int, Presentation>, participations: map<int, Participation>,
                                user: Accounts.User, id: Option<int>, newKey: int)
    requires ParticipateReply(presentations, participations, user, id, newKey).status == Created201
    ensures CreatedReplyAsWritten(NewParticipation(user, id.value), newKey).status == ServerError500
    ensures ParticipateReply(presentations, participations, user, id, newKey) == Reply(Created201, ParticipationCreated(newKey))
  {
  }

  /** A new PENDING participation takes no seat: every remaining capacity is as before. */
  lemma ParticipateKeepsCapacity(participations: map<int, Participation>, newKey: int,
                                 user: Accounts.User, id: int, p: Presentation, key: int)
    requires newKey !in participations
    ensures RemainedCapacity(p, key, participations[newKey := NewParticipation(user, id)])
            == RemainedCapacity(p, key, participations)
  {
    CapacityIgnoresUncompleted(p, key, participations, newKey, NewParticipation(user, id));
  }

  /** Once participate has succeeded, the same request is refused as a duplicate. */
  lemma ParticipateTwiceRejected(presentations: map<int, Presentation>, participations: map<int, Participation>,
                                 user: Accounts.User, id: int, newKey: int, nextKey: int)
    requires id in presentations
    ensures ParticipateReply(presentations, participations[newKey := NewParticipation(user, id)], user, Some(id), nextKey)
            == Reply(BadRequest400, AlreadyParticipating)
  {
    assert participations[newKey := NewParticipation(user, id)][newKey].presentation == id;
  }

  // ----- payment: pricing the pending participations -----

  /** Every participation names a stored presentation. */
  predicate ForeignKeysHold(presentations: map<int, Presentation>, participations: map<int, Participation>)
  {
    forall k :: k in participations ==> participations[k].presentation in presentations
  }

  /** The keys of the user's PENDING participations. */
  function PendingOf(participations: map<int, Participation>, user: Accounts.User): set<int>
  {
    set k | k in participations && participations[k].user == user && participations[k].paymentState == Pending
  }

  /** Why a pending participation stops the checkout: its presentation is full, or closed. */
  datatype Block = Full | Closed

  /** The check the payment loop makes of participation k: capacity first, then registration. */
  function BlockAt(presentations: map<int, Presentation>, participations: map<int, Participation>,
                   user: Accounts.User, k: int): Option<Block>
    requires ForeignKeysHold(presentations, participations)
  {
    if k in PendingOf(participations, user) then
      var key := participations[k].presentation;
      if RemainedCapacity(presentations[key], key, participations) <= 0 then Some(Full)
      else if !presentations[key].isRegistrationActive then Some(Closed)
      else None
    else None
  }

  /** The sum of the costs of the user's pending participations with a key below n. */
  function PendingCost(presentations: map<int, Presentation>, participations: map<int, Participation>,
                       user: Accounts.User, n: nat): real
    requires ForeignKeysHold(presentations, participations)
  {
    if n == 0 then 0.0
    else
      var k := n - 1;
      PendingCost(presentations, participations, user, k)
      + (if k in PendingOf(participations, user) then presentations[participations[k].presentation].cost else 0.0)
  }

  /** Where the payment loop stands after the keys below n: stopped at a
      participation, or still adding up. */
  datatype Scan = Blocked(at: int, block: Block) | Priced(total: real)

  /** The payment loop over the keys below n, in ascending order. It stops at
      the first blocked participation; otherwise its total is the pending cost. */
  function ScanPending(presentations: map<int, Presentation>, participations: map<int, Participation>,
                       user: Accounts.User, n: nat): (s: Scan)
    requires ForeignKeysHold(presentations, participations)
    ensures s.Priced? ==> s.total == PendingCost(presentations, participations, user, n)
    ensures s.Priced? ==> forall k :: 0 <= k < n ==> BlockAt(presentations, participations, user, k).None?
    ensures s.Blocked? ==> 0 <= s.at < n && BlockAt(presentations, participations, user, s.at) == Some(s.block)
    ensures s.Blocked? ==> forall k :: 0 <= k < s.at ==> BlockAt(presentations, participations, user, k).None?
  {
    if n == 0 then Priced(0.0)
    else
      var k := n - 1;
      match ScanPending(presentations, participations, user, k)
      case Blocked(at, b) => Blocked(at, b)
      case Priced(total) =>
        match BlockAt(presentations, participations, user, k)
        case Some(b) => Blocked(k, b)
        case None =>
          Priced(total + (if k in PendingOf(participations, user)
                          then presentations[participations[k].presentation].cost else 0.0))
  }

  /** Once the loop has stopped, scanning further keys changes nothing. */
  lemma {:induction false} ScanStaysBlocked(presentations: map<int, Presentation>, participations: map<int, Participation>,
                                            user: Accounts.User, n: nat, m: nat)
    requires ForeignKeysHold(presentations, participations)
    requires n <= m && ScanPending(presentations, participations, user, n).Blocked?
    ensures ScanPending(presentations, participations, user, m) == ScanPending(presentations, participations, user, n)
  {
    if n < m {
      ScanStaysBlocked(presentations, participations, user, n, m - 1);
    }
  }

  /** The 406 answer for a blocked participation. The title is read from
      en_title, the field the message evidently means. */
  function BlockedReply(p: Presentation, b: Block): (r: Reply)
    ensures r.status == NotAcceptable406
    ensures b == Full ==> r.detail == PresentationFull(p.enTitle)
    ensures b == Closed ==> r.detail == RegistrationClosedFor(p.enTitle)
  {
    var title := Attribute(p, "en_title").value;
    Reply(NotAcceptable406, if b == Full then PresentationFull(title) else RegistrationClosedFor(title))
  }

  /** The same answer as written: the message reads `title`, which a
      Presentation no longer has, so building it raises and the client gets 500. */
  function BlockedReplyAsWritten(p: Presentation, b: Block): (r: Reply)
    ensures r.status == ServerError500
  {
    match Attribute(p, "title")
    case None => Reply(ServerError500, ServerError)
    case Some(title) =>
      Reply(NotAcceptable406, if b == Full then PresentationFull(title) else RegistrationClosedFor(title))
  }

  /** Every blocked checkout is answered 500 as written, never the 406 meant. */
  lemma BlockedReplyDiscrepancy(p: Presentation, b: Block)
    ensures BlockedReplyAsWritten(p, b).status != BlockedReply(p, b).status
  {
  }

  // ----- payment: the coupon -----

  /** A coupon code was sent and is not empty. */
  predicate CouponRequested(code: Option<string>)
  {
    code.Some? && code.value != ""
  }

  /** coupon.count -= 1 */
  function ConsumeUnit(coupons: map<string, Coupon>, name: string): (r: map<string, Coupon>)
    requires name in coupons
    ensures r.Keys == coupons.Keys && r[name].count == coupons[name].count - 1
    ensures r[name].name == coupons[name].name && r[name].percentage == coupons[name].percentage
    ensures forall n :: n in coupons && n != name ==> r[n] == coupons[n]
  {
    coupons[name := coupons[name].(count := coupons[name].count - 1)]
  }

  /** coupon.count += 1 */
  function ReturnUnit(coupons: map<string, Coupon>, name: string): (r: map<string, Coupon>)
    requires name in coupons
    ensures r.Keys == coupons.Keys && r[name].count == coupons[name].count + 1
    ensures r[name].name == coupons[name].name && r[name].percentage == coupons[name].percentage
    ensures forall n :: n in coupons && n != name ==> r[n] == coupons[n]
  {
    coupons[name := coupons[name].(count := coupons[name].count + 1)]
  }

  /** Giving back the unit a checkout took leaves the coupons as they were. */
  lemma ReturnUndoesConsume(coupons: map<string, Coupon>, name: string)
    requires name in coupons
    ensures ReturnUnit(ConsumeUnit(coupons, name), name) == coupons
  {
    var c := coupons[name];
    assert c.(count := c.count - 1).(count := c.count - 1 + 1) == c;
  }

  /** How a checkout goes before any payment exists: refused with a reply, or
      priced with the coupon it uses. */
  datatype Checkout = Rejected(reply: Reply) | Proceed(total: real, coupon: Option<string>)

  /** The checks of payment up to the zero-total test, in the source's order:
      no pending participation, a blocked one, an unknown coupon, an empty coupon. */
  function CheckoutOf(presentations: map<int, Presentation>, participations: map<int, Participation>,
                      coupons: map<string, Coupon>, user: Accounts.User, code: Option<string>, n: nat): (c: Checkout)
    requires ForeignKeysHold(presentations, participations)
    ensures PendingOf(participations, user) == {} ==> c == Rejected(Reply(BadRequest400, NoPendingParticipations))
    ensures c.Rejected? <==>
              || PendingOf(participations, user) == {}
              || (exists k :: 0 <= k < n && BlockAt(presentations, participations, user, k).Some?)
              || (CouponRequested(code) && (code.value !in coupons || coupons[code.value].count <= 0))
    ensures c.Rejected? && PendingOf(participations, user) != {} ==> c.reply.status == NotAcceptable406
    ensures PendingOf(participations, user) != {} && ScanPending(presentations, participations, user, n).Blocked? ==>
              var s := ScanPending(presentations, participations, user, n);
              s.at in participations
              && c == Rejected(BlockedReply(presentations[participations[s.at].presentation], s.block))
    ensures PendingOf(participations, user) != {} && ScanPending(presentations, participations, user, n).Priced?
            && CouponRequested(code) && code.value !in coupons ==>
              c == Rejected(Reply(NotAcceptable406, InvalidCoupon))
    ensures PendingOf(participations, user) != {} && ScanPending(presentations, participations, user, n).Priced?
            && CouponRequested(code) && code.value in coupons && coupons[code.value].count <= 0 ==>
              c == Rejected(Reply(NotAcceptable406, CouponOutOfStock))
    ensures c.Proceed? ==> c.coupon == (if CouponRequested(code) then Some(code.value) else None)
    ensures c.Proceed? && c.coupon.Some? ==>
              && c.coupon.value in coupons && IsValidCoupon(coupons[c.coupon.value])
              && c.total == Discounted(PendingCost(presentations, participations, user, n),
                                       coupons[c.coupon.value].percentage)
    ensures c.Proceed? && c.coupon.None? ==> c.total == PendingCost(presentations, participations, user, n)
  {
    if PendingOf(participations, user) == {} then Rejected(Reply(BadRequest400, NoPendingParticipations))
    else
      match ScanPending(presentations, participations, user, n)
      case Blocked(at, b) => Rejected(BlockedReply(presentations[participations[at].presentation], b))
      case Priced(total) =>
        if !CouponRequested(code) then Proceed(total, None)
        else if code.value !in coupons then Rejected(Reply(NotAcceptable406, InvalidCoupon))
        else if coupons[code.value].count <= 0 then Rejected(Reply(NotAcceptable406, CouponOutOfStock))
        else Proceed(Discounted(total, coupons[code.value].percentage), Some(code.value))
  }

  /** The coupons after the checks: one unit of the used coupon consumed. */
  function CouponsAfter(coupons: map<string, Coupon>, coupon: Option<string>): map<string, Coupon>
  {
    if coupon.Some? && coupon.value in coupons then ConsumeUnit(coupons, coupon.value) else coupons
  }

  // ----- completing participations -----

  /** participations.update(payment_state='COMPLETED') over the user's
      pending ones: exactly those move, nothing else changes. */
  function CompletePending(participations: map<int, Participation>, user: Accounts.User): (r: map<int, Participation>)
    ensures r.Keys == participations.Keys
    ensures forall k :: k in participations ==>
              r[k].user == participations[k].user && r[k].presentation == participations[k].presentation
    ensures forall k :: k in PendingOf(participations, user) ==> r[k].paymentState == Completed
    ensures forall k :: k in participations && k !in PendingOf(participations, user) ==> r[k] == participations[k]
    ensures PendingOf(r, user) == {}
  {
    map k | k in participations ::
      if k in PendingOf(participations, user) then participations[k].(paymentState := Completed) else participations[k]
  }

  /** Completing one user's participations leaves every other user's pending ones pending. */
  lemma CompletePendingLeavesOthers(participations: map<int, Participation>, user: Accounts.User, other: Accounts.User)
    requires other != user
    ensures PendingOf(CompletePending(participations, user), other) == PendingOf(participations, other)
  {
  }

  /** The foreign keys survive completing. */
  lemma CompletePendingKeepsKeys(presentations: map<int, Presentation>, participations: map<int, Participation>,
                                 user: Accounts.User)
    requires ForeignKeysHold(presentations, participations)
    ensures ForeignKeysHold(presentations, CompletePending(participations, user))
  {
  }

  /** A seat the user takes after a checkout priced the pending ones is
      PENDING when verify runs, so verify completes it too, although its
      cost is in no payment. */
  lemma CompletesSeatTakenAfterPricing(participations: map<int, Participation>, user: Accounts.User,
                                       k: int, presentation: int)
    requires k !in participations
    ensures var later := participations[k := NewParticipation(user, presentation)];
            && k in PendingOf(later, user) && k !in PendingOf(participations, user)
            && CompletePending(later, user)[k] == Participation(user, presentation, Completed)
  {
    var later := participations[k := NewParticipation(user, presentation)];
    assert k in PendingOf(later, user);
  }

  /** Two users each holding a PENDING seat of a paid presentation with one
      seat both pass the checkout checks, since a PENDING seat takes no
      capacity; once both payments are verified the presentation has -1
      seats left. The views do not prevent overselling. */
  lemma CheckoutsCanOversell(a: Accounts.User, b: Accounts.User, p: Presentation)
    requires a != b && p.capacity == 1 && p.isRegistrationActive && p.cost > 0.0
    ensures var presentations := map[1 := p];
            var before := map[1 := Participation(a, 1, Pending), 2 := Participation(b, 1, Pending)];
            && CheckoutOf(presentations, before, map[], a, None, 3) == Proceed(p.cost, None)
            && CheckoutOf(presentations, before, map[], b, None, 3) == Proceed(p.cost, None)
            && RemainedCapacity(p, 1, before) == 1
            && RemainedCapacity(p, 1, CompletePending(CompletePending(before, a), b)) == -1
  {
    var presentations := map[1 := p];
    var before := map[1 := Participation(a, 1, Pending), 2 := Participation(b, 1, Pending)];
    var afterA := CompletePending(before, a);
    var afterB := CompletePending(afterA, b);
    assert CompletedOf(before, 1) == {};
    assert afterA[1].paymentState == Completed && afterA[2] == before[2];
    assert afterB[1] == afterA[1] && afterB[2].paymentState == Completed;
    assert CompletedOf(afterB, 1) == {1, 2};
    assert PendingOf(before, a) == {1};
    assert PendingOf(before, b) == {2};
    assert ScanPending(presentations, before, a, 1) == Priced(0.0);
    assert ScanPending(presentations, before, a, 2) == Priced(p.cost);
    assert ScanPending(presentations, before, a, 3) == Priced(p.cost);
    assert ScanPending(presentations, before, b, 1) == Priced(0.0);
    assert ScanPending(presentations, before, b, 2) == Priced(0.0);
    assert ScanPending(presentations, before, b, 3) == Priced(p.cost);
  }

  // ----- the gateway's answers -----

  /** response.get('status') == 200 */
  predicate StatusIsOk(response: map<string, Json>)
  {
    "status" in response && response["status"] == JInt(PayPing.StatusOk)
  }

  /** Both refid and clientrefid were sent and are truthy. */
  predicate ReferencesGiven(refId: Option<string>, clientRefId: Option<int>)
    ensures ReferencesGiven(refId, clientRefId) <==>
              && Truthy(if refId.Some? then JStr(refId.value) else JNull)
              && Truthy(if clientRefId.Some? then JInt(clientRefId.value) else JNull)
  {
    refId.Some? && refId.value != "" && clientRefId.Some? && clientRefId.value != 0
  }

  /** The status check on a decoded gateway reply: the gateway's own
      "status" decides when it sent one, otherwise the HTTP status code. */
  lemma GatewayStatusOk(reply: PayPing.HttpReply)
    requires reply.body.Some?
    ensures StatusIsOk(PayPing.Backfilled(reply).value) <==>
              if "status" in reply.body.value then reply.body.value["status"] == JInt(PayPing.StatusOk)
              else reply.statusCode == PayPing.StatusOk
  {
    var response := PayPing.Backfilled(reply).value;
    assert "status" in response;
    if "status" !in reply.body.value {
      assert response["status"] == JInt(reply.statusCode);
    }
  }

  /** The whole store, for stating what a request leaves unchanged. */
  datatype StoreState = StoreState(
    presentations: map<int, Presentation>, participations: map<int, Participation>,
    coupons: map<string, Coupon>, payments: map<int, Payment>,
    nextParticipationKey: nat, nextPaymentKey: nat)

  /** The database rows the three views read and write. Keys are handed out
      by the two counters, as auto-increment primary keys are. */
  class Store {
    var presentations: map<int, Presentation>
    var participations: map<int, Participation>
    var coupons: map<string, Coupon>
    var payments: map<int, Payment>
    var nextParticipationKey: nat
    var nextPaymentKey: nat

    ghost predicate Valid()
      reads this
    {
      && nextParticipationKey >= 1 && nextPaymentKey >= 1
      && (forall k :: k in participations ==> 1 <= k < nextParticipationKey)
      && ForeignKeysHold(presentations, participations)
      && (forall k :: k in payments ==> 1 <= k < nextPaymentKey)
      && (forall n :: n in coupons ==> coupons[n].name == n && coupons[n].count >= 0)
      && (forall k :: k in payments && payments[k].coupon.Some? ==> payments[k].coupon.value in coupons)
    }

    ghost function Snapshot(): StoreState
      reads this
    {
      StoreState(presentations, participations, coupons, payments, nextParticipationKey, nextPaymentKey)
    }

    /** A store with the given presentations and coupons and no activity yet. */
    constructor (presentations: map<int, Presentation>, coupons: map<string, Coupon>)
      requires forall n :: n in coupons ==> coupons[n].name == n && coupons[n].count >= 0
      ensures Valid()
      ensures Snapshot() == StoreState(presentations, map[], coupons, map[], 1, 1)
    {
      this.presentations := presentations;
      this.participations := map[];
      this.coupons := coupons;
      this.payments := map[];
      nextParticipationKey := 1;
      nextPaymentKey := 1;
    }

    /** PresentationViewSet.participate */
    method Participate(user: Accounts.User, presentationId: Option<int>) returns (r: Reply)
      requires Valid()
      modifies this
      ensures Valid()
      ensures r == ParticipateReply(old(presentations), old(participations), user, presentationId,
                                    old(nextParticipationKey))
      ensures r.status != Created201 ==> Snapshot() == old(Snapshot())
      ensures r.status == Created201 ==>
                && participations == old(participations)[old(nextParticipationKey) :=
                                                           NewParticipation(user, presentationId.value)]
                && nextParticipationKey == old(nextParticipationKey) + 1
                && presentations == old(presentations) && coupons == old(coupons)
                && payments == old(payments) && nextPaymentKey == old(nextPaymentKey)
    {
      if presentationId.None? || presentationId.value !in presentations {
        return Reply(NotFound404, PresentationNotFound);
      }
      var key := presentationId.value;
      var presentation := presentations[key];
      if Participates(participations, user, key) {
        return Reply(BadRequest400, AlreadyParticipating);
      }
      if !presentation.isRegistrationActive {
        return Reply(BadRequest400, RegistrationClosed);
      }
      if RemainedCapacity(presentation, key, participations) <= 0 {
        return Reply(BadRequest400, NoRemainingCapacity);
      }
      var id := nextParticipationKey;
      participations := participations[id := NewParticipation(user, key)];
      nextParticipationKey := nextParticipationKey + 1;
      r := Reply(Created201, ParticipationCreated(id));
    }

    /** The loop of payment over the user's pending participations, in key order. */
    method PriceParticipations(user: Accounts.User) returns (s: Scan)
      requires Valid()
      ensures s == ScanPending(presentations, participations, user, nextParticipationKey)
    {
      var total := 0.0;
      var k := 0;
      while k < nextParticipationKey
        invariant 0 <= k <= nextParticipationKey
        invariant ScanPending(presentations, participations, user, k) == Priced(total)
      {
        if k in participations && participations[k].user == user && participations[k].paymentState == Pending {
          var key := participations[k].presentation;
          var presentation := presentations[key];
          if RemainedCapacity(presentation, key, participations) <= 0 {
            ScanStaysBlocked(presentations, participations, user, k + 1, nextParticipationKey);
            return Blocked(k, Full);
          }
          if !presentation.isRegistrationActive {
            ScanStaysBlocked(presentations, participations, user, k + 1, nextParticipationKey);
            return Blocked(k, Closed);
          }
          total := total + presentation.cost;
        }
        k := k + 1;
      }
      s := Priced(total);
    }

    /** The checks of payment before the zero-total test; a coupon that
        passes them gives up one unit. */
    method Checkout(user: Accounts.User, couponCode: Option<string>) returns (c: Checkout)
      requires Valid()
      modifies this`coupons
      ensures Valid()
      ensures c == CheckoutOf(presentations, participations, old(coupons), user, couponCode, nextParticipationKey)
      ensures c.Rejected? ==> coupons == old(coupons)
      ensures c.Proceed? ==> coupons == CouponsAfter(old(coupons), c.coupon)
    {
      if PendingOf(participations, user) == {} {
        return Rejected(Reply(BadRequest400, NoPendingParticipations));
      }
      var scan := PriceParticipations(user);
      if scan.Blocked? {
        var key := participations[scan.at].presentation;
        return Rejected(BlockedReply(presentations[key], scan.block));
      }
      if couponCode.Some? && couponCode.value != "" {
        var name := couponCode.value;
        if name !in coupons {
          return Rejected(Reply(NotAcceptable406, InvalidCoupon));
        }
        var found := coupons[name];
        if found.count > 0 {
          coupons := ConsumeUnit(coupons, name);
          return Proceed(Discounted(scan.total, found.percentage), Some(name));
        }
        return Rejected(Reply(NotAcceptable406, CouponOutOfStock));
      }
      c := Proceed(scan.total, None);
    }

    /** PaymentViewSet.payment */
    method Pay(user: Accounts.User, couponCode: Option<string>, now: int, auth: string, gateway: PayPing.HttpReply)
      returns (r: Reply, sent: Option<PayPing.PostRequest>)
      requires Valid()
      modifies this
      ensures Valid()
      ensures presentations == old(presentations) && nextParticipationKey == old(nextParticipationKey)
      ensures var c := CheckoutOf(old(presentations), old(participations), old(coupons), user, couponCode,
                                  old(nextParticipationKey));
              c.Rejected? ==> r == c.reply && sent.None? && Snapshot() == old(Snapshot())
      ensures var c := CheckoutOf(old(presentations), old(participations), old(coupons), user, couponCode,
                                  old(nextParticipationKey));
              c.Proceed? && c.total <= 0.0 ==>
                && r == Reply(Ok200, TotalZeroVerified) && sent.None?
                && participations == CompletePending(old(participations), user)
                && coupons == CouponsAfter(old(coupons), c.coupon)
                && payments == old(payments) && nextPaymentKey == old(nextPaymentKey)
      ensures var c := CheckoutOf(old(presentations), old(participations), old(coupons), user, couponCode,
                                  old(nextParticipationKey));
              c.Proceed? && c.total > 0.0 ==>
                var id := old(nextPaymentKey);
                var response := PayPing.Backfilled(gateway);
                && nextPaymentKey == id + 1
                && participations == old(participations)
                && sent == Some(PayPing.PostRequest(PayPing.PayUrl, PayPing.Headers(auth),
                                  PayPing.CreateBody(user.GetFullName(), c.total,
                                                     PayPing.PayerIdentity(user.phoneNumber, user.email),
                                                     PayPing.CallBack, PayPing.PaymentDescription, id)))
                && (response.None? ==>
                      r == Reply(ServerError500, ServerError) && payments == old(payments)
                      && coupons == CouponsAfter(old(coupons), c.coupon))
                && (response.Some? && !StatusIsOk(response.value) ==>
                      r == Reply(BadRequest400, ErrorCreatingLink) && payments == old(payments)
                      && coupons == old(coupons))
                && (response.Some? && StatusIsOk(response.value) && "code" !in response.value ==>
                      r == Reply(ServerError500, ServerError) && payments == old(payments)
                      && coupons == CouponsAfter(old(coupons), c.coupon))
                && (response.Some? && StatusIsOk(response.value) && "code" in response.value ==>
                      && r == Reply(Created201, PaymentCreated(id))
                      && payments == old(payments)[id := WithPayLink(NewPayment(user, c.total, c.coupon, now),
                                                     PayPing.GeneratePayPingLink(JsonText(response.value["code"])))]
                      && coupons == CouponsAfter(old(coupons), c.coupon))
    {
      var c := Checkout(user, couponCode);
      if c.Rejected? {
        return c.reply, None;
      }
      var total, coupon := c.total, c.coupon;
      if total <= 0.0 {
        participations := CompletePending(participations, user);
        return Reply(Ok200, TotalZeroVerified), None;
      }
      r, sent := OpenPayment(user, total, coupon, now, auth, gateway);
      if r.status == BadRequest400 && coupon.Some? {
        ReturnUndoesConsume(old(coupons), coupon.value);
      }
    }

    /** The atomic block of payment: the Payment row, the gateway request and
        the link. A failure inside the block rolls the row back; the 400
        answer also gives the coupon unit back. */
    method OpenPayment(user: Accounts.User, total: real, coupon: Option<string>, now: int, auth: string,
                       gateway: PayPing.HttpReply)
      returns (r: Reply, sent: Option<PayPing.PostRequest>)
      requires Valid()
      requires coupon.Some? ==> coupon.value in coupons
      modifies this`payments, this`nextPaymentKey, this`coupons
      ensures Valid()
      ensures nextPaymentKey == old(nextPaymentKey) + 1
      ensures sent == Some(PayPing.PostRequest(PayPing.PayUrl, PayPing.Headers(auth),
                             PayPing.CreateBody(user.GetFullName(), total,
                                                PayPing.PayerIdentity(user.phoneNumber, user.email),
                                                PayPing.CallBack, PayPing.PaymentDescription, old(nextPaymentKey))))
      ensures var response := PayPing.Backfilled(gateway);
              && (response.None? || (StatusIsOk(response.value) && "code" !in response.value) ==>
                    r == Reply(ServerError500, ServerError) && payments == old(payments) && coupons == old(coupons))
              && (response.Some? && !StatusIsOk(response.value) ==>
                    && r == Reply(BadRequest400, ErrorCreatingLink) && payments == old(payments)
                    && coupons == (if coupon.Some? then ReturnUnit(old(coupons), coupon.value) else old(coupons)))
              && (response.Some? && StatusIsOk(response.value) && "code" in response.value ==>
                    && r == Reply(Created201, PaymentCreated(old(nextPaymentKey)))
                    && payments == old(payments)[old(nextPaymentKey) :=
                                    WithPayLink(NewPayment(user, total, coupon, now),
                                                PayPing.GeneratePayPingLink(JsonText(response.value["code"])))]
                    && coupons == old(coupons))
    {
      // the Payment row takes its key at once; a rollback below undoes the
      // row but not the key
      var id := nextPaymentKey;
      var payment := NewPayment(user, total, coupon, now);
      nextPaymentKey := nextPaymentKey + 1;
      var client := new PayPing.PayPingRequest(auth);
      var request, response := client.CreatePayment(id, total, user.GetFullName(), user.phoneNumber, user.email,
                                                    gateway);
      sent := Some(request);
      r := SettleLinkRequest(id, payment, response);
    }

    /** The rest of the atomic block of payment, once the gateway has
        answered for the Payment with key id. */
    method SettleLinkRequest(id: int, payment: Payment, response: Option<map<string, Json>>) returns (r: Reply)
      requires Valid() && 1 <= id < nextPaymentKey
      requires payment.coupon.Some? ==> payment.coupon.value in coupons
      modifies this`payments, this`coupons
      ensures Valid()
      ensures response.None? || (StatusIsOk(response.value) && "code" !in response.value) ==>
                r == Reply(ServerError500, ServerError) && payments == old(payments) && coupons == old(coupons)
      ensures response.Some? && !StatusIsOk(response.value) ==>
                && r == Reply(BadRequest400, ErrorCreatingLink) && payments == old(payments)
                && coupons == (if payment.coupon.Some? then ReturnUnit(old(coupons), payment.coupon.value)
                               else old(coupons))
      ensures response.Some? && StatusIsOk(response.value) && "code" in response.value ==>
                && r == Reply(Created201, PaymentCreated(id))
                && payments == old(payments)[id := WithPayLink(payment,
                                                  PayPing.GeneratePayPingLink(JsonText(response.value["code"])))]
                && coupons == old(coupons)
    {
      if response.None? {
        // json.loads raised inside the block: the row is rolled back
        return Reply(ServerError500, ServerError);
      }
      if !StatusIsOk(response.value) {
        // the row is deleted and the coupon unit given back
        if payment.coupon.Some? {
          coupons := ReturnUnit(coupons, payment.coupon.value);
        }
        return Reply(BadRequest400, ErrorCreatingLink);
      }
      if "code" !in response.value {
        // response['code'] raises KeyError inside the block: the row is rolled back
        return Reply(ServerError500, ServerError);
      }
      var link := PayPing.GeneratePayPingLink(JsonText(response.value["code"]));
      payments := payments[id := WithPayLink(payment, link)];
      r := Reply(Created201, PaymentCreated(id));
    }

    /** The loop of verify: each PENDING participation of the user is set
        to COMPLETED and saved, one at a time. */
    method CompleteEach(user: Accounts.User)
      requires Valid()
      modifies this`participations
      ensures Valid()
      ensures participations == CompletePending(old(participations), user)
    {
      ghost var before := participations;
      var k := 0;
      while k < nextParticipationKey
        invariant 0 <= k <= nextParticipationKey
        invariant participations.Keys == before.Keys
        invariant forall j :: j in before ==>
                    participations[j] == (if j < k && j in PendingOf(before, user)
                                          then before[j].(paymentState := Completed) else before[j])
      {
        if k in participations && participations[k].user == user && participations[k].paymentState == Pending {
          participations := participations[k := participations[k].(paymentState := Completed)];
        }
        k := k + 1;
      }
      assert forall j :: j in before ==> participations[j] == CompletePending(before, user)[j];
    }

    /** The failure branch of verify: the coupon unit goes back, the payment
        is marked FAILED. */
    method FailPayment(id: int)
      requires Valid() && id in payments
      modifies this`payments, this`coupons
      ensures Valid()
      ensures payments == old(payments)[id := old(payments)[id].(paymentState := Failed)]
      ensures coupons == (if old(payments)[id].coupon.Some? then ReturnUnit(old(coupons), old(payments)[id].coupon.value)
                          else old(coupons))
    {
      var payment := payments[id];
      if payment.coupon.Some? {
        coupons := ReturnUnit(coupons, payment.coupon.value);
      }
      payments := payments[id := payment.(paymentState := Failed)];
    }

    /** The success branch of verify: the payment is completed, then every
        PENDING participation of its user. */
    method ConfirmPayment(id: int, refId: string, cardHash: string, now: int)
      requires Valid() && id in payments
      modifies this`payments, this`participations
      ensures Valid()
      ensures payments == old(payments)[id := CompletePayment(old(payments)[id], refId, cardHash, now)]
      ensures participations == CompletePending(old(participations), old(payments)[id].user)
    {
      var payment := payments[id];
      payments := payments[id := CompletePayment(payment, refId, cardHash, now)];
      CompleteEach(payment.user);
    }

    /** PaymentViewSet.verify. The payment's earlier state is not consulted. */
    method Verify(refId: Option<string>, clientRefId: Option<int>, now: int, auth: string, gateway: PayPing.HttpReply)
      returns (r: Reply, sent: Option<PayPing.PostRequest>)
      requires Valid()
      modifies this
      ensures Valid()
      ensures presentations == old(presentations)
      ensures nextParticipationKey == old(nextParticipationKey) && nextPaymentKey == old(nextPaymentKey)
      ensures !ReferencesGiven(refId, clientRefId) ==>
                r == Reply(BadRequest400, MissingReference) && sent.None? && Snapshot() == old(Snapshot())
      ensures ReferencesGiven(refId, clientRefId) && clientRefId.value !in old(payments) ==>
                r == Reply(NotFound404, PaymentNotFound) && sent.None? && Snapshot() == old(Snapshot())
      ensures ReferencesGiven(refId, clientRefId) && clientRefId.value in old(payments) ==>
                var id := clientRefId.value;
                var payment := old(payments)[id];
                var response := PayPing.Backfilled(gateway);
                && sent == Some(PayPing.PostRequest(PayPing.VerifyUrl, PayPing.Headers(auth),
                                                    PayPing.VerifyBody(refId.value, payment.totalPrice)))
                && (response.None? ==> r == Reply(ServerError500, ServerError) && Snapshot() == old(Snapshot()))
                && (response.Some? && !StatusIsOk(response.value) ==>
                      && r == Reply(BadRequest400, VerificationFailed)
                      && payments == old(payments)[id := payment.(paymentState := Failed)]
                      && coupons == (if payment.coupon.Some? then ReturnUnit(old(coupons), payment.coupon.value)
                                     else old(coupons))
                      && participations == old(participations))
                && (response.Some? && StatusIsOk(response.value) && "cardHashPan" !in response.value ==>
                      r == Reply(ServerError500, ServerError) && Snapshot() == old(Snapshot()))
                && (response.Some? && StatusIsOk(response.value) && "cardHashPan" in response.value ==>
                      && r == Reply(Ok200, Verified)
                      && payments == old(payments)[id := CompletePayment(payment, refId.value,
                                                           JsonText(response.value["cardHashPan"]), now)]
                      && participations == CompletePending(old(participations), payment.user)
                      && coupons == old(coupons))
    {
      if refId.None? || refId.value == "" || clientRefId.None? || clientRefId.value == 0 {
        return Reply(BadRequest400, MissingReference), None;
      }
      var id := clientRefId.value;
      if id !in payments {
        return Reply(NotFound404, PaymentNotFound), None;
      }
      var payment := payments[id];
      var client := new PayPing.PayPingRequest(auth);
      var request, response := client.VerifyPayment(refId.value, payment.totalPrice, gateway);
      sent := Some(request);
      if response.None? {
        return Reply(ServerError500, ServerError), sent;
      }
      if !StatusIsOk(response.value) {
        FailPayment(id);
        return Reply(BadRequest400, VerificationFailed), sent;
      }
      if "cardHashPan" !in response.value {
        // verification_response['cardHashPan'] raises before anything is saved
        return Reply(ServerError500, ServerError), sent;
      }
      ConfirmPayment(id, refId.value, JsonText(response.value["cardHashPan"]), now);
      r := Reply(Ok200, Verified);
    }
  }
}
