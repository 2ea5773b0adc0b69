/** The order handlers over the stored campaigns and orders. Each handler runs
    as one atomic unit: it either commits all of its writes or, on any error,
    leaves the store as it found it. The role check of the route (`authorize`)
    runs first, then the route's input rules where the model has the body,
    then the handler itself. */
module OrderStore {

  import opened Common
  import opened Text
  import opened OrderModel
  import C = CampaignModel
  import opened Ledger
  import opened Lifecycle
  import opened Validation
  import OV = OrderValidator
  import CV = CampaignValidator

  /** The error answers of the routes. */
  datatype Failure =
    | Forbidden                            // `authorize` or the access check of getOrder
    | Invalid(errors: seq<FieldError>)     // the route's input rules
    | CampaignNotFound                     // no such campaign, or not the caller's
    | InsufficientBudget                   // the price exceeds what is available
    | BudgetExceeded                       // the re-check after the increment
    | NotFound                             // no order matches id, party and status
    | SchemaViolation                      // saving failed the schema; passed to the error handler

  /** The HTTP status each failure is answered with; a rule failure gets the
      answer `handleValidationErrors` gives. */
  function HttpStatus(f: Failure): (code: nat)
    ensures f.Invalid? && f.errors != [] ==> HandleValidationErrors(f.errors) == Reply(code, None, f.errors)
    ensures f == Forbidden ==> code == 403
    ensures f == NotFound || f == CampaignNotFound ==> code == 404
  {
    match f
    case Forbidden => 403
    case Invalid(_) => 422
    case CampaignNotFound => 404
    case InsufficientBudget => 400
    case BudgetExceeded => 400
    case NotFound => 404
    case SchemaViolation => 500
  }

  /** The fields of an order-creation request, as the handler reads them. */
  datatype OrderRequest = OrderRequest(
    campaignId: Id,
    bloggerId: Id,
    contentType: ContentType,
    description: Option<string>,
    requirements: Option<string>,
    deadline: Option<Time>,
    price: int)

  /** The campaign exists and belongs to the caller. */
  predicate Owns(campaigns: map<Id, C.Campaign>, cid: Id, caller: Id)
  {
    cid in campaigns && campaigns[cid].advertiserId == caller
  }

  /** The order createOrder writes: the caller as advertiser, status pending. */
  function Placed(req: OrderRequest, caller: Id): Order
  {
    NewOrder(req.campaignId, req.bloggerId, caller, req.contentType, req.description,
             req.requirements, req.deadline, req.price, Some(Pending))
  }

  /** getOrder's access check: a party to the order, or an administrator. */
  predicate MayView(o: Order, caller: Id, role: Role)
  {
    o.bloggerId == caller || o.advertiserId == caller || role == Admin
  }

  /** A `status` in a creation body the schema's enum accepts (or none). */
  predicate StatusStorable(b: CV.CreateCampaignBody)
  {
    b.status.None? || C.ParseStatus(b.status.value).Some?
  }

  /** The campaign createCampaign stores for an admitted body: the trimmed
      fields, the caller as advertiser and the schema's defaults. */
  function CampaignDoc(advertiserId: Id, b: CV.CreateCampaignBody): (c: C.Campaign)
    requires CV.CreateCampaignAdmissible(b) && StatusStorable(b)
    ensures c.advertiserId == advertiserId && c.title == Trim(b.title.value)
    ensures c.budget.total == b.budgetTotal.value && c.budget.allocatedAmount == 0
    ensures C.WithinBudget(c.budget)
  {
    CV.AdmittedBodyFitsSchema(b);
    TrimIdempotent(b.title.value);
    C.NewCampaign(
      advertiserId, Trim(b.title.value),
      if b.description.Some? then Some(Trim(b.description.value)) else None,
      C.ParseCampaignType(b.campaignType.value).value, b.budgetTotal.value, b.perBlogger,
      if b.status.Some? then C.ParseStatus(b.status.value) else None)
  }

  /** What createCampaign decides for a request: the role gate of the route,
      then the validator's 422, then the schema's own checks (an unknown
      status or an over-long trimmed title fails at save, a 500), else the
      document to store. */
  function CampaignOutcome(caller: Id, role: Role, body: CV.CreateCampaignBody): (r: Result<C.Campaign, Failure>)
    ensures r.Ok? ==>
      C.SchemaValid(r.value) && C.WithinBudget(r.value.budget) &&
      r.value.advertiserId == caller && r.value.budget.allocatedAmount == 0
  {
    if role != Advertiser then Err(Forbidden)
    else if !CV.CreateCampaignAdmissible(body) then Err(Invalid(CV.CreateCampaignErrors(body)))
    else if !StatusStorable(body) then Err(SchemaViolation)
    else
      var c := CampaignDoc(caller, body);
      if !C.SchemaValid(c) then Err(SchemaViolation) else Ok(c)
  }

  /** The outcomes of createCampaign, case by case: 403 exactly for a caller
      who is not an advertiser, the validator's 422 exactly for an inadmissible
      body, a stored campaign exactly when the schema accepts the document,
      and otherwise a schema failure. */
  lemma CampaignOutcomeCases(caller: Id, role: Role, body: CV.CreateCampaignBody)
    ensures CampaignOutcome(caller, role, body) == Err(Forbidden) <==> role != Advertiser
    ensures CampaignOutcome(caller, role, body) == Err(Invalid(CV.CreateCampaignErrors(body))) <==>
      role == Advertiser && !CV.CreateCampaignAdmissible(body)
    ensures CampaignOutcome(caller, role, body).Ok? <==>
      role == Advertiser && CV.CreateCampaignAdmissible(body) && StatusStorable(body) &&
      C.SchemaValid(CampaignDoc(caller, body))
    ensures CampaignOutcome(caller, role, body).Ok? ==>
      CampaignOutcome(caller, role, body).value == CampaignDoc(caller, body)
    ensures CampaignOutcome(caller, role, body).Err? ==>
      CampaignOutcome(caller, role, body).error in
        {Forbidden, Invalid(CV.CreateCampaignErrors(body)), SchemaViolation}
  {
  }

  class Store {
    var campaigns: map<Id, C.Campaign>
    var orders: map<Id, Order>
    var nextCampaignId: Id
    var nextOrderId: Id

    /** Ids are below the next ones handed out, and the ledger's books hold. */
    ghost predicate Valid()
      reads this
    {
      (forall cid :: cid in campaigns ==> cid < nextCampaignId) &&
      Books(campaigns, orders, nextOrderId)
    }

    constructor ()
      ensures Valid()
      ensures campaigns == map[] && orders == map[] && nextCampaignId == 0 && nextOrderId == 0
    {
      campaigns, orders := map[], map[];
      nextCampaignId, nextOrderId := 0, 0;
    }

    /** POST /campaigns: authorize, validateCreateCampaign, createCampaign.
        A client-supplied `budget.allocated` is not part of the modelled body. */
    method CreateCampaign(caller: Id, role: Role, body: CV.CreateCampaignBody) returns (r: Result<Id, Failure>)
      requires Valid()
      modifies this`campaigns, this`nextCampaignId
      ensures Valid()
      ensures r.Err? <==> CampaignOutcome(caller, role, body).Err?
      ensures r.Err? ==>
        r.error == CampaignOutcome(caller, role, body).error &&
        campaigns == old(campaigns) && nextCampaignId == old(nextCampaignId)
      ensures r.Ok? ==>
        r.value == old(nextCampaignId) && r.value !in old(campaigns) &&
        nextCampaignId == old(nextCampaignId) + 1 &&
        campaigns == old(campaigns)[r.value := CampaignOutcome(caller, role, body).value]
    {
      var outcome := CampaignOutcome(caller, role, body);
      if outcome.Err? {
        return Err(outcome.error);
      }
      var id := SaveCampaign(outcome.value);
      r := Ok(id);
    }

    /** `Campaign.create` of a document the schema accepts: stored under the
        next id, which is then used up. */
    method SaveCampaign(c: C.Campaign) returns (id: Id)
      requires Valid()
      requires c.budget.allocatedAmount == 0 && C.WithinBudget(c.budget)
      modifies this`campaigns, this`nextCampaignId
      ensures Valid()
      ensures id == old(nextCampaignId) && id !in old(campaigns)
      ensures campaigns == old(campaigns)[id := c] && nextCampaignId == id + 1
    {
      BooksAddCampaign(campaigns, orders, nextOrderId, nextCampaignId, c);
      campaigns := campaigns[nextCampaignId := c];
      id := nextCampaignId;
      nextCampaignId := nextCampaignId + 1;
    }

    /** createOrder: ownership, then the budget check, then the new order and
        the increment of `allocated`, then the re-check of the ceiling, all in
        one transaction. The campaign's status is not consulted. */
    method CreateOrder(caller: Id, role: Role, req: OrderRequest) returns (r: Result<Id, Failure>)
      requires Valid()
      modifies this`orders, this`campaigns, this`nextOrderId
      ensures Valid()
      ensures r == Err(Forbidden) <==> role != CreateRole
      ensures r == Err(CampaignNotFound) <==>
        role == CreateRole && !Owns(old(campaigns), req.campaignId, caller)
      ensures r == Err(InsufficientBudget) <==>
        role == CreateRole && Owns(old(campaigns), req.campaignId, caller) &&
        req.price > C.Available(old(campaigns)[req.campaignId].budget)
      ensures r == Err(SchemaViolation) <==>
        role == CreateRole && Owns(old(campaigns), req.campaignId, caller) && req.price < 0
      ensures r.Ok? <==>
        role == CreateRole && Owns(old(campaigns), req.campaignId, caller) &&
        0 <= req.price <= C.Available(old(campaigns)[req.campaignId].budget)
      ensures r != Err(BudgetExceeded)
      ensures r.Err? ==> campaigns == old(campaigns) && orders == old(orders) && nextOrderId == old(nextOrderId)
      ensures r.Ok? ==>
        r.value == old(nextOrderId) && r.value !in old(orders) && nextOrderId == old(nextOrderId) + 1 &&
        orders == old(orders)[r.value := Placed(req, caller)] &&
        campaigns == old(campaigns)[req.campaignId :=
          old(campaigns)[req.campaignId].(budget := Reserve(old(campaigns)[req.campaignId].budget, req.price))]
    {
      if role != CreateRole {
        return Err(Forbidden);
      }
      var cid := req.campaignId;
      if cid !in campaigns || campaigns[cid].advertiserId != caller {
        return Err(CampaignNotFound);
      }
      var campaign := campaigns[cid];
      if req.price > campaign.budget.total - campaign.budget.allocatedAmount {
        return Err(InsufficientBudget);
      }
      var order := Placed(req, caller);
      if !SchemaValid(order) {
        return Err(SchemaViolation);
      }
      var updated := campaign.(budget := Reserve(campaign.budget, req.price));
      ReserveRespectsCeiling(campaign.budget, req.price);
      if updated.budget.allocatedAmount > updated.budget.total {
        return Err(BudgetExceeded);
      }
      BooksPlaceOrder(campaigns, orders, nextOrderId, order);
      orders := orders[nextOrderId := order];
      campaigns := campaigns[cid := updated];
      r := Ok(nextOrderId);
      nextOrderId := nextOrderId + 1;
    }

    /** getOrder: an absent order is not found; a present one is shown only to
        its blogger, its advertiser or an administrator. */
    method GetOrder(orderId: Id, caller: Id, role: Role) returns (r: Result<Order, Failure>)
      ensures r == Err(NotFound) <==> orderId !in orders
      ensures r == Err(Forbidden) <==> orderId in orders && !MayView(orders[orderId], caller, role)
      ensures r.Ok? <==> orderId in orders && MayView(orders[orderId], caller, role)
      ensures r.Ok? ==> r.value == orders[orderId]
    {
      if orderId !in orders {
        return Err(NotFound);
      }
      var order := orders[orderId];
      if !MayView(order, caller, role) {
        return Err(Forbidden);
      }
      r := Ok(order);
    }

    /** acceptOrder: the order's blogger moves it from pending to in progress. */
    method AcceptOrder(orderId: Id, caller: Id, role: Role) returns (r: Result<Order, Failure>)
      requires Valid()
      modifies this`orders
      ensures Valid()
      ensures r == Err(Forbidden) <==> role != ActionRole(Accept)
      ensures r.Ok? <==>
        role == ActionRole(Accept) && orderId in old(orders) &&
        old(orders)[orderId].bloggerId == caller && old(orders)[orderId].status == Pending
      ensures r.Err? ==> orders == old(orders) && (r.error == Forbidden || r.error == NotFound)
      ensures r.Ok? ==>
        orders == old(orders)[orderId := old(orders)[orderId].(status := InProgress)] &&
        r.value == orders[orderId] &&
        Step(old(orders)[orderId].status, Accept) == Some(r.value.status)
    {
      if role != ActionRole(Accept) {
        return Err(Forbidden);
      }
      if orderId !in orders || orders[orderId].bloggerId != caller || orders[orderId].status != Pending {
        return Err(NotFound);
      }
      var order := orders[orderId].(status := InProgress);
      BooksAdvance(campaigns, orders, nextOrderId, orderId, order);
      orders := orders[orderId := order];
      r := Ok(order);
    }

    /** rejectOrder: the order's blogger cancels a pending order, and its price
        goes back to the campaign in the same transaction. The reason is
        checked by the route's rules and then dropped. */
    method RejectOrder(orderId: Id, caller: Id, role: Role, body: OV.RejectOrderBody) returns (r: Result<Order, Failure>)
      requires Valid()
      modifies this`orders, this`campaigns
      ensures Valid()
      ensures r == Err(Forbidden) <==> role != ActionRole(Reject)
      ensures r == Err(Invalid(OV.RejectOrderErrors(body))) <==>
        role == ActionRole(Reject) && OV.RejectOrderErrors(body) != []
      ensures r.Ok? <==>
        role == ActionRole(Reject) && OV.RejectOrderErrors(body) == [] && orderId in old(orders) &&
        old(orders)[orderId].bloggerId == caller && old(orders)[orderId].status == Pending
      ensures r.Err? ==> orders == old(orders) && campaigns == old(campaigns)
      ensures r.Err? && r.error != Forbidden && !r.error.Invalid? ==> r.error == NotFound
      ensures r.Err? && r.error.Invalid? ==> r.error == Invalid(OV.RejectOrderErrors(body))
      ensures r.Err? && r.error.Invalid? ==> r.error.errors != [] && HttpStatus(r.error) == 422
      ensures r == Err(NotFound) <==>
        role == ActionRole(Reject) && OV.RejectOrderErrors(body) == [] &&
        !(orderId in old(orders) && old(orders)[orderId].bloggerId == caller && old(orders)[orderId].status == Pending)
      ensures r.Ok? ==>
        var o := old(orders)[orderId];
        o.campaignId in old(campaigns) &&
        orders == old(orders)[orderId := o.(status := Cancelled)] &&
        campaigns == old(campaigns)[o.campaignId :=
          old(campaigns)[o.campaignId].(budget := Release(old(campaigns)[o.campaignId].budget, o.price))] &&
        r.value == orders[orderId] &&
        Step(o.status, Reject) == Some(r.value.status)
    {
      if role != ActionRole(Reject) {
        return Err(Forbidden);
      }
      var errors := OV.RejectOrderErrors(body);
      if errors != [] {
        return Err(Invalid(errors));
      }
      if orderId !in orders || orders[orderId].bloggerId != caller || orders[orderId].status != Pending {
        return Err(NotFound);
      }
      var order := orders[orderId];
      var cancelled := order.(status := Cancelled);
      var cid := order.campaignId;
      BooksCancel(campaigns, orders, nextOrderId, orderId);
      orders := orders[orderId := cancelled];
      if cid in campaigns {
        campaigns := campaigns[cid := campaigns[cid].(budget := Release(campaigns[cid].budget, order.price))];
      }
      r := Ok(cancelled);
    }

    /** submitOrder: the order's blogger hands in the work of an order in
        progress; the URLs are stored as given. */
    method SubmitOrder(orderId: Id, caller: Id, role: Role, body: OV.SubmitOrderBody, ext: Externals)
      returns (r: Result<Order, Failure>)
      requires Valid()
      modifies this`orders
      ensures Valid()
      ensures r == Err(Forbidden) <==> role != ActionRole(Submit)
      ensures r == Err(Invalid(OV.SubmitOrderErrors(body, ext))) <==>
        role == ActionRole(Submit) && OV.SubmitOrderErrors(body, ext) != []
      ensures r.Ok? <==>
        role == ActionRole(Submit) && OV.SubmitOrderErrors(body, ext) == [] && orderId in old(orders) &&
        old(orders)[orderId].bloggerId == caller && old(orders)[orderId].status == InProgress
      ensures r.Err? ==> orders == old(orders)
      ensures r.Err? && r.error != Forbidden && !r.error.Invalid? ==> r.error == NotFound
      ensures r.Err? && r.error.Invalid? ==> r.error == Invalid(OV.SubmitOrderErrors(body, ext))
      ensures r.Err? && r.error.Invalid? ==> r.error.errors != [] && HttpStatus(r.error) == 422
      ensures r == Err(NotFound) <==>
        role == ActionRole(Submit) && OV.SubmitOrderErrors(body, ext) == [] &&
        !(orderId in old(orders) && old(orders)[orderId].bloggerId == caller && old(orders)[orderId].status == InProgress)
      ensures r.Ok? ==>
        var o := old(orders)[orderId];
        |body.contentUrls.value| >= 1 &&
        orders == old(orders)[orderId := o.(status := Review, contentUrls := body.contentUrls.value,
          platformUrls := if body.platformUrls.Some? then body.platformUrls.value else [])] &&
        r.value == orders[orderId] &&
        Step(o.status, Submit) == Some(r.value.status)
    {
      if role != ActionRole(Submit) {
        return Err(Forbidden);
      }
      var errors := OV.SubmitOrderErrors(body, ext);
      if errors != [] {
        return Err(Invalid(errors));
      }
      if orderId !in orders || orders[orderId].bloggerId != caller || orders[orderId].status != InProgress {
        return Err(NotFound);
      }
      var order := orders[orderId].(status := Review, contentUrls := body.contentUrls.value,
        platformUrls := if body.platformUrls.Some? then body.platformUrls.value else []);
      BooksAdvance(campaigns, orders, nextOrderId, orderId, order);
      orders := orders[orderId := order];
      r := Ok(order);
    }

    /** approveOrder: the order's advertiser accepts the work under review; the
        order completes and `paidAt` is set to `now`. No budget field changes. */
    method ApproveOrder(orderId: Id, caller: Id, role: Role, now: Time) returns (r: Result<Order, Failure>)
      requires Valid()
      modifies this`orders
      ensures Valid()
      ensures r == Err(Forbidden) <==> role != ActionRole(Approve)
      ensures r.Ok? <==>
        role == ActionRole(Approve) && orderId in old(orders) &&
        old(orders)[orderId].advertiserId == caller && old(orders)[orderId].status == Review
      ensures r.Err? ==> orders == old(orders) && (r.error == Forbidden || r.error == NotFound)
      ensures r.Ok? ==>
        orders == old(orders)[orderId := old(orders)[orderId].(status := Completed, paidAt := Some(now))] &&
        r.value == orders[orderId] &&
        Step(old(orders)[orderId].status, Approve) == Some(r.value.status)
    {
      if role != ActionRole(Approve) {
        return Err(Forbidden);
      }
      if orderId !in orders || orders[orderId].advertiserId != caller || orders[orderId].status != Review {
        return Err(NotFound);
      }
      var order := orders[orderId].(status := Completed, paidAt := Some(now));
      BooksAdvance(campaigns, orders, nextOrderId, orderId, order);
      orders := orders[orderId := order];
      r := Ok(order);
    }
  }

  /** A blogger who rejects a freshly created order gives its whole price back:
      the campaigns are as they were before the order was placed, the order
      stays behind as cancelled, and accepting it afterwards is not found. */
  method CreateThenReject(s: Store, advertiser: Id, req: OrderRequest, reason: OV.RejectOrderBody)
    returns (id: Id, accepted: Result<Order, Failure>)
    requires s.Valid()
    requires Owns(s.campaigns, req.campaignId, advertiser)
    requires 0 <= req.price <= C.Available(s.campaigns[req.campaignId].budget)
    requires OV.RejectOrderErrors(reason) == []
    modifies s
    ensures s.Valid()
    ensures s.campaigns == old(s.campaigns)
    ensures id !in old(s.orders) && id in s.orders && s.orders[id].status == Cancelled
    ensures accepted == Err(NotFound)
  {
    var placed := s.CreateOrder(advertiser, CreateRole, req);
    id := placed.value;
    var rejected := s.RejectOrder(id, req.bloggerId, ActionRole(Reject), reason);
    ReleaseUndoesReserve(old(s.campaigns)[req.campaignId].budget, req.price);
    accepted := s.AcceptOrder(id, req.bloggerId, ActionRole(Accept));
  }

  /** Once a blogger has accepted an order it can no longer be rejected: the
      reject query finds no pending order, and the price stays reserved. */
  method AcceptThenReject(s: Store, orderId: Id, blogger: Id, reason: OV.RejectOrderBody)
    returns (accepted: Result<Order, Failure>, rejected: Result<Order, Failure>)
    requires s.Valid()
    requires orderId in s.orders && s.orders[orderId].bloggerId == blogger
    requires s.orders[orderId].status == Pending
    requires OV.RejectOrderErrors(reason) == []
    modifies s
    ensures s.Valid()
    ensures accepted.Ok? && accepted.value.status == InProgress
    ensures rejected == Err(NotFound)
    ensures orderId in s.orders && s.orders[orderId] == accepted.value && s.campaigns == old(s.campaigns)
  {
    accepted := s.AcceptOrder(orderId, blogger, ActionRole(Accept));
    rejected := s.RejectOrder(orderId, blogger, ActionRole(Reject), reason);
  }

  /** Approving twice: the first approval completes the order and records the
      payment time, the second finds no order under review, so `paidAt` keeps
      the first time. */
  method ApproveTwice(s: Store, orderId: Id, advertiser: Id, first: Time, second: Time)
    returns (r1: Result<Order, Failure>, r2: Result<Order, Failure>)
    requires s.Valid()
    requires orderId in s.orders && s.orders[orderId].advertiserId == advertiser
    requires s.orders[orderId].status == Review
    modifies s
    ensures s.Valid()
    ensures r1.Ok? && r1.value.status == Completed && r1.value.paidAt == Some(first)
    ensures r2 == Err(NotFound)
    ensures orderId in s.orders && s.orders[orderId] == r1.value && s.campaigns == old(s.campaigns)
  {
    r1 := s.ApproveOrder(orderId, advertiser, ActionRole(Approve), first);
    r2 := s.ApproveOrder(orderId, advertiser, ActionRole(Approve), second);
  }
}
