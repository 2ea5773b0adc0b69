/** The campaign budget ledger: the two updates order handling makes to
    `budget.allocated`, and the books it keeps, where each campaign's allocated
    amount is the sum of the prices of its orders that are not cancelled. */
module Ledger {

  import opened Common
  import opened OrderModel
  import C = CampaignModel

  /** `$inc: {'budget.allocated': amount}` when an order is created. */
  function Reserve(b: C.Budget, amount: int): (r: C.Budget)
    ensures r.total == b.total && r.perBlogger == b.perBlogger
    ensures C.Available(r) == C.Available(b) - amount
  {
    b.(allocatedAmount := b.allocatedAmount + amount)
  }

  /** `$inc: {'budget.allocated': -amount}` when an order is rejected; no lower bound is checked. */
  function Release(b: C.Budget, amount: int): (r: C.Budget)
    ensures r.total == b.total && r.perBlogger == b.perBlogger
    ensures C.Available(r) == C.Available(b) + amount
  {
    b.(allocatedAmount := b.allocatedAmount - amount)
  }

  /** After a reservation the ceiling holds exactly when the price fits what was
      available: a price equal to the remainder fits, one unit more does not.
      So the re-check after the increment fails only when the check before it did. */
  lemma ReserveRespectsCeiling(b: C.Budget, price: int)
    ensures C.WithinBudget(Reserve(b, price)) <==> price <= C.Available(b)
    ensures price == C.Available(b) ==> Reserve(b, price).allocatedAmount == b.total
  {
  }

  /** A release of the amount just reserved gives back the budget exactly. */
  lemma ReleaseUndoesReserve(b: C.Budget, price: int)
    ensures Release(Reserve(b, price), price) == b
  {
  }

  /** What order `k` holds on campaign `cid`: its price unless it is cancelled. */
  function Share(orders: map<Id, Order>, cid: Id, k: Id): int
  {
    if k in orders && orders[k].campaignId == cid && orders[k].status != Cancelled then orders[k].price else 0
  }

  /** The shares of orders `0 .. n-1` on campaign `cid`, summed. */
  function Committed(orders: map<Id, Order>, cid: Id, n: nat): int
  {
    if n == 0 then 0 else Committed(orders, cid, n - 1) + Share(orders, cid, n - 1)
  }

  /** Order books that agree on every share below `n` commit the same amount. */
  lemma {:induction false} CommittedAgree(a: map<Id, Order>, b: map<Id, Order>, cid: Id, n: nat)
    requires forall k: nat :: k < n ==> Share(a, cid, k) == Share(b, cid, k)
    ensures Committed(a, cid, n) == Committed(b, cid, n)
  {
    if n > 0 {
      CommittedAgree(a, b, cid, n - 1);
    }
  }

  /** Replacing one order changes the sum by the difference of its shares. */
  lemma {:induction false} CommittedUpdate(orders: map<Id, Order>, cid: Id, n: nat, k: nat, o: Order)
    requires k < n
    ensures Committed(orders[k := o], cid, n) ==
            Committed(orders, cid, n) - Share(orders, cid, k) + Share(orders[k := o], cid, k)
  {
    if k < n - 1 {
      CommittedUpdate(orders, cid, n - 1, k, o);
    } else {
      CommittedAgree(orders[k := o], orders, cid, n - 1);
    }
  }

  /** With no negative price, every share is covered by the sum it is part of. */
  lemma {:induction false} CommittedCovers(orders: map<Id, Order>, cid: Id, n: nat, k: nat)
    requires forall j :: j in orders ==> orders[j].price >= 0
    requires k < n
    ensures 0 <= Share(orders, cid, k) <= Committed(orders, cid, n)
  {
    if k < n - 1 {
      CommittedCovers(orders, cid, n - 1, k);
    } else {
      CommittedNonNegative(orders, cid, n - 1);
    }
  }

  lemma {:induction false} CommittedNonNegative(orders: map<Id, Order>, cid: Id, n: nat)
    requires forall j :: j in orders ==> orders[j].price >= 0
    ensures Committed(orders, cid, n) >= 0
  {
    if n > 0 {
      CommittedNonNegative(orders, cid, n - 1);
    }
  }

  /** The ledger's invariant over the stored campaigns and orders, whose ids
      are all below `n`: every order is valid, belongs to a stored campaign
      and has that campaign's advertiser, and every campaign's allocated
      amount is what its live orders commit and stays within its total. */
  ghost predicate Books(campaigns: map<Id, C.Campaign>, orders: map<Id, Order>, n: nat)
  {
    && (forall k :: k in orders ==>
          k < n && SchemaValid(orders[k]) && orders[k].campaignId in campaigns &&
          orders[k].advertiserId == campaigns[orders[k].campaignId].advertiserId)
    && (forall cid :: cid in campaigns ==>
          campaigns[cid].budget.allocatedAmount == Committed(orders, cid, n) &&
          C.WithinBudget(campaigns[cid].budget))
  }

  /** A fresh campaign with nothing allocated and a non-negative total joins the books. */
  lemma BooksAddCampaign(campaigns: map<Id, C.Campaign>, orders: map<Id, Order>, n: nat, cid: Id, c: C.Campaign)
    requires Books(campaigns, orders, n)
    requires cid !in campaigns && c.budget.allocatedAmount == 0 && c.budget.total >= 0
    ensures Books(campaigns[cid := c], orders, n)
  {
    CommittedAgree(orders, map[], cid, n);
    CommittedZero(cid, n);
  }

  lemma {:induction false} CommittedZero(cid: Id, n: nat)
    ensures Committed(map[], cid, n) == 0
  {
    if n > 0 {
      CommittedZero(cid, n - 1);
    }
  }

  /** Storing a live order under the next id while reserving its price keeps the
      books, provided the price fits what its campaign had available. */
  lemma BooksPlaceOrder(campaigns: map<Id, C.Campaign>, orders: map<Id, Order>, n: nat, o: Order)
    requires Books(campaigns, orders, n)
    requires o.campaignId in campaigns && o.advertiserId == campaigns[o.campaignId].advertiserId
    requires SchemaValid(o) && o.status != Cancelled
    requires o.price <= C.Available(campaigns[o.campaignId].budget)
    ensures Books(campaigns[o.campaignId := campaigns[o.campaignId].(budget := Reserve(campaigns[o.campaignId].budget, o.price))],
                  orders[n := o], n + 1)
  {
    var cid := o.campaignId;
    var campaigns' := campaigns[cid := campaigns[cid].(budget := Reserve(campaigns[cid].budget, o.price))];
    var orders' := orders[n := o];
    forall d | d in campaigns'
      ensures campaigns'[d].budget.allocatedAmount == Committed(orders', d, n + 1)
    {
      CommittedAgree(orders', orders, d, n);
    }
  }

  /** Replacing a live order by one with the same campaign, advertiser and price
      that is still live (a status step other than cancelling) keeps the books. */
  lemma BooksAdvance(campaigns: map<Id, C.Campaign>, orders: map<Id, Order>, n: nat, k: Id, o: Order)
    requires Books(campaigns, orders, n)
    requires k in orders && orders[k].status != Cancelled && o.status != Cancelled
    requires o.campaignId == orders[k].campaignId && o.advertiserId == orders[k].advertiserId
    requires o.price == orders[k].price
    ensures Books(campaigns, orders[k := o], n)
  {
    forall d | d in campaigns
      ensures campaigns[d].budget.allocatedAmount == Committed(orders[k := o], d, n)
    {
      CommittedUpdate(orders, d, n, k, o);
    }
  }

  /** Cancelling a live order while releasing its price keeps the books. */
  lemma BooksCancel(campaigns: map<Id, C.Campaign>, orders: map<Id, Order>, n: nat, k: Id)
    requires Books(campaigns, orders, n)
    requires k in orders && orders[k].status != Cancelled
    ensures var o := orders[k]; var cid := o.campaignId;
      Books(campaigns[cid := campaigns[cid].(budget := Release(campaigns[cid].budget, o.price))],
            orders[k := o.(status := Cancelled)], n)
  {
    var o := orders[k];
    var cid := o.campaignId;
    var campaigns' := campaigns[cid := campaigns[cid].(budget := Release(campaigns[cid].budget, o.price))];
    var orders' := orders[k := o.(status := Cancelled)];
    forall d | d in campaigns'
      ensures campaigns'[d].budget.allocatedAmount == Committed(orders', d, n)
    {
      CommittedUpdate(orders, d, n, k, o.(status := Cancelled));
    }
  }

  /** The release that rejection performs never takes `allocated` below zero,
      though no check guards it: the books already cover the order's price. */
  lemma ReleaseStaysNonNegative(campaigns: map<Id, C.Campaign>, orders: map<Id, Order>, n: nat, k: Id)
    requires Books(campaigns, orders, n)
    requires k in orders && orders[k].status != Cancelled
    ensures var o := orders[k];
      Release(campaigns[o.campaignId].budget, o.price).allocatedAmount >= 0
  {
    CommittedCovers(orders, orders[k].campaignId, n, k);
  }
}
