/** The order state machine: which status each lifecycle handler requires,
    which it writes, and which role the route demands. */
module Lifecycle {

  import opened Common
  import opened OrderModel

  datatype Action = Accept | Reject | Submit | Approve

  /** The role `authorize` demands on each lifecycle route. */
  function ActionRole(a: Action): (r: Role)
    ensures r != Admin
    ensures r == Advertiser <==> a == Approve
  {
    match a
    case Accept => Blogger
    case Reject => Blogger
    case Submit => Blogger
    case Approve => Advertiser
  }

  /** The role `authorize` demands on the order-creation route. */
  const CreateRole: Role := Advertiser

  /** The status a handler's query requires, mapped to the status it writes. */
  function Step(from: OrderStatus, a: Action): Option<OrderStatus>
  {
    match (from, a)
    case (Pending, Accept) => Some(InProgress)
    case (Pending, Reject) => Some(Cancelled)
    case (InProgress, Submit) => Some(Review)
    case (Review, Approve) => Some(Completed)
    case _ => None
  }

  predicate Terminal(s: OrderStatus)
  {
    s == Completed || s == Cancelled
  }

  /** The status after a sequence of actions, if every one of them applies. */
  function Run(s: OrderStatus, actions: seq<Action>): Option<OrderStatus>
    decreases |actions|
  {
    if actions == [] then Some(s)
    else match Step(s, actions[0])
      case None => None
      case Some(t) => Run(t, actions[1..])
  }

  /** How far along the lifecycle a status is. */
  function Rank(s: OrderStatus): nat
  {
    match s
    case Pending => 0
    case Accepted => 0
    case InProgress => 1
    case Review => 2
    case Completed => 3
    case Cancelled => 3
  }

  function Occurrences(actions: seq<Action>, a: Action): nat
  {
    if actions == [] then 0
    else Occurrences(actions[1..], a) + (if actions[0] == a then 1 else 0)
  }

  /** Every step moves forward, never into `Accepted`, never out of a terminal
      status, and never out of `Accepted` either. */
  lemma StepAdvances(s: OrderStatus, a: Action)
    ensures Step(s, a).Some? ==>
      Rank(Step(s, a).value) > Rank(s) && Step(s, a).value != Accepted && !Terminal(s) && s != Accepted
  {
  }

  /** An order goes through at most three transitions from pending. */
  lemma {:induction false} RunIsShort(s: OrderStatus, actions: seq<Action>)
    ensures Run(s, actions).Some? ==> Rank(s) + |actions| <= 3
    decreases |actions|
  {
    if actions != [] && Step(s, actions[0]).Some? {
      RunIsShort(Step(s, actions[0]).value, actions[1..]);
    }
  }

  /** An order that does not start as `accepted` never becomes `accepted`. */
  lemma {:induction false} RunAvoidsAccepted(s: OrderStatus, actions: seq<Action>)
    requires s != Accepted
    ensures Run(s, actions).Some? ==> Run(s, actions).value != Accepted
    decreases |actions|
  {
    if actions != [] && Step(s, actions[0]).Some? {
      RunAvoidsAccepted(Step(s, actions[0]).value, actions[1..]);
    }
  }

  /** Approval applies at most once in any run, and never from a terminal
      status: completion (and `paidAt`) happens once. */
  lemma {:induction false} ApproveAtMostOnce(s: OrderStatus, actions: seq<Action>)
    ensures Run(s, actions).Some? ==>
      Occurrences(actions, Approve) <= (if Terminal(s) || s == Accepted then 0 else 1)
    decreases |actions|
  {
    if actions != [] && Step(s, actions[0]).Some? {
      var t := Step(s, actions[0]).value;
      ApproveAtMostOnce(t, actions[1..]);
    }
  }

  /** From a terminal status only the empty run applies. */
  lemma TerminalIsFinal(s: OrderStatus, actions: seq<Action>)
    requires Terminal(s)
    ensures Run(s, actions).Some? <==> actions == []
  {
  }

  /** The only way from review to completed is one approval. */
  lemma ReviewToCompleted(actions: seq<Action>)
    ensures Run(Review, actions) == Some(Completed) <==> actions == [Approve]
  {
    if |actions| >= 1 && actions[0] == Approve {
      TerminalIsFinal(Completed, actions[1..]);
      assert actions == [Approve] <==> actions[1..] == [];
    }
  }

  /** The only way from in progress to completed is submit, then approve. */
  lemma InProgressToCompleted(actions: seq<Action>)
    ensures Run(InProgress, actions) == Some(Completed) <==> actions == [Submit, Approve]
  {
    if |actions| >= 1 && actions[0] == Submit {
      ReviewToCompleted(actions[1..]);
      assert actions == [Submit, Approve] <==> actions[1..] == [Approve];
    }
  }

  /** The only way from pending to completed is accept, submit, approve; the
      only way from pending to cancelled is a single reject. */
  lemma OnlyPaths(actions: seq<Action>)
    ensures Run(Pending, actions) == Some(Completed) <==> actions == [Accept, Submit, Approve]
    ensures Run(Pending, actions) == Some(Cancelled) <==> actions == [Reject]
  {
    if |actions| >= 1 && actions[0] == Accept {
      InProgressToCompleted(actions[1..]);
      assert actions == [Accept, Submit, Approve] <==> actions[1..] == [Submit, Approve];
      RunAvoidsCancelled(InProgress, actions[1..]);
    } else if |actions| >= 1 && actions[0] == Reject {
      TerminalIsFinal(Cancelled, actions[1..]);
      assert actions == [Reject] <==> actions[1..] == [];
    }
  }

  /** Past pending, an order can no longer be cancelled. */
  lemma {:induction false} RunAvoidsCancelled(s: OrderStatus, actions: seq<Action>)
    requires s != Pending && s != Cancelled
    ensures Run(s, actions) != Some(Cancelled)
    decreases |actions|
  {
    if actions != [] && Step(s, actions[0]).Some? {
      RunAvoidsCancelled(Step(s, actions[0]).value, actions[1..]);
    }
  }
}
