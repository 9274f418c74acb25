/**
 * The user controller as an object holding the two tables. Each handler is
 * one atomic method; its new tables and its reply are those of the matching
 * step in module Handlers, and every method keeps the accounting invariant.
 */
module UserController {
  import opened Wrappers
  import opened Ledger
  import Plans
  import Handlers

  class Controller {
    /** The user directory, keyed by `clerkId`. */
    var users: map<string, User>
    /** The transaction ledger, keyed by transaction id. */
    var transactions: map<TxId, Transaction>
    /** The next unused ledger key. */
    var nextId: TxId
    /** The balance a new user record starts with (a default of the user schema). */
    const defaultBalance: nat
    /** For each user, the balance at creation minus what the ledger had credited them by then. */
    ghost var opening: map<string, int>

    function State(): Db
      reads this
    {
      Db(users, transactions, nextId)
    }

    ghost predicate Valid()
      reads this
    {
      Accounted(State(), opening)
    }

    constructor (defaultBalance: nat)
      ensures Valid()
      ensures State() == Db(map[], map[], 0) && this.defaultBalance == defaultBalance
    {
      users := map[];
      transactions := map[];
      nextId := 0;
      this.defaultBalance := defaultBalance;
      opening := map[];
    }

    /** Identity webhook, after signature verification. */
    method ClerkWebhooks(ev: Handlers.Event) returns (reply: Handlers.Reply)
      requires Valid()
      modifies this
      ensures Valid() && opening == Handlers.Reopen(old(State()), old(opening), ev, defaultBalance)
      ensures Handlers.Step(State(), reply) == Handlers.ApplyEvent(old(State()), ev, defaultBalance)
    {
      ghost var before := State();
      Handlers.ApplyEventKeepsAccounts(before, opening, ev, defaultBalance);
      opening := Handlers.Reopen(before, opening, ev, defaultBalance);
      var data := ev.data;
      if ev.kind == "user.created" {
        if |data.emailAddresses| == 0 || data.id in users {
          reply := Handlers.ServerError;
          return;
        }
        users := users[data.id := User(data.emailAddresses[0], data.firstName, data.lastName, data.imageUrl, defaultBalance)];
        reply := Handlers.Acknowledged;
      } else if ev.kind == "user.updated" {
        if |data.emailAddresses| == 0 {
          reply := Handlers.ServerError;
          return;
        }
        if data.id in users {
          var balance := users[data.id].creditBalance;
          users := users[data.id := User(data.emailAddresses[0], data.firstName, data.lastName, data.imageUrl, balance)];
        }
        reply := Handlers.Acknowledged;
      } else if ev.kind == "user.deleted" {
        users := users - {data.id};
        reply := Handlers.Acknowledged;
      } else {
        reply := Handlers.Acknowledged;
      }
    }

    /** The credit balance of a user; an unknown `clerkId` throws. */
    method UserCredits(clerkId: string) returns (reply: Handlers.Reply)
      ensures reply.Credits? <==> clerkId in users
      ensures reply.Credits? ==> reply.balance == users[clerkId].creditBalance
      ensures !reply.Credits? ==> reply == Handlers.ServerError
    {
      if clerkId in users {
        reply := Handlers.Credits(users[clerkId].creditBalance);
      } else {
        reply := Handlers.ServerError;
      }
    }

    /** The initiation logic both payment handlers share. */
    method InitiatePayment(clerkId: string, planId: Option<string>, gateway: Option<string>) returns (reply: Handlers.Reply)
      requires Valid()
      modifies this
      ensures Valid() && opening == old(opening)
      ensures Handlers.Step(State(), reply) == Handlers.Initiate(old(State()), clerkId, planId, gateway)
    {
      Handlers.InitiateKeepsAccounts(State(), opening, clerkId, planId, gateway);
      if clerkId !in users || planId.None? || planId.value == "" {
        return Handlers.InvalidCredentials;
      }
      var plan := Plans.LookupPlan(planId.value);
      if plan.None? {
        return Handlers.PlanNotFound;
      }
      var id := nextId;
      transactions := transactions[id := Transaction(clerkId, planId.value, plan.value.amount, plan.value.credits, false)];
      nextId := nextId + 1;
      var request := Handlers.OrderRequest(Plans.MinorUnits(plan.value), id);
      if gateway.Some? {
        reply := Handlers.OrderCreated(request, gateway.value);
      } else {
        reply := Handlers.GatewayFailed(request);
      }
    }

    /** Razorpay initiation; `order` is the created order, or None when the gateway throws. */
    method PaymentRazorpay(clerkId: string, planId: Option<string>, order: Option<string>) returns (reply: Handlers.Reply)
      requires Valid()
      modifies this
      ensures Valid() && opening == old(opening)
      ensures Handlers.Step(State(), reply) == Handlers.Initiate(old(State()), clerkId, planId, order)
    {
      reply := InitiatePayment(clerkId, planId, order);
    }

    /** Stripe initiation; `sessionUrl` is the checkout session's URL, or None when the gateway throws. */
    method PaymentStripe(clerkId: string, planId: Option<string>, sessionUrl: Option<string>) returns (reply: Handlers.Reply)
      requires Valid()
      modifies this
      ensures Valid() && opening == old(opening)
      ensures Handlers.Step(State(), reply) == Handlers.Initiate(old(State()), clerkId, planId, sessionUrl)
    {
      reply := InitiatePayment(clerkId, planId, sessionUrl);
    }

    /** The reconciliation logic both verification handlers share. */
    method ReconcilePayment(ref: TxId, statusOk: bool) returns (reply: Handlers.Reply)
      requires Valid()
      modifies this
      ensures Valid() && opening == old(opening)
      ensures Handlers.Step(State(), reply) == Handlers.Reconcile(old(State()), ref, statusOk)
    {
      Handlers.ReconcileKeepsAccounts(State(), opening, ref, statusOk);
      if !statusOk {
        return Handlers.PaymentFailed;
      }
      if ref !in transactions {
        return Handlers.ServerError;
      }
      var t := transactions[ref];
      if t.payment {
        return Handlers.AlreadyVerified;
      }
      if t.clerkId !in users {
        return Handlers.ServerError;
      }
      var u := users[t.clerkId];
      users := users[t.clerkId := u.(creditBalance := u.creditBalance + t.credits)];
      transactions := transactions[ref := t.(payment := true)];
      reply := Handlers.CreditsAdded;
    }

    /** Razorpay verification: the fetched order, or None when the fetch throws. */
    method VerifyRazorpay(fetched: Option<Handlers.RazorpayOrder>) returns (reply: Handlers.Reply)
      requires Valid()
      modifies this
      ensures Valid() && opening == old(opening)
      ensures Handlers.Step(State(), reply) == Handlers.VerifyRazorpayStep(old(State()), fetched)
    {
      if fetched.None? {
        return Handlers.ServerError;
      }
      var order := fetched.value;
      reply := ReconcilePayment(order.receipt, Handlers.RazorpayPaid(order.status));
    }

    /** Stripe verification: the `transactionId` and `success` the redirect carries. */
    method VerifyStripe(transactionId: TxId, success: string) returns (reply: Handlers.Reply)
      requires Valid()
      modifies this
      ensures Valid() && opening == old(opening)
      ensures Handlers.Step(State(), reply) == Handlers.Reconcile(old(State()), transactionId, Handlers.StripeSucceeded(success))
    {
      reply := ReconcilePayment(transactionId, Handlers.StripeSucceeded(success));
    }
  }
}
