/**
 * Each request handler of the user controller as one atomic step from a
 * snapshot of the tables to a new snapshot and a reply. HTTP, the database
 * driver and the gateway clients are gone: what a gateway reports is an
 * argument of the step.
 */
module Handlers {
  import opened Wrappers
  import opened Plans
  import opened Ledger

  /** The `data` object of an identity webhook, already signature-checked. */
  datatype EventData = EventData(
    id: string,
    emailAddresses: seq<string>,
    firstName: string,
    lastName: string,
    imageUrl: string)

  /** An identity webhook: its `type` and its `data`. */
  datatype Event = Event(kind: string, data: EventData)

  /** What the core asks a gateway to charge: the price in minor units and the ledger key as receipt. */
  datatype OrderRequest = OrderRequest(amountMinor: nat, receipt: TxId)

  /** The outcome a handler reports to its caller. */
  datatype Reply =
    | Acknowledged                                      // webhook answered with `{}`
    | Credits(balance: nat)                             // userCredits
    | InvalidCredentials
    | PlanNotFound
    | OrderCreated(request: OrderRequest, handle: string)
    | GatewayFailed(request: OrderRequest)              // the gateway call threw after the ledger insert
    | PaymentFailed
    | AlreadyVerified
    | CreditsAdded
    | ServerError                                       // a thrown error answered with status 500
  {
    /** The `message` field of the JSON reply, where the handler sets a fixed one. */
    function Message(): Option<string>
    {
      match this
      case InvalidCredentials => Some("Invalid Credentials")
      case PlanNotFound => Some("Plan not found")
      case PaymentFailed => Some("Payment Failed")
      case AlreadyVerified => Some("Payment Already Verified")
      case CreditsAdded => Some("Credits Added")
      case _ => None
    }
  }

  datatype Step = Step(db: Db, reply: Reply)

  // ---------------------------------------------------------------------------
  // Identity sync
  // ---------------------------------------------------------------------------

  /** The profile fields an identity payload carries; callers ensure an email is present. */
  function Profile(d: EventData, creditBalance: nat): User
    requires |d.emailAddresses| > 0
  {
    User(d.emailAddresses[0], d.firstName, d.lastName, d.imageUrl, creditBalance)
  }

  /**
   * Apply one verified identity event. Reading the first email address of an
   * event without one throws, and so does inserting a `clerkId` already present;
   * both answer with a server error and write nothing.
   */
  function ApplyEvent(db: Db, ev: Event, defaultBalance: nat): (s: Step)
    ensures s.db.transactions == db.transactions && s.db.nextId == db.nextId
    ensures s.reply == Acknowledged || (s.reply == ServerError && s.db == db)
    ensures ev.kind == "user.created" ==>
      (s.reply == Acknowledged <==> |ev.data.emailAddresses| > 0 && ev.data.id !in db.users)
    ensures ev.kind == "user.created" && s.reply == Acknowledged ==>
      && s.db.users.Keys == db.users.Keys + {ev.data.id}
      && s.db.users[ev.data.id] == Profile(ev.data, defaultBalance)
      && forall u :: u in db.users ==> s.db.users[u] == db.users[u]
    ensures ev.kind == "user.updated" ==>
      && (s.reply == Acknowledged <==> |ev.data.emailAddresses| > 0)
      && s.db.users.Keys == db.users.Keys
      && forall u :: u in db.users ==>
           && s.db.users[u].creditBalance == db.users[u].creditBalance
           && (u != ev.data.id ==> s.db.users[u] == db.users[u])
    ensures ev.kind == "user.updated" && s.reply == Acknowledged && ev.data.id in db.users ==>
      var u := s.db.users[ev.data.id];
      && u.email == ev.data.emailAddresses[0]
      && u.firstName == ev.data.firstName
      && u.lastName == ev.data.lastName
      && u.photo == ev.data.imageUrl
    ensures ev.kind == "user.deleted" ==>
      && s.reply == Acknowledged
      && s.db.users.Keys == db.users.Keys - {ev.data.id}
      && forall u :: u in s.db.users ==> s.db.users[u] == db.users[u]
    ensures ev.kind !in {"user.created", "user.updated", "user.deleted"} ==> s == Step(db, Acknowledged)
  {
    var d := ev.data;
    if ev.kind == "user.created" then
      if |d.emailAddresses| == 0 || d.id in db.users then Step(db, ServerError)
      else Step(db.(users := db.users[d.id := Profile(d, defaultBalance)]), Acknowledged)
    else if ev.kind == "user.updated" then
      if |d.emailAddresses| == 0 then Step(db, ServerError)
      else if d.id !in db.users then Step(db, Acknowledged)
      else
        var balance := db.users[d.id].creditBalance;
        Step(db.(users := db.users[d.id := Profile(d, balance)]), Acknowledged)
    else if ev.kind == "user.deleted" then
      Step(db.(users := db.users - {d.id}), Acknowledged)
    else
      Step(db, Acknowledged)
  }

  /** The opening balances after an event: a newly created user opens at the default balance. */
  ghost function Reopen(db: Db, opening: map<string, int>, ev: Event, defaultBalance: nat): map<string, int>
  {
    if ev.kind == "user.created" && ApplyEvent(db, ev, defaultBalance).reply == Acknowledged
    then opening[ev.data.id := defaultBalance - Credited(db, ev.data.id)]
    else opening
  }

  /** Identity events keep every balance consistent with the ledger. */
  lemma ApplyEventKeepsAccounts(db: Db, opening: map<string, int>, ev: Event, defaultBalance: nat)
    requires Accounted(db, opening)
    ensures Accounted(ApplyEvent(db, ev, defaultBalance).db, Reopen(db, opening, ev, defaultBalance))
  {
    var s := ApplyEvent(db, ev, defaultBalance);
    assert forall u :: Credited(s.db, u) == Credited(db, u);
  }

  // ---------------------------------------------------------------------------
  // Payment initiation (shared by the Razorpay and the Stripe handler)
  // ---------------------------------------------------------------------------

  /**
   * Start a purchase: validate the user and the plan name, resolve the plan,
   * append one unpaid ledger entry under a fresh key, and ask the gateway to
   * charge the plan's price in minor units. `gateway` is the handle the
   * gateway returns, or None when the gateway call throws; the entry is
   * written either way.
   */
  function Initiate(db: Db, clerkId: string, planId: Option<string>, gateway: Option<string>): (s: Step)
    ensures s.reply == InvalidCredentials <==> clerkId !in db.users || planId.None? || planId.value == ""
    ensures s.reply == PlanNotFound <==>
      clerkId in db.users && planId.Some? && planId.value != "" && planId.value !in PlanNames
    ensures s.reply == InvalidCredentials || s.reply == PlanNotFound || s.reply.OrderCreated? || s.reply.GatewayFailed?
    ensures s.reply == InvalidCredentials || s.reply == PlanNotFound ==> s.db == db
    ensures s.reply.Message() == Some("Invalid Credentials") <==>
      clerkId !in db.users || planId.None? || planId.value == ""
    ensures s.reply.Message() == Some("Plan not found") <==>
      clerkId in db.users && planId.Some? && planId.value != "" && planId.value !in PlanNames
    ensures s.reply.OrderCreated? || s.reply.GatewayFailed? ==> (s.reply.OrderCreated? <==> gateway.Some?)
    ensures s.reply.OrderCreated? || s.reply.GatewayFailed? ==>
      && planId.Some? && planId.value in PlanNames
      && var p := LookupPlan(planId.value).value;
      && s.db.users == db.users
      && s.db.nextId == db.nextId + 1
      && s.db.transactions == db.transactions[db.nextId := Transaction(clerkId, planId.value, p.amount, p.credits, false)]
      && s.reply.request == OrderRequest(p.amount * 100, db.nextId)
      && (s.reply.OrderCreated? ==> s.reply.handle == gateway.value)
  {
    if clerkId !in db.users || planId.None? || planId.value == "" then
      Step(db, InvalidCredentials)
    else
      match LookupPlan(planId.value)
      case None => Step(db, PlanNotFound)
      case Some(p) =>
        var id := db.nextId;
        var entry := Transaction(clerkId, planId.value, p.amount, p.credits, false);
        var db' := db.(transactions := db.transactions[id := entry], nextId := id + 1);
        var request := OrderRequest(MinorUnits(p), id);
        match gateway
        case Some(handle) => Step(db', OrderCreated(request, handle))
        case None => Step(db', GatewayFailed(request))
  }

  /** On a well-formed ledger, a started purchase adds exactly one new entry and keeps the others. */
  lemma InitiateAddsOneEntry(db: Db, clerkId: string, planId: Option<string>, gateway: Option<string>)
    requires WellFormed(db)
    ensures var s := Initiate(db, clerkId, planId, gateway);
      s.reply.OrderCreated? || s.reply.GatewayFailed? ==>
        && db.nextId !in db.transactions
        && s.db.transactions.Keys == db.transactions.Keys + {db.nextId}
        && |s.db.transactions| == |db.transactions| + 1
        && forall id :: id in db.transactions ==> s.db.transactions[id] == db.transactions[id]
  {
  }

  /** Starting a purchase keeps every balance consistent with the ledger. */
  lemma InitiateKeepsAccounts(db: Db, opening: map<string, int>, clerkId: string, planId: Option<string>, gateway: Option<string>)
    requires Accounted(db, opening)
    ensures Accounted(Initiate(db, clerkId, planId, gateway).db, opening)
  {
    var s := Initiate(db, clerkId, planId, gateway);
    if s.db != db {
      var n := db.nextId;
      var entry := s.db.transactions[n];
      forall u | u in s.db.users
        ensures Credited(s.db, u) == Credited(db, u)
      {
        PaidCreditsBeyond(db.transactions, u, n, n, entry);
      }
    }
  }

  // ---------------------------------------------------------------------------
  // Payment reconciliation (shared by the Razorpay and the Stripe handler)
  // ---------------------------------------------------------------------------

  /** Razorpay reports a settled order with the status "paid". */
  predicate RazorpayPaid(status: string)
  {
    status == "paid"
  }

  /** What fetching a Razorpay order yields: its `status` and its `receipt` (the ledger key). */
  datatype RazorpayOrder = RazorpayOrder(status: string, receipt: TxId)

  /**
   * Razorpay verification. `fetched` is the order the gateway returns, or None
   * when the fetch throws (no gateway client, unknown order id); a failed
   * fetch answers with a server error before anything is read or written.
   */
  function VerifyRazorpayStep(db: Db, fetched: Option<RazorpayOrder>): (s: Step)
    ensures fetched.None? ==> s == Step(db, ServerError)
    ensures fetched.Some? ==> s == Reconcile(db, fetched.value.receipt, RazorpayPaid(fetched.value.status))
    ensures s.reply != CreditsAdded ==> s.db == db
  {
    match fetched
    case None => Step(db, ServerError)
    case Some(order) => Reconcile(db, order.receipt, RazorpayPaid(order.status))
  }

  /** The Stripe redirect reports success by the string "true". */
  predicate StripeSucceeded(success: string)
  {
    success == "true"
  }

  /**
   * Close a purchase. The gateway status is checked first; then the entry is
   * looked up, an entry already paid is left alone, and otherwise its owner is
   * credited with its credits and the entry is marked paid. A missing entry or
   * a missing owner throws before anything is written.
   */
  function Reconcile(db: Db, ref: TxId, statusOk: bool): (s: Step)
    ensures !statusOk ==> s == Step(db, PaymentFailed)
    ensures s.reply == PaymentFailed <==> !statusOk
    ensures s.reply == ServerError <==>
      statusOk && (ref !in db.transactions
                   || (!db.transactions[ref].payment && db.transactions[ref].clerkId !in db.users))
    ensures s.reply.Message() == Some("Payment Failed") <==> !statusOk
    ensures s.reply.Message() == Some("Payment Already Verified") <==>
      statusOk && ref in db.transactions && db.transactions[ref].payment
    ensures s.reply.Message() == Some("Credits Added") <==>
      statusOk && ref in db.transactions && !db.transactions[ref].payment && db.transactions[ref].clerkId in db.users
    ensures s.reply == PaymentFailed || s.reply == AlreadyVerified || s.reply == CreditsAdded || s.reply == ServerError
    ensures s.reply != CreditsAdded ==> s.db == db
    ensures s.reply == AlreadyVerified <==> statusOk && ref in db.transactions && db.transactions[ref].payment
    ensures s.reply == CreditsAdded <==>
      statusOk && ref in db.transactions && !db.transactions[ref].payment && db.transactions[ref].clerkId in db.users
    ensures s.reply == CreditsAdded ==>
      var t := db.transactions[ref];
      && s.db.nextId == db.nextId
      && s.db.transactions == db.transactions[ref := t.(payment := true)]
      && s.db.users.Keys == db.users.Keys
      && s.db.users[t.clerkId].creditBalance == db.users[t.clerkId].creditBalance + t.credits
      && s.db.users[t.clerkId].(creditBalance := 0) == db.users[t.clerkId].(creditBalance := 0)
      && forall u :: u in db.users && u != t.clerkId ==> s.db.users[u] == db.users[u]
  {
    if !statusOk then Step(db, PaymentFailed)
    else if ref !in db.transactions then Step(db, ServerError)
    else
      var t := db.transactions[ref];
      if t.payment then Step(db, AlreadyVerified)
      else if t.clerkId !in db.users then Step(db, ServerError)
      else
        var u := db.users[t.clerkId];
        var users' := db.users[t.clerkId := u.(creditBalance := u.creditBalance + t.credits)];
        var txs' := db.transactions[ref := t.(payment := true)];
        Step(db.(users := users', transactions := txs'), CreditsAdded)
  }

  /**
   * Reconciling twice in a row has the effect of reconciling once: the second
   * call writes nothing and never credits again.
   */
  lemma ReconcileIdempotent(db: Db, ref: TxId, statusOk: bool)
    ensures var first := Reconcile(db, ref, statusOk);
      var second := Reconcile(first.db, ref, statusOk);
      && second.db == first.db
      && second.reply != CreditsAdded
      && (first.reply == CreditsAdded ==> second.reply == AlreadyVerified)
  {
  }

  /** A paid entry stays paid, whatever is reconciled. */
  lemma ReconcileKeepsPaid(db: Db, ref: TxId, statusOk: bool, id: TxId)
    requires id in db.transactions && db.transactions[id].payment
    ensures var s := Reconcile(db, ref, statusOk);
      id in s.db.transactions && s.db.transactions[id] == db.transactions[id]
  {
  }

  /**
   * Reconciliation keeps every balance consistent with the ledger: the one
   * credit it grants is matched by the one entry it marks paid.
   */
  lemma ReconcileKeepsAccounts(db: Db, opening: map<string, int>, ref: TxId, statusOk: bool)
    requires Accounted(db, opening)
    ensures Accounted(Reconcile(db, ref, statusOk).db, opening)
  {
    var s := Reconcile(db, ref, statusOk);
    if s.reply == CreditsAdded {
      var t := db.transactions[ref];
      var paid := t.(payment := true);
      assert WellFormed(s.db);
      forall u | u in s.db.users
        ensures s.db.users[u].creditBalance == opening[u] + Credited(s.db, u)
      {
        PaidCreditsUpdate(db.transactions, u, db.nextId, ref, paid);
        assert Contribution(db.transactions, u, ref) == 0;
        if u == t.clerkId {
          assert Contribution(s.db.transactions, u, ref) == t.credits;
        } else {
          assert Contribution(s.db.transactions, u, ref) == 0;
        }
      }
    }
  }

  // ---------------------------------------------------------------------------
  // A whole purchase
  // ---------------------------------------------------------------------------

  /**
   * A user opened at 0 buys the Basic plan: the order asks for 1000 minor
   * units, the first confirmation adds 100 credits, and a repeated
   * confirmation is refused and leaves the balance at 100.
   */
  lemma BasicPurchaseEndToEnd(email: string)
    ensures
      var ev := Event("user.created", EventData("u", [email], "F", "L", "p"));
      var s0 := ApplyEvent(Db(map[], map[], 0), ev, 0);
      var s1 := Initiate(s0.db, "u", Some("Basic"), Some("order"));
      var s2 := Reconcile(s1.db, 0, RazorpayPaid("paid"));
      var s3 := Reconcile(s2.db, 0, RazorpayPaid("paid"));
      && s1.reply == OrderCreated(OrderRequest(1000, 0), "order")
      && s1.db.transactions[0] == Transaction("u", "Basic", 10, 100, false)
      && s2.reply == CreditsAdded
      && s2.db.users["u"].creditBalance == 100
      && s2.db.transactions[0].payment
      && s3.reply == AlreadyVerified
      && s3.db.users["u"].creditBalance == 100
  {
    PlanTableEntries();
  }
}
