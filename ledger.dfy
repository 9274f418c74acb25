/**
 * The two tables the controller works on: the user directory keyed by
 * `clerkId`, and the transaction ledger keyed by transaction id, together
 * with the accounting that ties credit balances to paid transactions.
 */
module Ledger {
  import opened Wrappers
  import Plans

  /** Ledger keys. New keys come from a counter, so a fresh key is the counter's value. */
  type TxId = nat

  datatype User = User(email: string, firstName: string, lastName: string, photo: string, creditBalance: nat)

  datatype Transaction = Transaction(clerkId: string, plan: string, amount: nat, credits: nat, payment: bool)

  /** A snapshot of both tables and of the next unused ledger key. */
  datatype Db = Db(users: map<string, User>, transactions: map<TxId, Transaction>, nextId: TxId)

  /** A ledger entry whose price and credits are the ones the plan table fixes for its plan. */
  predicate Priced(t: Transaction)
  {
    Plans.LookupPlan(t.plan) == Some(Plans.Plan(t.credits, t.amount))
  }

  /** Every key in use lies below the counter, and every entry is priced by the table. */
  ghost predicate WellFormed(db: Db)
  {
    forall id :: id in db.transactions ==> id < db.nextId && Priced(db.transactions[id])
  }

  /** The credits ledger entry `id` has granted to `owner`: its credits once it is paid and theirs. */
  function Contribution(txs: map<TxId, Transaction>, owner: string, id: TxId): nat
  {
    if id in txs && txs[id].payment && txs[id].clerkId == owner then txs[id].credits else 0
  }

  /** Total credits granted to `owner` by the paid entries with keys below `n`. */
  function PaidCredits(txs: map<TxId, Transaction>, owner: string, n: nat): nat
    decreases n
  {
    if n == 0 then 0 else PaidCredits(txs, owner, n - 1) + Contribution(txs, owner, n - 1)
  }

  /** Total credits granted to `owner` by the paid entries of the ledger. */
  function Credited(db: Db, owner: string): nat
  {
    PaidCredits(db.transactions, owner, db.nextId)
  }

  /** Writing at or above the bound does not change the sum below it. */
  lemma {:induction false} PaidCreditsBeyond(txs: map<TxId, Transaction>, owner: string, n: nat, id: TxId, t: Transaction)
    requires n <= id
    ensures PaidCredits(txs[id := t], owner, n) == PaidCredits(txs, owner, n)
  {
    if n > 0 {
      PaidCreditsBeyond(txs, owner, n - 1, id, t);
    }
  }

  /** Overwriting one entry below the bound changes the sum by exactly the change in that entry's contribution. */
  lemma {:induction false} PaidCreditsUpdate(txs: map<TxId, Transaction>, owner: string, n: nat, id: TxId, t: Transaction)
    requires id < n
    ensures PaidCredits(txs[id := t], owner, n)
            == PaidCredits(txs, owner, n) - Contribution(txs, owner, id) + Contribution(txs[id := t], owner, id)
  {
    if id == n - 1 {
      PaidCreditsBeyond(txs, owner, n - 1, id, t);
    } else {
      PaidCreditsUpdate(txs, owner, n - 1, id, t);
    }
  }

  /**
   * The accounting invariant: the ledger is well formed and every user's
   * balance is the balance they were opened with plus the credits of the paid
   * transactions they own. `opening[u]` records the balance at creation minus
   * what the ledger had already credited to `u` by then.
   */
  ghost predicate Accounted(db: Db, opening: map<string, int>)
  {
    && WellFormed(db)
    && forall u :: u in db.users ==>
         u in opening && db.users[u].creditBalance == opening[u] + Credited(db, u)
  }
}
