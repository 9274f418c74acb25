/**
 * The fixed price table that both payment handlers consult before anything
 * is written to the ledger.
 */
module Plans {
  import opened Wrappers

  /** A purchasable bundle: how many credits it grants and its price in major currency units. */
  datatype Plan = Plan(credits: nat, amount: nat)

  /** The names a client may send as `planId`. */
  const PlanNames: set<string> := {"Basic", "Advanced", "Business"}

  const PlanTable: map<string, Plan> :=
    map["Basic" := Plan(100, 10), "Advanced" := Plan(500, 50), "Business" := Plan(5000, 250)]

  /**
   * Resolve a plan name against the own entries of the table. Only the three
   * listed names resolve, and every resolved plan grants credits for a price.
   */
  function LookupPlan(planId: string): (r: Option<Plan>)
    ensures r.Some? <==> planId in PlanNames
    ensures r.Some? ==> r.value.credits > 0 && r.value.amount > 0
  {
    if planId in PlanTable then Some(PlanTable[planId]) else None
  }

  /** The exact table, entry by entry. */
  lemma PlanTableEntries()
    ensures LookupPlan("Basic") == Some(Plan(100, 10))
    ensures LookupPlan("Advanced") == Some(Plan(500, 50))
    ensures LookupPlan("Business") == Some(Plan(5000, 250))
  {
  }

  /** The price in minor currency units that a gateway is asked to charge. */
  function MinorUnits(p: Plan): nat
  {
    p.amount * 100
  }

  // ---------------------------------------------------------------------------
  // The lookup as the handlers write it: `plans[planId]` on a JavaScript object
  // literal. Property access also finds the members the literal inherits from
  // Object.prototype, and every one of them is truthy, so the `!plan` guard
  // lets these names through.
  // ---------------------------------------------------------------------------

  /** Property names that every plain object literal inherits. */
  const InheritedKeys: set<string> := {
    "constructor", "hasOwnProperty", "isPrototypeOf", "propertyIsEnumerable",
    "toLocaleString", "toString", "valueOf", "__proto__",
    "__defineGetter__", "__defineSetter__", "__lookupGetter__", "__lookupSetter__"
  }

  /** What `plans[planId]` evaluates to. */
  datatype PropertyValue = OwnPlan(plan: Plan) | InheritedMember | Undefined

  function PlanPropertyAsWritten(planId: string): (v: PropertyValue)
    ensures v.OwnPlan? <==> planId in PlanNames
    ensures v.OwnPlan? ==> LookupPlan(planId) == Some(v.plan)
    ensures v.Undefined? <==> planId !in PlanNames && planId !in InheritedKeys
  {
    if planId in PlanTable then OwnPlan(PlanTable[planId])
    else if planId in InheritedKeys then InheritedMember
    else Undefined
  }

  /** JavaScript truthiness of the looked-up value: only `undefined` is falsy here. */
  predicate Truthy(v: PropertyValue)
  {
    !v.Undefined?
  }

  /**
   * The guard `if (!plan)` as written accepts "constructor", which names no
   * plan; the own-key lookup rejects it.
   */
  lemma InheritedKeyPassesGuard()
    ensures Truthy(PlanPropertyAsWritten("constructor"))
    ensures PlanPropertyAsWritten("constructor") == InheritedMember
    ensures LookupPlan("constructor") == None
  {
  }

  /** The own-key lookup rejects every inherited name, and agrees with the object lookup on the rest. */
  lemma {:induction false} LookupPlanRejectsInherited(planId: string)
    ensures planId in InheritedKeys ==> LookupPlan(planId) == None
    ensures planId !in InheritedKeys ==>
      (LookupPlan(planId).Some? <==> Truthy(PlanPropertyAsWritten(planId)))
  {
  }
}
