/**
 Webhook deliveries of the payment provider (app/services/billing_service.py). Signatures are taken as verified.
 Times are whole seconds; JSON texts are optional, and an empty text counts as missing, as in the source.
 */
module Billing {
  import opened Wrappers

  type OrgId = nat

  /** A subscription, as far as the handler reads it. */
  datatype Subscription = Subscription(
    id: Option<string>, customer: Option<string>, metaOrg: Option<string>, metaPlan: Option<string>,
    price: Option<string>, status: string, cancelAtPeriodEnd: bool, periodEnd: Option<int>)

  datatype Body =
    | CheckoutCompleted(reference: Option<string>, metaOrg: Option<string>, customer: Option<string>,
                        subscription: Option<string>)
    | SubscriptionChanged(sub: Subscription, deleted: bool)
    | PaymentFailed(metaOrg: Option<string>, customer: Option<string>)
    | Other

  datatype Event = Event(id: string, created: Option<int>, body: Body)

  /** One delivery: the event, and the handler's clock. */
  datatype Delivery = Delivery(event: Event, now: int)

  datatype Row = Row(customer: Option<string>, subscription: Option<string>, plan: string, status: Option<string>,
                     cancelAtPeriodEnd: bool, periodEnd: Option<int>, lastEventAt: Option<int>)

  datatype Audit =
    | PlanChanged(org: OrgId, from: string, to: string, status: string)
    | PaymentFailure(org: OrgId)

  /** Applied, stale, ignored and unmatched are recorded; a failed delivery is rolled back, as if it never came. */
  datatype Outcome = Duplicate | Applied | Stale | Ignored | Unmatched | Failed

  /** The tables the handler reads and writes; `plans` is `organizations.plan`. */
  datatype State = State(plans: map<OrgId, string>, rows: map<OrgId, Row>, seen: set<string>, audit: seq<Audit>)

  /** `org_billing.stripe_customer_id` is unique. */
  ghost predicate UniqueCustomers(rows: map<OrgId, Row>) {
    forall o, p :: o in rows && p in rows && rows[o].customer.Some? && rows[o].customer == rows[p].customer ==> o == p
  }

  const FRESH_ROW := Row(None, None, "free", None, false, None, None)

  predicate Truthy(o: Option<string>) {
    o.Some? && o.value != ""
  }

  predicate Entitled(status: string) {
    status in {"active", "trialing", "past_due"}
  }

  predicate IsPaidPlan(plan: string) {
    plan in {"team", "business"}
  }

  /** Event ids are stored cut to 255 characters. */
  function Stored(id: string): string {
    if |id| <= 255 then id else id[..255]
  }

  function Created(e: Event, now: int): int {
    if e.created.Some? && e.created.value != 0 then e.created.value else now
  }

  // ---------------------------------------------------------------------------
  // Which organisation an event is about
  // ---------------------------------------------------------------------------

  predicate IsDigits(s: string) {
    s != "" && forall i :: 0 <= i < |s| ==> '0' <= s[i] <= '9'
  }

  function Number(s: string): nat
    requires forall i :: 0 <= i < |s| ==> '0' <= s[i] <= '9'
  {
    if s == "" then 0 else Number(s[..|s| - 1]) * 10 + (s[|s| - 1] as int - '0' as int)
  }

  /** The organisation a reference text names, if there is one. */
  function Named(orgs: set<OrgId>, raw: Option<string>): Option<OrgId> {
    if raw.Some? && IsDigits(raw.value) && Number(raw.value) in orgs then Some(Number(raw.value)) else None
  }

  function Linked(s: State, customer: Option<string>): Option<OrgId>
    requires UniqueCustomers(s.rows)
  {
    if Truthy(customer) && exists o :: o in s.rows && s.rows[o].customer == customer then
      var o :| o in s.rows && s.rows[o].customer == customer;
      if o in s.plans then Some(o) else None
    else None
  }

  /** The reference text decides if it names an organisation, else the metadata, else the customer id of a row. */
  function OrgFor(s: State, reference: Option<string>, metaOrg: Option<string>, customer: Option<string>): Option<OrgId>
    requires UniqueCustomers(s.rows)
  {
    if Named(s.plans.Keys, reference).Some? then Named(s.plans.Keys, reference)
    else if Named(s.plans.Keys, metaOrg).Some? then Named(s.plans.Keys, metaOrg)
    else Linked(s, customer)
  }

  function RowOf(s: State, o: OrgId): Row {
    if o in s.rows then s.rows[o] else FRESH_ROW
  }

  // ---------------------------------------------------------------------------
  // The handlers
  // ---------------------------------------------------------------------------

  /** Commit a changed row; a customer id that another row already holds fails the whole delivery. */
  function WithRow(s: State, o: OrgId, row: Row): Option<State>
  {
    if row.customer.Some? && exists p :: p in s.rows && p != o && s.rows[p].customer == row.customer then None
    else Some(s.(rows := s.rows[o := row]))
  }

  function AfterCheckout(s: State, o: OrgId, customer: Option<string>, subscription: Option<string>): Option<State> {
    var row := RowOf(s, o);
    WithRow(s, o, row.(customer := if Truthy(customer) then customer else row.customer,
                       subscription := if Truthy(subscription) then subscription else row.subscription))
  }

  /** The plan a subscription is for: by price, or else by its metadata. */
  function PlanOf(sub: Subscription, prices: map<string, string>): Option<string> {
    if sub.price.Some? && sub.price.value in prices then Some(prices[sub.price.value])
    else if sub.metaPlan.Some? && IsPaidPlan(sub.metaPlan.value) then sub.metaPlan
    else None
  }

  function StatusOf(sub: Subscription, deleted: bool): string {
    if deleted then "canceled" else sub.status
  }

  function EffectivePlan(plan: string, status: string): string {
    if Entitled(status) then plan else "free"
  }

  predicate IsStale(row: Row, sub: Subscription, created: int, deleted: bool) {
    || (row.lastEventAt.Some? && created < row.lastEventAt.value)
    || (deleted && Truthy(row.subscription) && sub.id != row.subscription)
  }

  function NewRow(row: Row, sub: Subscription, created: int, deleted: bool, plan: string): Row {
    Row(if Truthy(sub.customer) && !Truthy(row.customer) then sub.customer else row.customer,
        if Truthy(sub.id) then sub.id else row.subscription,
        plan, Some(StatusOf(sub, deleted)), sub.cancelAtPeriodEnd, sub.periodEnd, Some(created))
  }

  function WithPlan(s: State, o: OrgId, effective: string, status: string): State
    requires o in s.plans
  {
    if s.plans[o] == effective then s
    else s.(plans := s.plans[o := effective], audit := s.audit + [PlanChanged(o, s.plans[o], effective, status)])
  }

  /** The row a handler created on the way, also when it then leaves it as it is. */
  function Touch(s: State, o: OrgId): State {
    s.(rows := s.rows[o := RowOf(s, o)])
  }

  function AfterChange(s: State, o: OrgId, sub: Subscription, created: int, deleted: bool, prices: map<string, string>)
      : (Option<State>, Outcome)
    requires o in s.plans
  {
    var row := RowOf(s, o);
    if IsStale(row, sub, created, deleted) then (Some(Touch(s, o)), Stale)
    else match PlanOf(sub, prices)
      case None => (Some(Touch(s, o)), Ignored)
      case Some(plan) =>
        match WithRow(s, o, NewRow(row, sub, created, deleted, plan))
        case None => (None, Failed)
        case Some(t) =>
          (Some(WithPlan(t, o, EffectivePlan(plan, StatusOf(sub, deleted)), StatusOf(sub, deleted))), Applied)
  }

  /** The organisation an event is about. */
  function Target(s: State, body: Body): Option<OrgId>
    requires UniqueCustomers(s.rows)
    ensures Target(s, body).Some? ==> Target(s, body).value in s.plans
  {
    match body
    case Other => None
    case CheckoutCompleted(reference, metaOrg, customer, _) => OrgFor(s, reference, metaOrg, customer)
    case SubscriptionChanged(sub, _) => OrgFor(s, None, sub.metaOrg, sub.customer)
    case PaymentFailed(metaOrg, customer) => OrgFor(s, None, metaOrg, customer)
  }

  /** What an event about organisation `o` does; None means the transaction is rolled back. */
  function HandleFor(s: State, o: OrgId, e: Event, now: int, prices: map<string, string>): (Option<State>, Outcome)
    requires o in s.plans
  {
    match e.body
    case Other => (Some(s), Ignored)
    case CheckoutCompleted(_, _, customer, subscription) =>
      var t := AfterCheckout(s, o, customer, subscription);
      (t, if t.Some? then Applied else Failed)
    case SubscriptionChanged(sub, deleted) => AfterChange(s, o, sub, Created(e, now), deleted, prices)
    case PaymentFailed(_, _) => (Some(s.(audit := s.audit + [PaymentFailure(o)])), Applied)
  }

  function Handle(s: State, e: Event, now: int, prices: map<string, string>): (Option<State>, Outcome)
    requires UniqueCustomers(s.rows)
  {
    if e.body.Other? then (Some(s), Ignored)
    else match Target(s, e.body)
      case None => (Some(s), Unmatched)
      case Some(o) => HandleFor(s, o, e, now, prices)
  }

  function Apply(s: State, d: Delivery, prices: map<string, string>): (r: (State, Outcome))
    requires UniqueCustomers(s.rows)
  {
    if Stored(d.event.id) in s.seen then (s, Duplicate)
    else
      var (t, outcome) := Handle(s, d.event, d.now, prices);
      match t
      case None => (s, Failed)
      case Some(u) => (u.(seen := u.seen + {Stored(d.event.id)}), outcome)
  }

  // ---------------------------------------------------------------------------
  // The database the handlers work on
  // ---------------------------------------------------------------------------

  lemma TouchIsInvisible(s: State, o: OrgId, row: Row)
    ensures WithRow(Touch(s, o), o, row) == WithRow(s, o, row)
  {
    assert forall p :: p != o ==> (p in Touch(s, o).rows <==> p in s.rows);
    assert Touch(s, o).rows[o := row] == s.rows[o := row];
  }

  class BillingDb {
    var plans: map<OrgId, string>
    var rows: map<OrgId, Row>
    var seen: set<string>
    var audit: seq<Audit>

    function Contents(): State
      reads this
    {
      State(plans, rows, seen, audit)
    }

    constructor (s: State)
      ensures Contents() == s
    {
      plans, rows, seen, audit := s.plans, s.rows, s.seen, s.audit;
    }

    /** `_get_or_create`. */
    method GetOrCreate(o: OrgId) returns (row: Row)
      modifies `rows
      ensures row == RowOf(old(Contents()), o)
      ensures Contents() == Touch(old(Contents()), o)
    {
      if o !in rows {
        rows := rows[o := Row(None, None, "free", None, false, None, None)];
      }
      row := rows[o];
      assert rows == old(rows)[o := row];
    }

    /** The unique constraint on customer ids, checked at commit. */
    predicate CustomerTaken(o: OrgId, customer: Option<string>)
      reads this
    {
      customer.Some? && exists p :: p in rows && p != o && rows[p].customer == customer
    }

    /** Write a row back; false when its customer id is already taken. */
    method SaveRow(o: OrgId, row: Row) returns (committed: bool)
      modifies `rows
      ensures committed <==> WithRow(old(Contents()), o, row).Some?
      ensures committed ==> Contents() == WithRow(old(Contents()), o, row).value
      ensures rows == old(rows)[o := row]
    {
      committed := !CustomerTaken(o, row.customer);
      rows := rows[o := row];
    }

    /** Change the effective plan, with an audit entry if it really changes. */
    method SetPlan(o: OrgId, effective: string, status: string)
      requires o in plans
      modifies `plans, `audit
      ensures Contents() == WithPlan(old(Contents()), o, effective, status)
    {
      if plans[o] != effective {
        audit := audit + [PlanChanged(o, plans[o], effective, status)];
        plans := plans[o := effective];
      }
    }

    /** `apply_event`: one delivery, in one transaction. */
    method ApplyEvent(d: Delivery, prices: map<string, string>) returns (outcome: Outcome)
      requires UniqueCustomers(rows)
      modifies this
      ensures (Contents(), outcome) == Apply(old(Contents()), d, prices)
    {
      var e := d.event;
      if Stored(e.id) in seen {
        return Duplicate;
      }
      var savedPlans, savedRows, savedAudit := plans, rows, audit;
      var committed := true;
      var org := Target(Contents(), e.body);
      if e.body.Other? {
        outcome := Ignored;
      } else if org == None {
        outcome := Unmatched;
      } else {
        outcome, committed := DispatchEvent(org.value, e, d.now, prices);
      }
      if committed {
        seen := seen + {Stored(e.id)};
      } else {
        plans, rows, audit := savedPlans, savedRows, savedAudit;
        outcome := Failed;
      }
    }

    method DispatchEvent(o: OrgId, e: Event, now: int, prices: map<string, string>)
      returns (outcome: Outcome, committed: bool)
      requires o in plans
      modifies this
      ensures seen == old(seen)
      ensures var (t, result) := HandleFor(old(Contents()), o, e, now, prices);
              && (committed <==> t.Some?)
              && (committed ==> Contents() == t.value && outcome == result)
    {
      match e.body {
        case Other =>
          outcome, committed := Ignored, true;
        case CheckoutCompleted(_, _, customer, subscription) =>
          outcome, committed := Checkout(o, customer, subscription);
        case SubscriptionChanged(sub, deleted) =>
          outcome, committed := Subscribe(o, sub, Created(e, now), deleted, prices);
        case PaymentFailed(_, _) =>
          audit := audit + [PaymentFailure(o)];
          outcome, committed := Applied, true;
      }
    }

    method Checkout(o: OrgId, customer: Option<string>, subscription: Option<string>)
      returns (outcome: Outcome, committed: bool)
      modifies `rows
      ensures var t := AfterCheckout(old(Contents()), o, customer, subscription);
              (committed <==> t.Some?) && (committed ==> Contents() == t.value && outcome == Applied)
    {
      var row := GetOrCreate(o);
      if Truthy(customer) {
        row := row.(customer := customer);
      }
      if Truthy(subscription) {
        row := row.(subscription := subscription);
      }
      TouchIsInvisible(old(Contents()), o, row);
      committed := SaveRow(o, row);
      outcome := Applied;
    }

    static method FillRow(row0: Row, sub: Subscription, created: int, status: string, plan: string) returns (row: Row)
      ensures row.customer == if Truthy(sub.customer) && !Truthy(row0.customer) then sub.customer else row0.customer
      ensures row.subscription == if Truthy(sub.id) then sub.id else row0.subscription
      ensures row.plan == plan && row.status == Some(status) && row.lastEventAt == Some(created)
      ensures row.cancelAtPeriodEnd == sub.cancelAtPeriodEnd && row.periodEnd == sub.periodEnd
    {
      row := row0;
      if Truthy(sub.id) {
        row := row.(subscription := sub.id);
      }
      if Truthy(sub.customer) && !Truthy(row.customer) {
        row := row.(customer := sub.customer);
      }
      row := row.(plan := plan, status := Some(status), cancelAtPeriodEnd := sub.cancelAtPeriodEnd,
                  periodEnd := sub.periodEnd, lastEventAt := Some(created));
    }

    /** The row and the plan that follows from it. */
    method SaveChange(o: OrgId, row: Row, plan: string, status: string) returns (committed: bool)
      requires o in plans
      modifies `rows, `plans, `audit
      ensures committed <==> WithRow(old(Contents()), o, row).Some?
      ensures committed ==>
        Contents() == WithPlan(WithRow(old(Contents()), o, row).value, o, EffectivePlan(plan, status), status)
    {
      committed := SaveRow(o, row);
      SetPlan(o, if Entitled(status) then plan else "free", status);
    }

    method Subscribe(o: OrgId, sub: Subscription, created: int, deleted: bool, prices: map<string, string>)
      returns (outcome: Outcome, committed: bool)
      requires o in plans
      modifies `rows, `plans, `audit
      ensures var (t, result) := AfterChange(old(Contents()), o, sub, created, deleted, prices);
              (committed <==> t.Some?) && (committed ==> Contents() == t.value && outcome == result)
    {
      var row := GetOrCreate(o);
      if row.lastEventAt.Some? && created < row.lastEventAt.value {
        return Stale, true;
      }
      if deleted && Truthy(row.subscription) && sub.id != row.subscription {
        return Stale, true;
      }
      var plan := PlanOf(sub, prices);
      if plan == None {
        return Ignored, true;
      }
      var status := if deleted then "canceled" else sub.status;
      row := FillRow(row, sub, created, status, plan.value);
      TouchIsInvisible(old(Contents()), o, row);
      assert row == NewRow(RowOf(old(Contents()), o), sub, created, deleted, plan.value);
      assert status == StatusOf(sub, deleted);
      committed := SaveChange(o, row, plan.value, status);
      outcome := Applied;
    }
  }

  // ---------------------------------------------------------------------------
  // What every delivery keeps
  // ---------------------------------------------------------------------------

  function EffectiveOf(row: Row): string {
    if row.status.Some? then EffectivePlan(row.plan, row.status.value) else "free"
  }

  /** Replay one organisation's plan changes from `plan`; None if an entry does not continue the one before it. */
  function Replay(audit: seq<Audit>, o: OrgId, plan: string): Option<string> {
    if audit == [] then Some(plan) else
    var before := Replay(audit[..|audit| - 1], o, plan);
    match audit[|audit| - 1]
    case PlanChanged(p, from, to, _) =>
      if p != o then before else if before == Some(from) && from != to then Some(to) else None
    case PaymentFailure(_) => before
  }

  ghost predicate PlansFollowRows(plans: map<OrgId, string>, rows: map<OrgId, Row>) {
    && rows.Keys <= plans.Keys
    && forall o :: o in plans ==> plans[o] == EffectiveOf(if o in rows then rows[o] else FRESH_ROW)
  }

  ghost predicate AuditTellsPlans(audit: seq<Audit>, plans: map<OrgId, string>) {
    forall o :: o in plans ==> Replay(audit, o, "free") == Some(plans[o])
  }

  /** Plan, status and audit trail tell the same story for every organisation. */
  ghost predicate Agree(s: State) {
    UniqueCustomers(s.rows) && PlansFollowRows(s.plans, s.rows) && AuditTellsPlans(s.audit, s.plans)
  }

  lemma LogAppends(audit: seq<Audit>, entry: Audit, o: OrgId)
    ensures Replay(audit + [entry], o, "free") ==
      match entry
      case PlanChanged(p, from, to, _) =>
        if p != o then Replay(audit, o, "free")
        else if Replay(audit, o, "free") == Some(from) && from != to then Some(to) else None
      case PaymentFailure(_) => Replay(audit, o, "free")
  {
  }

  lemma WithRowIsUnique(s: State, o: OrgId, row: Row)
    requires UniqueCustomers(s.rows) && WithRow(s, o, row).Some?
    ensures UniqueCustomers(WithRow(s, o, row).value.rows)
  {
  }

  /** A row goes in without breaking anything, as long as the plan it entitles to is put in with it. */
  lemma WithRowAndPlanAgree(s: State, o: OrgId, row: Row, status: string)
    requires Agree(s) && o in s.plans && WithRow(s, o, row).Some?
    ensures var t := WithPlan(WithRow(s, o, row).value, o, EffectiveOf(row), status);
            Agree(t) && t.seen == s.seen && t.plans.Keys == s.plans.Keys
  {
    var t := WithPlan(WithRow(s, o, row).value, o, EffectiveOf(row), status);
    WithRowIsUnique(s, o, row);
    assert t.rows == s.rows[o := row] && PlansFollowRows(t.plans, t.rows);
    forall p | p in t.plans ensures Replay(t.audit, p, "free") == Some(t.plans[p]) {
      if s.plans[o] != EffectiveOf(row) {
        LogAppends(s.audit, PlanChanged(o, s.plans[o], EffectiveOf(row), status), p);
      }
    }
  }

  lemma TouchAgrees(s: State, o: OrgId)
    requires Agree(s) && o in s.plans
    ensures Agree(Touch(s, o))
  {
  }

  lemma PaymentFailureAgrees(s: State, o: OrgId)
    requires Agree(s)
    ensures Agree(s.(audit := s.audit + [PaymentFailure(o)]))
  {
  }

  lemma CheckoutAgrees(s: State, o: OrgId, customer: Option<string>, subscription: Option<string>)
    requires Agree(s) && o in s.plans
    ensures var t := AfterCheckout(s, o, customer, subscription);
            t.Some? ==> Agree(t.value)
  {
  }

  lemma HandleForKeepsAgreement(s: State, o: OrgId, e: Event, now: int, prices: map<string, string>)
    requires Agree(s) && o in s.plans
    ensures var t := HandleFor(s, o, e, now, prices).0;
            t.Some? ==> Agree(t.value) && t.value.plans.Keys == s.plans.Keys
  {
    match e.body
    case Other =>
    case CheckoutCompleted(_, _, customer, subscription) => CheckoutAgrees(s, o, customer, subscription);
    case SubscriptionChanged(sub, deleted) => ChangeKeepsAgreement(s, o, sub, Created(e, now), deleted, prices);
    case PaymentFailed(_, _) => PaymentFailureAgrees(s, o);
  }

  lemma SeenIsIrrelevant(s: State, seen: set<string>)
    requires Agree(s)
    ensures Agree(s.(seen := seen))
  {
  }

  /** One delivery keeps plan, status and audit trail in agreement. */
  lemma ApplyKeepsAgreement(s: State, d: Delivery, prices: map<string, string>)
    requires Agree(s)
    ensures var t := Apply(s, d, prices).0;
            Agree(t) && t.plans.Keys == s.plans.Keys
  {
    var org := Target(s, d.event.body);
    if org.Some? {
      HandleForKeepsAgreement(s, org.value, d.event, d.now, prices);
    }
    var t := Handle(s, d.event, d.now, prices).0;
    if t.Some? {
      SeenIsIrrelevant(t.value, t.value.seen + {Stored(d.event.id)});
    }
  }

  lemma ChangeKeepsAgreement(s: State, o: OrgId, sub: Subscription, created: int, deleted: bool,
                             prices: map<string, string>)
    requires Agree(s) && o in s.plans
    ensures var t := AfterChange(s, o, sub, created, deleted, prices).0;
            t.Some? ==> Agree(t.value) && t.value.plans.Keys == s.plans.Keys
  {
    TouchAgrees(s, o);
    var plan := PlanOf(sub, prices);
    if !IsStale(RowOf(s, o), sub, created, deleted) && plan.Some? {
      var row := NewRow(RowOf(s, o), sub, created, deleted, plan.value);
      if WithRow(s, o, row).Some? {
        WithRowAndPlanAgree(s, o, row, StatusOf(sub, deleted));
      }
    }
  }

  /** A handler that commits keeps customer ids unique and creates no organisation. */
  lemma HandleKeepsUnique(s: State, o: OrgId, e: Event, now: int, prices: map<string, string>)
    requires UniqueCustomers(s.rows) && o in s.plans
    ensures var t := HandleFor(s, o, e, now, prices).0;
            t.Some? ==> UniqueCustomers(t.value.rows) && t.value.plans.Keys == s.plans.Keys
  {
  }

  lemma ApplyKeepsUnique(s: State, d: Delivery, prices: map<string, string>)
    requires UniqueCustomers(s.rows)
    ensures var t := Apply(s, d, prices).0;
            UniqueCustomers(t.rows) && t.plans.Keys == s.plans.Keys
  {
    var org := Target(s, d.event.body);
    if org.Some? {
      HandleKeepsUnique(s, org.value, d.event, d.now, prices);
    }
  }

  /** The state after all the deliveries, in order. */
  ghost function Run(s: State, ds: seq<Delivery>, prices: map<string, string>): (t: State)
    requires UniqueCustomers(s.rows)
    ensures UniqueCustomers(t.rows) && t.plans.Keys == s.plans.Keys
  {
    if ds == [] then s
    else
      var before := Run(s, ds[..|ds| - 1], prices);
      ApplyKeepsUnique(before, ds[|ds| - 1], prices);
      Apply(before, ds[|ds| - 1], prices).0
  }

  /** Plan, row, audit trail and customer ids agree after any deliveries. */
  lemma {:induction false} RunAgrees(s: State, ds: seq<Delivery>, prices: map<string, string>)
    requires Agree(s)
    ensures Agree(Run(s, ds, prices))
  {
    if ds != [] {
      RunAgrees(s, ds[..|ds| - 1], prices);
      ApplyKeepsAgreement(Run(s, ds[..|ds| - 1], prices), ds[|ds| - 1], prices);
    }
  }

  /** How delivery `i` of a run was answered. */
  ghost function OutcomeAt(s: State, ds: seq<Delivery>, prices: map<string, string>, i: nat): Outcome
    requires UniqueCustomers(s.rows) && i < |ds|
  {
    Apply(Run(s, ds[..i], prices), ds[i], prices).1
  }

  lemma RunStep(s: State, ds: seq<Delivery>, prices: map<string, string>, n: nat)
    requires UniqueCustomers(s.rows) && n < |ds|
    ensures Run(s, ds[..n + 1], prices) == Apply(Run(s, ds[..n], prices), ds[n], prices).0
  {
    assert ds[..n + 1][..n] == ds[..n];
  }

  /** No billing yet: every organisation is on the Free plan. */
  predicate Unbilled(s: State) {
    s.rows == map[] && s.audit == [] && forall o :: o in s.plans ==> s.plans[o] == "free"
  }

  lemma UnbilledAgrees(s: State)
    requires Unbilled(s)
    ensures Agree(s)
  {
  }

  /**
   From fresh Free organisations, whatever the provider delivers in whatever order: each organisation's plan is its
   row's plan while the status is entitled and Free otherwise, and replaying its audited plan changes from Free chains
   entry to entry and ends at that plan.
   */
  lemma PlanStatusAndAuditAgree(s: State, ds: seq<Delivery>, prices: map<string, string>, o: OrgId)
    requires Unbilled(s) && o in s.plans
    ensures var t := Run(s, ds, prices);
            && o in t.plans
            && t.plans[o] == (if o in t.rows && t.rows[o].status.Some?
                                 && t.rows[o].status.value in {"active", "trialing", "past_due"}
                              then t.rows[o].plan else "free")
            && Replay(t.audit, o, "free") == Some(t.plans[o])
  {
    UnbilledAgrees(s);
    RunAgrees(s, ds, prices);
  }

  /** A changed row of `o` and its plan concern no other organisation. */
  lemma ChangeIsLocal(s: State, o: OrgId, sub: Subscription, created: int, deleted: bool, prices: map<string, string>)
    requires o in s.plans && AfterChange(s, o, sub, created, deleted, prices).0.Some?
    ensures IsLocal(s, AfterChange(s, o, sub, created, deleted, prices).0.value, o)
  {
  }

  lemma CheckoutIsLocal(s: State, o: OrgId, customer: Option<string>, subscription: Option<string>)
    requires o in s.plans && AfterCheckout(s, o, customer, subscription).Some?
    ensures IsLocal(s, AfterCheckout(s, o, customer, subscription).value, o)
  {
  }

  /** Only the row and the plan of `o` may differ, and the row's event time has not moved back. */
  ghost predicate IsLocal(s: State, t: State, o: OrgId) {
    && t.seen == s.seen && t.plans.Keys == s.plans.Keys
    && (forall p :: p != o ==> RowOf(t, p) == RowOf(s, p) && (p in s.plans ==> t.plans[p] == s.plans[p]))
    && (RowOf(s, o).lastEventAt.Some? ==>
          RowOf(t, o).lastEventAt.Some? && RowOf(t, o).lastEventAt.value >= RowOf(s, o).lastEventAt.value)
  }

  /** Handling an event about `o` leaves every other organisation alone, and never moves the row's event time back. */
  lemma HandleForIsLocal(s: State, o: OrgId, e: Event, now: int, prices: map<string, string>)
    requires o in s.plans && HandleFor(s, o, e, now, prices).0.Some?
    ensures IsLocal(s, HandleFor(s, o, e, now, prices).0.value, o)
  {
    match e.body
    case CheckoutCompleted(_, _, customer, subscription) => CheckoutIsLocal(s, o, customer, subscription);
    case SubscriptionChanged(sub, deleted) => ChangeIsLocal(s, o, sub, Created(e, now), deleted, prices);
    case _ =>
  }

  /** A row's event time only moves forward, and one delivery changes rows and plans of at most one organisation. */
  lemma DeliveryIsLocal(s: State, d: Delivery, prices: map<string, string>, o: OrgId)
    requires UniqueCustomers(s.rows)
    ensures var t := Apply(s, d, prices).0;
            && (RowOf(s, o).lastEventAt.Some? ==>
                  RowOf(t, o).lastEventAt.Some? && RowOf(t, o).lastEventAt.value >= RowOf(s, o).lastEventAt.value)
            && (Target(s, d.event.body) != Some(o) ==>
                  RowOf(t, o) == RowOf(s, o) && (o in s.plans ==> o in t.plans && t.plans[o] == s.plans[o]))
  {
    var org := Target(s, d.event.body);
    if org.Some? && HandleFor(s, org.value, d.event, d.now, prices).0.Some? {
      HandleForIsLocal(s, org.value, d.event, d.now, prices);
    }
  }

  lemma ApplySeen(s: State, d: Delivery, prices: map<string, string>)
    requires UniqueCustomers(s.rows)
    ensures var (t, outcome) := Apply(s, d, prices);
            && t.seen == (if outcome == Failed then s.seen else s.seen + {Stored(d.event.id)})
            && (outcome == Duplicate <==> Stored(d.event.id) in s.seen)
            && (outcome == Duplicate ==> t == s)
  {
    var org := Target(s, d.event.body);
    if org.Some? && HandleFor(s, org.value, d.event, d.now, prices).0.Some? {
      HandleForIsLocal(s, org.value, d.event, d.now, prices);
    }
  }

  lemma {:induction false} SeenGrows(s: State, ds: seq<Delivery>, prices: map<string, string>, i: nat, j: nat)
    requires UniqueCustomers(s.rows) && i <= j <= |ds|
    ensures Run(s, ds[..i], prices).seen <= Run(s, ds[..j], prices).seen
    decreases j - i
  {
    if i < j {
      SeenGrows(s, ds, prices, i, j - 1);
      RunStep(s, ds, prices, j - 1);
      ApplySeen(Run(s, ds[..j - 1], prices), ds[j - 1], prices);
    }
  }

  /** Each event id takes effect at most once: once a delivery is not rolled back, every later one with its id is a
      duplicate that changes nothing. */
  lemma EachIdTakesEffectOnce(s: State, ds: seq<Delivery>, prices: map<string, string>, i: nat, j: nat)
    requires UniqueCustomers(s.rows) && i < j < |ds| && Stored(ds[i].event.id) == Stored(ds[j].event.id)
    requires OutcomeAt(s, ds, prices, i) != Failed
    ensures OutcomeAt(s, ds, prices, j) == Duplicate
    ensures Run(s, ds[..j + 1], prices) == Run(s, ds[..j], prices)
  {
    RunStep(s, ds, prices, i);
    ApplySeen(Run(s, ds[..i], prices), ds[i], prices);
    SeenGrows(s, ds, prices, i + 1, j);
    ApplySeen(Run(s, ds[..j], prices), ds[j], prices);
    RunStep(s, ds, prices, j);
  }

  // ---------------------------------------------------------------------------
  // What one delivery does, field by field
  // ---------------------------------------------------------------------------

  /** Nothing changes but that the row exists and the event is recorded. */
  ghost predicate OnlyRecorded(s: State, t: State) {
    t.plans == s.plans && t.audit == s.audit && forall p :: RowOf(t, p) == RowOf(s, p)
  }

  /** Rows and plans of all others stay. */
  ghost predicate OthersStay(s: State, t: State, o: OrgId) {
    && t.plans.Keys == s.plans.Keys
    && forall p :: p != o ==>
         && (p in t.rows <==> p in s.rows) && (p in s.rows ==> t.rows[p] == s.rows[p])
         && (p in s.plans ==> t.plans[p] == s.plans[p])
  }

  /** The end of another subscription than the row's is stale, whatever its time and its plan. */
  lemma EndOfAnotherIsStale(s: State, d: Delivery, prices: map<string, string>, o: OrgId)
    requires UniqueCustomers(s.rows) && Target(s, d.event.body) == Some(o)
    requires d.event.body.SubscriptionChanged? && d.event.body.deleted
    requires o in s.rows && s.rows[o].subscription.Some? && s.rows[o].subscription.value != ""
    requires d.event.body.sub.id != s.rows[o].subscription
    ensures var (t, outcome) := Apply(s, d, prices);
            && outcome in {Stale, Duplicate}
            && t.rows == s.rows && t.plans == s.plans && t.audit == s.audit
  {
    assert s.rows[o := s.rows[o]] == s.rows;
  }

  /** An event of the past, or the end of another subscription, is stale; one without a known plan is ignored. */
  lemma RefusedTells(s: State, d: Delivery, prices: map<string, string>, o: OrgId)
    requires UniqueCustomers(s.rows) && Target(s, d.event.body) == Some(o) && d.event.body.SubscriptionChanged?
    requires Stored(d.event.id) !in s.seen
    ensures var sub := d.event.body.sub;
            var created := if d.event.created.Some? && d.event.created.value != 0 then d.event.created.value else d.now;
            var late := o in s.rows && s.rows[o].lastEventAt.Some? && created < s.rows[o].lastEventAt.value;
            var another := d.event.body.deleted && o in s.rows && s.rows[o].subscription.Some?
                           && s.rows[o].subscription.value != "" && sub.id != s.rows[o].subscription;
            var known := (sub.price.Some? && sub.price.value in prices)
                         || sub.metaPlan in {Some("team"), Some("business")};
            var (t, outcome) := Apply(s, d, prices);
            && (outcome == Stale <==> late || another)
            && (outcome == Ignored <==> !late && !another && !known)
            && (outcome in {Stale, Ignored} ==> OnlyRecorded(s, t) && t.seen == s.seen + {Stored(d.event.id)})
            && outcome in {Stale, Ignored, Applied, Failed}
  {
  }

  /** An event that is neither writes the plan, status, times and ids of the row. */
  lemma AppliedRowTells(s: State, d: Delivery, prices: map<string, string>, o: OrgId)
    requires UniqueCustomers(s.rows) && Target(s, d.event.body) == Some(o) && d.event.body.SubscriptionChanged?
    requires Apply(s, d, prices).1 == Applied
    ensures var sub, t := d.event.body.sub, Apply(s, d, prices).0;
            && o in t.rows
            && (if sub.price.Some? && sub.price.value in prices then t.rows[o].plan == prices[sub.price.value]
                else Some(t.rows[o].plan) == sub.metaPlan && t.rows[o].plan in {"team", "business"})
            && t.rows[o].status == Some(if d.event.body.deleted then "canceled" else sub.status)
            && t.rows[o].cancelAtPeriodEnd == sub.cancelAtPeriodEnd && t.rows[o].periodEnd == sub.periodEnd
            && t.rows[o].lastEventAt
               == Some(if d.event.created.Some? && d.event.created.value != 0 then d.event.created.value else d.now)
  {
  }

  lemma AppliedIdsTell(s: State, d: Delivery, prices: map<string, string>, o: OrgId)
    requires UniqueCustomers(s.rows) && Target(s, d.event.body) == Some(o) && d.event.body.SubscriptionChanged?
    requires Apply(s, d, prices).1 == Applied
    ensures var sub, t := d.event.body.sub, Apply(s, d, prices).0;
            var was := if o in s.rows then s.rows[o] else Row(None, None, "free", None, false, None, None);
            && o in t.rows
            && t.rows[o].subscription == (if sub.id in {None, Some("")} then was.subscription else sub.id)
            && t.rows[o].customer
               == (if was.customer in {None, Some("")} && sub.customer !in {None, Some("")} then sub.customer
                   else was.customer)
  {
    TruthyIff(d.event.body.sub.id);
    TruthyIff(d.event.body.sub.customer);
    TruthyIff(RowOf(s, o).customer);
  }

  /** The plan follows from the row that was written, and is audited if it changes; nobody else is concerned. */
  lemma AppliedPlanTells(s: State, d: Delivery, prices: map<string, string>, o: OrgId)
    requires UniqueCustomers(s.rows) && Target(s, d.event.body) == Some(o) && d.event.body.SubscriptionChanged?
    requires Apply(s, d, prices).1 == Applied
    ensures var t := Apply(s, d, prices).0;
            && o in t.rows && t.rows[o].status.Some? && o in t.plans
            && t.plans[o] == (if t.rows[o].status.value in {"active", "trialing", "past_due"} then t.rows[o].plan
                              else "free")
            && t.audit == s.audit + (if t.plans[o] == s.plans[o] then []
                                     else [PlanChanged(o, s.plans[o], t.plans[o], t.rows[o].status.value)])
            && OthersStay(s, t, o) && t.seen == s.seen + {Stored(d.event.id)}
  {
    assert s.audit + [] == s.audit;
  }

  /** The end of the row's own subscription, not older than the row, cancels it: the organisation is on Free. */
  lemma OwnEndCancels(s: State, d: Delivery, prices: map<string, string>, o: OrgId)
    requires UniqueCustomers(s.rows) && Target(s, d.event.body) == Some(o) && Stored(d.event.id) !in s.seen
    requires d.event.body.SubscriptionChanged? && d.event.body.deleted
    requires o in s.rows && d.event.body.sub.id == s.rows[o].subscription
    requires d.event.created.Some? && d.event.created.value != 0
    requires s.rows[o].lastEventAt.Some? ==> s.rows[o].lastEventAt.value <= d.event.created.value
    requires var sub := d.event.body.sub;
             && ((sub.price.Some? && sub.price.value in prices) || sub.metaPlan in {Some("team"), Some("business")})
             && (Truthy(s.rows[o].customer) || !HeldByOther(s, o, sub.customer))
    ensures var (t, outcome) := Apply(s, d, prices);
            && outcome == Applied && o in t.rows && t.rows[o].status == Some("canceled")
            && o in t.plans && t.plans[o] == "free"
  {
    RefusedTells(s, d, prices, o);
    RolledBackIff(s, d, prices);
    AppliedRowTells(s, d, prices, o);
    AppliedPlanTells(s, d, prices, o);
  }

  /** A checkout links what it names, and changes nothing else. */
  lemma CheckoutTells(s: State, d: Delivery, prices: map<string, string>, o: OrgId)
    requires UniqueCustomers(s.rows) && Target(s, d.event.body) == Some(o) && d.event.body.CheckoutCompleted?
    requires Stored(d.event.id) !in s.seen
    ensures var e := d.event.body;
            var was := if o in s.rows then s.rows[o] else Row(None, None, "free", None, false, None, None);
            var (t, outcome) := Apply(s, d, prices);
            && (outcome == Applied || (outcome == Failed && t == s))
            && (outcome == Applied ==>
                  && o in t.rows && t.plans == s.plans && t.audit == s.audit && OthersStay(s, t, o)
                  && t.rows[o] == was.(
                       customer := if e.customer in {None, Some("")} then was.customer else e.customer,
                       subscription := if e.subscription in {None, Some("")} then was.subscription else e.subscription))
  {
    TruthyIff(d.event.body.customer);
    TruthyIff(d.event.body.subscription);
  }

  lemma TruthyIff(o: Option<string>)
    ensures Truthy(o) <==> o !in {None, Some("")}
  {
  }

  /** A failed payment is only audited; an event about nobody, or of another kind, is only recorded. */
  lemma OthersTell(s: State, d: Delivery, prices: map<string, string>)
    requires UniqueCustomers(s.rows) && Stored(d.event.id) !in s.seen
    ensures var (t, outcome) := Apply(s, d, prices);
            var org := Target(s, d.event.body);
            && (d.event.body.Other? ==> outcome == Ignored)
            && (!d.event.body.Other? && org.None? ==> outcome == Unmatched)
            && (d.event.body.PaymentFailed? && org.Some? ==> outcome == Applied)
            && (outcome == Unmatched || d.event.body.Other? || d.event.body.PaymentFailed? ==>
                  && t.rows == s.rows && t.plans == s.plans
                  && t.audit == s.audit + (if outcome == Applied then [PaymentFailure(org.value)] else []))
  {
    assert s.audit + [] == s.audit;
  }

  function Decimal(n: nat): string {
    if n < 10 then [('0' as int + n) as char] else Decimal(n / 10) + [('0' as int + n % 10) as char]
  }

  /** Metadata and references give organisations by number. */
  lemma {:induction false} NumberOfDecimal(n: nat)
    ensures IsDigits(Decimal(n)) && Number(Decimal(n)) == n
  {
    if n < 10 {
      assert Decimal(n)[..0] == "";
    } else {
      NumberOfDecimal(n / 10);
      var s := Decimal(n);
      assert s[..|s| - 1] == Decimal(n / 10);
    }
  }

  /** An existing organisation that the reference names comes first, then one in the metadata, then the customer's. */
  lemma TargetTells(s: State, body: Body, o: OrgId)
    requires UniqueCustomers(s.rows) && !body.Other? && o in s.plans
    ensures var reference := if body.CheckoutCompleted? then body.reference else None;
            var meta := if body.SubscriptionChanged? then body.sub.metaOrg else body.metaOrg;
            var names := reference == Some(Decimal(o));
            && (names ==> Target(s, body) == Some(o))
            && (reference == None && meta == Some(Decimal(o)) ==> Target(s, body) == Some(o))
            && (reference == None && meta == None ==>
                  (Target(s, body) == Some(o)
                   <==> CustomerIn(body) !in {None, Some("")} && o in s.rows && s.rows[o].customer == CustomerIn(body)))
  {
    NumberOfDecimal(o);
  }

  // ---------------------------------------------------------------------------
  // Convergence
  // ---------------------------------------------------------------------------

  /** An event about subscription `sid` of organisation `o`, named in its metadata, with a time and a known plan. */
  predicate Recognised(e: Event, o: OrgId, sid: string, prices: map<string, string>) {
    && e.body.SubscriptionChanged?
    && e.created.Some? && e.created.value != 0
    && e.body.sub.metaOrg.Some? && IsDigits(e.body.sub.metaOrg.value) && Number(e.body.sub.metaOrg.value) == o
    && sid != "" && e.body.sub.id == Some(sid)
    && PlanOf(e.body.sub, prices).Some?
  }

  /** Anything else that may be delivered in between: it names another organisation, or brings `o` neither a
      recognised plan nor another subscription. */
  predicate Harmless(e: Event, orgs: set<OrgId>, o: OrgId, sid: string, prices: map<string, string>) {
    match e.body
    case Other => true
    case PaymentFailed(_, _) => true
    case CheckoutCompleted(reference, metaOrg, _, subscription) =>
      var named := if Named(orgs, reference).Some? then Named(orgs, reference) else Named(orgs, metaOrg);
      (named.Some? && named != Some(o)) || !Truthy(subscription) || subscription == Some(sid)
    case SubscriptionChanged(sub, _) =>
      (Named(orgs, sub.metaOrg).Some? && Named(orgs, sub.metaOrg) != Some(o)) || PlanOf(sub, prices).None?
  }

  /** The end of a subscription other than `sid`. */
  predicate EndsAnother(e: Event, sid: string) {
    e.body.SubscriptionChanged? && e.body.deleted && e.body.sub.id != Some(sid)
  }

  /** A recognised event was delivered, and answered, before delivery `n`: from then on the row tracks `sid`. */
  ghost predicate TrackedBefore(s: State, ds: seq<Delivery>, prices: map<string, string>, o: OrgId, sid: string, n: nat)
    requires UniqueCustomers(s.rows) && n <= |ds|
  {
    exists k :: 0 <= k < n && Recognised(ds[k].event, o, sid, prices) && OutcomeAt(s, ds, prices, k) != Failed
  }

  /** What may be delivered: the subscription's own events, harmless ones, and, once the row tracks `sid`, the ends of
      any other subscriptions. */
  ghost predicate AllAbout(s: State, ds: seq<Delivery>, prices: map<string, string>, o: OrgId, sid: string)
    requires UniqueCustomers(s.rows)
  {
    forall i :: 0 <= i < |ds| ==>
      || Recognised(ds[i].event, o, sid, prices) || Harmless(ds[i].event, s.plans.Keys, o, sid, prices)
      || (EndsAnother(ds[i].event, sid) && TrackedBefore(s, ds, prices, o, sid, i))
  }

  /** The row says what the event says. */
  predicate Mirrors(row: Row, e: Event, prices: map<string, string>)
    requires e.body.SubscriptionChanged?
  {
    && Some(row.plan) == PlanOf(e.body.sub, prices)
    && row.status == Some(if e.body.deleted then "canceled" else e.body.sub.status)
    && row.cancelAtPeriodEnd == e.body.sub.cancelAtPeriodEnd
    && row.periodEnd == e.body.sub.periodEnd
    && row.lastEventAt == e.created
  }

  /** The row of `o` mirrors a latest one of the recognised events in `acked`. */
  ghost predicate Follows(row: Row, o: OrgId, sid: string, prices: map<string, string>, acked: set<Event>) {
    && (Truthy(row.subscription) ==> row.subscription == Some(sid))
    && (row.lastEventAt.Some? ==> row.subscription == Some(sid) && sid != "")
    && (row.lastEventAt.Some? ==>
          exists e :: e in acked && Recognised(e, o, sid, prices) && Mirrors(row, e, prices))
    && (forall e :: e in acked && Recognised(e, o, sid, prices) ==>
          row.lastEventAt.Some? && e.created.value <= row.lastEventAt.value)
  }

  /** The first `n` events but for those whose delivery failed. */
  function NotFailed(ds: seq<Delivery>, outcomes: seq<Outcome>, n: nat): set<Event>
    requires n <= |ds| == |outcomes|
  {
    if n == 0 then {}
    else NotFailed(ds, outcomes, n - 1) + (if outcomes[n - 1] == Failed then {} else {ds[n - 1].event})
  }

  lemma {:induction false} NotFailedIff(ds: seq<Delivery>, outcomes: seq<Outcome>, n: nat, e: Event)
    requires n <= |ds| == |outcomes|
    ensures e in NotFailed(ds, outcomes, n) <==> exists i :: 0 <= i < n && ds[i].event == e && outcomes[i] != Failed
  {
    if n > 0 {
      NotFailedIff(ds, outcomes, n - 1, e);
    }
  }

  ghost function Outcomes(s: State, ds: seq<Delivery>, prices: map<string, string>): seq<Outcome>
    requires UniqueCustomers(s.rows)
  {
    seq(|ds|, i requires 0 <= i < |ds| => OutcomeAt(s, ds, prices, i))
  }

  /** The events that have been answered, by an application, a refusal or a duplicate, but not by an error. */
  ghost function Acked(s: State, ds: seq<Delivery>, prices: map<string, string>, n: nat): set<Event>
    requires UniqueCustomers(s.rows) && n <= |ds|
  {
    NotFailed(ds, Outcomes(s, ds, prices), n)
  }

  lemma AckedNext(s: State, ds: seq<Delivery>, prices: map<string, string>, n: nat)
    requires UniqueCustomers(s.rows) && n < |ds|
    ensures Acked(s, ds, prices, n + 1)
         == Acked(s, ds, prices, n) + (if OutcomeAt(s, ds, prices, n) == Failed then {} else {ds[n].event})
  {
  }

  lemma AnsweredIsAcked(s: State, ds: seq<Delivery>, prices: map<string, string>, i: nat, n: nat)
    requires UniqueCustomers(s.rows) && i < n <= |ds| && OutcomeAt(s, ds, prices, i) != Failed
    ensures ds[i].event in Acked(s, ds, prices, n)
  {
    assert Outcomes(s, ds, prices)[i] == OutcomeAt(s, ds, prices, i);
    NotFailedIff(ds, Outcomes(s, ds, prices), n, ds[i].event);
  }

  lemma RecognisedStep(s: State, e: Event, now: int, prices: map<string, string>, o: OrgId, sid: string,
                       acked: set<Event>)
    requires UniqueCustomers(s.rows) && o in s.plans
    requires Recognised(e, o, sid, prices) && Follows(RowOf(s, o), o, sid, prices, acked)
    requires Handle(s, e, now, prices).0.Some?
    ensures Follows(RowOf(Handle(s, e, now, prices).0.value, o), o, sid, prices, acked + {e})
  {
    assert Target(s, e.body) == Some(o);
    var row, sub := RowOf(s, o), e.body.sub;
    var t := Handle(s, e, now, prices).0.value;
    assert Created(e, now) == e.created.value;
    if IsStale(row, sub, e.created.value, e.body.deleted) {
      assert RowOf(t, o) == row;
    } else {
      assert RowOf(t, o) == NewRow(row, sub, e.created.value, e.body.deleted, PlanOf(sub, prices).value);
      assert Mirrors(RowOf(t, o), e, prices);
    }
  }

  lemma HarmlessStep(s: State, e: Event, now: int, prices: map<string, string>, o: OrgId, sid: string,
                     acked: set<Event>)
    requires UniqueCustomers(s.rows) && o in s.plans
    requires Harmless(e, s.plans.Keys, o, sid, prices) && !Recognised(e, o, sid, prices)
    requires Follows(RowOf(s, o), o, sid, prices, acked)
    requires Handle(s, e, now, prices).0.Some?
    ensures Follows(RowOf(Handle(s, e, now, prices).0.value, o), o, sid, prices, acked + {e})
  {
    var t := Handle(s, e, now, prices).0.value;
    var org := Target(s, e.body);
    if org.Some? && org.value != o {
      HandleForIsLocal(s, org.value, e, now, prices);
    }
    var row, after := RowOf(s, o), RowOf(t, o);
    assert after.lastEventAt == row.lastEventAt && after.plan == row.plan && after.status == row.status
        && after.cancelAtPeriodEnd == row.cancelAtPeriodEnd && after.periodEnd == row.periodEnd;
    if row.lastEventAt.Some? {
      var l :| l in acked && Recognised(l, o, sid, prices) && Mirrors(row, l, prices);
      assert Mirrors(after, l, prices);
    }
  }

  /** The end of another subscription leaves the row that tracks `sid` as it is. */
  lemma OtherEndsStep(s: State, d: Delivery, prices: map<string, string>, o: OrgId, sid: string, acked: set<Event>)
    requires UniqueCustomers(s.rows) && o in s.plans && EndsAnother(d.event, sid)
    requires Follows(RowOf(s, o), o, sid, prices, acked) && RowOf(s, o).lastEventAt.Some?
    ensures RowOf(Apply(s, d, prices).0, o) == RowOf(s, o)
  {
    var org := Target(s, d.event.body);
    if org == Some(o) {
      EndOfAnotherIsStale(s, d, prices, o);
    } else {
      DeliveryIsLocal(s, d, prices, o);
    }
  }

  lemma RowStillFollows(row: Row, o: OrgId, sid: string, prices: map<string, string>, acked: set<Event>, e: Event)
    requires Follows(row, o, sid, prices, acked) && !Recognised(e, o, sid, prices)
    ensures Follows(row, o, sid, prices, acked + {e})
  {
    if row.lastEventAt.Some? {
      var l :| l in acked && Recognised(l, o, sid, prices) && Mirrors(row, l, prices);
      assert l in acked + {e};
    }
  }

  /** An id the handler has seen belongs to an answered event, or was there before the run. */
  ghost predicate Accounted(s: State, ds: seq<Delivery>, prices: map<string, string>, n: nat, id: string)
    requires UniqueCustomers(s.rows) && n <= |ds|
  {
    id in Run(s, ds[..n], prices).seen ==>
      id in s.seen || exists e :: e in Acked(s, ds, prices, n) && Stored(e.id) == id
  }

  lemma AccountedOn(s: State, ds: seq<Delivery>, prices: map<string, string>, n: nat, id: string)
    requires UniqueCustomers(s.rows) && n < |ds| && Accounted(s, ds, prices, n, id)
    ensures Accounted(s, ds, prices, n + 1, id)
  {
    var before := Run(s, ds[..n], prices);
    AckedNext(s, ds, prices, n);
    RunStep(s, ds, prices, n);
    ApplySeen(before, ds[n], prices);
    if id !in before.seen && id in Run(s, ds[..n + 1], prices).seen {
      assert Stored(ds[n].event.id) == id && ds[n].event in Acked(s, ds, prices, n + 1);
    }
  }

  lemma {:induction false} SeenIsAcked(s: State, ds: seq<Delivery>, prices: map<string, string>, n: nat, id: string)
    requires UniqueCustomers(s.rows) && n <= |ds|
    ensures Accounted(s, ds, prices, n, id)
  {
    if n > 0 {
      SeenIsAcked(s, ds, prices, n - 1, id);
      AccountedOn(s, ds, prices, n - 1, id);
    }
  }

  /** The provider never uses an id for two events. */
  predicate IdsAreUnique(ds: seq<Delivery>) {
    forall i, j :: 0 <= i < |ds| && 0 <= j < |ds| && Stored(ds[i].event.id) == Stored(ds[j].event.id)
      ==> ds[i].event == ds[j].event
  }

  lemma DuplicateIsAcked(s: State, ds: seq<Delivery>, prices: map<string, string>, n: nat)
    requires UniqueCustomers(s.rows) && n < |ds| && IdsAreUnique(ds) && s.seen == {}
    ensures Stored(ds[n].event.id) in Run(s, ds[..n], prices).seen ==> ds[n].event in Acked(s, ds, prices, n)
  {
    var id := Stored(ds[n].event.id);
    if id in Run(s, ds[..n], prices).seen {
      SeenIsAcked(s, ds, prices, n, id);
      var e :| e in Acked(s, ds, prices, n) && Stored(e.id) == id;
      AckedWasDelivered(s, ds, prices, n, e);
    }
  }

  lemma AckedWasDelivered(s: State, ds: seq<Delivery>, prices: map<string, string>, n: nat, e: Event)
    requires UniqueCustomers(s.rows) && n <= |ds| && e in Acked(s, ds, prices, n)
    ensures exists i :: 0 <= i < n && ds[i].event == e
  {
    NotFailedIff(ds, Outcomes(s, ds, prices), n, e);
  }

  /** After `n` deliveries the row of `o` follows the events answered so far. */
  ghost predicate RowFollows(s: State, ds: seq<Delivery>, prices: map<string, string>, o: OrgId, sid: string, n: nat)
    requires UniqueCustomers(s.rows) && n <= |ds|
  {
    Follows(RowOf(Run(s, ds[..n], prices), o), o, sid, prices, Acked(s, ds, prices, n))
  }

  lemma {:induction false} RowFollowsAcked(s: State, ds: seq<Delivery>, prices: map<string, string>,
                                           o: OrgId, sid: string, n: nat)
    requires Unbilled(s) && s.seen == {} && o in s.plans && n <= |ds| && IdsAreUnique(ds)
    requires AllAbout(s, ds, prices, o, sid)
    ensures RowFollows(s, ds, prices, o, sid, n)
  {
    if n == 0 {
      FollowsNothing(s, ds, prices, o, sid);
    } else {
      RowFollowsAcked(s, ds, prices, o, sid, n - 1);
      FollowsOn(s, ds, prices, o, sid, n);
    }
  }

  lemma FollowsNothing(s: State, ds: seq<Delivery>, prices: map<string, string>, o: OrgId, sid: string)
    requires Unbilled(s)
    ensures RowFollows(s, ds, prices, o, sid, 0)
  {
    assert ds[..0] == [];
  }

  lemma FollowsOn(s: State, ds: seq<Delivery>, prices: map<string, string>, o: OrgId, sid: string, n: nat)
    requires s.seen == {} && o in s.plans && 0 < n <= |ds| && UniqueCustomers(s.rows) && IdsAreUnique(ds)
    requires AllAbout(s, ds, prices, o, sid) && RowFollows(s, ds, prices, o, sid, n - 1)
    ensures RowFollows(s, ds, prices, o, sid, n)
  {
    DuplicateIsAcked(s, ds, prices, n - 1);
    AckedNext(s, ds, prices, n - 1);
    DeliveryIsAdmitted(s, ds, prices, o, sid, n - 1);
    DeliveryStep(Run(s, ds[..n - 1], prices), ds[n - 1], prices, o, sid, Acked(s, ds, prices, n - 1));
    RunStep(s, ds, prices, n - 1);
  }

  lemma DeliveryIsAdmitted(s: State, ds: seq<Delivery>, prices: map<string, string>, o: OrgId, sid: string, n: nat)
    requires UniqueCustomers(s.rows) && n < |ds| && AllAbout(s, ds, prices, o, sid)
    requires RowFollows(s, ds, prices, o, sid, n)
    ensures || Recognised(ds[n].event, o, sid, prices) || Harmless(ds[n].event, s.plans.Keys, o, sid, prices)
            || (EndsAnother(ds[n].event, sid) && RowOf(Run(s, ds[..n], prices), o).lastEventAt.Some?)
  {
    if TrackedBefore(s, ds, prices, o, sid, n) {
      TrackedHasTime(s, ds, prices, o, sid, n);
    }
  }

  lemma TrackedHasTime(s: State, ds: seq<Delivery>, prices: map<string, string>, o: OrgId, sid: string, n: nat)
    requires UniqueCustomers(s.rows) && n <= |ds| && RowFollows(s, ds, prices, o, sid, n)
    requires TrackedBefore(s, ds, prices, o, sid, n)
    ensures RowOf(Run(s, ds[..n], prices), o).lastEventAt.Some?
  {
    var k :| 0 <= k < n && Recognised(ds[k].event, o, sid, prices) && OutcomeAt(s, ds, prices, k) != Failed;
    AnsweredIsAcked(s, ds, prices, k, n);
  }

  lemma DeliveryStep(s: State, d: Delivery, prices: map<string, string>, o: OrgId, sid: string, acked: set<Event>)
    requires UniqueCustomers(s.rows) && o in s.plans && Follows(RowOf(s, o), o, sid, prices, acked)
    requires || Recognised(d.event, o, sid, prices) || Harmless(d.event, s.plans.Keys, o, sid, prices)
             || (EndsAnother(d.event, sid) && RowOf(s, o).lastEventAt.Some?)
    requires Stored(d.event.id) in s.seen ==> d.event in acked
    ensures var (t, outcome) := Apply(s, d, prices);
            Follows(RowOf(t, o), o, sid, prices, acked + (if outcome == Failed then {} else {d.event}))
  {
    if Stored(d.event.id) in s.seen {
      assert acked + {d.event} == acked;
    } else if Handle(s, d.event, d.now, prices).0.None? {
      assert acked + {} == acked;
    } else {
      HandleSucceeds(s, d.event, d.now, prices);
      if Recognised(d.event, o, sid, prices) {
        RecognisedStep(s, d.event, d.now, prices, o, sid, acked);
      } else if Harmless(d.event, s.plans.Keys, o, sid, prices) {
        HarmlessStep(s, d.event, d.now, prices, o, sid, acked);
      } else {
        OtherEndsStep(s, d, prices, o, sid, acked);
        RowStillFollows(RowOf(s, o), o, sid, prices, acked, d.event);
      }
    }
  }

  lemma HandleSucceeds(s: State, e: Event, now: int, prices: map<string, string>)
    requires UniqueCustomers(s.rows)
    ensures Handle(s, e, now, prices).1 == Failed <==> Handle(s, e, now, prices).0.None?
  {
  }

  /** The newest of the answered events with a recognised plan. */
  ghost predicate IsNewest(newest: Event, acked: set<Event>, o: OrgId, sid: string, prices: map<string, string>) {
    && newest in acked && Recognised(newest, o, sid, prices)
    && forall e :: e in acked && Recognised(e, o, sid, prices) && e != newest
         ==> e.created.value < newest.created.value
  }

  /**
   Convergence: however the events of one subscription are reordered, repeated and mixed with other deliveries, once
   each has been answered the row and the effective plan are those of the newest one with a recognised plan.
   */
  lemma ConvergesToTheNewest(s: State, ds: seq<Delivery>, prices: map<string, string>,
                             o: OrgId, sid: string, newest: Event)
    requires Unbilled(s) && s.seen == {} && o in s.plans && IdsAreUnique(ds)
    requires AllAbout(s, ds, prices, o, sid)
    ensures IsNewest(newest, Acked(s, ds, prices, |ds|), o, sid, prices) ==>
            var t := Run(s, ds, prices);
            && o in t.rows && Mirrors(t.rows[o], newest, prices)
            && o in t.plans
            && t.plans[o] == (if !newest.body.deleted && newest.body.sub.status in {"active", "trialing", "past_due"}
                              then t.rows[o].plan else "free")
  {
    UnbilledAgrees(s);
    RunAgrees(s, ds, prices);
    RowFollowsAcked(s, ds, prices, o, sid, |ds|);
    assert ds[..|ds|] == ds;
  }

  // ---------------------------------------------------------------------------
  // When a delivery is rolled back
  // ---------------------------------------------------------------------------

  /** The customer id that handling the event would write into the row of `o`, if any. */
  function Claims(s: State, o: OrgId, e: Event, now: int, prices: map<string, string>): Option<string> {
    match e.body
    case CheckoutCompleted(_, _, customer, _) => if Truthy(customer) then customer else None
    case SubscriptionChanged(sub, deleted) =>
      if Truthy(sub.customer) && !Truthy(RowOf(s, o).customer)
         && !IsStale(RowOf(s, o), sub, Created(e, now), deleted) && PlanOf(sub, prices).Some?
      then sub.customer else None
    case _ => None
  }

  /** Another organisation's row holds this customer id. */
  predicate HeldByOther(s: State, o: OrgId, customer: Option<string>) {
    customer.Some? && exists p :: p in s.rows && p != o && s.rows[p].customer == customer
  }

  lemma WithRowFailsIff(s: State, o: OrgId, row: Row)
    requires UniqueCustomers(s.rows)
    ensures WithRow(s, o, row).None? <==> HeldByOther(s, o, row.customer)
    ensures row.customer == RowOf(s, o).customer ==> WithRow(s, o, row).Some?
  {
  }

  lemma HandleFailsIff(s: State, o: OrgId, e: Event, now: int, prices: map<string, string>)
    requires UniqueCustomers(s.rows) && o in s.plans
    ensures HandleFor(s, o, e, now, prices).0.None? <==> HeldByOther(s, o, Claims(s, o, e, now, prices))
  {
    var row := RowOf(s, o);
    match e.body
    case CheckoutCompleted(_, _, customer, subscription) =>
      WithRowFailsIff(s, o, row.(customer := if Truthy(customer) then customer else row.customer,
                                 subscription := if Truthy(subscription) then subscription else row.subscription));
    case SubscriptionChanged(sub, deleted) =>
      if PlanOf(sub, prices).Some? {
        WithRowFailsIff(s, o, NewRow(row, sub, Created(e, now), deleted, PlanOf(sub, prices).value));
      }
    case _ =>
  }

  /** A delivery is rolled back exactly when it is new and would write a customer id that another row holds. */
  lemma RolledBackIff(s: State, d: Delivery, prices: map<string, string>)
    requires UniqueCustomers(s.rows)
    ensures Apply(s, d, prices).1 == Failed
       <==> (Stored(d.event.id) !in s.seen
             && Target(s, d.event.body).Some?
             && HeldByOther(s, Target(s, d.event.body).value,
                            Claims(s, Target(s, d.event.body).value, d.event, d.now, prices)))
  {
    var o := Target(s, d.event.body);
    HandleSucceeds(s, d.event, d.now, prices);
    if o.Some? {
      HandleFailsIff(s, o.value, d.event, d.now, prices);
    }
  }

  /** The organisation an event names itself, before its customer id is looked up. */
  function NamedBy(orgs: set<OrgId>, body: Body): Option<OrgId> {
    match body
    case Other => None
    case CheckoutCompleted(reference, metaOrg, _, _) =>
      if Named(orgs, reference).Some? then Named(orgs, reference) else Named(orgs, metaOrg)
    case SubscriptionChanged(sub, _) => Named(orgs, sub.metaOrg)
    case PaymentFailed(metaOrg, _) => Named(orgs, metaOrg)
  }

  function CustomerIn(body: Body): Option<string> {
    match body
    case Other => None
    case CheckoutCompleted(_, _, customer, _) => customer
    case SubscriptionChanged(sub, _) => sub.customer
    case PaymentFailed(_, customer) => customer
  }

  /** The provider keeps one customer per organisation: an event that names one carries no other's customer id. */
  predicate OwnCustomers(ds: seq<Delivery>, orgs: set<OrgId>, owner: map<string, OrgId>) {
    forall i :: 0 <= i < |ds| ==> OwnCustomer(ds[i].event.body, orgs, owner)
  }

  predicate OwnCustomer(body: Body, orgs: set<OrgId>, owner: map<string, OrgId>) {
    Truthy(CustomerIn(body)) && NamedBy(orgs, body).Some? ==>
      CustomerIn(body).value in owner && owner[CustomerIn(body).value] == NamedBy(orgs, body).value
  }

  ghost predicate RowsOwn(rows: map<OrgId, Row>, owner: map<string, OrgId>) {
    forall o :: o in rows && rows[o].customer.Some? ==>
      rows[o].customer.value in owner && owner[rows[o].customer.value] == o
  }

  /** What an event would write into a row belongs to that row's organisation. */
  lemma ClaimsOwn(s: State, d: Delivery, prices: map<string, string>, owner: map<string, OrgId>)
    requires UniqueCustomers(s.rows) && RowsOwn(s.rows, owner) && OwnCustomer(d.event.body, s.plans.Keys, owner)
    requires Target(s, d.event.body).Some?
    ensures var o := Target(s, d.event.body).value;
            var claim := Claims(s, o, d.event, d.now, prices);
            claim.Some? ==> claim.value in owner && owner[claim.value] == o
  {
  }

  lemma DeliveryOwns(s: State, d: Delivery, prices: map<string, string>, owner: map<string, OrgId>)
    requires UniqueCustomers(s.rows) && RowsOwn(s.rows, owner) && OwnCustomer(d.event.body, s.plans.Keys, owner)
    ensures Apply(s, d, prices).1 != Failed && RowsOwn(Apply(s, d, prices).0.rows, owner)
  {
    RolledBackIff(s, d, prices);
    var o := Target(s, d.event.body);
    if o.Some? {
      ClaimsOwn(s, d, prices, owner);
      RowsAfter(s, o.value, d.event, d.now, prices);
    }
  }

  /** The customer id in a row is the one that was there or the one the event claims. */
  lemma RowsAfter(s: State, o: OrgId, e: Event, now: int, prices: map<string, string>)
    requires o in s.plans && HandleFor(s, o, e, now, prices).0.Some?
    ensures var t := HandleFor(s, o, e, now, prices).0.value;
            && (forall p :: p in t.rows && p != o ==> p in s.rows && t.rows[p] == s.rows[p])
            && (o in t.rows ==> t.rows[o].customer in {RowOf(s, o).customer, Claims(s, o, e, now, prices)})
  {
  }

  ghost predicate OwnAfter(s: State, ds: seq<Delivery>, prices: map<string, string>, owner: map<string, OrgId>, n: nat)
    requires UniqueCustomers(s.rows) && n <= |ds|
  {
    RowsOwn(Run(s, ds[..n], prices).rows, owner)
  }

  lemma OwnsOn(s: State, ds: seq<Delivery>, prices: map<string, string>, owner: map<string, OrgId>, n: nat)
    requires UniqueCustomers(s.rows) && OwnCustomers(ds, s.plans.Keys, owner) && 0 < n <= |ds|
    requires OwnAfter(s, ds, prices, owner, n - 1)
    ensures OwnAfter(s, ds, prices, owner, n)
  {
    assert OwnCustomer(ds[n - 1].event.body, s.plans.Keys, owner);
    DeliveryOwns(Run(s, ds[..n - 1], prices), ds[n - 1], prices, owner);
    RunStep(s, ds, prices, n - 1);
  }

  lemma {:induction false} RowsStayOwn(s: State, ds: seq<Delivery>, prices: map<string, string>,
                                       owner: map<string, OrgId>, n: nat)
    requires UniqueCustomers(s.rows) && s.rows == map[] && OwnCustomers(ds, s.plans.Keys, owner) && n <= |ds|
    ensures OwnAfter(s, ds, prices, owner, n)
  {
    if n > 0 {
      RowsStayOwn(s, ds, prices, owner, n - 1);
      OwnsOn(s, ds, prices, owner, n);
    }
  }

  /** With one customer per organisation, no delivery is rolled back. */
  lemma NothingIsRolledBack(s: State, ds: seq<Delivery>, prices: map<string, string>, owner: map<string, OrgId>, i: nat)
    requires UniqueCustomers(s.rows) && s.rows == map[] && OwnCustomers(ds, s.plans.Keys, owner) && i < |ds|
    ensures OutcomeAt(s, ds, prices, i) != Failed
  {
    RowsStayOwn(s, ds, prices, owner, i);
    assert OwnCustomer(ds[i].event.body, s.plans.Keys, owner);
    DeliveryOwns(Run(s, ds[..i], prices), ds[i], prices, owner);
  }

  lemma DeliveredIsAcked(s: State, ds: seq<Delivery>, prices: map<string, string>, owner: map<string, OrgId>, i: nat)
    requires UniqueCustomers(s.rows) && s.rows == map[] && OwnCustomers(ds, s.plans.Keys, owner) && i < |ds|
    ensures ds[i].event in Acked(s, ds, prices, |ds|)
  {
    NothingIsRolledBack(s, ds, prices, owner, i);
    AnsweredIsAcked(s, ds, prices, i, |ds|);
  }

  /** The newest of the delivered events with a recognised plan. */
  ghost predicate IsNewestDelivered(newest: Event, ds: seq<Delivery>, o: OrgId, sid: string,
                                    prices: map<string, string>)
  {
    && (exists i :: 0 <= i < |ds| && ds[i].event == newest) && Recognised(newest, o, sid, prices)
    && forall i :: 0 <= i < |ds| && Recognised(ds[i].event, o, sid, prices) && ds[i].event != newest
         ==> ds[i].event.created.value < newest.created.value
  }

  /** The same, said of the events alone: after a first event of the subscription, the ends of any others. */
  predicate AllDeliveredAbout(ds: seq<Delivery>, orgs: set<OrgId>, o: OrgId, sid: string, prices: map<string, string>) {
    forall i :: 0 <= i < |ds| ==>
      || Recognised(ds[i].event, o, sid, prices) || Harmless(ds[i].event, orgs, o, sid, prices)
      || (EndsAnother(ds[i].event, sid) && exists k :: 0 <= k < i && Recognised(ds[k].event, o, sid, prices))
  }

  lemma AllDeliveredAreAbout(s: State, ds: seq<Delivery>, prices: map<string, string>, o: OrgId, sid: string,
                             owner: map<string, OrgId>)
    requires UniqueCustomers(s.rows) && s.rows == map[] && OwnCustomers(ds, s.plans.Keys, owner)
    requires AllDeliveredAbout(ds, s.plans.Keys, o, sid, prices)
    ensures AllAbout(s, ds, prices, o, sid)
  {
    forall i, k | 0 <= k < i < |ds| && Recognised(ds[k].event, o, sid, prices)
      ensures TrackedBefore(s, ds, prices, o, sid, i)
    {
      NothingIsRolledBack(s, ds, prices, owner, k);
    }
  }

  /** So if the provider keeps one customer per organisation, the state converges to the newest event delivered. */
  lemma ConvergesToTheNewestDelivered(s: State, ds: seq<Delivery>, prices: map<string, string>,
                                      o: OrgId, sid: string, newest: Event, owner: map<string, OrgId>)
    requires Unbilled(s) && s.seen == {} && o in s.plans && IdsAreUnique(ds)
    requires AllDeliveredAbout(ds, s.plans.Keys, o, sid, prices) && OwnCustomers(ds, s.plans.Keys, owner)
    ensures IsNewestDelivered(newest, ds, o, sid, prices) ==>
            var t := Run(s, ds, prices);
            && o in t.rows && Mirrors(t.rows[o], newest, prices)
            && o in t.plans
            && t.plans[o] == (if !newest.body.deleted && newest.body.sub.status in {"active", "trialing", "past_due"}
                              then t.rows[o].plan else "free")
  {
    if IsNewestDelivered(newest, ds, o, sid, prices) {
      forall i | 0 <= i < |ds| ensures ds[i].event in Acked(s, ds, prices, |ds|) {
        DeliveredIsAcked(s, ds, prices, owner, i);
      }
      NewestDeliveredIsNewest(s, ds, prices, o, sid, newest);
      AllDeliveredAreAbout(s, ds, prices, o, sid, owner);
      ConvergesToTheNewest(s, ds, prices, o, sid, newest);
    }
  }

  lemma NewestDeliveredIsNewest(s: State, ds: seq<Delivery>, prices: map<string, string>, o: OrgId, sid: string,
                                newest: Event)
    requires UniqueCustomers(s.rows) && IsNewestDelivered(newest, ds, o, sid, prices)
    requires forall i :: 0 <= i < |ds| ==> ds[i].event in Acked(s, ds, prices, |ds|)
    ensures IsNewest(newest, Acked(s, ds, prices, |ds|), o, sid, prices)
  {
    var acked := Acked(s, ds, prices, |ds|);
    forall e | e in acked && Recognised(e, o, sid, prices) && e != newest
      ensures e.created.value < newest.created.value
    {
      AckedWasDelivered(s, ds, prices, |ds|, e);
    }
  }
}
