/**
 Seats and ownership (app/services/org_service.py, app/services/entitlements.py): memberships and invitations are
 checked against the plan's limit. An invitation holds a seat while it is pending, which ends strictly at its expiry;
 it can still be accepted at that very instant.
 */
module Seats {
  import opened Wrappers
  import Cpe

  type OrgId = nat
  type UserId = nat

  datatype Role = Owner | Admin | Member | Viewer

  datatype Seat = Seat(org: OrgId, user: UserId)

  datatype Invitation = Invitation(org: OrgId, email: string, role: Role, expiresAt: int, accepted: bool)

  /** The tables the service reads and writes. */
  datatype Tables = Tables(plans: map<OrgId, string>, members: map<Seat, Role>, invites: map<string, Invitation>)

  datatype Reply = Done | NotFound | Conflict | OverLimit | Expired | WrongEmail | Rejected

  datatype Limit = Unlimited | AtMost(seats: nat)
  {
    predicate Allows(n: nat) {
      Unlimited? || n <= seats
    }

    /** A change from this limit to `other` is no downgrade. */
    predicate WithinOf(other: Limit) {
      other.Unlimited? || (AtMost? && seats <= other.seats)
    }
  }

  /** Members and pending invitations that a plan includes; an unknown plan is Free. */
  function LimitOf(plan: string): Limit {
    if plan == "team" then AtMost(10) else if plan == "business" then Unlimited else AtMost(3)
  }

  const INVITE_TTL := 7 * 24 * 3600

  function Normal(email: string): string {
    Cpe.Lower(Cpe.Strip(email))
  }

  // ---------------------------------------------------------------------------
  // Counting
  // ---------------------------------------------------------------------------

  function MembersOf(members: map<Seat, Role>, o: OrgId): set<Seat> {
    set k | k in members && k.org == o
  }

  function OwnersOf(members: map<Seat, Role>, o: OrgId): set<Seat> {
    set k | k in members && k.org == o && members[k] == Owner
  }

  predicate IsPending(i: Invitation, o: OrgId, now: int) {
    i.org == o && !i.accepted && i.expiresAt > now
  }

  function PendingOf(invites: map<string, Invitation>, o: OrgId, now: int): set<string> {
    set t | t in invites && IsPending(invites[t], o, now)
  }

  function MemberCount(t: Tables, o: OrgId): nat {
    |MembersOf(t.members, o)|
  }

  function OwnerCount(t: Tables, o: OrgId): nat {
    |OwnersOf(t.members, o)|
  }

  /** The seats an organisation uses: its members and its pending invitations. */
  function SeatsUsed(t: Tables, o: OrgId, now: int): nat {
    MemberCount(t, o) + |PendingOf(t.invites, o, now)|
  }

  function LimitFor(t: Tables, o: OrgId): Limit {
    if o in t.plans then LimitOf(t.plans[o]) else Unlimited
  }

  /** `require_member_capacity`: room for one more; accepting counts the members only. */
  predicate HasRoom(t: Tables, o: OrgId, now: int, accepting: bool) {
    LimitFor(t, o).Allows((if accepting then MemberCount(t, o) else SeatsUsed(t, o, now)) + 1)
  }

  // ---------------------------------------------------------------------------
  // Operations
  // ---------------------------------------------------------------------------

  predicate LastOwner(t: Tables, k: Seat)
    requires k in t.members
  {
    t.members[k] == Owner && OwnerCount(t, k.org) <= 1
  }

  function AfterSetRole(t: Tables, k: Seat, role: Role): (Tables, Reply) {
    if k !in t.members then (t, NotFound)
    else if role != Owner && LastOwner(t, k) then (t, Conflict)
    else (t.(members := t.members[k := role]), Done)
  }

  function AfterRemove(t: Tables, k: Seat): (Tables, Reply) {
    if k !in t.members then (t, NotFound)
    else if LastOwner(t, k) then (t, Conflict)
    else (t.(members := t.members - {k}), Done)
  }

  /** Somebody with this address is in the organisation. */
  predicate IsMemberByEmail(t: Tables, o: OrgId, email: string, emails: map<UserId, string>) {
    exists u :: u in emails && emails[u] == email && Seat(o, u) in t.members
  }

  /** The insert is refused if the organisation does not exist or the token is taken. */
  function AfterInvite(t: Tables, o: OrgId, email: string, role: Role, token: string, now: int,
                       emails: map<UserId, string>): (Tables, Reply)
  {
    if IsMemberByEmail(t, o, Normal(email), emails) then (t, Conflict)
    else if !HasRoom(t, o, now, false) then (t, OverLimit)
    else if o !in t.plans || token in t.invites then (t, Rejected)
    else (t.(invites := t.invites[token := Invitation(o, Normal(email), role, now + INVITE_TTL, false)]), Done)
  }

  function AfterAccept(t: Tables, token: string, u: UserId, email: string, now: int): (Tables, Reply) {
    if token !in t.invites then (t, NotFound)
    else
      var i := t.invites[token];
      var k := Seat(i.org, u);
      if i.accepted then (t, Conflict)
      else if i.expiresAt < now then (t, Expired)
      else if i.email != Normal(email) then (t, WrongEmail)
      else if k !in t.members && !HasRoom(t, i.org, now, true) then (t, OverLimit)
      else (Tables(t.plans, if k in t.members then t.members else t.members[k := i.role],
                   t.invites[token := i.(accepted := true)]), Done)
  }

  /** The service over the database. */
  class OrgService {
    var plans: map<OrgId, string>
    var members: map<Seat, Role>
    var invites: map<string, Invitation>

    function Contents(): Tables
      reads this
    {
      Tables(plans, members, invites)
    }

    method SetMemberRole(k: Seat, role: Role) returns (reply: Reply)
      modifies `members
      ensures (Contents(), reply) == AfterSetRole(old(Contents()), k, role)
    {
      if k !in members {
        return NotFound;
      }
      if members[k] == Owner && role != Owner && OwnerCount(Contents(), k.org) <= 1 {
        return Conflict;
      }
      members := members[k := role];
      reply := Done;
    }

    method RemoveMember(k: Seat) returns (reply: Reply)
      modifies `members
      ensures (Contents(), reply) == AfterRemove(old(Contents()), k)
    {
      if k !in members {
        return NotFound;
      }
      if members[k] == Owner && OwnerCount(Contents(), k.org) <= 1 {
        return Conflict;
      }
      members := members - {k};
      reply := Done;
    }

    method CreateInvitation(o: OrgId, email: string, role: Role, token: string, now: int, emails: map<UserId, string>)
      returns (reply: Reply)
      modifies `invites
      ensures (Contents(), reply) == AfterInvite(old(Contents()), o, email, role, token, now, emails)
    {
      if IsMemberByEmail(Contents(), o, Normal(email), emails) {
        return Conflict;
      }
      if !HasRoom(Contents(), o, now, false) {
        return OverLimit;
      }
      if o !in plans || token in invites {
        return Rejected;
      }
      invites := invites[token := Invitation(o, Normal(email), role, now + INVITE_TTL, false)];
      reply := Done;
    }

    method AcceptInvitation(token: string, u: UserId, email: string, now: int) returns (reply: Reply)
      modifies `members, `invites
      ensures (Contents(), reply) == AfterAccept(old(Contents()), token, u, email, now)
    {
      if token !in invites {
        return NotFound;
      }
      var i := invites[token];
      if i.accepted {
        return Conflict;
      }
      if i.expiresAt < now {
        return Expired;
      }
      if i.email != Normal(email) {
        return WrongEmail;
      }
      if Seat(i.org, u) !in members {
        if !HasRoom(Contents(), i.org, now, true) {
          return OverLimit;
        }
        members := members[Seat(i.org, u) := i.role];
      }
      invites := invites[token := i.(accepted := true)];
      reply := Done;
    }
  }

  // ---------------------------------------------------------------------------
  // Runs
  // ---------------------------------------------------------------------------

  datatype State = State(tables: Tables, clock: int)

  /** What can happen: the service's calls, a new organisation, a change of plan, and time going by. */
  datatype Op =
    | SetRole(seat: Seat, role: Role)
    | Remove(seat: Seat)
    | Invite(org: OrgId, email: string, role: Role, token: string)
    | Accept(token: string, user: UserId)
    | CreateOrg(org: OrgId, user: UserId)
    | ChangePlan(org: OrgId, plan: string)
    | Wait(seconds: nat)

  function AfterCreateOrg(t: Tables, o: OrgId, u: UserId): (Tables, Reply) {
    if o in t.plans then (t, Rejected)
    else (t.(plans := t.plans[o := "free"], members := t.members[Seat(o, u) := Owner]), Done)
  }

  /** One step; `emails` holds everybody's address. */
  function Next(s: State, op: Op, emails: map<UserId, string>): (State, Reply) {
    var (t, reply) :=
      match op
      case SetRole(k, role) => AfterSetRole(s.tables, k, role)
      case Remove(k) => AfterRemove(s.tables, k)
      case Invite(o, email, role, token) => AfterInvite(s.tables, o, email, role, token, s.clock, emails)
      case Accept(token, u) =>
        if u in emails then AfterAccept(s.tables, token, u, emails[u], s.clock) else (s.tables, Rejected)
      case CreateOrg(o, u) => AfterCreateOrg(s.tables, o, u)
      case ChangePlan(o, plan) =>
        if o in s.tables.plans then (s.tables.(plans := s.tables.plans[o := plan]), Done) else (s.tables, NotFound)
      case Wait(_) => (s.tables, Done);
    (State(t, if op.Wait? then s.clock + op.seconds else s.clock), reply)
  }

  function Run(s: State, ops: seq<Op>, emails: map<UserId, string>): State {
    if ops == [] then s else Next(Run(s, ops[..|ops| - 1], emails), ops[|ops| - 1], emails).0
  }

  /** Memberships and invitations belong to organisations, and every organisation has an owner. */
  ghost predicate Owned(t: Tables) {
    && (forall k :: k in t.members ==> k.org in t.plans)
    && (forall x :: x in t.invites ==> t.invites[x].org in t.plans)
    && (forall o :: o in t.plans ==> OwnerCount(t, o) >= 1)
  }

  ghost predicate MembersFit(t: Tables) {
    forall o :: o in t.plans ==> LimitFor(t, o).Allows(MemberCount(t, o))
  }

  ghost predicate SeatsFit(t: Tables, now: int) {
    forall o :: o in t.plans ==> LimitFor(t, o).Allows(SeatsUsed(t, o, now))
  }

  predicate IsDowngrade(s: State, op: Op) {
    op.ChangePlan? && op.org in s.tables.plans
    && !LimitFor(s.tables, op.org).WithinOf(LimitOf(op.plan))
  }

  predicate NoDowngrades(s: State, ops: seq<Op>, emails: map<UserId, string>) {
    ops == [] ||
    (var init := ops[..|ops| - 1];
     NoDowngrades(s, init, emails) && !IsDowngrade(Run(s, init, emails), ops[|ops| - 1]))
  }

  // Counting after one change

  lemma SmallerSet<T>(a: set<T>, b: set<T>)
    requires a <= b
    ensures |a| <= |b|
  {
    assert b == a + (b - a);
  }

  lemma AddMember(members: map<Seat, Role>, k: Seat, role: Role, o: OrgId)
    requires k !in members
    ensures |MembersOf(members[k := role], o)| == |MembersOf(members, o)| + (if k.org == o then 1 else 0)
  {
    assert MembersOf(members[k := role], o)
        == if k.org == o then MembersOf(members, o) + {k} else MembersOf(members, o);
  }

  lemma AddOwner(members: map<Seat, Role>, k: Seat, role: Role, o: OrgId)
    requires k !in members
    ensures |OwnersOf(members[k := role], o)|
         == |OwnersOf(members, o)| + (if k.org == o && role == Owner then 1 else 0)
  {
    var after := OwnersOf(members[k := role], o);
    if k.org == o && role == Owner {
      assert after == OwnersOf(members, o) + {k};
    } else {
      assert after == OwnersOf(members, o);
    }
  }

  lemma RemoveOne(members: map<Seat, Role>, k: Seat, o: OrgId)
    requires k in members
    ensures |MembersOf(members - {k}, o)| <= |MembersOf(members, o)|
    ensures |OwnersOf(members - {k}, o)|
         == |OwnersOf(members, o)| - (if k.org == o && members[k] == Owner then 1 else 0)
  {
    SmallerSet(MembersOf(members - {k}, o), MembersOf(members, o));
    assert OwnersOf(members - {k}, o) == OwnersOf(members, o) - {k};
  }

  lemma ChangeRoleKeepsMembers(members: map<Seat, Role>, k: Seat, role: Role, o: OrgId)
    requires k in members
    ensures MembersOf(members[k := role], o) == MembersOf(members, o)
  {
  }

  lemma ChangeRole(members: map<Seat, Role>, k: Seat, role: Role, o: OrgId)
    requires k in members
    ensures |OwnersOf(members[k := role], o)| >=
            |OwnersOf(members, o)| - (if k.org == o && members[k] == Owner && role != Owner then 1 else 0)
  {
    if role == Owner {
      SmallerSet(OwnersOf(members, o), OwnersOf(members[k := role], o));
    } else {
      SmallerSet(OwnersOf(members, o) - {k}, OwnersOf(members[k := role], o));
    }
  }

  lemma AddInvite(invites: map<string, Invitation>, token: string, i: Invitation, o: OrgId, now: int)
    requires token !in invites
    ensures |PendingOf(invites[token := i], o, now)|
         == |PendingOf(invites, o, now)| + (if IsPending(i, o, now) then 1 else 0)
  {
    var after := PendingOf(invites[token := i], o, now);
    if IsPending(i, o, now) {
      assert after == PendingOf(invites, o, now) + {token};
    } else {
      assert after == PendingOf(invites, o, now);
    }
  }

  lemma TakeInvite(invites: map<string, Invitation>, token: string, o: OrgId, now: int)
    requires token in invites
    ensures |PendingOf(invites[token := invites[token].(accepted := true)], o, now)|
         == |PendingOf(invites, o, now)| - (if IsPending(invites[token], o, now) then 1 else 0)
  {
    assert PendingOf(invites[token := invites[token].(accepted := true)], o, now)
        == PendingOf(invites, o, now) - {token};
  }

  lemma PendingRunsOut(invites: map<string, Invitation>, o: OrgId, now: int, later: int)
    requires now <= later
    ensures |PendingOf(invites, o, later)| <= |PendingOf(invites, o, now)|
  {
    SmallerSet(PendingOf(invites, o, later), PendingOf(invites, o, now));
  }

  // ---------------------------------------------------------------------------
  // Owners
  // ---------------------------------------------------------------------------

  lemma StepKeepsAnOwner(s: State, op: Op, emails: map<UserId, string>, o: OrgId)
    requires Owned(s.tables) && o in s.tables.plans
    ensures OwnerCount(Next(s, op, emails).0.tables, o) >= 1
  {
    if Next(s, op, emails).0.tables.members != s.tables.members {
      match op
      case SetRole(k, role) => ChangeRole(s.tables.members, k, role, o);
      case Remove(k) => RemoveOne(s.tables.members, k, o);
      case Accept(token, u) =>
        AddOwner(s.tables.members, Seat(s.tables.invites[token].org, u), s.tables.invites[token].role, o);
      case CreateOrg(p, u) =>
        AddOwner(s.tables.members, Seat(p, u), Owner, o);
    }
  }

  lemma NewOrgHasItsOwner(s: State, o: OrgId, u: UserId)
    requires Owned(s.tables) && o !in s.tables.plans
    ensures OwnerCount(AfterCreateOrg(s.tables, o, u).0, o) >= 1
  {
    AddOwner(s.tables.members, Seat(o, u), Owner, o);
  }

  lemma StepKeepsPlans(s: State, op: Op, emails: map<UserId, string>)
    ensures var t := Next(s, op, emails).0.tables;
            && s.tables.plans.Keys <= t.plans.Keys
            && forall o :: o in t.plans && o !in s.tables.plans ==>
                 op.CreateOrg? && op.org == o && t == AfterCreateOrg(s.tables, o, op.user).0
  {
  }

  lemma StepKeepsKeys(s: State, op: Op, emails: map<UserId, string>)
    requires Owned(s.tables)
    ensures var t := Next(s, op, emails).0.tables;
            && (forall k :: k in t.members ==> k.org in t.plans)
            && (forall x :: x in t.invites ==> t.invites[x].org in t.plans)
  {
    var t := Next(s, op, emails).0.tables;
    StepKeepsPlans(s, op, emails);
    forall k | k in t.members ensures k.org in t.plans {
      assert k in s.tables.members || (op.Accept? && k.org == s.tables.invites[op.token].org) || op.CreateOrg?;
    }
  }

  lemma StepKeepsOwners(s: State, op: Op, emails: map<UserId, string>)
    requires Owned(s.tables)
    ensures Owned(Next(s, op, emails).0.tables)
  {
    var t := Next(s, op, emails).0.tables;
    StepKeepsPlans(s, op, emails);
    StepKeepsKeys(s, op, emails);
    forall o | o in t.plans ensures OwnerCount(t, o) >= 1 {
      if o in s.tables.plans {
        StepKeepsAnOwner(s, op, emails, o);
      } else {
        NewOrgHasItsOwner(s, o, op.user);
      }
    }
  }

  /** Whatever happens, upgrades and downgrades included, every organisation keeps an owner. */
  lemma {:induction false} EveryOrgKeepsAnOwner(s: State, ops: seq<Op>, emails: map<UserId, string>)
    requires Owned(s.tables)
    ensures Owned(Run(s, ops, emails).tables)
  {
    if ops != [] {
      EveryOrgKeepsAnOwner(s, ops[..|ops| - 1], emails);
      StepKeepsOwners(Run(s, ops[..|ops| - 1], emails), ops[|ops| - 1], emails);
    }
  }

  // ---------------------------------------------------------------------------
  // Limits
  // ---------------------------------------------------------------------------

  /** How one step changes the number of members. */
  lemma StepMembers(s: State, op: Op, emails: map<UserId, string>, o: OrgId)
    requires Owned(s.tables) && o in s.tables.plans
    ensures var (t, reply) := Next(s, op, emails);
            && (op.Accept? || op.Remove? || MemberCount(t.tables, o) == MemberCount(s.tables, o))
            && (op.Remove? ==> MemberCount(t.tables, o) <= MemberCount(s.tables, o))
            && (op.Accept? ==>
                  MemberCount(t.tables, o) == MemberCount(s.tables, o) + (if Joins(s, op, emails, o) then 1 else 0))
  {
    if Next(s, op, emails).0.tables.members != s.tables.members {
      match op
      case SetRole(k, role) => ChangeRoleKeepsMembers(s.tables.members, k, role, o);
      case Remove(k) => RemoveOne(s.tables.members, k, o);
      case Accept(token, u) =>
        AddMember(s.tables.members, Seat(s.tables.invites[token].org, u), s.tables.invites[token].role, o);
      case CreateOrg(p, u) =>
        assert Seat(p, u) !in s.tables.members;
        AddMember(s.tables.members, Seat(p, u), Owner, o);
    }
  }

  /** An acceptance that adds a member to the organisation. */
  predicate Joins(s: State, op: Op, emails: map<UserId, string>, o: OrgId) {
    && op.Accept? && Next(s, op, emails).1 == Done
    && s.tables.invites[op.token].org == o && Seat(o, op.user) !in s.tables.members
  }

  /** A new organisation has one member and no invitations. */
  lemma NewOrgIsSmall(s: State, o: OrgId, u: UserId, now: int)
    requires Owned(s.tables) && o !in s.tables.plans
    ensures var t := AfterCreateOrg(s.tables, o, u).0;
            MemberCount(t, o) == 1 && PendingOf(t.invites, o, now) == {}
  {
    assert MembersOf(s.tables.members, o) == {};
    AddMember(s.tables.members, Seat(o, u), Owner, o);
  }

  /** A step that is no downgrade never lowers a limit. */
  lemma StepKeepsLimits(s: State, op: Op, emails: map<UserId, string>, o: OrgId)
    requires o in s.tables.plans && !IsDowngrade(s, op)
    ensures LimitFor(s.tables, o).WithinOf(LimitFor(Next(s, op, emails).0.tables, o))
    ensures !op.ChangePlan? ==> LimitFor(Next(s, op, emails).0.tables, o) == LimitFor(s.tables, o)
  {
  }

  lemma MembersFitAfter(s: State, op: Op, emails: map<UserId, string>, o: OrgId)
    requires Owned(s.tables) && o in s.tables.plans && !IsDowngrade(s, op)
    requires LimitFor(s.tables, o).Allows(MemberCount(s.tables, o))
    ensures var t := Next(s, op, emails).0.tables; LimitFor(t, o).Allows(MemberCount(t, o))
  {
    StepMembers(s, op, emails, o);
    StepKeepsLimits(s, op, emails, o);
  }

  lemma StepKeepsMembersFit(s: State, op: Op, emails: map<UserId, string>)
    requires Owned(s.tables) && MembersFit(s.tables) && !IsDowngrade(s, op)
    ensures MembersFit(Next(s, op, emails).0.tables)
  {
    var t := Next(s, op, emails).0.tables;
    StepKeepsPlans(s, op, emails);
    forall o | o in t.plans ensures LimitFor(t, o).Allows(MemberCount(t, o)) {
      if o in s.tables.plans {
        MembersFitAfter(s, op, emails, o);
      } else {
        NewOrgIsSmall(s, o, op.user, s.clock);
      }
    }
  }

  /** Without downgrades no organisation ever has more members than its plan includes. */
  lemma {:induction false} MembersNeverExceedThePlan(s: State, ops: seq<Op>, emails: map<UserId, string>)
    requires Owned(s.tables) && MembersFit(s.tables) && NoDowngrades(s, ops, emails)
    ensures MembersFit(Run(s, ops, emails).tables)
  {
    if ops != [] {
      var init := ops[..|ops| - 1];
      MembersNeverExceedThePlan(s, init, emails);
      EveryOrgKeepsAnOwner(s, init, emails);
      StepKeepsMembersFit(Run(s, init, emails), ops[|ops| - 1], emails);
    }
  }

  /** The exception, as it stands before the step: at the very instant it expires, an open invitation is presented by
      its addressee, who is not a member yet, where the plan has room for one more member but for no more seats. */
  predicate SneaksIn(s: State, op: Op, emails: map<UserId, string>) {
    && op.Accept? && op.token in s.tables.invites && op.user in emails
    && var i := s.tables.invites[op.token];
       && !i.accepted && i.expiresAt == s.clock && i.email == Normal(emails[op.user])
       && i.org in s.tables.plans && Seat(i.org, op.user) !in s.tables.members
       && LimitFor(s.tables, i.org).Allows(MemberCount(s.tables, i.org) + 1)
       && !LimitFor(s.tables, i.org).Allows(SeatsUsed(s.tables, i.org, s.clock) + 1)
  }

  /** How one step changes the number of seats used. */
  lemma StepSeats(s: State, op: Op, emails: map<UserId, string>, o: OrgId)
    requires Owned(s.tables) && o in s.tables.plans
    ensures var (t, reply) := Next(s, op, emails);
            var now, later := SeatsUsed(s.tables, o, s.clock), SeatsUsed(t.tables, o, t.clock);
            if op.Invite? && op.org == o && reply == Done then later == now + 1
            else if Joins(s, op, emails, o) && s.tables.invites[op.token].expiresAt == s.clock then later == now + 1
            else later <= now
  {
    var (t, reply) := Next(s, op, emails);
    StepMembers(s, op, emails, o);
    match op
    case Invite(p, email, role, token) =>
      if reply == Done {
        AddInvite(s.tables.invites, token, t.tables.invites[token], o, s.clock);
      }
    case Accept(token, u) =>
      if reply == Done {
        TakeInvite(s.tables.invites, token, o, s.clock);
      }
    case Wait(_) => PendingRunsOut(s.tables.invites, o, s.clock, t.clock);
    case _ =>
  }

  lemma SeatsFitAfter(s: State, op: Op, emails: map<UserId, string>, o: OrgId)
    requires Owned(s.tables) && o in s.tables.plans && !IsDowngrade(s, op) && !SneaksIn(s, op, emails)
    requires LimitFor(s.tables, o).Allows(SeatsUsed(s.tables, o, s.clock))
    ensures var t := Next(s, op, emails).0; LimitFor(t.tables, o).Allows(SeatsUsed(t.tables, o, t.clock))
  {
    StepSeats(s, op, emails, o);
    StepKeepsLimits(s, op, emails, o);
  }

  /** Seats stay within the plan over a step exactly when it is not the exception. */
  lemma StepKeepsSeatsIff(s: State, op: Op, emails: map<UserId, string>)
    requires Owned(s.tables) && SeatsFit(s.tables, s.clock) && !IsDowngrade(s, op)
    ensures var t := Next(s, op, emails).0;
            SeatsFit(t.tables, t.clock) <==> !SneaksIn(s, op, emails)
  {
    var t := Next(s, op, emails).0;
    if SneaksIn(s, op, emails) {
      var o := s.tables.invites[op.token].org;
      StepSeats(s, op, emails, o);
      StepKeepsLimits(s, op, emails, o);
      assert !LimitFor(t.tables, o).Allows(SeatsUsed(t.tables, o, t.clock));
    } else {
      StepKeepsPlans(s, op, emails);
      forall o | o in t.tables.plans ensures LimitFor(t.tables, o).Allows(SeatsUsed(t.tables, o, t.clock)) {
        if o in s.tables.plans {
          SeatsFitAfter(s, op, emails, o);
        } else {
          NewOrgIsSmall(s, o, op.user, s.clock);
        }
      }
    }
  }

  predicate NobodySneaksIn(s: State, ops: seq<Op>, emails: map<UserId, string>) {
    ops == [] ||
    (var init := ops[..|ops| - 1];
     NobodySneaksIn(s, init, emails) && !SneaksIn(Run(s, init, emails), ops[|ops| - 1], emails))
  }

  ghost predicate FitsThroughout(s: State, ops: seq<Op>, emails: map<UserId, string>) {
    var t := Run(s, ops, emails);
    SeatsFit(t.tables, t.clock) && (ops == [] || FitsThroughout(s, ops[..|ops| - 1], emails))
  }

  /** Without downgrades, members and pending invitations stay within the plan throughout a run iff nobody sneaks in. */
  lemma {:induction false} SeatsFitIff(s: State, ops: seq<Op>, emails: map<UserId, string>)
    requires Owned(s.tables) && SeatsFit(s.tables, s.clock) && NoDowngrades(s, ops, emails)
    ensures FitsThroughout(s, ops, emails) <==> NobodySneaksIn(s, ops, emails)
  {
    if ops != [] {
      var init, op := ops[..|ops| - 1], ops[|ops| - 1];
      SeatsFitIff(s, init, emails);
      EveryOrgKeepsAnOwner(s, init, emails);
      if FitsThroughout(s, init, emails) {
        StepKeepsSeatsIff(Run(s, init, emails), op, emails);
      }
    }
  }

  const EMPTY := State(Tables(map[], map[], map[]), 0)

  /** An organisation on Free whose founder is still alone. */
  ghost predicate Alone(t: Tables, o: OrgId, founder: UserId) {
    t.plans == map[o := "free"] && t.members == map[Seat(o, founder) := Owner]
  }

  /** While the founder is alone and a seat is free, somebody with another address can be invited. */
  lemma InviteWorks(s: State, o: OrgId, founder: UserId, email: string, token: string, emails: map<UserId, string>)
    requires Alone(s.tables, o, founder) && token !in s.tables.invites && |PendingOf(s.tables.invites, o, s.clock)| < 2
    requires founder in emails ==> emails[founder] != Normal(email)
    ensures var t := Next(s, Invite(o, email, Member, token), emails).0;
            && Alone(t.tables, o, founder) && t.clock == s.clock
            && t.tables.invites
               == s.tables.invites[token := Invitation(o, Normal(email), Member, s.clock + INVITE_TTL, false)]
            && |PendingOf(t.tables.invites, o, s.clock)| == |PendingOf(s.tables.invites, o, s.clock)| + 1
  {
    assert MembersOf(s.tables.members, o) == {Seat(o, founder)};
    AddInvite(s.tables.invites, token, Invitation(o, Normal(email), Member, s.clock + INVITE_TTL, false), o, s.clock);
  }

  /** Accepted at the instant it expires, an invitation takes a seat that it no longer held. */
  lemma AcceptWorks(s: State, o: OrgId, founder: UserId, u: UserId, token: string, emails: map<UserId, string>)
    requires Alone(s.tables, o, founder) && u != founder && u in emails
    requires token in s.tables.invites
    requires s.tables.invites[token] == Invitation(o, Normal(emails[u]), Member, s.clock, false)
    ensures var t := Next(s, Accept(token, u), emails).0;
            && t.tables.plans == map[o := "free"] && t.clock == s.clock
            && SeatsUsed(t.tables, o, t.clock) == 2 + |PendingOf(s.tables.invites, o, s.clock)|
  {
    assert MembersOf(s.tables.members, o) == {Seat(o, founder)};
    AddMember(s.tables.members, Seat(o, u), Member, o);
    TakeInvite(s.tables.invites, token, o, s.clock);
  }

  /** Invite somebody, wait until the invitation expires, give both free seats away again, and accept after all. */
  function Overrun(o: OrgId, founder: UserId, u: UserId, emails: seq<string>, tokens: seq<string>): seq<Op>
    requires |emails| == |tokens| == 3
  {
    [CreateOrg(o, founder), Invite(o, emails[0], Member, tokens[0]), Wait(INVITE_TTL),
     Invite(o, emails[1], Member, tokens[1]), Invite(o, emails[2], Member, tokens[2]), Accept(tokens[0], u)]
  }

  /** The exception is real: a Free organisation, with its three seats, comes to use four, whoever it invites. */
  lemma SeatsCanOverrun(o: OrgId, founder: UserId, u: UserId, invited: seq<string>, tokens: seq<string>,
                        emails: map<UserId, string>)
    requires |invited| == |tokens| == 3 && tokens[0] != tokens[1] && tokens[1] != tokens[2] && tokens[0] != tokens[2]
    requires u != founder && u in emails && Normal(emails[u]) == Normal(invited[0])
    requires founder in emails ==> forall i :: 0 <= i < 3 ==> emails[founder] != Normal(invited[i])
    ensures var ops := Overrun(o, founder, u, invited, tokens);
            var t := Run(EMPTY, ops, emails);
            && Owned(EMPTY.tables) && SeatsFit(EMPTY.tables, EMPTY.clock) && NoDowngrades(EMPTY, ops, emails)
            && LimitFor(t.tables, o) == AtMost(3) && SeatsUsed(t.tables, o, t.clock) == 4
  {
    var ops := Overrun(o, founder, u, invited, tokens);
    var s1 := Next(EMPTY, ops[0], emails).0;
    assert PendingOf(s1.tables.invites, o, 0) == {};
    InviteWorks(s1, o, founder, invited[0], tokens[0], emails);
    var s2 := Next(s1, ops[1], emails).0;
    var s3 := Next(s2, ops[2], emails).0;
    assert PendingOf(s3.tables.invites, o, INVITE_TTL) == {};
    InviteWorks(s3, o, founder, invited[1], tokens[1], emails);
    var s4 := Next(s3, ops[3], emails).0;
    InviteWorks(s4, o, founder, invited[2], tokens[2], emails);
    var s5 := Next(s4, ops[4], emails).0;
    AcceptWorks(s5, o, founder, u, tokens[0], emails);
    SamePlansNoDowngrades(EMPTY, ops, emails);
    RunOfSix(EMPTY, ops, emails);
  }

  lemma {:induction false} SamePlansNoDowngrades(s: State, ops: seq<Op>, emails: map<UserId, string>)
    requires forall op :: op in ops ==> !op.ChangePlan?
    ensures NoDowngrades(s, ops, emails)
  {
    if ops != [] {
      SamePlansNoDowngrades(s, ops[..|ops| - 1], emails);
    }
  }

  /** A run of six steps, step by step. */
  lemma RunOfSix(s: State, ops: seq<Op>, emails: map<UserId, string>)
    requires |ops| == 6
    ensures var s1 := Next(s, ops[0], emails).0;
            var s2 := Next(s1, ops[1], emails).0;
            var s3 := Next(s2, ops[2], emails).0;
            var s4 := Next(s3, ops[3], emails).0;
            var s5 := Next(s4, ops[4], emails).0;
            Run(s, ops, emails) == Next(s5, ops[5], emails).0
  {
    assert ops[..0] == [];
    assert ops[..1][..0] == ops[..0] && ops[..2][..1] == ops[..1] && ops[..3][..2] == ops[..2];
    assert ops[..4][..3] == ops[..3] && ops[..5][..4] == ops[..4];
    assert Run(s, ops[..1], emails) == Next(s, ops[0], emails).0;
    assert Run(s, ops[..2], emails) == Next(Run(s, ops[..1], emails), ops[1], emails).0;
    assert Run(s, ops[..3], emails) == Next(Run(s, ops[..2], emails), ops[2], emails).0;
    assert Run(s, ops[..4], emails) == Next(Run(s, ops[..3], emails), ops[3], emails).0;
    assert Run(s, ops[..5], emails) == Next(Run(s, ops[..4], emails), ops[4], emails).0;
  }

  // ---------------------------------------------------------------------------
  // What one call does
  // ---------------------------------------------------------------------------

  /** No other member of the seat's organisation is an owner. */
  predicate OnlyOwner(members: map<Seat, Role>, k: Seat) {
    forall j :: j in members && j.org == k.org && members[j] == Owner ==> j == k
  }

  lemma LastOwnerIsOnlyOwner(t: Tables, k: Seat)
    requires k in t.members
    ensures LastOwner(t, k) <==> t.members[k] == Owner && OnlyOwner(t.members, k)
  {
    if t.members[k] == Owner {
      var owners := OwnersOf(t.members, k.org);
      if OnlyOwner(t.members, k) {
        assert owners == {k};
      } else {
        var j :| j in t.members && j.org == k.org && t.members[j] == Owner && j != k;
        SmallerSet({j, k}, owners);
      }
    }
  }

  /** A change of role gives that seat exactly the role asked for; it is refused only for the last owner. */
  lemma SetRoleTells(t: Tables, k: Seat, role: Role)
    ensures var (u, reply) := AfterSetRole(t, k, role);
            && (reply == NotFound <==> k !in t.members)
            && (reply == Conflict
                <==> k in t.members && t.members[k] == Owner && role != Owner && OnlyOwner(t.members, k))
            && reply in {NotFound, Conflict, Done}
            && u.plans == t.plans && u.invites == t.invites && u.members.Keys == t.members.Keys
            && forall j :: j in t.members ==> u.members[j] == if j == k && reply == Done then role else t.members[j]
  {
    if k in t.members {
      LastOwnerIsOnlyOwner(t, k);
    }
  }

  /** A removal takes that seat away and no other; it is refused only for the last owner. */
  lemma RemoveTells(t: Tables, k: Seat)
    ensures var (u, reply) := AfterRemove(t, k);
            && (reply == NotFound <==> k !in t.members)
            && (reply == Conflict <==> k in t.members && t.members[k] == Owner && OnlyOwner(t.members, k))
            && reply in {NotFound, Conflict, Done}
            && u.plans == t.plans && u.invites == t.invites
            && (forall j :: j in u.members <==> j in t.members && (j != k || reply != Done))
            && forall j :: j in u.members ==> u.members[j] == t.members[j]
  {
    if k in t.members {
      LastOwnerIsOnlyOwner(t, k);
    }
  }

  /** Whether the organisation's plan has no room for one more than `used`: Free has 3 seats, Team 10, Business any. */
  predicate IsFull(t: Tables, o: OrgId, used: nat) {
    o in t.plans && t.plans[o] != "business" && used >= if t.plans[o] == "team" then 10 else 3
  }

  lemma NoRoomIff(t: Tables, o: OrgId, now: int)
    ensures var members := |set k | k in t.members && k.org == o|;
            var pending := |set x | x in t.invites && t.invites[x].org == o && !t.invites[x].accepted
                                    && t.invites[x].expiresAt > now|;
            && (HasRoom(t, o, now, true) <==> !IsFull(t, o, members))
            && (HasRoom(t, o, now, false) <==> !IsFull(t, o, members + pending))
  {
    assert MembersOf(t.members, o) == set k | k in t.members && k.org == o;
    assert PendingOf(t.invites, o, now)
        == set x | x in t.invites && t.invites[x].org == o && !t.invites[x].accepted && t.invites[x].expiresAt > now;
  }

  /** An invitation is for the address in lower case, gives the role asked for, and lasts seven days. */
  lemma InviteTells(t: Tables, o: OrgId, email: string, role: Role, token: string, now: int,
                    emails: map<UserId, string>)
    ensures var (u, reply) := AfterInvite(t, o, email, role, token, now, emails);
            var known := exists w :: w in emails && emails[w] == Normal(email) && Seat(o, w) in t.members;
            var seats := |set k | k in t.members && k.org == o|
                         + |set x | x in t.invites && t.invites[x].org == o && !t.invites[x].accepted
                                    && t.invites[x].expiresAt > now|;
            && (reply == Conflict <==> known)
            && (reply == OverLimit <==> !known && IsFull(t, o, seats))
            && (reply == Rejected <==> !known && !IsFull(t, o, seats) && (o !in t.plans || token in t.invites))
            && reply in {Conflict, OverLimit, Rejected, Done}
            && u.plans == t.plans && u.members == t.members
            && u.invites == if reply != Done then t.invites
                            else t.invites[token := Invitation(o, Normal(email), role, now + 604800, false)]
  {
    NoRoomIff(t, o, now);
  }

  /** Accepting gives a new member the invitation's role and leaves a member's role alone; what each refusal means. */
  lemma AcceptTells(t: Tables, token: string, u: UserId, email: string, now: int)
    requires token in t.invites
    ensures var (after, reply) := AfterAccept(t, token, u, email, now);
            var i := t.invites[token];
            var k := Seat(i.org, u);
            var open := !i.accepted && now <= i.expiresAt;
            var full := IsFull(t, i.org, |set j | j in t.members && j.org == i.org|);
            && (reply == Conflict <==> i.accepted)
            && (reply == Expired <==> !i.accepted && i.expiresAt < now)
            && (reply == WrongEmail <==> open && Normal(email) != i.email)
            && (reply == OverLimit <==> open && Normal(email) == i.email && k !in t.members && full)
            && reply in {Conflict, Expired, WrongEmail, OverLimit, Done}
            && after.plans == t.plans
            && after.members == (if reply == Done && k !in t.members then t.members[k := i.role] else t.members)
            && after.invites == (if reply == Done then t.invites[token := i.(accepted := true)] else t.invites)
  {
    NoRoomIff(t, t.invites[token].org, now);
  }

  // ---------------------------------------------------------------------------
  // Roles
  // ---------------------------------------------------------------------------

  /** The role a step gives to a seat: by a successful change of role, or to a new member by the invitation. */
  function Gives(s: State, op: Op, emails: map<UserId, string>, k: Seat): Option<Role> {
    if Next(s, op, emails).1 != Done then None
    else
      match op
      case SetRole(seat, role) => if seat == k then Some(role) else None
      case Accept(token, u) =>
        if token in s.tables.invites && s.tables.invites[token].org == k.org && u == k.user && k !in s.tables.members
        then Some(s.tables.invites[token].role) else None
      case _ => None
  }

  /** One step: a seat gets the role that the step gives it, and otherwise keeps its role or is removed. */
  lemma StepGives(s: State, op: Op, emails: map<UserId, string>, k: Seat)
    requires k.org in s.tables.plans
    ensures var t := Next(s, op, emails).0.tables;
            && k.org in t.plans
            && (Gives(s, op, emails, k).Some? ==> k in t.members && t.members[k] == Gives(s, op, emails, k).value)
            && (Gives(s, op, emails, k).None? ==>
                  && (k in t.members <==> k in s.tables.members && !(op == Remove(k) && Next(s, op, emails).1 == Done))
                  && (k in t.members ==> t.members[k] == s.tables.members[k]))
  {
  }

  /** What step `i` of a run gives to a seat. */
  function GivenAt(s: State, ops: seq<Op>, emails: map<UserId, string>, k: Seat, i: nat): Option<Role>
    requires i < |ops|
  {
    Gives(Run(s, ops[..i], emails), ops[i], emails, k)
  }

  ghost predicate LastGiven(s: State, ops: seq<Op>, emails: map<UserId, string>, k: Seat, i: nat, role: Role)
    requires i < |ops|
  {
    GivenAt(s, ops, emails, k, i) == Some(role) && NoneGiven(s, ops, emails, k, i + 1)
  }

  ghost predicate NoneGiven(s: State, ops: seq<Op>, emails: map<UserId, string>, k: Seat, from: nat) {
    forall j :: from <= j < |ops| ==> GivenAt(s, ops, emails, k, j) == None
  }

  lemma GivenEarlier(s: State, ops: seq<Op>, emails: map<UserId, string>, k: Seat, i: nat)
    requires i < |ops| - 1
    ensures GivenAt(s, ops[..|ops| - 1], emails, k, i) == GivenAt(s, ops, emails, k, i)
  {
    assert ops[..|ops| - 1][..i] == ops[..i];
  }

  lemma NoneGivenYet(s: State, ops: seq<Op>, emails: map<UserId, string>, k: Seat, from: nat)
    requires ops != [] && GivenAt(s, ops, emails, k, |ops| - 1) == None
    requires NoneGiven(s, ops[..|ops| - 1], emails, k, from)
    ensures NoneGiven(s, ops, emails, k, from)
  {
    forall j | from <= j < |ops| - 1 ensures GivenAt(s, ops, emails, k, j) == None {
      GivenEarlier(s, ops, emails, k, j);
    }
  }

  /**
   Whoever is a member of an organisation that was there from the start has the role that was last given to them, by a
   change of role or by the invitation they joined with, or, if none was given, the role they had at the start.
   */
  lemma {:induction false} RoleIsTheLastGiven(s: State, ops: seq<Op>, emails: map<UserId, string>, k: Seat)
    requires k.org in s.tables.plans
    ensures var t := Run(s, ops, emails).tables;
            && k.org in t.plans
            && (k in t.members ==>
                  || (NoneGiven(s, ops, emails, k, 0) && k in s.tables.members
                      && t.members[k] == s.tables.members[k])
                  || exists i :: 0 <= i < |ops| && LastGiven(s, ops, emails, k, i, t.members[k]))
  {
    if ops != [] {
      var n := |ops| - 1;
      var init := ops[..n];
      var before := Run(s, init, emails);
      RoleIsTheLastGiven(s, init, emails, k);
      StepGives(before, ops[n], emails, k);
      var t := Run(s, ops, emails).tables;
      assert GivenAt(s, ops, emails, k, n) == Gives(before, ops[n], emails, k);
      if k in t.members {
        if GivenAt(s, ops, emails, k, n).Some? {
          assert LastGiven(s, ops, emails, k, n, t.members[k]);
        } else {
          if NoneGiven(s, init, emails, k, 0) {
            NoneGivenYet(s, ops, emails, k, 0);
          } else {
            var i :| 0 <= i < |init| && LastGiven(s, init, emails, k, i, before.tables.members[k]);
            GivenEarlier(s, ops, emails, k, i);
            NoneGivenYet(s, ops, emails, k, i + 1);
            assert LastGiven(s, ops, emails, k, i, t.members[k]);
          }
        }
      }
    }
  }

  /** No one of the organisation is invited to be an owner. */
  ghost predicate NoOwnerInvited(invites: map<string, Invitation>, o: OrgId) {
    forall x :: x in invites && invites[x].org == o ==> invites[x].role != Owner
  }

  /** An operation that makes nobody an owner of the organisation: no such change of role, and no such invitation. */
  predicate MakesNoOwner(op: Op, o: OrgId) {
    && !(op.SetRole? && op.seat.org == o && op.role == Owner)
    && !(op.Invite? && op.org == o && op.role == Owner)
  }

  /** Without changes of role to Owner and without Owner invitations, an organisation gets no new owners. */
  lemma {:induction false} OwnersNeverGrow(s: State, ops: seq<Op>, emails: map<UserId, string>, o: OrgId)
    requires o in s.tables.plans && NoOwnerInvited(s.tables.invites, o)
    requires forall i :: 0 <= i < |ops| ==> MakesNoOwner(ops[i], o)
    ensures var t := Run(s, ops, emails).tables;
            && o in t.plans && NoOwnerInvited(t.invites, o)
            && forall k :: k in t.members && k.org == o && t.members[k] == Owner ==>
                 k in s.tables.members && s.tables.members[k] == Owner
  {
    if ops != [] {
      var before, op := Run(s, ops[..|ops| - 1], emails), ops[|ops| - 1];
      OwnersNeverGrow(s, ops[..|ops| - 1], emails, o);
      var t := Next(before, op, emails).0.tables;
      assert NoOwnerInvited(t.invites, o);
      forall k | k in t.members && k.org == o && t.members[k] == Owner
        ensures k in before.tables.members && before.tables.members[k] == Owner
      {
        StepGives(before, op, emails, k);
      }
    }
  }

  // ---------------------------------------------------------------------------
  // Invitations
  // ---------------------------------------------------------------------------

  /** The seat was given out by an accepted invitation to its user's address. */
  ghost predicate WasInvited(t: Tables, k: Seat, emails: map<UserId, string>) {
    exists x :: x in t.invites && t.invites[x].accepted && t.invites[x].org == k.org
      && k.user in emails && t.invites[x].email == Normal(emails[k.user])
  }

  lemma InvitesStay(s: State, op: Op, emails: map<UserId, string>)
    ensures var t := Next(s, op, emails).0;
            forall x :: x in s.tables.invites ==>
              x in t.tables.invites
              && t.tables.invites[x] in {s.tables.invites[x], s.tables.invites[x].(accepted := true)}
  {
  }

  /** In an organisation that was there from the start, one becomes a member only by an invitation to one's address. */
  lemma {:induction false} NewMembersWereInvited(s: State, ops: seq<Op>, emails: map<UserId, string>, k: Seat)
    requires k.org in s.tables.plans && k !in s.tables.members
    ensures var t := Run(s, ops, emails);
            k.org in t.tables.plans && (k in t.tables.members ==> WasInvited(t.tables, k, emails))
  {
    if ops != [] {
      var before, op := Run(s, ops[..|ops| - 1], emails), ops[|ops| - 1];
      NewMembersWereInvited(s, ops[..|ops| - 1], emails, k);
      InvitesStay(before, op, emails);
      var t := Next(before, op, emails).0.tables;
      if k in t.members {
        if k in before.tables.members {
          var x :| x in before.tables.invites && before.tables.invites[x].accepted
            && before.tables.invites[x].org == k.org && before.tables.invites[x].email == Normal(emails[k.user]);
          assert x in t.invites && t.invites[x].accepted;
        } else {
          assert op.Accept? && op.token in t.invites;
        }
      }
    }
  }

  lemma {:induction false} AcceptedStays(s: State, ops: seq<Op>, emails: map<UserId, string>, x: string)
    requires x in s.tables.invites && s.tables.invites[x].accepted
    ensures var t := Run(s, ops, emails).tables; x in t.invites && t.invites[x].accepted
  {
    if ops != [] {
      AcceptedStays(s, ops[..|ops| - 1], emails, x);
      InvitesStay(Run(s, ops[..|ops| - 1], emails), ops[|ops| - 1], emails);
    }
  }

  lemma {:induction false} RunsSplit(s: State, a: seq<Op>, b: seq<Op>, emails: map<UserId, string>)
    ensures Run(s, a + b, emails) == Run(Run(s, a, emails), b, emails)
  {
    if b == [] {
      assert a + b == a;
    } else {
      RunsSplit(s, a, b[..|b| - 1], emails);
      assert (a + b)[..|a + b| - 1] == a + b[..|b| - 1];
    }
  }

  /** An invitation seats at most one person: in any run at most one acceptance of a token succeeds. */
  lemma AcceptedAtMostOnce(s: State, ops: seq<Op>, emails: map<UserId, string>, i: nat, j: nat)
    requires i < j < |ops| && ops[i].Accept? && ops[j].Accept? && ops[i].token == ops[j].token
    requires Next(Run(s, ops[..i], emails), ops[i], emails).1 == Done
    ensures Next(Run(s, ops[..j], emails), ops[j], emails).1 != Done
  {
    var after := Run(s, ops[..i + 1], emails);
    assert ops[..i + 1][..i] == ops[..i];
    assert ops[..j] == ops[..i + 1] + ops[i + 1..j];
    RunsSplit(s, ops[..i + 1], ops[i + 1..j], emails);
    AcceptedStays(after, ops[i + 1..j], emails, ops[i].token);
  }
}
