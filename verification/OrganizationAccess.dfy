/** Membership of organizations: role changes and removals that run concurrently under a row lock
    (api/organization_access.py), next to creations and invite acceptances that take no lock.
  */
module OrganizationAccess {
  import opened ArtifactDomain

  type User = nat
  type Txn = nat

  datatype Role = Owner | Admin | Member

  type Members = map<User, Role>

  datatype Command = ChangeRole(member: User, role: Role) | RemoveMember(member: User)

  datatype Error =
    | OrganizationNotFound | AdminRequired | MemberNotFound | OwnerPermissionRequired | LastOwnerRequired | MemberAlreadyExists

  datatype Reply = Applied | Refused(error: Error)

  function Owners(m: Members): set<User> { set u | u in m && m[u].Owner? }

  predicate KeepsOwner(c: Command) { c.ChangeRole? && c.role.Owner? }

  function Written(m: Members, c: Command): Members {
    match c
    case ChangeRole(member, role) => m[member := role]
    case RemoveMember(member) => m - {member}
  }

  /** The permission checks and the owner count. */
  function Guard(m: Members, actorRole: Role, targetRole: Role, c: Command): Option<Error> {
    if (targetRole.Owner? || KeepsOwner(c)) && !actorRole.Owner? then Some(OwnerPermissionRequired)
    else if targetRole.Owner? && !KeepsOwner(c) && |Owners(m)| <= 1 then Some(LastOwnerRequired)
    else None
  }

  /** change_member_role and remove_organization_member as one indivisible operation. */
  function Execute(m: Members, actor: User, c: Command): (Members, Reply) {
    if actor !in m then (m, Refused(OrganizationNotFound))
    else if m[actor].Member? then (m, Refused(AdminRequired))
    else if c.member !in m then (m, Refused(MemberNotFound))
    else
      var refused := Guard(m, m[actor], m[c.member], c);
      if refused.Some? then (m, Refused(refused.value)) else (Written(m, c), Applied)
  }

  /** Somebody else is an owner. */
  predicate OtherOwners(m: Members, member: User) { exists u | u in m :: u != member && m[u] == Owner }

  lemma CountSeesOthers(m: Members, member: User)
    requires member in m && m[member] == Owner
    ensures |Owners(m)| <= 1 <==> !OtherOwners(m, member)
  {
    assert member in Owners(m);
    if u :| u in m && u != member && m[u] == Owner {
      assert {member, u} <= Owners(m);
      assert Owners(m) == {member, u} + (Owners(m) - {member, u});
    } else {
      assert Owners(m) == {member};
    }
  }

  /** Who may do what: a plain member nothing; an admin everything that neither makes nor touches an owner; an owner
      everything, as long as another owner stays.  What is allowed is done, what is refused changes nothing. */
  lemma CommandDecides(m: Members, actor: User, c: Command)
    ensures var r := Execute(m, actor, c);
            var makesOwner := c.ChangeRole? && c.role == Owner;
            if actor !in m then r == (m, Refused(OrganizationNotFound))
            else if m[actor] != Owner && m[actor] != Admin then r == (m, Refused(AdminRequired))
            else if c.member !in m then r == (m, Refused(MemberNotFound))
            else if m[actor] == Admin && (m[c.member] == Owner || makesOwner) then r == (m, Refused(OwnerPermissionRequired))
            else if m[c.member] == Owner && !makesOwner && !OtherOwners(m, c.member) then r == (m, Refused(LastOwnerRequired))
            else r == (if c.ChangeRole? then m[c.member := c.role] else m - {c.member}, Applied)
  {
    if c.member in m && m[c.member] == Owner {
      CountSeesOthers(m, c.member);
    }
    hide Owners, OtherOwners;
  }

  /** An admin changes a member who is no owner to a role other than owner. */
  lemma AdminChangesRole(m: Members, actor: User, member: User, role: Role)
    requires actor in m && m[actor] == Admin && member in m && m[member] != Owner && role != Owner
    ensures Execute(m, actor, ChangeRole(member, role)) == (m[member := role], Applied)
  {
    CommandDecides(m, actor, ChangeRole(member, role));
    hide Execute;
  }

  // ----- The concurrent machine

  /** How far a transaction got; each holds the row lock of its organization until it finishes. */
  datatype Local =
    | Locked(org: nat, actor: User, command: Command)
    | Authorized(org: nat, actor: User, command: Command, actorRole: Role)
    | Targeted(org: nat, actor: User, command: Command, actorRole: Role, targetRole: Role)
    | Guarded(org: nat, actor: User, command: Command)

  datatype State = State(orgs: seq<Members>, locals: map<Txn, Local>, answers: seq<Reply>)

  const EMPTY := State([], map[], [])

  datatype Step =
    | CreateOrganization(creator: User)
    | AcceptInvite(org: nat, user: User, admin: bool)   // an invite grants ADMIN or MEMBER only
    | Lock(t: Txn, org: nat, actor: User, command: Command)
    | ReadActor(t: Txn)
    | ReadTarget(t: Txn)
    | CheckGuard(t: Txn)
    | Write(t: Txn)
    | Rollback(t: Txn)

  predicate LockFree(s: State, org: nat) { forall u | u in s.locals :: s.locals[u].org != org }

  function Answer(s: State, t: Txn, r: Reply): State { s.(locals := s.locals - {t}, answers := s.answers + [r]) }
  function Go(s: State, t: Txn, l: Local): State { s.(locals := s.locals[t := l]) }

  function Join(m: Members, user: User, admin: bool): (Members, Reply) {
    if user in m then (m, Refused(MemberAlreadyExists)) else (m[user := if admin then Admin else Member], Applied)
  }

  function Apply(s: State, step: Step): State {
    match step
    case CreateOrganization(creator) => s.(orgs := s.orgs + [map[creator := Owner]], answers := s.answers + [Applied])
    case AcceptInvite(org, user, admin) =>
      if org >= |s.orgs| then s
      else
        var (m, r) := Join(s.orgs[org], user, admin);
        s.(orgs := s.orgs[org := m], answers := s.answers + [r])
    case Lock(t, org, actor, command) =>
      if t in s.locals then s
      else if org >= |s.orgs| then s.(answers := s.answers + [Refused(OrganizationNotFound)])
      else if !LockFree(s, org) then s
      else Go(s, t, Locked(org, actor, command))
    case ReadActor(t) =>
      if t !in s.locals || !s.locals[t].Locked? || s.locals[t].org >= |s.orgs| then s
      else
        var l := s.locals[t];
        var m := s.orgs[l.org];
        if l.actor !in m then Answer(s, t, Refused(OrganizationNotFound))
        else if m[l.actor].Member? then Answer(s, t, Refused(AdminRequired))
        else Go(s, t, Authorized(l.org, l.actor, l.command, m[l.actor]))
    case ReadTarget(t) =>
      if t !in s.locals || !s.locals[t].Authorized? || s.locals[t].org >= |s.orgs| then s
      else
        var l := s.locals[t];
        var m := s.orgs[l.org];
        if l.command.member !in m then Answer(s, t, Refused(MemberNotFound))
        else Go(s, t, Targeted(l.org, l.actor, l.command, l.actorRole, m[l.command.member]))
    case CheckGuard(t) =>
      if t !in s.locals || !s.locals[t].Targeted? || s.locals[t].org >= |s.orgs| then s
      else
        var l := s.locals[t];
        var refused := Guard(s.orgs[l.org], l.actorRole, l.targetRole, l.command);
        if refused.Some? then Answer(s, t, Refused(refused.value)) else Go(s, t, Guarded(l.org, l.actor, l.command))
    case Write(t) =>
      if t !in s.locals || !s.locals[t].Guarded? || s.locals[t].org >= |s.orgs| then s
      else
        var l := s.locals[t];
        Answer(s.(orgs := s.orgs[l.org := Written(s.orgs[l.org], l.command)]), t, Applied)
    case Rollback(t) => s.(locals := s.locals - {t})
  }

  function Run(steps: seq<Step>): State {
    if steps == [] then EMPTY else Apply(Run(steps[..|steps| - 1]), steps[|steps| - 1])
  }

  // ----- Invariant: the lock keeps what a transaction has read true until it commits

  predicate LocalOk(orgs: seq<Members>, l: Local) {
    && l.org < |orgs|
    && match l
       case Locked(_, _, _) => true
       case Authorized(org, actor, _, actorRole) => actor in orgs[org] && orgs[org][actor] == actorRole && !actorRole.Member?
       case Targeted(org, actor, c, actorRole, targetRole) =>
         && actor in orgs[org] && orgs[org][actor] == actorRole && !actorRole.Member?
         && c.member in orgs[org] && orgs[org][c.member] == targetRole
       case Guarded(org, actor, c) =>
         // the outcome is settled
         Execute(orgs[org], actor, c) == (Written(orgs[org], c), Applied)
  }

  predicate OneHolder(locals: map<Txn, Local>) {
    forall t, u | t in locals && u in locals && locals[t].org == locals[u].org :: t == u
  }

  predicate Inv(s: State) {
    && OneHolder(s.locals)
    && (forall t | t in s.locals :: LocalOk(s.orgs, s.locals[t]))
    && (forall o | 0 <= o < |s.orgs| :: Owners(s.orgs[o]) != {})
  }

  lemma JoinKeepsOwners(m: Members, user: User, admin: bool)
    ensures Owners(Join(m, user, admin).0) == Owners(m)
  {
  }

  /** Accepting an invitation adds the newcomer, as the admin or member that the invitation says, and touches nobody
      else; a member stays what he is. */
  lemma JoinDecides(m: Members, user: User, admin: bool)
    ensures var (m', r) := Join(m, user, admin);
            && m'.Keys == m.Keys + {user} && (forall u | u in m :: m'[u] == m[u])
            && (r == Applied <==> user !in m) && (r.Refused? ==> r == Refused(MemberAlreadyExists))
            && (user !in m ==> (m'[user] == Admin <==> admin) && m'[user] != Owner)
  {
  }

  /** A newcomer changes nothing for a transaction that holds the lock. */
  lemma JoinKeepsLocal(orgs: seq<Members>, org: nat, user: User, admin: bool, l: Local)
    requires org < |orgs| && LocalOk(orgs, l)
    ensures LocalOk(orgs[org := Join(orgs[org], user, admin).0], l)
  {
    var m, m' := orgs[org], Join(orgs[org], user, admin).0;
    JoinKeepsOwners(m, user, admin);
    hide Owners;
    if l.org == org && l.Guarded? {
      assert Execute(m, l.actor, l.command).1 == Applied;
    }
  }

  lemma JoinKeepsInv(s: State, org: nat, user: User, admin: bool)
    requires Inv(s)
    ensures Inv(Apply(s, AcceptInvite(org, user, admin)))
  {
    hide LocalOk, Join, Owners;
    if org < |s.orgs| {
      JoinKeepsOwners(s.orgs[org], user, admin);
      forall t | t in s.locals ensures LocalOk(s.orgs[org := Join(s.orgs[org], user, admin).0], s.locals[t]) {
        JoinKeepsLocal(s.orgs, org, user, admin, s.locals[t]);
      }
    }
  }

  lemma WrittenOwners(m: Members, c: Command)
    ensures Owners(Written(m, c)) == if KeepsOwner(c) then Owners(m) + {c.member} else Owners(m) - {c.member}
  {
  }

  lemma ExecuteKeepsOwner(m: Members, actor: User, c: Command)
    requires Owners(m) != {}
    ensures Owners(Execute(m, actor, c).0) != {}
  {
    WrittenOwners(m, c);
    if Owners(m) - {c.member} == {} {
      assert c.member in Owners(m);
      assert Owners(m) == {c.member};
    }
  }

  lemma WriteKeepsInv(s: State, t: Txn)
    requires Inv(s)
    ensures Inv(Apply(s, Write(t)))
  {
    var s' := Apply(s, Write(t));
    if t in s.locals && s.locals[t].Guarded? {
      var l := s.locals[t];
      assert LocalOk(s.orgs, l);
      ExecuteKeepsOwner(s.orgs[l.org], l.actor, l.command);
      hide Execute, Owners, Written;
      forall u | u in s'.locals ensures LocalOk(s'.orgs, s'.locals[u]) {
        assert LocalOk(s.orgs, s.locals[u]) && s.locals[u].org != l.org;
      }
    }
  }

  lemma CreateKeepsInv(s: State, creator: User)
    requires Inv(s)
    ensures Inv(Apply(s, CreateOrganization(creator)))
  {
    var s' := Apply(s, CreateOrganization(creator));
    assert creator in Owners(map[creator := Owner]);
    hide Execute, Owners, Written;
    forall t | t in s'.locals ensures LocalOk(s'.orgs, s'.locals[t]) {
      assert LocalOk(s.orgs, s.locals[t]);
    }
  }

  lemma ReadKeepsInv(s: State, step: Step)
    requires Inv(s) && (step.ReadActor? || step.ReadTarget? || step.CheckGuard?)
    ensures Inv(Apply(s, step))
  {
    hide Owners, Written;
    if step.t in s.locals {
      assert LocalOk(s.orgs, s.locals[step.t]);
    }
  }

  lemma StepKeepsInv(s: State, step: Step)
    requires Inv(s)
    ensures Inv(Apply(s, step))
  {
    match step
    case CreateOrganization(creator) => hide Inv; CreateKeepsInv(s, creator);
    case AcceptInvite(org, user, admin) => hide Inv; JoinKeepsInv(s, org, user, admin);
    case Lock(t, org, actor, command) => hide Owners, Execute, Written;
    case ReadActor(t) => hide Inv; ReadKeepsInv(s, step);
    case ReadTarget(t) => hide Inv; ReadKeepsInv(s, step);
    case CheckGuard(t) => hide Inv; ReadKeepsInv(s, step);
    case Write(t) => hide Inv; WriteKeepsInv(s, t);
    case Rollback(t) => hide Owners, Execute, Written;
  }

  lemma {:induction false} RunKeepsInv(steps: seq<Step>)
    ensures Inv(Run(steps))
  {
    if steps != [] {
      hide Inv, Apply;
      RunKeepsInv(steps[..|steps| - 1]);
      StepKeepsInv(Run(steps[..|steps| - 1]), steps[|steps| - 1]);
    }
  }

  // ----- Theorems over every run

  /** Every organization keeps at least one owner in every interleaving. */
  lemma AlwaysAnOwner(steps: seq<Step>, org: nat)
    requires org < |Run(steps).orgs|
    ensures |Owners(Run(steps).orgs[org])| >= 1
  {
    hide Run;
    RunKeepsInv(steps);
    hide Owners, LocalOk;
    assert |Owners(Run(steps).orgs[org])| != 0;
  }

  /** Owners of an organization change only when a transaction that holds its lock writes, on behalf of an
      actor who is an owner at that moment, and only by the member it names. */
  lemma OwnersChangeByOwners(steps: seq<Step>, step: Step, org: nat)
    requires org < |Run(steps).orgs|
    requires var s := Run(steps); Owners(Apply(s, step).orgs[org]) != Owners(s.orgs[org])
    ensures var s := Run(steps);
            && step.Write? && step.t in s.locals && s.locals[step.t].Guarded? && s.locals[step.t].org == org
            && (forall u | u in s.locals && u != step.t :: s.locals[u].org != org)
            && s.locals[step.t].actor in Owners(s.orgs[org])
            && (var c, owners, owners' := s.locals[step.t].command, Owners(s.orgs[org]), Owners(Apply(s, step).orgs[org]);
                owners' == (if c == ChangeRole(c.member, Owner) then owners + {c.member} else owners - {c.member}))
  {
    var s := Run(steps);
    RunKeepsInv(steps);
    hide Run;
    if step.Write? && step.t in s.locals && s.locals[step.t].Guarded? {
      var l := s.locals[step.t];
      assert LocalOk(s.orgs, l);
      WrittenOwners(s.orgs[org], l.command);
      ActorIsOwner(s.orgs[l.org], l.actor, l.command);
    } else if step.AcceptInvite? && step.org < |s.orgs| {
      JoinKeepsOwners(s.orgs[step.org], step.user, step.admin);
    }
  }

  lemma ActorIsOwner(m: Members, actor: User, c: Command)
    requires Execute(m, actor, c).1 == Applied && Owners(Written(m, c)) != Owners(m)
    ensures actor in Owners(m)
  {
    WrittenOwners(m, c);
  }

  // ----- Serializability: the same calls one at a time, in the order of their answers

  datatype Call =
    | CallCreate(creator: User)
    | CallJoin(joins: nat, user: User, admin: bool)
    | CallCommand(org: nat, actor: User, command: Command)

  function Serve(orgs: seq<Members>, call: Call): (seq<Members>, Reply) {
    match call
    case CallCreate(creator) => (orgs + [map[creator := Owner]], Applied)
    case CallJoin(org, user, admin) =>
      if org >= |orgs| then (orgs, Refused(OrganizationNotFound))
      else var (m, r) := Join(orgs[org], user, admin); (orgs[org := m], r)
    case CallCommand(org, actor, command) =>
      if org >= |orgs| then (orgs, Refused(OrganizationNotFound))
      else var (m, r) := Execute(orgs[org], actor, command); (orgs[org := m], r)
  }

  function ServeAll(calls: seq<Call>): (seq<Members>, seq<Reply>) {
    if calls == [] then ([], [])
    else
      var (orgs, replies) := ServeAll(calls[..|calls| - 1]);
      var (orgs', reply) := Serve(orgs, calls[|calls| - 1]);
      (orgs', replies + [reply])
  }

  /** The call that a step answers. */
  function Answered(s: State, step: Step): Call {
    match step
    case CreateOrganization(creator) => CallCreate(creator)
    case AcceptInvite(org, user, admin) => CallJoin(org, user, admin)
    case Lock(_, org, actor, command) => CallCommand(org, actor, command)
    case _ => if step.t in s.locals then CallCommand(s.locals[step.t].org, s.locals[step.t].actor, s.locals[step.t].command) else CallCreate(0)
  }

  function Calls(steps: seq<Step>): seq<Call> {
    if steps == [] then []
    else
      var before, last := steps[..|steps| - 1], steps[|steps| - 1];
      var s := Run(before);
      if |Apply(s, last).answers| > |s.answers| then Calls(before) + [Answered(s, last)] else Calls(before)
  }

  lemma SameOrg(orgs: seq<Members>, org: nat)
    requires org < |orgs|
    ensures orgs[org := orgs[org]] == orgs
  {
  }

  /** A step that answers a call has the effect and gives the answer of the indivisible operation on the
      state it finds, although the transaction read the actor, the target and the count earlier. */
  lemma StepIsAtomic(s: State, step: Step)
    requires Inv(s)
    ensures var s' := Apply(s, step);
            if |s'.answers| > |s.answers|
            then s'.answers == s.answers + [Serve(s.orgs, Answered(s, step)).1] && s'.orgs == Serve(s.orgs, Answered(s, step)).0
            else s'.orgs == s.orgs && s'.answers == s.answers
  {
    hide Owners, Written, Join;
    match step
    case CreateOrganization(_) =>
    case AcceptInvite(_, _, _) =>
    case Lock(_, _, _, _) =>
    case Rollback(_) =>
    case _ =>
      if step.t in s.locals {
        assert LocalOk(s.orgs, s.locals[step.t]);
        SameOrg(s.orgs, s.locals[step.t].org);
      }
  }

  /** Every run leaves the table, and gave the answers, of the same calls served one at a time. */
  lemma {:induction false} Serializable(steps: seq<Step>)
    ensures ServeAll(Calls(steps)) == (Run(steps).orgs, Run(steps).answers)
  {
    if steps != [] {
      var before, last := steps[..|steps| - 1], steps[|steps| - 1];
      Serializable(before);
      RunKeepsInv(before);
      StepIsAtomic(Run(before), last);
      hide Inv, Apply, Serve, Answered;
      if |Apply(Run(before), last).answers| > |Run(before).answers| {
        assert Calls(steps)[..|Calls(steps)| - 1] == Calls(before);
      }
    }
  }
}
