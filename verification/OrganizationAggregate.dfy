/** The organization as an object whose members are changed in place (modules/organization/domain.py). */
module OrganizationAggregate {
  import opened ArtifactDomain
  import opened OrganizationAccess

  datatype Entry = Entry(role: Role, active: bool)

  type Roster = map<User, Entry>

  predicate ActiveOwner(e: Entry) { e.active && e.role.Owner? }

  predicate OtherOwner(r: Roster, excluded: User) { exists u | u in r :: u != excluded && ActiveOwner(r[u]) }

  predicate HasOwner(r: Roster) { exists u | u in r :: ActiveOwner(r[u]) }

  function Added(r: Roster, user: User, e: Entry): (Roster, Reply) {
    if user in r then (r, Refused(MemberAlreadyExists)) else (r[user := e], Applied)
  }

  function Changed(r: Roster, user: User, role: Role): (Roster, Reply) {
    if user !in r then (r, Refused(MemberNotFound))
    else if r[user].role.Owner? && !role.Owner? && !OtherOwner(r, user) then (r, Refused(LastOwnerRequired))
    else (r[user := Entry(role, r[user].active)], Applied)
  }

  function Removed(r: Roster, user: User): (Roster, Reply) {
    if user !in r then (r, Refused(MemberNotFound))
    else if r[user].role.Owner? && !OtherOwner(r, user) then (r, Refused(LastOwnerRequired))
    else (r - {user}, Applied)
  }

  function Commanded(r: Roster, c: Command): (Roster, Reply) {
    match c
    case ChangeRole(member, role) => Changed(r, member, role)
    case RemoveMember(member) => Removed(r, member)
  }

  class OrganizationMember {
    const userId: User
    var role: Role
    var active: bool

    constructor (userId: User, role: Role)
      ensures this.userId == userId && this.role == role && active
    {
      this.userId, this.role, active := userId, role, true;
    }
  }

  class Organization {
    var members: map<User, OrganizationMember>

    /** Members are filed under their own user id, so no object is filed twice. */
    ghost predicate Valid()
      reads this, members.Values
    {
      forall u | u in members :: members[u].userId == u
    }

    ghost function Contents(): (r: Roster)
      reads this, members.Values
    {
      map u | u in members :: Entry(members[u].role, members[u].active)
    }

    constructor ()
      ensures Valid() && Contents() == map[]
    {
      members := map[];
    }

    method AddMember(member: OrganizationMember) returns (r: Reply)
      requires Valid()
      modifies this
      ensures Valid() && (Contents(), r) == Added(old(Contents()), member.userId, Entry(member.role, member.active))
    {
      if member.userId in members {
        return Refused(MemberAlreadyExists);
      }
      members := members[member.userId := member];
      r := Applied;
      assert Contents() == old(Contents())[member.userId := Entry(member.role, member.active)];
    }

    method HasAnotherOwner(excluded: User) returns (found: bool)
      requires Valid()
      ensures found == OtherOwner(Contents(), excluded)
    {
      found := exists u | u in members :: members[u].active && members[u].userId != excluded && members[u].role.Owner?;
      assert forall u | u in members :: Contents()[u] == Entry(members[u].role, members[u].active);
    }

    method ChangeMemberRole(user: User, role: Role) returns (r: Reply)
      requires Valid()
      modifies members.Values
      ensures Valid() && members == old(members) && (Contents(), r) == Changed(old(Contents()), user, role)
    {
      if user !in members {
        return Refused(MemberNotFound);
      }
      var member := members[user];
      if member.role.Owner? && !role.Owner? {
        var found := HasAnotherOwner(user);
        if !found {
          return Refused(LastOwnerRequired);
        }
      }
      member.role := role;
      r := Applied;
      assert Contents() == old(Contents())[user := Entry(role, member.active)];
    }

    method Remove(user: User) returns (r: Reply)
      requires Valid()
      modifies this
      ensures Valid() && (Contents(), r) == Removed(old(Contents()), user)
    {
      if user !in members {
        return Refused(MemberNotFound);
      }
      if members[user].role.Owner? {
        var found := HasAnotherOwner(user);
        if !found {
          return Refused(LastOwnerRequired);
        }
      }
      members := members - {user};
      r := Applied;
      assert Contents() == old(Contents()) - {user};
    }
  }

  /** An aggregate that has an active owner keeps one, whatever is asked of it. */
  lemma AggregateKeepsOwner(r: Roster, c: Command)
    requires HasOwner(r)
    ensures HasOwner(Commanded(r, c).0)
  {
    var r', member := Commanded(r, c).0, c.member;
    if member in r && r'!= r {
      if OtherOwner(r, member) {
        var u :| u in r && u != member && ActiveOwner(r[u]);
        assert u in r' && r'[u] == r[u];
      } else {
        var u :| u in r && ActiveOwner(r[u]);
        assert u == member && KeepsOwner(c);
        assert member in r' && ActiveOwner(r'[member]);
      }
    }
  }

  lemma JoinKeepsOwner(r: Roster, user: User, e: Entry)
    requires HasOwner(r)
    ensures HasOwner(Added(r, user, e).0)
  {
    var u :| u in r && ActiveOwner(r[u]);
    assert u in Added(r, user, e).0 && Added(r, user, e).0[u] == r[u];
  }

  datatype Request = Adds(user: User, entry: Entry) | Asks(command: Command)

  function ServedAll(r: Roster, requests: seq<Request>): Roster {
    if requests == [] then r
    else
      var before, last := ServedAll(r, requests[..|requests| - 1]), requests[|requests| - 1];
      match last
      case Adds(user, entry) => Added(before, user, entry).0
      case Asks(command) => Commanded(before, command).0
  }

  /** ... through any sequence of additions, role changes and removals. */
  lemma {:induction false} AggregateAlwaysOwned(r: Roster, requests: seq<Request>)
    requires HasOwner(r)
    ensures HasOwner(ServedAll(r, requests))
  {
    hide HasOwner, Added, Commanded;
    if requests != [] {
      var before, last := ServedAll(r, requests[..|requests| - 1]), requests[|requests| - 1];
      AggregateAlwaysOwned(r, requests[..|requests| - 1]);
      match last
      case Adds(user, entry) => JoinKeepsOwner(before, user, entry);
      case Asks(command) => AggregateKeepsOwner(before, command);
    }
  }

  // ----- The two guards

  function AllActive(m: Members): Roster { map u | u in m :: Entry(m[u], true) }

  function Roles(r: Roster): Members { map u | u in r :: r[u].role }

  /** Counting decides like looking for another active owner, except when there are other owners and all of
      them are inactive: then only the counting guard lets the change pass. */
  lemma GuardsCompared(r: Roster, target: User)
    requires target in r && r[target].role.Owner?
    ensures OtherOwner(r, target) ==> |Owners(Roles(r))| > 1
    ensures |Owners(Roles(r))| > 1 <==> exists u | u in r :: u != target && r[u].role.Owner?
    ensures (|Owners(Roles(r))| > 1 <==> OtherOwner(r, target))
       <==> ((exists u | u in r :: u != target && r[u].role.Owner?) ==> exists u | u in r :: u != target && r[u].role.Owner? && r[u].active)
  {
    var owners := Owners(Roles(r));
    assert target in owners;
    if u :| u in r && u != target && r[u].role.Owner? {
      assert {target, u} <= owners;
      SubsetSize({target, u}, owners);
    } else {
      assert owners == {target};
    }
  }

  lemma SubsetSize(a: set<User>, b: set<User>)
    requires a <= b
    ensures |a| <= |b|
  {
    assert b == a + (b - a);
  }

  /** With every member active and an owner acting, the locked service does what the aggregate does. */
  lemma ServiceMatchesAggregate(m: Members, actor: User, c: Command)
    requires actor in m && m[actor].Owner?
    ensures var (m', reply) := Execute(m, actor, c); Commanded(AllActive(m), c) == (AllActive(m'), reply)
  {
    var r := AllActive(m);
    if c.member in m {
      assert Roles(r) == m;
      if m[c.member].Owner? {
        GuardsCompared(r, c.member);
        if u :| u in r && u != c.member && r[u].role.Owner? {
          assert ActiveOwner(r[u]);
        }
      }
      hide Owners, OtherOwner;
      assert AllActive(Written(m, c)) == (if c.ChangeRole? then r[c.member := Entry(c.role, true)] else r - {c.member});
    }
  }
}
