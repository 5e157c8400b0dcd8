/** The role dropdown on users (`res.users.csl_project_role`): a computed
    selection read from the user's membership of five role groups, and its
    inverse, which rewrites those memberships. Groups are ids; the XML ids
    of the role groups resolve through the host's external-id table, where
    a missing entry stands for `raise_if_not_found=False` returning nothing. */
module ResUsers {
  import opened Base
  import opened Seqs

  datatype Role = Ceo | ProjectManager | PurchaseManager | HrManager | AccountManager

  /** The value of the selection field: unset (`False`), `'none'`, or a role. */
  datatype RoleField = Cleared | NoRole | HasRole(role: Role)

  /** The roles in the order of the dictionary `_get_csl_role_groups` builds. */
  const Roles: seq<Role> := [Ceo, ProjectManager, PurchaseManager, HrManager, AccountManager]

  lemma RolesComplete(r: Role)
    ensures r in Roles
  {
  }

  function XmlId(r: Role): string
  {
    match r
    case Ceo => "concept_project_management.group_project_csl_ceo"
    case ProjectManager => "concept_project_management.group_project_csl_project_manager"
    case PurchaseManager => "concept_project_management.group_project_csl_purchase_manager"
    case HrManager => "concept_project_management.group_project_csl_hr_manager"
    case AccountManager => "concept_project_management.group_project_csl_account_manager"
  }

  /** The group of role `r`, as `_get_csl_role_groups` returns it. */
  function GroupOf(refs: map<string, nat>, r: Role): (g: Option<nat>)
    ensures g.Some? <==> XmlId(r) in refs
    ensures g.Some? ==> g.value == refs[XmlId(r)]
  {
    if XmlId(r) in refs then Some(refs[XmlId(r)]) else None
  }

  /** The five XML ids name five different groups. */
  ghost predicate DistinctGroups(refs: map<string, nat>)
  {
    forall r1, r2 :: GroupOf(refs, r1).Some? && GroupOf(refs, r1) == GroupOf(refs, r2) ==> r1 == r2
  }

  /** The existing groups of some roles, in their order. */
  function GroupIds(rs: seq<Role>, refs: map<string, nat>): (r: seq<nat>)
    ensures forall g :: g in r <==> exists x :: x in rs && GroupOf(refs, x) == Some(g)
  {
    if rs == [] then []
    else
      var rest := GroupIds(rs[1..], refs);
      assert forall x :: x in rs <==> x == rs[0] || x in rs[1..];
      match GroupOf(refs, rs[0])
      case None => rest
      case Some(g) => [g] + rest
  }

  /** `all_role_groups`: every existing role group. */
  function AllRoleGroups(refs: map<string, nat>): (r: set<nat>)
    ensures forall g :: g in r <==> exists x :: GroupOf(refs, x) == Some(g)
  {
    var s := Elements(GroupIds(Roles, refs));
    assert forall x :: x in Roles by {
      forall x ensures x in Roles { RolesComplete(x); }
    }
    s
  }

  /** A Python dictionary with keys of type `nat`, as its list of items in
      insertion order. */
  type Dict = seq<(nat, Role)>

  function Keys(d: Dict): (r: seq<nat>)
    ensures |r| == |d| && forall i :: 0 <= i < |d| ==> r[i] == d[i].0
  {
    if d == [] then [] else [d[0].0] + Keys(d[1..])
  }

  /** `d[k] = v`: an existing key keeps its position and takes the new
      value; a new key goes last. */
  function Put(d: Dict, k: nat, v: Role): Dict
  {
    if d == [] then [(k, v)]
    else if d[0].0 == k then [(k, v)] + d[1..]
    else [d[0]] + Put(d[1..], k, v)
  }

  /** After `d[k] = v` the keys are the old ones and `k`. */
  lemma {:induction false} PutKeys(d: Dict, k: nat, v: Role)
    ensures forall g :: g in Keys(Put(d, k, v)) <==> g in Keys(d) || g == k
  {
    var r := Put(d, k, v);
    if d == [] {
      assert Keys(r) == [k];
    } else if d[0].0 == k {
      assert forall i :: 0 <= i < |d| ==> r[i].0 == d[i].0;
      assert Keys(r) == Keys(d);
    } else {
      var rest := Put(d[1..], k, v);
      PutKeys(d[1..], k, v);
      assert r[1..] == rest;
      assert Keys(d) == [d[0].0] + Keys(d[1..]);
      assert Keys(r) == [d[0].0] + Keys(rest);
    }
  }

  /** A new key is appended behind the existing items. */
  lemma {:induction false} PutNew(d: Dict, k: nat, v: Role)
    requires k !in Keys(d)
    ensures Put(d, k, v) == d + [(k, v)]
  {
    if d != [] {
      assert Keys(d) == [d[0].0] + Keys(d[1..]);
      PutNew(d[1..], k, v);
      assert d == [d[0]] + d[1..];
    }
  }

  /** The dictionary from group id to role over the roles `rs` whose group
      exists, a later role overwriting an earlier one with the same group. */
  function DictOf(rs: seq<Role>, refs: map<string, nat>): (r: Dict)
    ensures forall g :: g in Keys(r) <==> exists x :: x in rs && GroupOf(refs, x) == Some(g)
  {
    if rs == [] then []
    else
      var front := rs[..|rs| - 1];
      var d := DictOf(front, refs);
      assert forall x :: x in rs <==> x in front || x == rs[|rs| - 1] by {
        assert rs == front + [rs[|rs| - 1]];
      }
      match GroupOf(refs, rs[|rs| - 1])
      case None => d
      case Some(g) => PutKeys(d, g, rs[|rs| - 1]); Put(d, g, rs[|rs| - 1])
  }

  function GroupToRole(refs: map<string, nat>): Dict
  {
    DictOf(Roles, refs)
  }

  /** The value the inner loop of `_compute_csl_project_role` leaves: the
      role of the first item whose group the user belongs to, else `'none'`. */
  function Lookup(d: Dict, groups: set<nat>): (r: RoleField)
    ensures r != Cleared
    ensures r == NoRole <==> forall i :: 0 <= i < |d| ==> d[i].0 !in groups
    ensures r.HasRole? ==> exists i :: 0 <= i < |d| && d[i].0 in groups && d[i].1 == r.role
  {
    if d == [] then NoRole
    else if d[0].0 in groups then HasRole(d[0].1)
    else
      var r := Lookup(d[1..], groups);
      assert forall i :: 1 <= i < |d| ==> d[i] == d[1..][i - 1];
      r
  }

  /** The intended role: the first, in the fixed order, whose
      group exists and holds the user. */
  function FirstHeld(rs: seq<Role>, refs: map<string, nat>, groups: set<nat>): RoleField
  {
    if rs == [] then NoRole
    else if GroupOf(refs, rs[0]).Some? && GroupOf(refs, rs[0]).value in groups then HasRole(rs[0])
    else FirstHeld(rs[1..], refs, groups)
  }

  /** The user's groups after the inverse has written `role`. */
  function WriteRole(groups: set<nat>, role: RoleField, refs: map<string, nat>): set<nat>
  {
    match role
    case Cleared => groups - AllRoleGroups(refs)
    case NoRole => groups - AllRoleGroups(refs)
    case HasRole(r) =>
      match GroupOf(refs, r)
      case None => groups
      case Some(g) => (groups - AllRoleGroups(refs)) + {g}
  }

  lemma {:induction false} LookupAppend(a: Dict, b: Dict, groups: set<nat>)
    ensures Lookup(a + b, groups) == if Lookup(a, groups) != NoRole then Lookup(a, groups) else Lookup(b, groups)
  {
    if a == [] {
      assert a + b == b;
    } else {
      assert (a + b)[1..] == a[1..] + b;
      LookupAppend(a[1..], b, groups);
    }
  }

  lemma {:induction false} FirstHeldAppend(rs: seq<Role>, x: Role, refs: map<string, nat>, groups: set<nat>)
    ensures FirstHeld(rs + [x], refs, groups)
         == if FirstHeld(rs, refs, groups) != NoRole then FirstHeld(rs, refs, groups) else FirstHeld([x], refs, groups)
  {
    if rs != [] {
      assert (rs + [x])[1..] == rs[1..] + [x];
      FirstHeldAppend(rs[1..], x, refs, groups);
    }
  }

  /** With distinct groups, the dictionary lists every existing role group
      once, in role order, so the compute loop finds the first role held. */
  lemma {:induction false} LookupIsFirstHeld(rs: seq<Role>, refs: map<string, nat>, groups: set<nat>)
    requires DistinctGroups(refs) && NoDuplicates(rs)
    ensures Lookup(DictOf(rs, refs), groups) == FirstHeld(rs, refs, groups)
  {
    if rs != [] {
      var front := rs[..|rs| - 1];
      var x := rs[|rs| - 1];
      assert rs == front + [x];
      assert NoDuplicates(front);
      LookupIsFirstHeld(front, refs, groups);
      FirstHeldAppend(front, x, refs, groups);
      var d := DictOf(front, refs);
      assert FirstHeld([x], refs, groups) == (if GroupOf(refs, x).Some? && GroupOf(refs, x).value in groups then HasRole(x) else NoRole);
      match GroupOf(refs, x)
      case None =>
      case Some(g) =>
        assert x !in front by {
          assert forall j :: 0 <= j < |front| ==> rs[j] == front[j];
        }
        FreshGroup(front, x, refs);
        PutNew(d, g, x);
        LookupAppend(d, [(g, x)], groups);
    }
  }

  /** With distinct groups, the group of a role not yet seen is not yet a key. */
  lemma FreshGroup(front: seq<Role>, x: Role, refs: map<string, nat>)
    requires DistinctGroups(refs) && x !in front && GroupOf(refs, x).Some?
    ensures GroupOf(refs, x).value !in Keys(DictOf(front, refs))
  {
  }

  /** The compute side reads `'none'` exactly when the user holds none of
      the existing role groups, whether or not those groups are distinct. */
  lemma ReadNoneIff(refs: map<string, nat>, groups: set<nat>)
    ensures Lookup(GroupToRole(refs), groups) == NoRole <==> groups * AllRoleGroups(refs) == {}
  {
    var d := GroupToRole(refs);
    if Lookup(d, groups) == NoRole {
      forall g | g in AllRoleGroups(refs) ensures g !in groups {
        var x :| GroupOf(refs, x) == Some(g);
        RolesComplete(x);
        assert g in Keys(d);
        var i :| 0 <= i < |Keys(d)| && Keys(d)[i] == g;
      }
      assert groups * AllRoleGroups(refs) == {};
    } else {
      var i :| 0 <= i < |d| && d[i].0 in groups;
      assert Keys(d)[i] in Keys(d);
      assert d[i].0 in groups * AllRoleGroups(refs);
    }
  }

  /** With distinct groups, the compute side returns the first role, in the
      fixed order, whose group holds the user. */
  lemma ReadIsFirstHeld(refs: map<string, nat>, groups: set<nat>)
    requires DistinctGroups(refs)
    ensures Lookup(GroupToRole(refs), groups) == FirstHeld(Roles, refs, groups)
  {
    LookupIsFirstHeld(Roles, refs, groups);
  }

  /** Writing `'none'` or clearing the field removes the user from every
      role group and from nothing else. */
  lemma WriteNoneClears(groups: set<nat>, role: RoleField, refs: map<string, nat>)
    requires role == NoRole || role == Cleared
    ensures WriteRole(groups, role, refs) * AllRoleGroups(refs) == {}
    ensures WriteRole(groups, role, refs) - AllRoleGroups(refs) == groups - AllRoleGroups(refs)
  {
  }

  /** Writing a role whose group exists leaves the user in that one role
      group, and other memberships unchanged. */
  lemma WriteRoleExclusive(groups: set<nat>, r: Role, refs: map<string, nat>)
    requires GroupOf(refs, r).Some?
    ensures WriteRole(groups, HasRole(r), refs) * AllRoleGroups(refs) == {GroupOf(refs, r).value}
    ensures WriteRole(groups, HasRole(r), refs) - AllRoleGroups(refs) == groups - AllRoleGroups(refs)
  {
  }

  /** Writing a role whose group is missing changes nothing. */
  lemma WriteMissingRoleIsNoop(groups: set<nat>, r: Role, refs: map<string, nat>)
    requires GroupOf(refs, r).None?
    ensures WriteRole(groups, HasRole(r), refs) == groups
  {
  }

  /** Writing the same value twice is writing it once. */
  lemma WriteRoleIdempotent(groups: set<nat>, role: RoleField, refs: map<string, nat>)
    ensures WriteRole(WriteRole(groups, role, refs), role, refs) == WriteRole(groups, role, refs)
  {
  }

  /** The first role held is `r` when `r`'s group is the only role group held. */
  lemma {:induction false} FirstHeldOnly(rs: seq<Role>, r: Role, refs: map<string, nat>, groups: set<nat>)
    requires DistinctGroups(refs) && r in rs && GroupOf(refs, r).Some?
    requires groups * AllRoleGroups(refs) == {GroupOf(refs, r).value}
    ensures FirstHeld(rs, refs, groups) == HasRole(r)
  {
    var x := rs[0];
    if GroupOf(refs, x).Some? && GroupOf(refs, x).value in groups {
      assert GroupOf(refs, x).value in groups * AllRoleGroups(refs);
    } else {
      FirstHeldOnly(rs[1..], r, refs, groups);
    }
  }

  /** Round trip: after writing a role whose group exists, the compute side
      reads it back, given distinct groups. */
  lemma WriteThenRead(groups: set<nat>, r: Role, refs: map<string, nat>)
    requires DistinctGroups(refs) && GroupOf(refs, r).Some?
    ensures Lookup(GroupToRole(refs), WriteRole(groups, HasRole(r), refs)) == HasRole(r)
  {
    var written := WriteRole(groups, HasRole(r), refs);
    WriteRoleExclusive(groups, r, refs);
    RolesComplete(r);
    ReadIsFirstHeld(refs, written);
    FirstHeldOnly(Roles, r, refs, written);
  }

  /** Round trip for `'none'`: after clearing, the compute side reads `'none'`. */
  lemma WriteNoneThenRead(groups: set<nat>, refs: map<string, nat>)
    ensures Lookup(GroupToRole(refs), WriteRole(groups, NoRole, refs)) == NoRole
  {
    ReadNoneIff(refs, WriteRole(groups, NoRole, refs));
  }

  /** A user, reduced to its group memberships and the dropdown. */
  class User {
    var groups: set<nat>
    var role: RoleField

    constructor (groups: set<nat>)
      ensures this.groups == groups && role == Cleared
    {
      this.groups := groups;
      role := Cleared;
    }

    /** `_compute_csl_project_role` for this user. */
    method ComputeRole(refs: map<string, nat>)
      modifies this`role
      ensures role == Lookup(GroupToRole(refs), groups)
      ensures DistinctGroups(refs) ==> role == FirstHeld(Roles, refs, groups)
    {
      var groupToRole := GroupToRole(refs);
      role := NoRole;
      var i := 0;
      while i < |groupToRole|
        invariant 0 <= i <= |groupToRole|
        invariant role == NoRole
        invariant Lookup(groupToRole, groups) == Lookup(groupToRole[i..], groups)
      {
        var (groupId, roleKey) := groupToRole[i];
        if groupId in groups {
          role := HasRole(roleKey);
          break;
        }
        assert groupToRole[i..][1..] == groupToRole[i + 1..];
        i := i + 1;
      }
      if DistinctGroups(refs) {
        ReadIsFirstHeld(refs, groups);
      }
    }

    /** `_inverse_csl_project_role` for this user. */
    method InverseRole(refs: map<string, nat>)
      modifies this`groups
      ensures groups == WriteRole(old(groups), role, refs)
    {
      var roleGroups := AllRoleGroups(refs);
      if role == Cleared || role == NoRole {
        groups := groups - roleGroups;
      } else {
        var selected := GroupOf(refs, role.role);
        if selected.Some? {
          groups := groups - roleGroups;
          groups := groups + {selected.value};
        }
      }
    }
  }
}
