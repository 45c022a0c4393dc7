/** Endorsement policies and their compilation to signature policies
    (snakeskin/models/__init__.py, snakeskin/factories.py). */
module Policies {
  import opened Wrappers

  // ------------------------------------------------------------------- models

  datatype Role = Role(msp: string, role: string)

  datatype Expr = And | Or | OutOf | Unrecognized

  datatype Policy = Policy(expr: Expr, outOf: Option<int>, roles: seq<Role>, subPolicies: seq<Policy>)

  function LowerChar(c: char): char {
    if 'A' <= c <= 'Z' then (c as int + 32) as char else c
  }

  /** The dotless i is the one character beyond ASCII that upper-cases to a letter of
      a known role type. */
  function UpperChar(c: char): char {
    if 'a' <= c <= 'z' then (c as int - 32) as char else if c == '\U{131}' then 'I' else c
  }

  function Upper(s: string): (r: string)
    ensures |r| == |s|
    ensures forall i | 0 <= i < |s| ::
              r[i] as int == if 'a' <= s[i] <= 'z' then s[i] as int - 32
                             else if s[i] == '\U{131}' then 0x49 else s[i] as int
  {
    seq(|s|, i requires 0 <= i < |s| => UpperChar(s[i]))
  }

  /** Construction of an EndorsementPolicyRole lower-cases the role name. */
  function MakeRole(msp: string, role: string): (r: Role)
    ensures r.msp == msp && |r.role| == |role|
    ensures forall i | 0 <= i < |role| ::
              r.role[i] as int == if 'A' <= role[i] <= 'Z' then role[i] as int + 32 else role[i] as int
  {
    Role(msp, seq(|role|, i requires 0 <= i < |role| => LowerChar(role[i])))
  }

  // ----------------------------------------------------------------- all roles

  /** The roles named anywhere in a policy. */
  function RoleSet(p: Policy): set<Role> {
    (set r | r in p.roles) + RoleSets(p.subPolicies)
  }

  function RoleSets(ps: seq<Policy>): set<Role> {
    if ps == [] then {} else RoleSet(ps[0]) + RoleSets(ps[1..])
  }

  lemma {:induction false} RoleSetsHold(ps: seq<Policy>, i: nat)
    requires i < |ps|
    ensures RoleSet(ps[i]) <= RoleSets(ps)
  {
    if i > 0 {
      RoleSetsHold(ps[1..], i - 1);
    }
  }

  /** A policy names its own roles and those of its sub-policies. */
  lemma RoleSetIs(p: Policy, r: Role)
    ensures r in RoleSet(p) <==> r in p.roles || exists i | 0 <= i < |p.subPolicies| :: r in RoleSet(p.subPolicies[i])
  {
    if r in RoleSets(p.subPolicies) {
      var i := InRoleSets(p.subPolicies, r);
    }
    if i :| 0 <= i < |p.subPolicies| && r in RoleSet(p.subPolicies[i]) {
      RoleSetsHold(p.subPolicies, i);
    }
  }

  function SortKey(r: Role): string {
    r.msp + "." + r.role
  }

  /** Lexicographic order by code point. */
  predicate AtMost(a: string, b: string) {
    a == [] || (b != [] && (a[0] < b[0] || (a[0] == b[0] && AtMost(a[1..], b[1..]))))
  }

  /** One string is at most another if it is a prefix of it or smaller at the first
      difference. */
  lemma {:induction false} AtMostIsLexicographic(a: string, b: string)
    ensures AtMost(a, b)
            <==> a <= b || exists k | 0 <= k < |a| && k < |b| :: a[..k] == b[..k] && a[k] < b[k]
  {
    if a != [] && b != [] {
      AtMostIsLexicographic(a[1..], b[1..]);
      if a[0] == b[0] {
        assert a == [a[0]] + a[1..] && b == [b[0]] + b[1..];
        if k :| 0 <= k < |a| && k < |b| && a[..k] == b[..k] && a[k] < b[k] {
          assert a[1..][..k - 1] == a[..k][1..] && b[1..][..k - 1] == b[..k][1..];
          assert a[1..][k - 1] < b[1..][k - 1];
        }
        if k :| 0 <= k < |a| - 1 && k < |b| - 1 && a[1..][..k] == b[1..][..k] && a[1..][k] < b[1..][k] {
          assert a[..k + 1] == [a[0]] + a[1..][..k] && b[..k + 1] == [b[0]] + b[1..][..k];
          assert a[k + 1] < b[k + 1];
        }
      } else {
        assert a[..0] == b[..0];
      }
    }
  }

  lemma {:induction false} AtMostIsTotal(a: string, b: string)
    ensures AtMost(a, b) || AtMost(b, a)
    ensures AtMost(a, b) && AtMost(b, a) ==> a == b
  {
    if a != [] && b != [] {
      AtMostIsTotal(a[1..], b[1..]);
      assert a == [a[0]] + a[1..] && b == [b[0]] + b[1..];
    }
  }

  lemma {:induction false} AtMostIsTransitive(a: string, b: string, c: string)
    requires AtMost(a, b) && AtMost(b, c)
    ensures AtMost(a, c)
  {
    if a != [] && b != [] && c != [] && a[0] == b[0] == c[0] {
      AtMostIsTransitive(a[1..], b[1..], c[1..]);
    }
  }

  predicate SortedByKey(roles: seq<Role>) {
    forall i, j | 0 <= i < j < |roles| :: AtMost(SortKey(roles[i]), SortKey(roles[j]))
  }

  predicate Distinct<T(==)>(s: seq<T>) {
    forall i, j | 0 <= i < j < |s| :: s[i] != s[j]
  }

  /** What sorting a set by key may give: roles with equal keys stay in the
      arbitrary order in which the set was iterated. */
  ghost predicate Lists(roles: seq<Role>, s: set<Role>) {
    && (set r | r in roles) == s
    && Distinct(roles)
    && SortedByKey(roles)
  }

  ghost predicate KeysDiffer(s: set<Role>) {
    forall r1, r2 | r1 in s && r2 in s && SortKey(r1) == SortKey(r2) :: r1 == r2
  }

  /** Sorts a set that is iterated in an arbitrary order. */
  method Sorted(s: set<Role>) returns (roles: seq<Role>)
    ensures Lists(roles, s)
  {
    roles := [];
    var rest := s;
    while rest != {}
      invariant rest <= s
      invariant Lists(roles, s - rest)
      decreases rest
    {
      var r :| r in rest;
      var i := 0;
      while i < |roles| && AtMost(SortKey(roles[i]), SortKey(r))
        invariant i <= |roles|
        invariant forall j | 0 <= j < i :: AtMost(SortKey(roles[j]), SortKey(r))
      {
        i := i + 1;
      }
      InsertKeepsListing(roles, s - rest, r, i);
      rest := rest - {r};
      roles := roles[..i] + [r] + roles[i..];
      assert s - rest == (s - (rest + {r})) + {r};
    }
    assert s - rest == s;
  }

  lemma InsertKeepsListing(roles: seq<Role>, s: set<Role>, r: Role, i: nat)
    requires Lists(roles, s) && r !in s && i <= |roles|
    requires forall j | 0 <= j < i :: AtMost(SortKey(roles[j]), SortKey(r))
    requires i < |roles| ==> !AtMost(SortKey(roles[i]), SortKey(r))
    ensures Lists(roles[..i] + [r] + roles[i..], s + {r})
  {
    var inserted := roles[..i] + [r] + roles[i..];
    assert roles == roles[..i] + roles[i..];
    assert forall x :: x in inserted <==> x in roles || x == r;
    forall j | i <= j < |roles|
      ensures AtMost(SortKey(r), SortKey(roles[j]))
    {
      AtMostIsTotal(SortKey(roles[i]), SortKey(r));
      if i < j {
        AtMostIsTransitive(SortKey(r), SortKey(roles[i]), SortKey(roles[j]));
      }
    }
    forall j, k | 0 <= j < k < |inserted|
      ensures inserted[j] != inserted[k] && AtMost(SortKey(inserted[j]), SortKey(inserted[k]))
    {
      if j != i && k != i {
        var j', k' := if j < i then j else j - 1, if k < i then k else k - 1;
        assert inserted[j] == roles[j'] && inserted[k] == roles[k'];
      } else if j == i {
        assert inserted[k] == roles[k - 1] && roles[k - 1] in s;
      } else {
        assert inserted[j] == roles[j] && roles[j] in s;
      }
    }
  }

  /** The roles of a policy and of all its sub-policies, sorted by key. */
  method AllRoles(p: Policy) returns (roles: seq<Role>)
    ensures Lists(roles, RoleSet(p))
    decreases p
  {
    var found := set r | r in p.roles;
    var i := 0;
    while i < |p.subPolicies|
      invariant i <= |p.subPolicies|
      invariant found + RoleSets(p.subPolicies[i..]) == RoleSet(p)
    {
      var sub := AllRoles(p.subPolicies[i]);
      found := found + set r | r in sub;
      i := i + 1;
    }
    roles := Sorted(found);
  }

  /** Every role mapped to its position in the list. */
  function Positions(roles: seq<Role>): (m: map<Role, nat>)
    ensures m.Keys == set r | r in roles
    ensures forall r <- m :: m[r] < |roles| && roles[m[r]] == r
  {
    if roles == [] then
      map[]
    else
      var last := |roles| - 1;
      assert roles == roles[..last] + [roles[last]];
      Positions(roles[..last])[roles[last] := last]
  }

  method RoleMap(p: Policy) returns (m: map<Role, nat>)
    ensures exists roles :: Lists(roles, RoleSet(p)) && m == Positions(roles)
  {
    var roles := AllRoles(p);
    m := Positions(roles);
  }

  // ------------------------------------------------------- canonical identities

  lemma {:induction false} FirstOccurrence(roles: seq<Role>, r: Role) returns (i: nat)
    requires r in roles
    ensures i < |roles| && roles[i] == r
  {
    i :| 0 <= i < |roles| && roles[i] == r;
  }

  /** With different keys there is only one way to sort a set. */
  lemma {:induction false} ListingIsUnique(a: seq<Role>, b: seq<Role>, s: set<Role>)
    requires Lists(a, s) && Lists(b, s) && KeysDiffer(s)
    ensures a == b
    decreases |a|
  {
    assert (a != [] ==> a[0] in s) && (b != [] ==> b[0] in s);
    if a != [] {
      var j := FirstOccurrence(b, a[0]);
      var i := FirstOccurrence(a, b[0]);
      AtMostIsTotal(SortKey(a[0]), SortKey(b[0]));
      assert a[0] == b[0];
      TailLists(a, s);
      TailLists(b, s);
      ListingIsUnique(a[1..], b[1..], s - {a[0]});
      assert a == [a[0]] + a[1..] && b == [b[0]] + b[1..];
    }
  }

  lemma TailLists(roles: seq<Role>, s: set<Role>)
    requires Lists(roles, s) && roles != []
    ensures Lists(roles[1..], s - {roles[0]})
  {
    var tail := roles[1..];
    assert roles == [roles[0]] + tail;
    forall r
      ensures r in tail <==> r in s - {roles[0]}
    {
      if r in tail {
        var i := FirstOccurrence(tail, r);
        assert roles[i + 1] == r && r in roles;
      }
    }
    assert forall i | 0 <= i < |tail| :: tail[i] == roles[i + 1];
  }

  /** Two roles that share a key can be listed either way round. */
  lemma SwapEqualKeys(roles: seq<Role>, s: set<Role>, i: nat, j: nat)
    requires Lists(roles, s) && i < j < |roles| && SortKey(roles[i]) == SortKey(roles[j])
    ensures Lists(roles[i := roles[j]][j := roles[i]], s)
  {
    var swapped := roles[i := roles[j]][j := roles[i]];
    assert swapped[i] == roles[j] && swapped[j] == roles[i];
    forall r
      ensures r in swapped <==> r in roles
    {
      if r in roles {
        var k := FirstOccurrence(roles, r);
        assert swapped[if k == i then j else if k == j then i else k] == r;
      }
      if r in swapped {
        var k := FirstOccurrence(swapped, r);
        assert roles[if k == i then j else if k == j then i else k] == r;
      }
    }
    forall k | 0 <= k < |roles|
      ensures SortKey(swapped[k]) == SortKey(roles[k])
    {
      assert swapped[k] == if k == i then roles[j] else if k == j then roles[i] else roles[k];
    }
  }

  lemma ListingExists(s: set<Role>) returns (roles: seq<Role>)
    ensures Lists(roles, s)
    decreases |s|
  {
    if s == {} {
      roles := [];
    } else {
      var r :| r in s;
      var rest := ListingExists(s - {r});
      var i := 0;
      while i < |rest| && AtMost(SortKey(rest[i]), SortKey(r))
        invariant i <= |rest|
        invariant forall j | 0 <= j < i :: AtMost(SortKey(rest[j]), SortKey(r))
      {
        i := i + 1;
      }
      InsertKeepsListing(rest, s - {r}, r, i);
      assert (s - {r}) + {r} == s;
      roles := rest[..i] + [r] + rest[i..];
    }
  }

  /** The identities of a set of roles are canonical exactly when no two of its
      roles share a sort key. */
  lemma CanonicalIffKeysDiffer(s: set<Role>)
    ensures KeysDiffer(s) <==> (forall a, b | Lists(a, s) && Lists(b, s) :: a == b)
  {
    if KeysDiffer(s) {
      forall a, b | Lists(a, s) && Lists(b, s)
        ensures a == b
      {
        ListingIsUnique(a, b, s);
      }
    } else {
      var r1, r2 :| r1 in s && r2 in s && SortKey(r1) == SortKey(r2) && r1 != r2;
      var a, b := TwoListings(s, r1, r2);
    }
  }

  lemma TwoListings(s: set<Role>, r1: Role, r2: Role) returns (a: seq<Role>, b: seq<Role>)
    requires r1 in s && r2 in s && SortKey(r1) == SortKey(r2) && r1 != r2
    ensures Lists(a, s) && Lists(b, s) && a != b
  {
    a := ListingExists(s);
    var i := FirstOccurrence(a, r1);
    var j := FirstOccurrence(a, r2);
    var low, high := if i < j then i else j, if i < j then j else i;
    SwapEqualKeys(a, s, low, high);
    b := a[low := a[high]][high := a[low]];
    assert b[low] == a[high] != a[low];
  }

  predicate NoDot(s: string) {
    '.' !in s
  }

  lemma LastDot(r: Role)
    requires NoDot(r.role)
    ensures SortKey(r)[|r.msp|] == '.'
    ensures forall k | |r.msp| < k < |SortKey(r)| :: SortKey(r)[k] != '.'
  {
    forall k | |r.msp| < k < |SortKey(r)|
      ensures SortKey(r)[k] != '.'
    {
      assert SortKey(r)[k] == r.role[k - |r.msp| - 1];
    }
  }

  /** A key can be split back into its parts when role names contain no dot. */
  lemma KeyIsInjective(r1: Role, r2: Role)
    requires NoDot(r1.role) && NoDot(r2.role) && SortKey(r1) == SortKey(r2)
    ensures r1 == r2
  {
    LastDot(r1);
    LastDot(r2);
    var n := |r1.msp|;
    assert |r2.msp| == n;
    assert r1.msp == SortKey(r1)[..n] && r2.msp == SortKey(r2)[..n];
    assert r1.role == SortKey(r1)[n + 1..] && r2.role == SortKey(r2)[n + 1..];
  }

  lemma NoDotsKeysDiffer(s: set<Role>)
    requires forall r <- s :: NoDot(r.role)
    ensures KeysDiffer(s)
  {
    forall r1, r2 | r1 in s && r2 in s && SortKey(r1) == SortKey(r2)
      ensures r1 == r2
    {
      KeyIsInjective(r1, r2);
    }
  }

  /** Dots in role names can make two roles share a key, so that their order, and
      the index of each in a role map, depends on how the set was iterated. */
  lemma DottedRolesAreNotCanonical()
    ensures !KeysDiffer({Role("Org", "a.b"), Role("Org.a", "b")})
  {
    var r1, r2 := Role("Org", "a.b"), Role("Org.a", "b");
    assert SortKey(r1) == "Org.a.b" == SortKey(r2);
    assert |r1.msp| != |r2.msp|;
  }

  /** `q` is `p` with roles and sub-policies permuted or repeated, at any depth. */
  ghost predicate Rearranged(p: Policy, q: Policy)
    decreases p, 1
  {
    && (set r | r in p.roles) == (set r | r in q.roles)
    && Covers(p.subPolicies, q.subPolicies)
    && CoveredBy(p.subPolicies, q.subPolicies)
  }

  ghost predicate Covers(ps: seq<Policy>, qs: seq<Policy>)
    decreases ps, 0
  {
    forall i | 0 <= i < |ps| :: exists j | 0 <= j < |qs| :: Rearranged(ps[i], qs[j])
  }

  ghost predicate CoveredBy(ps: seq<Policy>, qs: seq<Policy>)
    decreases ps, 0
  {
    forall j | 0 <= j < |qs| :: exists i | 0 <= i < |ps| :: Rearranged(ps[i], qs[j])
  }

  lemma {:induction false} InRoleSets(ps: seq<Policy>, r: Role) returns (i: nat)
    requires r in RoleSets(ps)
    ensures i < |ps| && r in RoleSet(ps[i])
  {
    if r in RoleSet(ps[0]) {
      i := 0;
    } else {
      i := InRoleSets(ps[1..], r);
      i := i + 1;
    }
  }

  ghost predicate SomeNames(ps: seq<Policy>, roles: set<Role>) {
    exists i | 0 <= i < |ps| :: RoleSet(ps[i]) == roles
  }

  lemma MatchedRoles(ps: seq<Policy>, qs: seq<Policy>)
    requires forall i | 0 <= i < |ps| :: SomeNames(qs, RoleSet(ps[i]))
    ensures RoleSets(ps) <= RoleSets(qs)
  {
    forall r | r in RoleSets(ps)
      ensures r in RoleSets(qs)
    {
      var i := InRoleSets(ps, r);
      var j :| 0 <= j < |qs| && RoleSet(ps[i]) == RoleSet(qs[j]);
      RoleSetsHold(qs, j);
    }
  }

  lemma {:induction false} CoversSameRoles(ps: seq<Policy>, qs: seq<Policy>)
    requires Covers(ps, qs)
    ensures RoleSets(ps) <= RoleSets(qs)
    decreases ps, 0
  {
    forall i | 0 <= i < |ps|
      ensures SomeNames(qs, RoleSet(ps[i]))
    {
      var j :| 0 <= j < |qs| && Rearranged(ps[i], qs[j]);
      RearrangedSameRoles(ps[i], qs[j]);
    }
    MatchedRoles(ps, qs);
  }

  lemma {:induction false} CoveredBySameRoles(ps: seq<Policy>, qs: seq<Policy>)
    requires CoveredBy(ps, qs)
    ensures RoleSets(qs) <= RoleSets(ps)
    decreases ps, 0
  {
    forall j | 0 <= j < |qs|
      ensures SomeNames(ps, RoleSet(qs[j]))
    {
      var i :| 0 <= i < |ps| && Rearranged(ps[i], qs[j]);
      RearrangedSameRoles(ps[i], qs[j]);
    }
    MatchedRoles(qs, ps);
  }

  lemma {:induction false} RearrangedSameRoles(p: Policy, q: Policy)
    requires Rearranged(p, q)
    ensures RoleSet(p) == RoleSet(q)
    decreases p, 1
  {
    CoversSameRoles(p.subPolicies, q.subPolicies);
    CoveredBySameRoles(p.subPolicies, q.subPolicies);
  }

  /** Rearranging a policy leaves its identities table unchanged. */
  lemma RearrangedSameIdentities(p: Policy, q: Policy, a: seq<Role>, b: seq<Role>)
    requires Rearranged(p, q)
    requires forall r <- RoleSet(p) :: NoDot(r.role)
    requires Lists(a, RoleSet(p)) && Lists(b, RoleSet(q))
    ensures a == b
  {
    RearrangedSameRoles(p, q);
    NoDotsKeysDiffer(RoleSet(p));
    ListingIsUnique(a, b, RoleSet(p));
  }
}
