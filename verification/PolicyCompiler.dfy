/** Compilation of an endorsement policy to a signature policy and its identities
    table (snakeskin/factories.py), and the proof that it preserves meaning. */
module PolicyCompiler {
  import opened Wrappers
  import opened Policies

  datatype Error = MissingOutOf | UnrecognizedExpr | NoSuchRole | OutOfInt32 | UnknownRoleType

  datatype SigPolicy = SignedBy(index: nat) | NOutOf(n: int, rules: seq<SigPolicy>)

  predicate InInt32(n: int) {
    -0x8000_0000 <= n < 0x8000_0000
  }

  // ----------------------------------------------------------------- compiling

  /** How many children must be satisfied; a missing or zero `outOf` is refused. */
  function Threshold(p: Policy): Result<int, Error> {
    match p.expr
    case And => Ok(|p.roles| + |p.subPolicies|)
    case Or => Ok(1)
    case OutOf =>
      if p.outOf.None? || p.outOf.value == 0 then Err(MissingOutOf) else Ok(p.outOf.value)
    case Unrecognized => Err(UnrecognizedExpr)
  }

  function CompileRole(role: Role, roleMap: map<Role, nat>): Result<SigPolicy, Error> {
    if role !in roleMap then
      Err(NoSuchRole)
    else if !InInt32(roleMap[role]) then
      Err(OutOfInt32)
    else
      Ok(SignedBy(roleMap[role]))
  }

  function CompileRoles(roles: seq<Role>, roleMap: map<Role, nat>): Result<seq<SigPolicy>, Error> {
    if roles == [] then
      Ok([])
    else
      var first :- CompileRole(roles[0], roleMap);
      var rest :- CompileRoles(roles[1..], roleMap);
      Ok([first] + rest)
  }

  function CompileAll(ps: seq<Policy>, roleMap: map<Role, nat>): Result<seq<SigPolicy>, Error>
    decreases ps, 0
  {
    if ps == [] then
      Ok([])
    else
      var first :- Compile(ps[0], roleMap);
      var rest :- CompileAll(ps[1..], roleMap);
      Ok([first] + rest)
  }

  function Compile(p: Policy, roleMap: map<Role, nat>): Result<SigPolicy, Error>
    decreases p, 1
  {
    var n :- Threshold(p);
    var signed :- CompileRoles(p.roles, roleMap);
    var subs :- CompileAll(p.subPolicies, roleMap);
    if InInt32(n) then Ok(NOutOf(n, signed + subs)) else Err(OutOfInt32)
  }

  /** The outcome of compiling a list whose first rules are `done` already. */
  ghost function Prepend(done: seq<SigPolicy>, rest: Result<seq<SigPolicy>, Error>): (r: Result<seq<SigPolicy>, Error>)
    ensures done == [] ==> r == rest
    ensures rest == Ok([]) ==> r == Ok(done)
  {
    assert done + [] == done;
    assert rest.Ok? ==> [] + rest.value == rest.value;
    if rest.Ok? then Ok(done + rest.value) else rest
  }

  lemma PrependOne(done: seq<SigPolicy>, rule: SigPolicy, rest: Result<seq<SigPolicy>, Error>)
    ensures Prepend(done + [rule], rest) == Prepend(done, Prepend([rule], rest))
  {
    if rest.Ok? {
      assert done + [rule] + rest.value == done + ([rule] + rest.value);
    }
  }

  /** One `signed_by` rule for each role of a policy node. */
  method SignRoles(roles: seq<Role>, roleMap: map<Role, nat>) returns (r: Result<seq<SigPolicy>, Error>)
    ensures r == CompileRoles(roles, roleMap)
  {
    var rules: seq<SigPolicy> := [];
    var i := 0;
    assert roles[i..] == roles;
    while i < |roles|
      invariant i <= |roles|
      invariant CompileRoles(roles, roleMap) == Prepend(rules, CompileRoles(roles[i..], roleMap))
    {
      var rule :- CompileRole(roles[i], roleMap);
      assert roles[i..][1..] == roles[i + 1..];
      PrependOne(rules, rule, CompileRoles(roles[i + 1..], roleMap));
      rules := rules + [rule];
      i := i + 1;
    }
    assert roles[i..] == [];
    r := Ok(rules);
  }

  /** The role map is passed down to sub-policies; an empty one counts as none and
      is rebuilt from the policy at hand. */
  method BuildEndorsementPolicy(p: Policy, roleMap: map<Role, nat>) returns (r: Result<SigPolicy, Error>)
    ensures roleMap != map[] ==> r == Compile(p, roleMap)
    ensures roleMap == map[] ==>
              exists roles :: Lists(roles, RoleSet(p)) && r == Compile(p, Positions(roles))
    decreases p, 1
  {
    var rmap := roleMap;
    if roleMap == map[] {
      rmap := RoleMap(p);
    }
    ghost var roles: seq<Role> :| roleMap == map[] ==> Lists(roles, RoleSet(p)) && rmap == Positions(roles);
    var n :- Threshold(p);
    var signed := SignRoles(p.roles, rmap);
    var rules :- signed;
    if rmap == map[] {
      EmptyMapMeansNoRoles(p, roles);
    }
    var built := BuildSubPolicies(p.subPolicies, rmap);
    var subs :- built;
    r := if InInt32(n) then Ok(NOutOf(n, rules + subs)) else Err(OutOfInt32);
  }

  /** One rule for each sub-policy, all compiled with the same map. */
  method BuildSubPolicies(ps: seq<Policy>, roleMap: map<Role, nat>) returns (r: Result<seq<SigPolicy>, Error>)
    requires roleMap == map[] ==> RoleSets(ps) == {}
    ensures r == CompileAll(ps, roleMap)
    decreases ps, 0
  {
    var rules: seq<SigPolicy> := [];
    var k := 0;
    assert ps[k..] == ps;
    while k < |ps|
      invariant k <= |ps|
      invariant CompileAll(ps, roleMap) == Prepend(rules, CompileAll(ps[k..], roleMap))
    {
      RoleSetsHold(ps, k);
      var compiled := BuildEndorsementPolicy(ps[k], roleMap);
      assert compiled == Compile(ps[k], roleMap) by {
        if roleMap == map[] {
          NoRolesNoPositions(ps[k]);
        }
      }
      var rule :- compiled;
      assert ps[k..][1..] == ps[k + 1..];
      PrependOne(rules, rule, CompileAll(ps[k + 1..], roleMap));
      rules := rules + [rule];
      k := k + 1;
    }
    assert ps[k..] == [];
    r := Ok(rules);
  }

  lemma NoRolesNoPositions(p: Policy)
    requires RoleSet(p) == {}
    ensures forall roles | Lists(roles, RoleSet(p)) :: Positions(roles) == map[]
  {
    forall roles | Lists(roles, RoleSet(p))
      ensures Positions(roles) == map[]
    {
      assert Positions(roles).Keys == {};
    }
  }

  /** The fallback never changes the map: a policy whose map is empty names no role,
      so neither do its sub-policies, and theirs is empty too. */
  lemma EmptyMapMeansNoRoles(p: Policy, roles: seq<Role>)
    requires Lists(roles, RoleSet(p))
    ensures Positions(roles) == map[] <==> RoleSet(p) == {}
  {
    assert Positions(roles).Keys == RoleSet(p);
  }

  // ------------------------------------------------------------------- meaning

  /** How many rules are satisfied when the identities accepted by `held` have signed. */
  ghost function SatisfiedCount<T>(rules: seq<SigPolicy>, identities: seq<T>, held: T -> bool): nat
    decreases rules, 0
  {
    if rules == [] then
      0
    else
      var last := |rules| - 1;
      SatisfiedCount(rules[..last], identities, held) + if Satisfied(rules[last], identities, held) then 1 else 0
  }

  /** The reading of a signature policy: an index stands for an entry of the identities table. */
  ghost predicate Satisfied<T>(policy: SigPolicy, identities: seq<T>, held: T -> bool)
    decreases policy, 1
  {
    match policy
    case SignedBy(index) => index < |identities| && held(identities[index])
    case NOutOf(n, rules) => n <= SatisfiedCount(rules, identities, held)
  }

  /** Whether child `i` of a policy, roles before sub-policies, is met by the held roles. */
  ghost predicate ChildMet(p: Policy, i: nat, held: Role -> bool)
    requires i < |p.roles| + |p.subPolicies|
    decreases p, 0
  {
    if i < |p.roles| then held(p.roles[i]) else Met(p.subPolicies[i - |p.roles|], held)
  }

  ghost function MetChildren(p: Policy, held: Role -> bool): set<int>
    decreases p, 1
  {
    set i | 0 <= i < |p.roles| + |p.subPolicies| && ChildMet(p, i, held)
  }

  /** The meaning of an endorsement policy: all children, some child, or at least `outOf` of them. */
  ghost predicate Met(p: Policy, held: Role -> bool)
    decreases p, 2
  {
    var children := |p.roles| + |p.subPolicies|;
    match p.expr
    case And => forall i | 0 <= i < children :: ChildMet(p, i, held)
    case Or => exists i | 0 <= i < children :: ChildMet(p, i, held)
    case OutOf => p.outOf.Some? && p.outOf.value <= |MetChildren(p, held)|
    case Unrecognized => false
  }

  /** A policy the compiler takes: a usable threshold at every node, in int32 range. */
  predicate Compilable(p: Policy)
    decreases p
  {
    && (match p.expr
        case And => |p.roles| + |p.subPolicies| < 0x8000_0000
        case Or => true
        case OutOf => p.outOf.Some? && p.outOf.value != 0 && -0x8000_0000 <= p.outOf.value < 0x8000_0000
        case Unrecognized => false)
    && forall i | 0 <= i < |p.subPolicies| :: Compilable(p.subPolicies[i])
  }

  // --------------------------------------------------- compilation, rule by rule

  lemma {:induction false} RolesCompile(roles: seq<Role>, roleMap: map<Role, nat>)
    ensures CompileRoles(roles, roleMap).Ok? <==> forall r <- roles :: CompileRole(r, roleMap).Ok?
    ensures CompileRoles(roles, roleMap).Ok? ==>
              var rules := CompileRoles(roles, roleMap).value;
              && |rules| == |roles|
              && forall i | 0 <= i < |roles| :: CompileRole(roles[i], roleMap) == Ok(rules[i])
  {
    if roles != [] {
      RolesCompile(roles[1..], roleMap);
      assert roles[0] in roles && roles == [roles[0]] + roles[1..];
    }
  }

  lemma {:induction false} AllCompile(ps: seq<Policy>, roleMap: map<Role, nat>)
    ensures CompileAll(ps, roleMap).Ok? <==> forall i | 0 <= i < |ps| :: Compile(ps[i], roleMap).Ok?
    ensures CompileAll(ps, roleMap).Ok? ==>
              var rules := CompileAll(ps, roleMap).value;
              && |rules| == |ps|
              && forall i | 0 <= i < |ps| :: Compile(ps[i], roleMap) == Ok(rules[i])
  {
    if ps != [] {
      AllCompile(ps[1..], roleMap);
      assert forall i | 1 <= i < |ps| :: ps[i] == ps[1..][i - 1];
    }
  }

  /** With a role map that covers its roles, a policy compiles exactly when it is
      compilable and its indices fit: no role lookup ever misses. */
  lemma {:induction false} CompilesIff(p: Policy, roleMap: map<Role, nat>)
    requires RoleSet(p) <= roleMap.Keys
    ensures Compile(p, roleMap).Ok? <==> Compilable(p) && forall r <- RoleSet(p) :: InInt32(roleMap[r])
    decreases p, 1
  {
    RolesCompile(p.roles, roleMap);
    AllCompileIff(p.subPolicies, roleMap);
    assert forall r <- p.roles :: r in RoleSet(p);
    assert forall r <- RoleSet(p) :: r in p.roles || r in RoleSets(p.subPolicies);
  }

  lemma {:induction false} AllCompileIff(ps: seq<Policy>, roleMap: map<Role, nat>)
    requires RoleSets(ps) <= roleMap.Keys
    ensures CompileAll(ps, roleMap).Ok?
            <==> (forall i | 0 <= i < |ps| :: Compilable(ps[i])) && forall r <- RoleSets(ps) :: InInt32(roleMap[r])
    decreases ps, 0
  {
    if ps != [] {
      CompilesIff(ps[0], roleMap);
      AllCompileIff(ps[1..], roleMap);
      assert forall i | 1 <= i < |ps| :: ps[i] == ps[1..][i - 1];
      assert forall i | 0 <= i < |ps| - 1 :: ps[1..][i] == ps[i + 1];
    }
  }

  predicate RoleFits(r: Role, roleMap: map<Role, nat>) {
    r in roleMap && roleMap[r] < 0x8000_0000
  }

  lemma {:induction false} FirstRoleRaises(roles: seq<Role>, roleMap: map<Role, nat>, i: nat)
    requires i < |roles| && !RoleFits(roles[i], roleMap)
    requires forall j | 0 <= j < i :: RoleFits(roles[j], roleMap)
    ensures CompileRoles(roles, roleMap) == Err(if roles[i] in roleMap then OutOfInt32 else NoSuchRole)
  {
    if i > 0 {
      FirstRoleRaises(roles[1..], roleMap, i - 1);
    }
  }

  lemma {:induction false} FirstSubPolicyRaises(ps: seq<Policy>, roleMap: map<Role, nat>, k: nat)
    requires k < |ps| && Compile(ps[k], roleMap).Err?
    requires forall j | 0 <= j < k :: Compile(ps[j], roleMap).Ok?
    ensures CompileAll(ps, roleMap) == Err(Compile(ps[k], roleMap).error)
  {
    if k > 0 {
      FirstSubPolicyRaises(ps[1..], roleMap, k - 1);
    }
  }

  /** A policy that does not compile raises the first thing that is wrong: its kind or
      count, then the first role that cannot be written, then the error of the first
      sub-policy that does not compile, and last a count beyond int32. */
  lemma CompileRaises(p: Policy, roleMap: map<Role, nat>)
    ensures p.expr == Unrecognized ==> Compile(p, roleMap) == Err(UnrecognizedExpr)
    ensures p.expr == OutOf && p.outOf.GetOr(0) == 0 ==> Compile(p, roleMap) == Err(MissingOutOf)
    ensures p.expr != Unrecognized && (p.expr == OutOf ==> p.outOf.GetOr(0) != 0) ==>
              && (forall i | 0 <= i < |p.roles| && !RoleFits(p.roles[i], roleMap)
                             && forall j | 0 <= j < i :: RoleFits(p.roles[j], roleMap) ::
                    Compile(p, roleMap) == Err(if p.roles[i] in roleMap then OutOfInt32 else NoSuchRole))
              && ((forall r <- p.roles :: RoleFits(r, roleMap)) ==>
                    && (forall k | 0 <= k < |p.subPolicies| && Compile(p.subPolicies[k], roleMap).Err?
                                   && forall j | 0 <= j < k :: Compile(p.subPolicies[j], roleMap).Ok? ::
                          Compile(p, roleMap) == Err(Compile(p.subPolicies[k], roleMap).error))
                    && ((forall k | 0 <= k < |p.subPolicies| :: Compile(p.subPolicies[k], roleMap).Ok?) ==>
                          Compile(p, roleMap).Ok? || Compile(p, roleMap) == Err(OutOfInt32)))
  {
    forall i | 0 <= i < |p.roles| && !RoleFits(p.roles[i], roleMap)
               && forall j | 0 <= j < i :: RoleFits(p.roles[j], roleMap)
      ensures CompileRoles(p.roles, roleMap) == Err(if p.roles[i] in roleMap then OutOfInt32 else NoSuchRole)
    {
      FirstRoleRaises(p.roles, roleMap, i);
    }
    RolesCompile(p.roles, roleMap);
    forall k | 0 <= k < |p.subPolicies| && Compile(p.subPolicies[k], roleMap).Err?
               && forall j | 0 <= j < k :: Compile(p.subPolicies[j], roleMap).Ok?
      ensures CompileAll(p.subPolicies, roleMap) == Err(Compile(p.subPolicies[k], roleMap).error)
    {
      FirstSubPolicyRaises(p.subPolicies, roleMap, k);
    }
    AllCompile(p.subPolicies, roleMap);
  }

  /** Every position fits in an int32 exactly when there are at most 2^31 roles. */
  lemma PositionsFit(roles: seq<Role>, s: set<Role>)
    requires Lists(roles, s)
    ensures (forall r <- s :: InInt32(Positions(roles)[r])) <==> |s| <= 0x8000_0000
  {
    DistinctSize(roles);
    if |roles| > 0x8000_0000 {
      assert roles[0x8000_0000] in s;
      assert Positions(roles)[roles[0x8000_0000]] == 0x8000_0000;
    }
  }

  lemma {:induction false} DistinctSize(roles: seq<Role>)
    requires Distinct(roles)
    ensures |roles| == |set r | r in roles|
  {
    if roles != [] {
      var last := |roles| - 1;
      DistinctSize(roles[..last]);
      assert roles == roles[..last] + [roles[last]];
      assert (set r | r in roles) == (set r | r in roles[..last]) + {roles[last]};
    }
  }

  // -------------------------------------------------------- meaning is preserved

  ghost function MetRules<T>(rules: seq<SigPolicy>, identities: seq<T>, held: T -> bool): set<int> {
    set i | 0 <= i < |rules| && Satisfied(rules[i], identities, held)
  }

  lemma {:induction false} CountIsCardinality<T>(rules: seq<SigPolicy>, identities: seq<T>, held: T -> bool)
    ensures SatisfiedCount(rules, identities, held) == |MetRules(rules, identities, held)|
  {
    if rules == [] {
      assert MetRules(rules, identities, held) == {};
    } else {
      var last := |rules| - 1;
      var front := MetRules(rules[..last], identities, held);
      CountIsCardinality(rules[..last], identities, held);
      assert last !in front;
      assert MetRules(rules, identities, held)
          == front + if Satisfied(rules[last], identities, held) then {last} else {};
    }
  }

  lemma {:induction false} RangeSize(n: nat, s: set<int>)
    requires forall i | i in s :: 0 <= i < n
    ensures |s| <= n
    ensures |s| == n <==> forall i | 0 <= i < n :: i in s
    decreases n
  {
    if n == 0 {
      assert forall i :: i !in s;
      assert s == {};
    } else {
      RangeSize(n - 1, s - {n - 1});
      if n - 1 in s {
        var rest := s - {n - 1};
        assert |s| == |rest| + 1;
        assert forall i | 0 <= i < n - 1 :: i in rest <==> i in s;
        assert (forall i | 0 <= i < n - 1 :: i in rest) ==> forall i | 0 <= i < n :: i in s;
      } else {
        assert s - {n - 1} == s;
      }
    }
  }

  /** Policy compilation preserves meaning: whatever roles are held, the compiled
      rule, read through the table its indices were made from, is satisfied exactly
      when the policy is met. */
  lemma {:induction false} CompilePreservesMeaning(p: Policy, roles: seq<Role>, held: Role -> bool)
    requires RoleSet(p) <= set r | r in roles
    requires Compile(p, Positions(roles)).Ok?
    ensures Satisfied(Compile(p, Positions(roles)).value, roles, held) <==> Met(p, held)
    decreases p
  {
    forall k | 0 <= k < |p.subPolicies| && Compile(p.subPolicies[k], Positions(roles)).Ok?
      ensures Satisfied(Compile(p.subPolicies[k], Positions(roles)).value, roles, held) <==> Met(p.subPolicies[k], held)
    {
      RoleSetsHold(p.subPolicies, k);
      CompilePreservesMeaning(p.subPolicies[k], roles, held);
    }
    var rules := Compile(p, Positions(roles)).value.rules;
    ChildrenCorrespond(p, roles, held, rules);
    assert MetRules(rules, roles, held) == MetChildren(p, held);
    CountIsCardinality(rules, roles, held);
    ThresholdMeans(p, Threshold(p).value, held);
  }

  /** Rule `i` of a compiled node stands for child `i`. */
  lemma ChildrenCorrespond(p: Policy, roles: seq<Role>, held: Role -> bool, rules: seq<SigPolicy>)
    requires Compile(p, Positions(roles)).Ok? && rules == Compile(p, Positions(roles)).value.rules
    requires forall k | 0 <= k < |p.subPolicies| && Compile(p.subPolicies[k], Positions(roles)).Ok? ::
               var sub := p.subPolicies[k];
               Satisfied(Compile(sub, Positions(roles)).value, roles, held) <==> Met(sub, held)
    ensures |rules| == |p.roles| + |p.subPolicies|
    ensures forall i | 0 <= i < |rules| :: Satisfied(rules[i], roles, held) <==> ChildMet(p, i, held)
  {
    var signed := CompileRoles(p.roles, Positions(roles)).value;
    var subs := CompileAll(p.subPolicies, Positions(roles)).value;
    RolesCompile(p.roles, Positions(roles));
    AllCompile(p.subPolicies, Positions(roles));
    forall i | 0 <= i < |rules|
      ensures Satisfied(rules[i], roles, held) <==> ChildMet(p, i, held)
    {
      if i < |p.roles| {
        assert rules[i] == signed[i];
      } else {
        assert rules[i] == subs[i - |p.roles|];
      }
    }
  }

  /** Reaching the threshold is what each kind of policy asks for. */
  lemma ThresholdMeans(p: Policy, n: int, held: Role -> bool)
    requires Threshold(p) == Ok(n)
    ensures n <= |MetChildren(p, held)| <==> Met(p, held)
  {
    var children := |p.roles| + |p.subPolicies|;
    var met := MetChildren(p, held);
    RangeSize(children, met);
    match p.expr
    case And =>
      assert forall i | 0 <= i < children :: i in met <==> ChildMet(p, i, held);
    case Or =>
      if i :| 0 <= i < children && ChildMet(p, i, held) {
        assert i in met;
      } else {
        assert met == {};
      }
    case OutOf =>
  }

  // ------------------------------------------------------------ table agreement

  /** The leaves of a compiled policy, left to right: the roles of each node before
      those of its sub-policies. */
  function Leaves(rule: SigPolicy): seq<nat>
    decreases rule, 1
  {
    match rule
    case SignedBy(index) => [index]
    case NOutOf(n, rules) => AllLeaves(rules)
  }

  function AllLeaves(rules: seq<SigPolicy>): seq<nat>
    decreases rules, 0
  {
    if rules == [] then [] else Leaves(rules[0]) + AllLeaves(rules[1..])
  }

  function RolesInOrder(p: Policy): seq<Role>
    decreases p, 1
  {
    p.roles + AllRolesInOrder(p.subPolicies)
  }

  function AllRolesInOrder(ps: seq<Policy>): seq<Role>
    decreases ps, 0
  {
    if ps == [] then [] else RolesInOrder(ps[0]) + AllRolesInOrder(ps[1..])
  }

  /** Every index points at the role it was compiled from. */
  predicate Agree(indices: seq<nat>, named: seq<Role>, table: seq<Role>) {
    && |indices| == |named|
    && forall i | 0 <= i < |indices| :: indices[i] < |table| && table[indices[i]] == named[i]
  }

  lemma AgreeConcat(a1: seq<nat>, a2: seq<nat>, n1: seq<Role>, n2: seq<Role>, table: seq<Role>)
    requires Agree(a1, n1, table) && Agree(a2, n2, table)
    ensures Agree(a1 + a2, n1 + n2, table)
  {
  }

  lemma {:induction false} LeavesConcat(a: seq<SigPolicy>, b: seq<SigPolicy>)
    ensures AllLeaves(a + b) == AllLeaves(a) + AllLeaves(b)
  {
    if a == [] {
      assert a + b == b;
    } else {
      LeavesConcat(a[1..], b);
      assert (a + b)[0] == a[0] && (a + b)[1..] == a[1..] + b;
      assert AllLeaves(a + b) == Leaves(a[0]) + AllLeaves(a[1..] + b);
    }
  }

  lemma {:induction false} SignedAgree(roles: seq<Role>, table: seq<Role>)
    requires CompileRoles(roles, Positions(table)).Ok?
    ensures Agree(AllLeaves(CompileRoles(roles, Positions(table)).value), roles, table)
  {
    if roles != [] {
      SignedAgree(roles[1..], table);
      var rules := CompileRoles(roles, Positions(table)).value;
      var rest := CompileRoles(roles[1..], Positions(table)).value;
      assert rules[1..] == rest && Leaves(rules[0]) == [Positions(table)[roles[0]]];
      AgreeConcat(Leaves(rules[0]), AllLeaves(rest), [roles[0]], roles[1..], table);
      assert roles == [roles[0]] + roles[1..];
    }
  }

  lemma {:induction false} AllAgree(ps: seq<Policy>, table: seq<Role>)
    requires CompileAll(ps, Positions(table)).Ok?
    ensures Agree(AllLeaves(CompileAll(ps, Positions(table)).value), AllRolesInOrder(ps), table)
    decreases ps, 0
  {
    if ps != [] {
      TableAgreement(ps[0], table);
      AllAgree(ps[1..], table);
      var rules := CompileAll(ps, Positions(table)).value;
      var rest := CompileAll(ps[1..], Positions(table)).value;
      assert rules[1..] == rest;
      AgreeConcat(Leaves(rules[0]), AllLeaves(rest), RolesInOrder(ps[0]), AllRolesInOrder(ps[1..]), table);
    }
  }

  /** Table agreement: at every depth a `signed_by` index is in range of the table
      and the table holds there the role of that leaf. */
  lemma {:induction false} TableAgreement(p: Policy, table: seq<Role>)
    requires Compile(p, Positions(table)).Ok?
    ensures Agree(Leaves(Compile(p, Positions(table)).value), RolesInOrder(p), table)
    decreases p, 1
  {
    var signed := CompileRoles(p.roles, Positions(table)).value;
    var subs := CompileAll(p.subPolicies, Positions(table)).value;
    SignedAgree(p.roles, table);
    AllAgree(p.subPolicies, table);
    LeavesConcat(signed, subs);
    AgreeConcat(AllLeaves(signed), AllLeaves(subs), p.roles, AllRolesInOrder(p.subPolicies), table);
  }

  // ---------------------------------------------------------------- the envelope

  // The classification of a principal that is a role.
  const ROLE := 0

  datatype Principal = Principal(classification: nat, msp: string, roleType: nat)

  /** The MSPRoleType named by an upper-cased role; any other name is refused. */
  function RoleType(name: string): Option<nat> {
    if name == "MEMBER" then Some(0)
    else if name == "ADMIN" then Some(1)
    else if name == "CLIENT" then Some(2)
    else if name == "PEER" then Some(3)
    else None
  }

  function PrincipalOf(r: Role): Option<Principal> {
    var roleType :- RoleType(Upper(r.role));
    Some(Principal(ROLE, r.msp, roleType))
  }

  /** The principal of each kind of role, by the numbers of MSPRoleType; a name that
      does not upper-case to one of the four has none. */
  lemma PrincipalsOfRoles(msp: string, name: string)
    ensures PrincipalOf(Role(msp, "member")) == Some(Principal(0, msp, 0))
    ensures PrincipalOf(Role(msp, "admin")) == Some(Principal(0, msp, 1))
    ensures PrincipalOf(Role(msp, "client")) == Some(Principal(0, msp, 2))
    ensures PrincipalOf(Role(msp, "peer")) == Some(Principal(0, msp, 3))
    ensures PrincipalOf(Role(msp, name)).Some? <==> Upper(name) in {"MEMBER", "ADMIN", "CLIENT", "PEER"}
    ensures PrincipalOf(Role(msp, name)).Some? ==>
              exists known <- {"member", "admin", "client", "peer"} ::
                Upper(known) == Upper(name) && PrincipalOf(Role(msp, name)) == PrincipalOf(Role(msp, known))
  {
    assert Upper("member") == "MEMBER";
    assert Upper("admin") == "ADMIN";
    assert Upper("client") == "CLIENT";
    assert Upper("peer") == "PEER";
  }

  /** The case in which a role was named does not matter. */
  lemma RoleCaseIsIgnored(msp: string, role: string)
    ensures PrincipalOf(MakeRole(msp, role)) == PrincipalOf(Role(msp, role))
  {
    assert Upper(MakeRole(msp, role).role) == Upper(role);
  }

  /** Up to case, a principal determines the role it stands for. */
  lemma PrincipalDeterminesRole(r1: Role, r2: Role)
    requires PrincipalOf(r1).Some? && PrincipalOf(r1) == PrincipalOf(r2)
    ensures r1.msp == r2.msp && Upper(r1.role) == Upper(r2.role)
  {
  }

  datatype SigPolicyEnvelope = SigPolicyEnvelope(version: int, rule: SigPolicy, identities: seq<Principal>)

  /** The identities stand for the listed roles, one for one. */
  predicate StandsFor(identities: seq<Principal>, roles: seq<Role>) {
    && |identities| == |roles|
    && forall i | 0 <= i < |roles| :: PrincipalOf(roles[i]) == Some(identities[i])
  }

  /** One principal for each role, in the order of the roles. */
  method Principals(roles: seq<Role>) returns (r: Result<seq<Principal>, Error>)
    ensures r.Ok? <==> forall role <- roles :: PrincipalOf(role).Some?
    ensures r.Ok? ==> StandsFor(r.value, roles)
    ensures r.Err? ==> r.error == UnknownRoleType
  {
    var identities: seq<Principal> := [];
    var i := 0;
    while i < |roles|
      invariant i <= |roles|
      invariant StandsFor(identities, roles[..i])
    {
      var principal := PrincipalOf(roles[i]);
      if principal.None? {
        return Err(UnknownRoleType);
      }
      identities := identities + [principal.value];
      i := i + 1;
    }
    assert roles[..i] == roles;
    r := Ok(identities);
  }

  /** The envelope's parts come from one list of the policy's roles. */
  ghost predicate EnvelopeOf(p: Policy, roles: seq<Role>, envelope: SigPolicyEnvelope) {
    && envelope.version == 0
    && Lists(roles, RoleSet(p))
    && Compile(p, Positions(roles)) == Ok(envelope.rule)
    && StandsFor(envelope.identities, roles)
  }

  /** The rule and the table are made from two separate readings of the policy's
      roles, each in an arbitrary order of iteration; in an envelope that is built
      the two agree. */
  method BuildSignaturePolicyEnvelope(p: Policy) returns (r: Result<SigPolicyEnvelope, Error>)
    ensures r.Ok? <==> && Compilable(p)
                       && |RoleSet(p)| <= 0x8000_0000
                       && forall role <- RoleSet(p) :: PrincipalOf(role).Some?
    ensures r.Err? && Compilable(p) && |RoleSet(p)| <= 0x8000_0000 ==> r.error == UnknownRoleType
    ensures !Compilable(p) || |RoleSet(p)| > 0x8000_0000 ==>
              exists listed :: Lists(listed, RoleSet(p)) && Compile(p, Positions(listed)) == Err(r.error)
    ensures r.Ok? ==> exists roles :: EnvelopeOf(p, roles, r.value)
    ensures r.Ok? ==> forall held: Principal -> bool ::
                        Satisfied(r.value.rule, r.value.identities, held) <==> Met(p, HeldRoles(held))
  {
    var built := BuildEndorsementPolicy(p, map[]);
    ghost var listed: seq<Role> :| Lists(listed, RoleSet(p)) && built == Compile(p, Positions(listed));
    CompilesIff(p, Positions(listed));
    PositionsFit(listed, RoleSet(p));
    var rule :- built;

    var roles := AllRoles(p);
    var principals := Principals(roles);
    assert (forall role <- RoleSet(p) :: PrincipalOf(role).Some?)
      <==> forall role <- roles :: PrincipalOf(role).Some?;
    var identities :- principals;
    ReadingsAgree(listed, roles, RoleSet(p), identities);
    r := Ok(SigPolicyEnvelope(0, rule, identities));
    assert EnvelopeOf(p, roles, r.value);
    forall held: Principal -> bool
      ensures Satisfied(r.value.rule, r.value.identities, held) <==> Met(p, HeldRoles(held))
    {
      EnvelopePreservesMeaning(p, r.value, held);
    }
  }

  /** The names of the known role types contain no dot, so the two readings of an
      envelope that is built agree. */
  lemma ReadingsAgree(listed: seq<Role>, roles: seq<Role>, s: set<Role>, identities: seq<Principal>)
    requires Lists(listed, s) && Lists(roles, s) && StandsFor(identities, roles)
    ensures listed == roles
  {
    forall r | r in s
      ensures NoDot(r.role)
    {
      var i := FirstOccurrence(roles, r);
      var name := Upper(r.role);
      assert name in {"MEMBER", "ADMIN", "CLIENT", "PEER"};
      assert '.' !in name;
      assert forall k | 0 <= k < |name| :: name[k] == UpperChar(r.role[k]);
    }
    NoDotsKeysDiffer(s);
    ListingIsUnique(listed, roles, s);
  }

  /** The roles whose principal is held. */
  ghost function HeldRoles(held: Principal -> bool): Role -> bool {
    r => PrincipalOf(r).Some? && held(PrincipalOf(r).value)
  }

  /** Whatever principals have signed, an envelope that was built is satisfied,
      through its own identities table, exactly when the policy is met. */
  lemma EnvelopePreservesMeaning(p: Policy, envelope: SigPolicyEnvelope, held: Principal -> bool)
    requires exists roles :: EnvelopeOf(p, roles, envelope)
    ensures Satisfied(envelope.rule, envelope.identities, held) <==> Met(p, HeldRoles(held))
  {
    var roles :| EnvelopeOf(p, roles, envelope);
    CompilePreservesMeaning(p, roles, HeldRoles(held));
    SameTable(envelope.rule, roles, HeldRoles(held), envelope.identities, held);
  }

  lemma {:induction false} SameTable<T, U>(rule: SigPolicy, a: seq<T>, heldA: T -> bool, b: seq<U>, heldB: U -> bool)
    requires |a| == |b| && forall i | 0 <= i < |a| :: heldA(a[i]) == heldB(b[i])
    ensures Satisfied(rule, a, heldA) <==> Satisfied(rule, b, heldB)
    decreases rule, 1
  {
    if rule.NOutOf? {
      SameCount(rule.rules, a, heldA, b, heldB);
    }
  }

  lemma {:induction false} SameCount<T, U>(rules: seq<SigPolicy>, a: seq<T>, heldA: T -> bool,
                                           b: seq<U>, heldB: U -> bool)
    requires |a| == |b| && forall i | 0 <= i < |a| :: heldA(a[i]) == heldB(b[i])
    ensures SatisfiedCount(rules, a, heldA) == SatisfiedCount(rules, b, heldB)
    decreases rules, 0
  {
    if rules != [] {
      var last := |rules| - 1;
      SameTable(rules[last], a, heldA, b, heldB);
      SameCount(rules[..last], a, heldA, b, heldB);
    }
  }
}
