/** The Cognitive Physics Engine (src/lib/cognitivePhysics.ts): the static
    tables, the derivation of the 8-slot position map from a 4-function stack,
    the context, social and coupling forces, the activation update law and the
    relationship (affinity/tension) law. The session object that holds the
    evolving state is in module PhysicsSession. */
module CognitivePhysics {
  import opened Types
  import opened Text

  // ---------------------------------------------------------------------
  // Function order and activation vectors
  // ---------------------------------------------------------------------

  /** FUNCTION_ORDER: the slot of each function in an activation vector. */
  function FunctionOrder(): seq<CognitiveFunction> {
    [Te, Ti, Fe, Fi, Se, Si, Ne, Ni]
  }

  function FunctionAt(i: nat): CognitiveFunction
    requires i < 8
  {
    FunctionOrder()[i]
  }

  /** FUNCTION_ORDER.indexOf(f). */
  function Index(f: CognitiveFunction): (i: nat)
    ensures i < 8 && FunctionAt(i) == f
  {
    match f
    case Te => 0 case Ti => 1 case Fe => 2 case Fi => 3
    case Se => 4 case Si => 5 case Ne => 6 case Ni => 7
  }

  /** FUNCTION_ORDER lists every function exactly once. */
  lemma FunctionOrderIsBijective(i: nat)
    requires i < 8
    ensures Index(FunctionAt(i)) == i
  {
  }

  /** An ActivationVector: one real per slot of FUNCTION_ORDER. */
  type Vector = v: seq<real> | |v| == 8 witness [0.0, 0.0, 0.0, 0.0, 0.0, 0.0, 0.0, 0.0]

  function Zero(): Vector {
    [0.0, 0.0, 0.0, 0.0, 0.0, 0.0, 0.0, 0.0]
  }

  // ---------------------------------------------------------------------
  // Parameters
  // ---------------------------------------------------------------------

  datatype PhysicsParameters = PhysicsParameters(
    alpha: real,     // persistence around baseline
    gammaCtx: real,  // context force strength
    gammaSoc: real,  // social force strength
    lambdaC: real,   // coupling strength
    etaTen: real,    // tension build rate
    rhoTen: real,    // tension decay rate
    etaAff: real,    // affinity build rate
    rhoAff: real,    // affinity decay rate
    kAff: real,      // affinity influence on social force
    kTen: real)      // tension influence on social force

  /** DEFAULT_PHYSICS_PARAMS. */
  const DefaultParams: PhysicsParameters :=
    PhysicsParameters(0.7, 0.3, 0.4, 0.2, 0.1, 0.05, 0.1, 0.05, 0.5, 0.3)

  predicate NonNegativeRates(p: PhysicsParameters) {
    p.etaTen >= 0.0 && p.rhoTen >= 0.0 && p.etaAff >= 0.0 && p.rhoAff >= 0.0
  }

  // ---------------------------------------------------------------------
  // Positions
  // ---------------------------------------------------------------------

  predicate IsPosition(p: int) { 1 <= p <= 8 }

  /** SOCIONICS_BASELINES: rest-state baseline of each position. */
  function TableBaseline(p: int): real
    requires IsPosition(p)
  {
    match p
    case 1 => 0.9 case 2 => 0.8 case 3 => 0.3 case 4 => 0.1
    case 5 => 0.2 case 6 => 0.4 case 7 => 0.3 case _ => 0.4
  }

  /** SOCIONICS_BASELINES: capacity of each position. */
  function TableCapacity(p: int): real
    requires IsPosition(p)
  {
    match p
    case 1 => 1.0 case 2 => 0.9 case 3 => 0.5 case 4 => 0.2
    case 5 => 0.3 case 6 => 0.6 case 7 => 0.7 case _ => 0.8
  }

  /** The table is consistent: 0 <= baseline <= capacity <= 1 at every position. */
  lemma TableIsConsistent(p: int)
    requires IsPosition(p)
    ensures 0.0 <= TableBaseline(p) <= TableCapacity(p) <= 1.0
  {
  }

  /** isValuedPosition. */
  predicate IsValuedPosition(p: int) {
    p == 1 || p == 2 || p == 5 || p == 6
  }

  /** The record the program stores for a function that sits at position `p`. */
  function SlotAt(p: int): (s: SocionicsPosition)
    requires IsPosition(p)
  {
    SocionicsPosition(p, TableBaseline(p), TableCapacity(p), if IsValuedPosition(p) then 1 else -1)
  }

  /** The fixed inverse pairs Te/Ti, Fe/Fi, Se/Si, Ne/Ni (same function type,
      opposite attitude). */
  function Inverse(f: CognitiveFunction): (g: CognitiveFunction)
    ensures g != f
  {
    match f
    case Ne => Ni case Ni => Ne case Se => Si case Si => Se
    case Te => Ti case Ti => Te case Fe => Fi case Fi => Fe
  }

  /** The inverse pair a function belongs to. */
  function PairOf(f: CognitiveFunction): (k: nat)
    ensures k < 4
  {
    match f
    case Te => 0 case Ti => 0 case Fe => 1 case Fi => 1
    case Se => 2 case Si => 2 case Ne => 3 case Ni => 3
  }

  /** Inverse is an involution that stays within the pair. */
  lemma InverseKeepsPair(f: CognitiveFunction)
    ensures Inverse(Inverse(f)) == f && PairOf(Inverse(f)) == PairOf(f)
  {
  }

  /** A pair holds exactly a function and its inverse. */
  lemma InversePairs(f: CognitiveFunction, g: CognitiveFunction)
    ensures PairOf(f) == PairOf(g) <==> (g == f || g == Inverse(f))
  {
  }

  /** A stack with a function for each of the four roles, drawn from four
      different inverse pairs. */
  predicate ValidStack(stack: seq<AvatarFunction>) {
    ValidRoles(RolesOf(stack))
  }

  predicate ValidRoles(r: Roles) {
    r.dominant.Some? && r.auxiliary.Some? && r.tertiary.Some? && r.inferior.Some? &&
    var d, a, t, i := PairOf(r.dominant.value), PairOf(r.auxiliary.value),
                      PairOf(r.tertiary.value), PairOf(r.inferior.value);
    d != a && d != t && d != i && a != t && a != i && t != i
  }

  /** The functions the stack gives for the four roles, as `find` returns them. */
  datatype Roles = Roles(
    dominant: Option<CognitiveFunction>, auxiliary: Option<CognitiveFunction>,
    tertiary: Option<CognitiveFunction>, inferior: Option<CognitiveFunction>)

  function RolesOf(stack: seq<AvatarFunction>): Roles {
    Roles(FindRole(stack, Dominant), FindRole(stack, Auxiliary),
          FindRole(stack, Tertiary), FindRole(stack, Inferior))
  }

  function InverseOf(o: Option<CognitiveFunction>): Option<CognitiveFunction> {
    if o.Some? then Some(Inverse(o.value)) else None
  }

  /** The function the rule for position k assigns: dominant -> 1,
      auxiliary -> 2, inverse of inferior -> 3, inverse of tertiary -> 4,
      inferior -> 5, tertiary -> 6, inverse of dominant -> 7, inverse of
      auxiliary -> 8; nothing when the role is missing. */
  function RuleTarget(k: int, r: Roles): Option<CognitiveFunction>
    requires IsPosition(k)
  {
    match k
    case 1 => r.dominant
    case 2 => r.auxiliary
    case 3 => InverseOf(r.inferior)
    case 4 => InverseOf(r.tertiary)
    case 5 => r.inferior
    case 6 => r.tertiary
    case 7 => InverseOf(r.dominant)
    case _ => InverseOf(r.auxiliary)
  }

  /** The last of the rules 1..k that reaches `f`, or the default position 7. */
  function LastRule(k: nat, r: Roles, f: CognitiveFunction): (p: int)
    requires k <= 8
    ensures IsPosition(p)
  {
    if k == 0 then 7
    else if RuleTarget(k, r) == Some(f) then k
    else LastRule(k - 1, r, f)
  }

  /** The position createSocionicsFromStack leaves on `f`. The rules are applied
      in the order of their positions and each overwrites the earlier ones, so
      the last rule that reaches `f` decides; a function no rule reaches keeps
      the default, position 7. */
  function DerivedPosition(stack: seq<AvatarFunction>, f: CognitiveFunction): (p: int)
    ensures IsPosition(p)
  {
    LastRule(8, RolesOf(stack), f)
  }

  /** The complete map createSocionicsFromStack returns. */
  function DerivedPositions(stack: seq<AvatarFunction>): (m: PositionMap)
    ensures forall f :: f in m ==> m[f] == SlotAt(DerivedPosition(stack, f))
  {
    map f | f in AllFunctions() :: SlotAt(DerivedPosition(stack, f))
  }

  /** After the rules 1..k, every function holds the record of the last rule
      that reached it. */
  predicate AfterRules(m: map<CognitiveFunction, SocionicsPosition>, k: nat, r: Roles)
    requires k <= 8
  {
    forall f :: f in AllFunctions() ==> f in m && m[f] == SlotAt(LastRule(k, r, f))
  }

  /** One rule overwrites the record of the function it reaches. */
  lemma ApplyRule(m: map<CognitiveFunction, SocionicsPosition>, k: nat, r: Roles)
    requires 1 <= k <= 8 && AfterRules(m, k - 1, r)
    ensures var t := RuleTarget(k, r);
            AfterRules(if t.Some? then m[t.value := SlotAt(k)] else m, k, r)
  {
  }

  lemma AllRulesGiveDerived(m: map<CognitiveFunction, SocionicsPosition>, stack: seq<AvatarFunction>)
    requires AfterRules(m, 8, RolesOf(stack))
    ensures m == DerivedPositions(stack)
  {
    forall f | f in m ensures f in AllFunctions() {
      assert f.Te? || f.Ti? || f.Fe? || f.Fi? || f.Se? || f.Si? || f.Ne? || f.Ni?;
    }
  }

  /** Positions 1-4 (the mental ring): dominant -> 1, auxiliary -> 2, inverse
      of inferior -> 3, inverse of tertiary -> 4, each only when the role was
      found. */
  method PlaceMentalRing(m: map<CognitiveFunction, SocionicsPosition>, r: Roles)
    returns (m': map<CognitiveFunction, SocionicsPosition>)
    requires AfterRules(m, 0, r)
    ensures AfterRules(m', 4, r)
  {
    m' := m;
    ApplyRule(m', 1, r);
    if r.dominant.Some? {
      m' := m'[r.dominant.value := SlotAt(1)];
    }
    ApplyRule(m', 2, r);
    if r.auxiliary.Some? {
      m' := m'[r.auxiliary.value := SlotAt(2)];
    }
    ApplyRule(m', 3, r);
    if r.inferior.Some? {
      m' := m'[Inverse(r.inferior.value) := SlotAt(3)];
    }
    ApplyRule(m', 4, r);
    if r.tertiary.Some? {
      m' := m'[Inverse(r.tertiary.value) := SlotAt(4)];
    }
  }

  /** Positions 5-8 (the vital ring): inferior -> 5, tertiary -> 6, inverse of
      dominant -> 7, inverse of auxiliary -> 8, each only when the role was
      found, overwriting whatever the function held before. */
  method PlaceVitalRing(m: map<CognitiveFunction, SocionicsPosition>, r: Roles)
    returns (m': map<CognitiveFunction, SocionicsPosition>)
    requires AfterRules(m, 4, r)
    ensures AfterRules(m', 8, r)
  {
    m' := m;
    ApplyRule(m', 5, r);
    if r.inferior.Some? {
      m' := m'[r.inferior.value := SlotAt(5)];
    }
    ApplyRule(m', 6, r);
    if r.tertiary.Some? {
      m' := m'[r.tertiary.value := SlotAt(6)];
    }
    ApplyRule(m', 7, r);
    if r.dominant.Some? {
      m' := m'[Inverse(r.dominant.value) := SlotAt(7)];
    }
    ApplyRule(m', 8, r);
    if r.auxiliary.Some? {
      m' := m'[Inverse(r.auxiliary.value) := SlotAt(8)];
    }
  }

  /** createSocionicsFromStack: start every function at the default position 7,
      find the four roles, then apply the eight rules in source order, each
      overwriting the record of the function it reaches. */
  method CreateSocionicsFromStack(functions: seq<AvatarFunction>) returns (socionics: PositionMap)
    ensures socionics == DerivedPositions(functions)
  {
    var m: map<CognitiveFunction, SocionicsPosition> := map[];
    for k := 0 to 8
      invariant m.Keys == set j | 0 <= j < k :: FunctionAt(j)
      invariant forall f :: f in m ==> m[f] == SlotAt(7)
    {
      m := m[FunctionAt(k) := SlotAt(7)];
    }
    assert m.Keys == AllFunctions() by {
      forall f | f in AllFunctions() ensures f in m {
        assert FunctionAt(Index(f)) == f;
      }
    }
    var roles := Roles(FindRole(functions, Dominant), FindRole(functions, Auxiliary),
                       FindRole(functions, Tertiary), FindRole(functions, Inferior));
    m := PlaceMentalRing(m, roles);
    m := PlaceVitalRing(m, roles);
    AllRulesGiveDerived(m, functions);
    socionics := m;
  }

  /** The last rule that reaches `f` is rule k when k reaches it and no later
      rule does. */
  lemma {:induction false} LastRuleIs(n: nat, r: Roles, f: CognitiveFunction, k: int)
    requires 1 <= k <= n <= 8 && RuleTarget(k, r) == Some(f)
    requires forall j :: k < j <= n ==> RuleTarget(j, r) != Some(f)
    ensures LastRule(n, r, f) == k
  {
    if n > k {
      LastRuleIs(n - 1, r, f, k);
    }
  }

  /** The rule of a valid stack that reaches `f`. */
  function RuleOf(r: Roles, f: CognitiveFunction): (k: int)
    requires r.dominant.Some? && r.auxiliary.Some? && r.tertiary.Some? && r.inferior.Some?
    ensures IsPosition(k)
  {
    if f == r.dominant.value then 1
    else if f == r.auxiliary.value then 2
    else if f == Inverse(r.inferior.value) then 3
    else if f == Inverse(r.tertiary.value) then 4
    else if f == r.inferior.value then 5
    else if f == r.tertiary.value then 6
    else if f == Inverse(r.dominant.value) then 7
    else 8
  }

  /** For a valid stack every rule reaches a function, and only that rule
      reaches it: the eight rules reach eight distinct functions. */
  lemma ValidStackTarget(stack: seq<AvatarFunction>, k: int)
    requires ValidStack(stack) && IsPosition(k)
    ensures RuleTarget(k, RolesOf(stack)).Some?
    ensures RuleOf(RolesOf(stack), RuleTarget(k, RolesOf(stack)).value) == k
  {
    ValidRolesTarget(RolesOf(stack), k);
  }

  lemma ValidRolesTarget(r: Roles, k: int)
    requires ValidRoles(r) && IsPosition(k)
    ensures RuleTarget(k, r).Some? && RuleOf(r, RuleTarget(k, r).value) == k
  {
    var d, a, t, i := r.dominant.value, r.auxiliary.value, r.tertiary.value, r.inferior.value;
    InverseKeepsPair(d);
    InverseKeepsPair(a);
    InverseKeepsPair(t);
    InverseKeepsPair(i);
    if k == 1 {
    } else if k == 2 {
    } else if k == 3 {
    } else if k == 4 {
    } else if k == 5 {
      assert i != Inverse(i);
    } else if k == 6 {
      assert t != Inverse(t);
    } else if k == 7 {
      assert Inverse(d) != d;
    } else {
      assert Inverse(a) != a;
    }
  }

  /** For a valid stack every rule keeps its function: dominant -> 1,
      auxiliary -> 2, inverse of inferior -> 3, inverse of tertiary -> 4,
      inferior -> 5, tertiary -> 6, inverse of dominant -> 7, inverse of
      auxiliary -> 8; nothing is overwritten. */
  lemma ValidStackPositions(stack: seq<AvatarFunction>, k: int)
    requires ValidStack(stack) && IsPosition(k)
    ensures DerivedPosition(stack, RuleTarget(k, RolesOf(stack)).value) == k
  {
    var r := RolesOf(stack);
    var f := RuleTarget(k, r).value;
    ValidStackTarget(stack, k);
    forall j | k < j <= 8 ensures RuleTarget(j, r) != Some(f) {
      ValidStackTarget(stack, j);
    }
    LastRuleIs(8, r, f, k);
  }

  /** For a valid stack every function is reached by some rule. */
  lemma ValidStackCovers(stack: seq<AvatarFunction>, f: CognitiveFunction)
    requires ValidStack(stack)
    ensures RuleTarget(RuleOf(RolesOf(stack), f), RolesOf(stack)) == Some(f)
  {
    ValidRolesCover(RolesOf(stack), f);
  }

  lemma ValidRolesCover(r: Roles, f: CognitiveFunction)
    requires ValidRoles(r)
    ensures RuleTarget(RuleOf(r, f), r) == Some(f)
  {
    InversePairs(r.dominant.value, f);
    InversePairs(r.auxiliary.value, f);
    InversePairs(r.tertiary.value, f);
    InversePairs(r.inferior.value, f);
  }

  /** Bijection: for a valid stack distinct functions get distinct positions,
      and every position 1..8 is taken by some function. */
  lemma DerivedPositionsBijective(stack: seq<AvatarFunction>)
    requires ValidStack(stack)
    ensures forall f, g :: f != g ==> DerivedPosition(stack, f) != DerivedPosition(stack, g)
    ensures forall p :: IsPosition(p) ==> exists f :: DerivedPosition(stack, f) == p
  {
    var r := RolesOf(stack);
    forall f, g | f != g
      ensures DerivedPosition(stack, f) != DerivedPosition(stack, g)
    {
      ValidStackCovers(stack, f);
      ValidStackCovers(stack, g);
      ValidStackPositions(stack, RuleOf(r, f));
      ValidStackPositions(stack, RuleOf(r, g));
    }
    forall p | IsPosition(p)
      ensures exists f :: DerivedPosition(stack, f) == p
    {
      ValidStackTarget(stack, p);
      ValidStackPositions(stack, p);
    }
  }

  /** Valuation: a derived record is valued (+1) exactly at positions 1, 2, 5, 6
      and unvalued (-1) at 3, 4, 7, 8; its baseline and capacity are the table's. */
  lemma DerivedValuation(stack: seq<AvatarFunction>, f: CognitiveFunction)
    ensures var s := DerivedPositions(stack)[f];
            (s.valued == 1 <==> s.position in {1, 2, 5, 6}) &&
            (s.valued == -1 <==> s.position in {3, 4, 7, 8}) &&
            s.baseline == TableBaseline(s.position) && s.capacity == TableCapacity(s.position)
  {
    assert f in AllFunctions();
  }

  /** A stack without a dominant function: Ne and Ni are reached by no rule
      and both keep the default position 7; the map is total but not a
      bijection. */
  lemma MissingRoleBreaksBijection()
    ensures var stack := [AvatarFunction(Te, Auxiliary), AvatarFunction(Fi, Tertiary), AvatarFunction(Se, Inferior)];
            DerivedPosition(stack, Ni) == 7 && DerivedPosition(stack, Ne) == 7 &&
            DerivedPositions(stack).Keys == AllFunctions()
  {
    var stack := [AvatarFunction(Te, Auxiliary), AvatarFunction(Fi, Tertiary), AvatarFunction(Se, Inferior)];
    assert FindRole(stack, Dominant) == None;
    assert FindRole(stack, Auxiliary) == Some(Te);
    assert FindRole(stack, Tertiary) == Some(Fi);
    assert FindRole(stack, Inferior) == Some(Se);
  }

  /** The derived positions respect the table: 0 <= baseline <= capacity <= 1. */
  predicate WithinTable(positions: PositionMap) {
    forall f :: f in positions ==> 0.0 <= positions[f].baseline <= positions[f].capacity <= 1.0
  }

  lemma DerivedPositionsWithinTable(stack: seq<AvatarFunction>)
    ensures WithinTable(DerivedPositions(stack))
  {
    forall f | f in DerivedPositions(stack)
      ensures 0.0 <= DerivedPositions(stack)[f].baseline <= DerivedPositions(stack)[f].capacity <= 1.0
    {
      TableIsConsistent(DerivedPosition(stack, f));
    }
  }

  /** computeBaseline: the baselines in FUNCTION_ORDER. */
  function ComputeBaseline(positions: PositionMap): (b: Vector)
    ensures forall i :: 0 <= i < 8 ==> b[i] == positions[FunctionAt(i)].baseline
  {
    seq(8, i requires 0 <= i < 8 => positions[FunctionAt(i)].baseline)
  }

  /** createInitialActivation: a copy of the baseline. */
  function CreateInitialActivation(baseline: Vector): Vector {
    baseline
  }

  // ---------------------------------------------------------------------
  // Coupling
  // ---------------------------------------------------------------------

  /** The four coupled pairs Te-Fi, Ti-Fe, Ne-Si, Ni-Se. */
  function CouplingPairs(): seq<(CognitiveFunction, CognitiveFunction)> {
    [(Te, Fi), (Ti, Fe), (Ne, Si), (Ni, Se)]
  }

  /** The coupling partner of each function. */
  function Partner(f: CognitiveFunction): (g: CognitiveFunction)
    ensures g != f
  {
    match f
    case Te => Fi case Fi => Te case Ti => Fe case Fe => Ti
    case Ne => Si case Si => Ne case Ni => Se case Se => Ni
  }

  /** The weight COUPLING_MATRIX holds at row i, column j. */
  function CouplingWeight(i: nat, j: nat): real
    requires i < 8 && j < 8
  {
    if FunctionAt(j) == Partner(FunctionAt(i)) then 0.3 else 0.0
  }

  /** COUPLING_MATRIX. */
  function CouplingMatrix(): (m: seq<seq<real>>)
    ensures |m| == 8 && forall i :: 0 <= i < 8 ==> |m[i]| == 8
  {
    seq(8, i requires 0 <= i < 8 => seq(8, j requires 0 <= j < 8 => CouplingWeight(i, j)))
  }

  /** The matrix is symmetric with a zero diagonal. */
  lemma CouplingSymmetric(i: nat, j: nat)
    requires i < 8 && j < 8
    ensures CouplingWeight(i, j) == CouplingWeight(j, i)
    ensures CouplingWeight(i, i) == 0.0
  {
    PartnerInvolution(FunctionAt(i));
    PartnerInvolution(FunctionAt(j));
  }

  lemma PartnerInvolution(f: CognitiveFunction)
    ensures Partner(Partner(f)) == f
  {
  }

  /** createCouplingMatrix: an 8x8 zero matrix, then 0.3 at both (i, j) and
      (j, i) for each coupled pair. */
  method CreateCouplingMatrix() returns (matrix: seq<seq<real>>)
    ensures matrix == CouplingMatrix()
  {
    var zeroRow := [0.0, 0.0, 0.0, 0.0, 0.0, 0.0, 0.0, 0.0];
    matrix := [zeroRow, zeroRow, zeroRow, zeroRow, zeroRow, zeroRow, zeroRow, zeroRow];
    var pairs := CouplingPairs();
    for k := 0 to |pairs|
      invariant |matrix| == 8 && forall i :: 0 <= i < 8 ==> |matrix[i]| == 8
      invariant forall i, j :: 0 <= i < 8 && 0 <= j < 8 ==>
        matrix[i][j] == (if exists n :: 0 <= n < k && (pairs[n] == (FunctionAt(i), FunctionAt(j))
                                                      || pairs[n] == (FunctionAt(j), FunctionAt(i)))
                         then 0.3 else 0.0)
    {
      var idx1, idx2 := Index(pairs[k].0), Index(pairs[k].1);
      matrix := matrix[idx1 := matrix[idx1][idx2 := 0.3]];
      matrix := matrix[idx2 := matrix[idx2][idx1 := 0.3]];
    }
    forall i, j | 0 <= i < 8 && 0 <= j < 8
      ensures matrix[i][j] == CouplingMatrix()[i][j]
    {
      PartnerInvolution(FunctionAt(i));
      if FunctionAt(j) == Partner(FunctionAt(i)) {
        var n := PairSlot(FunctionAt(i));
        assert pairs[n] == (FunctionAt(i), FunctionAt(j)) || pairs[n] == (FunctionAt(j), FunctionAt(i));
      } else {
        forall n | 0 <= n < 4
          ensures pairs[n] != (FunctionAt(i), FunctionAt(j)) && pairs[n] != (FunctionAt(j), FunctionAt(i))
        {
          assert pairs[n].1 == Partner(pairs[n].0);
        }
      }
    }
    forall i | 0 <= i < 8
      ensures matrix[i] == CouplingMatrix()[i]
    {
    }
  }

  /** The entry of CouplingPairs that holds `f`. */
  function PairSlot(f: CognitiveFunction): (n: nat)
    ensures n < 4
    ensures CouplingPairs()[n] == (f, Partner(f)) || CouplingPairs()[n] == (Partner(f), f)
  {
    match f
    case Te => 0 case Fi => 0 case Ti => 1 case Fe => 1
    case Ne => 2 case Si => 2 case Ni => 3 case Se => 3
  }

  /** Deviation from baseline, a - b. */
  function Deviation(activation: Vector, baseline: Vector): (d: Vector)
  {
    seq(8, i requires 0 <= i < 8 => activation[i] - baseline[i])
  }

  /** Row i of the matrix times the first n components of `v`. */
  function RowDot(i: nat, v: Vector, n: nat): real
    requires i < 8 && n <= 8
  {
    if n == 0 then 0.0 else RowDot(i, v, n - 1) + CouplingWeight(i, n - 1) * v[n - 1]
  }

  /** computeCouplingTerm: C * (a - b). */
  function CouplingTerm(activation: Vector, baseline: Vector): Vector {
    var d := Deviation(activation, baseline);
    seq(8, i requires 0 <= i < 8 => RowDot(i, d, 8))
  }

  /** Each row has a single non-zero entry, at the partner's column. */
  lemma {:induction false} RowDotIsPartnerTerm(i: nat, v: Vector, n: nat)
    requires i < 8 && n <= 8
    ensures RowDot(i, v, n) == (if Index(Partner(FunctionAt(i))) < n
                               then 0.3 * v[Index(Partner(FunctionAt(i)))] else 0.0)
  {
    if n > 0 {
      RowDotIsPartnerTerm(i, v, n - 1);
      FunctionOrderIsBijective(n - 1);
    }
  }

  /** Engaging a function pulls exactly its coupled partner: the coupling term
      at slot i is 0.3 times the partner's deviation. */
  lemma CouplingTermIsPartnerDeviation(activation: Vector, baseline: Vector, i: nat)
    requires i < 8
    ensures var p := Index(Partner(FunctionAt(i)));
            CouplingTerm(activation, baseline)[i] == 0.3 * (activation[p] - baseline[p])
  {
    RowDotIsPartnerTerm(i, Deviation(activation, baseline), 8);
  }

  /** computeCouplingTerm: nested loops accumulating result[i] += C[i][j] * dev[j]. */
  method ComputeCouplingTerm(activation: Vector, baseline: Vector) returns (result: Vector)
    ensures result == CouplingTerm(activation, baseline)
  {
    var deviation := Deviation(activation, baseline);
    var matrix := CouplingMatrix();
    var r: seq<real> := Zero();
    for i := 0 to 8
      invariant |r| == 8
      invariant forall k :: 0 <= k < i ==> r[k] == RowDot(k, deviation, 8)
      invariant forall k :: i <= k < 8 ==> r[k] == 0.0
    {
      for j := 0 to 8
        invariant |r| == 8
        invariant forall k :: 0 <= k < i ==> r[k] == RowDot(k, deviation, 8)
        invariant forall k :: i < k < 8 ==> r[k] == 0.0
        invariant r[i] == RowDot(i, deviation, j)
      {
        r := r[i := r[i] + matrix[i][j] * deviation[j]];
      }
    }
    result := r;
  }

  // ---------------------------------------------------------------------
  // Context force
  // ---------------------------------------------------------------------

  datatype ContextTag = Analytical | Emotional | Sensory | Strategic | ValuesConflict | PracticalAction

  /** The order in which detectContextTags tests the tag families. */
  function TagRank(t: ContextTag): nat {
    match t
    case Analytical => 0 case Emotional => 1 case Sensory => 2
    case Strategic => 3 case ValuesConflict => 4 case PracticalAction => 5
  }

  /** The keywords whose presence in the lower-cased topic selects a tag. */
  function TagKeywords(t: ContextTag): seq<string> {
    match t
    case Analytical => ["analyze", "logic", "system"]
    case Emotional => ["feel", "emotion", "value"]
    case Sensory => ["sense", "experience", "physical"]
    case Strategic => ["strategy", "plan", "future"]
    case ValuesConflict => ["conflict", "disagree", "debate"]
    case PracticalAction => ["action", "do", "implement"]
  }

  predicate MentionsAny(text: string, keywords: seq<string>) {
    exists k :: 0 <= k < |keywords| && Contains(text, keywords[k])
  }

  predicate Mentions(lowerTopic: string, t: ContextTag) {
    MentionsAny(lowerTopic, TagKeywords(t))
  }

  /** The families in the order detectContextTags tests them. */
  function TagOrder(): seq<ContextTag> {
    [Analytical, Emotional, Sensory, Strategic, ValuesConflict, PracticalAction]
  }

  /** The families of `families` the lower-cased topic mentions, in order. */
  function Matching(families: seq<ContextTag>, lowerTopic: string): seq<ContextTag> {
    if |families| == 0 then []
    else (if Mentions(lowerTopic, families[0]) then [families[0]] else [])
         + Matching(families[1..], lowerTopic)
  }

  /** detectContextTags: test each family in turn and record it when the
      lower-cased topic contains one of its keywords; ['analytical'] when no
      family matched. */
  function DetectContextTags(topic: string): seq<ContextTag> {
    var tags := Matching(TagOrder(), ToLower(topic));
    if |tags| > 0 then tags else [Analytical]
  }

  /** Matching keeps exactly the mentioned families, in the order given. */
  lemma {:induction false} MatchingSpec(families: seq<ContextTag>, lowerTopic: string)
    requires forall i, j :: 0 <= i < j < |families| ==> TagRank(families[i]) < TagRank(families[j])
    ensures var m := Matching(families, lowerTopic);
            (forall i, j :: 0 <= i < j < |m| ==> TagRank(m[i]) < TagRank(m[j])) &&
            (forall t :: t in m <==> t in families && Mentions(lowerTopic, t))
  {
    if |families| > 0 {
      var rest := families[1..];
      MatchingSpec(rest, lowerTopic);
      var m := Matching(families, lowerTopic);
      var tail := Matching(rest, lowerTopic);
      if Mentions(lowerTopic, families[0]) {
        assert m == [families[0]] + tail;
        forall j | 0 < j < |m| ensures TagRank(m[0]) < TagRank(m[j]) {
          assert m[j] in tail;
          var k :| 0 <= k < |rest| && rest[k] == m[j];
          assert families[k + 1] == m[j];
        }
      }
    }
  }

  /** The tags come out in strictly increasing rank (so without duplicates),
      never empty, and a tag is present exactly when its family matched, or it
      is 'analytical' and nothing matched. */
  lemma DetectContextTagsSpec(topic: string)
    ensures var tags := DetectContextTags(topic);
            |tags| >= 1 &&
            (forall i, j :: 0 <= i < j < |tags| ==> TagRank(tags[i]) < TagRank(tags[j])) &&
            (forall t :: t in tags <==>
               (Mentions(ToLower(topic), t) ||
                (t == Analytical && forall u :: !Mentions(ToLower(topic), u))))
  {
    var order := TagOrder();
    MatchingSpec(order, ToLower(topic));
    forall u ensures u in order {
      assert u.Analytical? || u.Emotional? || u.Sensory? || u.Strategic? || u.ValuesConflict? || u.PracticalAction?;
    }
    var m := Matching(order, ToLower(topic));
    if |m| == 0 {
      forall u ensures !Mentions(ToLower(topic), u) {
        assert u in order && u !in m;
      }
    } else {
      forall u | Mentions(ToLower(topic), u) ensures u in m {
        assert u in order;
      }
      assert m[0] in m;
    }
  }

  /** CONTEXT_TO_FUNCTIONS, entries in source order. */
  function TagEntries(t: ContextTag): seq<(CognitiveFunction, real)> {
    match t
    case Analytical => [(Te, 0.8), (Ti, 0.7), (Ni, 0.3)]
    case Emotional => [(Fe, 0.8), (Fi, 0.7), (Ne, 0.2)]
    case Sensory => [(Se, 0.8), (Si, 0.7)]
    case Strategic => [(Ni, 0.8), (Ne, 0.6), (Te, 0.4)]
    case ValuesConflict => [(Fi, 0.8), (Fe, 0.6)]
    case PracticalAction => [(Se, 0.7), (Te, 0.6)]
  }

  /** Sum of the values of the entries that name `f`. */
  function EntrySum(entries: seq<(CognitiveFunction, real)>, f: CognitiveFunction): real {
    if |entries| == 0 then 0.0
    else EntrySum(entries[..|entries| - 1], f)
         + (if entries[|entries| - 1].0 == f then entries[|entries| - 1].1 else 0.0)
  }

  /** The weight one tag puts on `f`. */
  function TagWeight(t: ContextTag, f: CognitiveFunction): real {
    EntrySum(TagEntries(t), f)
  }

  /** Sum of the weights a list of tags puts on `f`. */
  function TagSum(tags: seq<ContextTag>, f: CognitiveFunction): real {
    if |tags| == 0 then 0.0 else TagSum(tags[..|tags| - 1], f) + TagWeight(tags[|tags| - 1], f)
  }

  /** Divisor of the averaging step: the tag count when above one. */
  function TagDivisor(tags: seq<ContextTag>): (n: real)
    ensures n >= 1.0
  {
    if |tags| > 1 then |tags| as real else 1.0
  }

  /** computeContextForce: summed tag weights, averaged over the tags when more
      than one tag is given. */
  function ContextForce(tags: seq<ContextTag>): Vector {
    seq(8, i requires 0 <= i < 8 => TagSum(tags, FunctionAt(i)) / TagDivisor(tags))
  }

  lemma {:induction false} EntrySumNonNegative(entries: seq<(CognitiveFunction, real)>, f: CognitiveFunction)
    requires forall k :: 0 <= k < |entries| ==> entries[k].1 >= 0.0
    ensures EntrySum(entries, f) >= 0.0
  {
    if |entries| > 0 {
      EntrySumNonNegative(entries[..|entries| - 1], f);
    }
  }

  lemma {:induction false} TagSumNonNegative(tags: seq<ContextTag>, f: CognitiveFunction)
    ensures TagSum(tags, f) >= 0.0
  {
    if |tags| > 0 {
      TagSumNonNegative(tags[..|tags| - 1], f);
      EntrySumNonNegative(TagEntries(tags[|tags| - 1]), f);
    }
  }

  /** Every component of the context force is non-negative. */
  lemma ContextForceNonNegative(tags: seq<ContextTag>, i: nat)
    requires i < 8
    ensures ContextForce(tags)[i] >= 0.0
  {
    TagSumNonNegative(tags, FunctionAt(i));
  }

  /** computeContextForce: for each tag, add each of its entries at the entry's
      slot; then divide every slot by the tag count when there are several. */
  method ComputeContextForce(tags: seq<ContextTag>) returns (force: Vector)
    ensures force == ContextForce(tags)
  {
    var f: seq<real> := Zero();
    for t := 0 to |tags|
      invariant |f| == 8
      invariant forall k :: 0 <= k < 8 ==> f[k] == TagSum(tags[..t], FunctionAt(k))
    {
      var entries := TagEntries(tags[t]);
      assert tags[..t + 1][..t] == tags[..t];
      for e := 0 to |entries|
        invariant |f| == 8
        invariant forall k :: 0 <= k < 8 ==>
          f[k] == TagSum(tags[..t], FunctionAt(k)) + EntrySum(entries[..e], FunctionAt(k))
      {
        var idx := Index(entries[e].0);
        assert entries[..e + 1][..e] == entries[..e];
        f := f[idx := f[idx] + entries[e].1];
      }
      assert entries[..|entries|] == entries;
    }
    assert tags[..|tags|] == tags;
    if |tags| > 1 {
      var before := f;
      for i := 0 to 8
        invariant |f| == 8
        invariant forall k :: 0 <= k < i ==> f[k] == before[k] / (|tags| as real)
        invariant forall k :: i <= k < 8 ==> f[k] == before[k]
      {
        f := f[i := f[i] / (|tags| as real)];
      }
    }
    force := f;
  }

  // ---------------------------------------------------------------------
  // Per-avatar state, relationships and the social force
  // ---------------------------------------------------------------------

  datatype AvatarState = AvatarState(
    avatarId: string,
    baseline: Vector,
    activation: Vector,
    socionicsPositions: PositionMap)

  datatype RelationshipState = RelationshipState(affinity: real, tension: real)

  /** The neutral relationship every ordered pair starts from. */
  const DefaultRelationship: RelationshipState := RelationshipState(0.5, 0.1)

  predicate InUnitRange(r: RelationshipState) {
    0.0 <= r.affinity <= 1.0 && 0.0 <= r.tension <= 1.0
  }

  type AvatarStates = map<string, AvatarState>
  type Relationships = map<string, map<string, RelationshipState>>

  /** The distinct authors of `recent`, in first-occurrence order, other than
      the avatar itself and the human participant (the `hittingAvatars` set). */
  function HittingAvatars(avatarId: string, recent: seq<Message>): seq<string> {
    if |recent| == 0 then []
    else
      var before := HittingAvatars(avatarId, recent[..|recent| - 1]);
      var author := recent[|recent| - 1].avatarId;
      if author != avatarId && author != UserId && author !in before then before + [author] else before
  }

  /** Each author is counted once, and an id is counted exactly when it wrote
      one of the messages and is neither the avatar itself nor the user. */
  lemma {:induction false} HittingAvatarsSpec(avatarId: string, recent: seq<Message>)
    ensures forall i, j :: 0 <= i < j < |HittingAvatars(avatarId, recent)| ==>
              HittingAvatars(avatarId, recent)[i] != HittingAvatars(avatarId, recent)[j]
    ensures forall id :: id in HittingAvatars(avatarId, recent) <==>
              (id != avatarId && id != UserId && exists k :: 0 <= k < |recent| && recent[k].avatarId == id)
  {
    if |recent| > 0 {
      var prefix := recent[..|recent| - 1];
      var author := recent[|recent| - 1].avatarId;
      HittingAvatarsSpec(avatarId, prefix);
      var before := HittingAvatars(avatarId, prefix);
      var h := HittingAvatars(avatarId, recent);
      assert h == if author != avatarId && author != UserId && author !in before then before + [author] else before;
      forall id | id in h
        ensures id != avatarId && id != UserId && exists k :: 0 <= k < |recent| && recent[k].avatarId == id
      {
        if id in before {
          var k :| 0 <= k < |prefix| && prefix[k].avatarId == id;
          assert recent[k].avatarId == id;
        } else {
          assert recent[|recent| - 1].avatarId == id;
        }
      }
      forall id | id != avatarId && id != UserId && (exists k :: 0 <= k < |recent| && recent[k].avatarId == id)
        ensures id in h
      {
        var k :| 0 <= k < |recent| && recent[k].avatarId == id;
        if k < |recent| - 1 {
          assert prefix[k].avatarId == id;
        }
      }
    }
  }

  /** w_ij = k_aff * affinity - k_ten * tension. */
  function SocialWeight(p: PhysicsParameters, rel: RelationshipState): real {
    p.kAff * rel.affinity - p.kTen * rel.tension
  }

  /** One author's pull on slot i of `avatarId`; nothing when the author has no
      state or there is no relationship towards it. */
  function SocialTerm(avatarId: string, states: AvatarStates, rels: Relationships,
                      p: PhysicsParameters, other: string, i: nat): real
    requires avatarId in states && i < 8
  {
    if other in states && avatarId in rels && other in rels[avatarId]
    then SocialWeight(p, rels[avatarId][other]) * (states[other].activation[i] - states[avatarId].baseline[i])
    else 0.0
  }

  function SocialSum(avatarId: string, states: AvatarStates, rels: Relationships,
                     p: PhysicsParameters, others: seq<string>, i: nat): real
    requires avatarId in states && i < 8
  {
    if |others| == 0 then 0.0
    else SocialSum(avatarId, states, rels, p, others[..|others| - 1], i)
         + SocialTerm(avatarId, states, rels, p, others[|others| - 1], i)
  }

  /** Whether slot i of the avatar is valued (`valued > 0`). */
  predicate ValuedSlot(s: AvatarState, i: nat)
    requires i < 8
  {
    s.socionicsPositions[FunctionAt(i)].valued > 0
  }

  /** computeSocialForce: the zero vector for an unknown avatar; otherwise, on
      each valued slot, the summed pulls of the hitting avatars, and zero on
      every unvalued slot. */
  function SocialForce(avatarId: string, states: AvatarStates, rels: Relationships,
                       p: PhysicsParameters, recent: seq<Message>): Vector
  {
    if avatarId !in states then Zero()
    else
      var h := HittingAvatars(avatarId, recent);
      seq(8, i requires 0 <= i < 8 =>
        if ValuedSlot(states[avatarId], i) then SocialSum(avatarId, states, rels, p, h, i) else 0.0)
  }

  /** Unvalued slots receive no social force, whatever the weights. */
  lemma SocialForceZeroOnUnvalued(avatarId: string, states: AvatarStates, rels: Relationships,
                                  p: PhysicsParameters, recent: seq<Message>, i: nat)
    requires i < 8
    requires avatarId in states ==> states[avatarId].socionicsPositions[FunctionAt(i)].valued <= 0
    ensures SocialForce(avatarId, states, rels, p, recent)[i] == 0.0
  {
  }

  /** Messages of the avatar itself and of the user exert no force. */
  lemma {:induction false} SocialSumIgnoresSkipped(avatarId: string, states: AvatarStates, rels: Relationships,
                                                   p: PhysicsParameters, recent: seq<Message>, m: Message)
    requires m.avatarId == avatarId || m.avatarId == UserId
    ensures HittingAvatars(avatarId, recent + [m]) == HittingAvatars(avatarId, recent)
  {
    assert (recent + [m])[..|recent|] == recent;
  }

  /** computeSocialForce as a loop: collect the hitting authors, then for each
      author with a state and a relationship add its weighted pull on every
      valued slot. */
  method ComputeSocialForce(avatarId: string, states: AvatarStates, rels: Relationships,
                            p: PhysicsParameters, recent: seq<Message>) returns (force: Vector)
    ensures force == SocialForce(avatarId, states, rels, p, recent)
  {
    var f: seq<real> := Zero();
    var hitting: seq<string> := [];
    for k := 0 to |recent|
      invariant hitting == HittingAvatars(avatarId, recent[..k])
    {
      var author := recent[k].avatarId;
      assert recent[..k + 1][..k] == recent[..k];
      if author != avatarId && author != UserId && author !in hitting {
        hitting := hitting + [author];
      }
    }
    assert recent[..|recent|] == recent;
    if avatarId !in states {
      force := f;
      return;
    }
    var current := states[avatarId];
    for n := 0 to |hitting|
      invariant |f| == 8
      invariant forall k :: 0 <= k < 8 ==>
        f[k] == (if ValuedSlot(current, k) then SocialSum(avatarId, states, rels, p, hitting[..n], k) else 0.0)
    {
      var otherId := hitting[n];
      assert hitting[..n + 1][..n] == hitting[..n];
      if otherId !in states || avatarId !in rels || otherId !in rels[avatarId] {
        continue;
      }
      var other := states[otherId];
      var weight := SocialWeight(p, rels[avatarId][otherId]);
      for i := 0 to 8
        invariant |f| == 8
        invariant forall k :: 0 <= k < i ==>
          f[k] == (if ValuedSlot(current, k) then SocialSum(avatarId, states, rels, p, hitting[..n + 1], k) else 0.0)
        invariant forall k :: i <= k < 8 ==>
          f[k] == (if ValuedSlot(current, k) then SocialSum(avatarId, states, rels, p, hitting[..n], k) else 0.0)
      {
        if current.socionicsPositions[FunctionAt(i)].valued > 0 {
          f := f[i := f[i] + weight * (other.activation[i] - current.baseline[i])];
        }
      }
    }
    assert hitting[..|hitting|] == hitting;
    force := f;
  }

  // ---------------------------------------------------------------------
  // Activation update
  // ---------------------------------------------------------------------

  /** POSITION_DAMPING, with the `|| 1.0` fallback for any other position. */
  function Damping(position: int): (d: real)
    ensures 0.0 < d <= 1.0
  {
    match position
    case 1 => 1.0 case 2 => 1.0 case 3 => 0.5 case 4 => 0.3
    case 5 => 0.8 case 6 => 0.8 case 7 => 0.3 case 8 => 0.6
    case _ => 1.0
  }

  /** max(0, min(1, min(value, capacity))). */
  function Clamp(value: real, capacity: real): (r: real)
    ensures 0.0 <= r <= 1.0
    ensures capacity >= 0.0 ==> r <= capacity
    ensures 0.0 <= value <= 1.0 && value <= capacity ==> r == value
  {
    var m := if value <= capacity then value else capacity;
    var n := if 1.0 <= m then 1.0 else m;
    if 0.0 >= n then 0.0 else n
  }

  /** clampActivation. */
  function ClampActivation(v: Vector, positions: PositionMap): Vector {
    seq(8, i requires 0 <= i < 8 => Clamp(v[i], positions[FunctionAt(i)].capacity))
  }

  /** The update law before clamping, slot by slot:
      b + alpha (a - b) + gamma_ctx F_ctx d + gamma_soc F_soc d + lambda_c C(a - b),
      where d is the damping of the slot's position. */
  function RawActivation(s: AvatarState, contextForce: Vector, socialForce: Vector, p: PhysicsParameters): Vector {
    var coupling := CouplingTerm(s.activation, s.baseline);
    seq(8, i requires 0 <= i < 8 =>
      var damping := Damping(s.socionicsPositions[FunctionAt(i)].position);
      UpdateLaw(s.baseline[i], s.activation[i] - s.baseline[i],
                DampedForce(p.gammaCtx, contextForce[i], damping),
                DampedForce(p.gammaSoc, socialForce[i], damping),
                coupling[i], p))
  }

  /** gamma * F * d: a force scaled by its coupling constant and the slot's damping. */
  function DampedForce(gamma: real, force: real, damping: real): real {
    gamma * force * damping
  }

  /** One slot of the update law, given its deviation, damped forces and coupling. */
  function UpdateLaw(baseline: real, deviation: real, dampedContext: real, dampedSocial: real,
                     coupling: real, p: PhysicsParameters): real {
    baseline + p.alpha * deviation + dampedContext + dampedSocial + p.lambdaC * coupling
  }

  /** updateActivation: the raw law clamped to [0, min(1, capacity)]. */
  function NextActivation(s: AvatarState, contextForce: Vector, socialForce: Vector, p: PhysicsParameters): Vector {
    ClampActivation(RawActivation(s, contextForce, socialForce, p), s.socionicsPositions)
  }

  /** Every component of the result lies in [0, 1], and below the slot's
      capacity whenever that capacity is non-negative. */
  lemma NextActivationBounded(s: AvatarState, contextForce: Vector, socialForce: Vector, p: PhysicsParameters, i: nat)
    requires i < 8
    ensures var r := NextActivation(s, contextForce, socialForce, p);
            0.0 <= r[i] <= 1.0 &&
            (s.socionicsPositions[FunctionAt(i)].capacity >= 0.0 ==> r[i] <= s.socionicsPositions[FunctionAt(i)].capacity)
  {
  }

  /** With both forces zero the law is pure decay and coupling:
      b + alpha (a - b) + lambda_c * 0.3 * (partner's deviation). */
  lemma RawActivationWithoutForces(s: AvatarState, p: PhysicsParameters, i: nat)
    requires i < 8
    ensures var q := Index(Partner(FunctionAt(i)));
            RawActivation(s, Zero(), Zero(), p)[i]
            == s.baseline[i] + p.alpha * (s.activation[i] - s.baseline[i])
               + p.lambdaC * (0.3 * (s.activation[q] - s.baseline[q]))
  {
    CouplingTermIsPartnerDeviation(s.activation, s.baseline, i);
  }

  /** An avatar at rest with no force on it stays at its baseline, provided the
      baseline lies within [0, capacity] and capacity <= 1, as the table ensures. */
  lemma BaselineIsFixpoint(s: AvatarState, p: PhysicsParameters)
    requires s.activation == s.baseline
    requires forall i :: 0 <= i < 8 ==>
      0.0 <= s.baseline[i] <= s.socionicsPositions[FunctionAt(i)].capacity
    requires WithinTable(s.socionicsPositions)
    ensures NextActivation(s, Zero(), Zero(), p) == s.baseline
  {
    var raw := RawActivation(s, Zero(), Zero(), p);
    forall i | 0 <= i < 8
      ensures raw[i] == s.baseline[i]
    {
      RawActivationWithoutForces(s, p, i);
    }
    forall i | 0 <= i < 8
      ensures NextActivation(s, Zero(), Zero(), p)[i] == s.baseline[i]
    {
      var cap := s.socionicsPositions[FunctionAt(i)].capacity;
      assert cap <= 1.0;
      assert NextActivation(s, Zero(), Zero(), p)[i] == Clamp(raw[i], cap);
    }
  }

  /** updateActivation: compute the deviation and coupling term, then each slot
      of the law with its position's damping, then clamp. */
  method UpdateActivation(s: AvatarState, contextForce: Vector, socialForce: Vector, p: PhysicsParameters)
    returns (next: Vector)
    ensures next == NextActivation(s, contextForce, socialForce, p)
  {
    var deviation := Deviation(s.activation, s.baseline);
    var coupling := ComputeCouplingTerm(s.activation, s.baseline);
    var raw: seq<real> := [];
    for i := 0 to 8
      invariant |raw| == i
      invariant forall k :: 0 <= k < i ==> raw[k] == RawActivation(s, contextForce, socialForce, p)[k]
    {
      var damping := Damping(s.socionicsPositions[FunctionAt(i)].position);
      var dampedContext := DampedForce(p.gammaCtx, contextForce[i], damping);
      var dampedSocial := DampedForce(p.gammaSoc, socialForce[i], damping);
      raw := raw + [UpdateLaw(s.baseline[i], deviation[i], dampedContext, dampedSocial, coupling[i], p)];
    }
    next := ClampActivation(raw, s.socionicsPositions);
  }

  // ---------------------------------------------------------------------
  // Relationship dynamics
  // ---------------------------------------------------------------------

  /** H(pos1, pos2): -1 for the supportive pairings 1-4, 1-5 and 2-6, +1 for
      the resistant pairings 1-3 and 2-3 (in either order), 0 otherwise. */
  function Compatibility(p1: int, p2: int): int {
    if (p1 == 1 && p2 == 4) || (p1 == 4 && p2 == 1) then -1
    else if (p1 == 1 && p2 == 5) || (p1 == 5 && p2 == 1) then -1
    else if (p1 == 2 && p2 == 6) || (p1 == 6 && p2 == 2) then -1
    else if (p1 == 1 && p2 == 3) || (p1 == 3 && p2 == 1) then 1
    else if (p1 == 2 && p2 == 3) || (p1 == 3 && p2 == 2) then 1
    else 0
  }

  lemma CompatibilitySymmetric(p1: int, p2: int)
    ensures Compatibility(p1, p2) == Compatibility(p2, p1)
    ensures -1 <= Compatibility(p1, p2) <= 1
  {
  }

  /** computeInteractionIntensity: mean activation of slot f across the pair;
      0 when either avatar is unknown. */
  function InteractionIntensity(id1: string, id2: string, states: AvatarStates, f: nat): real
    requires f < 8
  {
    if id1 in states && id2 in states
    then (states[id1].activation[f] + states[id2].activation[f]) / 2.0
    else 0.0
  }

  /** computeCompatibilityKernel: capacity_1 * capacity_2 * H(pos_1, pos_2);
      0 when either avatar is unknown. */
  function CompatibilityKernel(id1: string, id2: string, states: AvatarStates, f: nat): real
    requires f < 8
  {
    if id1 in states && id2 in states then
      var s1, s2 := states[id1].socionicsPositions[FunctionAt(f)], states[id2].socionicsPositions[FunctionAt(f)];
      s1.capacity * s2.capacity * Compatibility(s1.position, s2.position) as real
    else 0.0
  }

  function ScoreSum(id1: string, id2: string, states: AvatarStates, n: nat): real
    requires n <= 8
  {
    if n == 0 then 0.0
    else ScoreSum(id1, id2, states, n - 1)
         + CompatibilityKernel(id1, id2, states, n - 1) * InteractionIntensity(id1, id2, states, n - 1)
  }

  /** computeStructuralScore: S = sum over slots of K(f) * A(f). */
  function StructuralScore(id1: string, id2: string, states: AvatarStates): real {
    ScoreSum(id1, id2, states, 8)
  }

  lemma {:induction false} ScoreSumSymmetric(id1: string, id2: string, states: AvatarStates, n: nat)
    requires n <= 8
    ensures ScoreSum(id1, id2, states, n) == ScoreSum(id2, id1, states, n)
  {
    if n > 0 {
      ScoreSumSymmetric(id1, id2, states, n - 1);
      if id1 in states && id2 in states {
        var f := FunctionAt(n - 1);
        CompatibilitySymmetric(states[id1].socionicsPositions[f].position, states[id2].socionicsPositions[f].position);
      }
    }
  }

  /** The structural score is symmetric: S(i, j) == S(j, i). */
  lemma StructuralScoreSymmetric(id1: string, id2: string, states: AvatarStates)
    ensures StructuralScore(id1, id2, states) == StructuralScore(id2, id1, states)
  {
    ScoreSumSymmetric(id1, id2, states, 8);
  }

  /** A pair involving an unknown avatar scores 0. */
  lemma {:induction false} ScoreSumUnknown(id1: string, id2: string, states: AvatarStates, n: nat)
    requires n <= 8
    requires id1 !in states || id2 !in states
    ensures ScoreSum(id1, id2, states, n) == 0.0
  {
    if n > 0 {
      ScoreSumUnknown(id1, id2, states, n - 1);
    }
  }

  /** computeStructuralScore as a loop over the eight slots. */
  method ComputeStructuralScore(id1: string, id2: string, states: AvatarStates) returns (score: real)
    ensures score == StructuralScore(id1, id2, states)
  {
    score := 0.0;
    for f := 0 to 8
      invariant score == ScoreSum(id1, id2, states, f)
    {
      var k := CompatibilityKernel(id1, id2, states, f);
      var a := InteractionIntensity(id1, id2, states, f);
      score := score + k * a;
    }
  }

  function Max0(x: real): real {
    if x > 0.0 then x else 0.0
  }

  function Clamp01(x: real): (r: real)
    ensures 0.0 <= r <= 1.0
    ensures 0.0 <= x <= 1.0 ==> r == x
  {
    if x < 0.0 then 0.0 else if x > 1.0 then 1.0 else x
  }

  /** The affinity/tension law of updateRelationship for a structural score S:
      tension += eta_ten max(0, S) - rho_ten max(0, -S),
      affinity += eta_aff max(0, -S) - rho_aff max(0, S), each clamped to [0, 1]. */
  function NextRelationship(rel: RelationshipState, score: real, p: PhysicsParameters): (r: RelationshipState)
    ensures InUnitRange(r)
  {
    var tensionChange := p.etaTen * Max0(score) - p.rhoTen * Max0(-score);
    var affinityChange := p.etaAff * Max0(-score) - p.rhoAff * Max0(score);
    RelationshipState(Clamp01(rel.affinity + affinityChange), Clamp01(rel.tension + tensionChange))
  }

  /** With non-negative rates, a resistant score (S > 0) never raises affinity
      nor lowers tension, a supportive score (S < 0) does the reverse, and S = 0
      leaves an in-range relationship unchanged. */
  lemma NextRelationshipDirection(rel: RelationshipState, score: real, p: PhysicsParameters)
    requires NonNegativeRates(p) && InUnitRange(rel)
    ensures var r := NextRelationship(rel, score, p);
            (score > 0.0 ==> r.affinity <= rel.affinity && r.tension >= rel.tension) &&
            (score < 0.0 ==> r.affinity >= rel.affinity && r.tension <= rel.tension) &&
            (score == 0.0 ==> r == rel)
  {
    if score > 0.0 {
      assert p.etaTen * score >= 0.0 && p.rhoAff * score >= 0.0;
    } else if score < 0.0 {
      assert p.etaAff * -score >= 0.0 && p.rhoTen * -score >= 0.0;
    }
  }
}
