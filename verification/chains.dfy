/**
 * The chain constants of src/constants/chains.ts: the numeric enum `SupportedChainId`, the
 * names table, the membership test and the derived id lists.
 *
 * A TypeScript numeric enum is an object with two properties per member: the member's name
 * maps to its number, and the number (as a property key) maps back to the name.
 */
module Chains {
  import opened Options

  datatype SupportedChainId =
    | Mainnet | Goerli
    | ArbitrumOne | ArbitrumGoerli
    | Optimism | OptimismGoerli
    | Polygon | PolygonMumbai
    | Celo | CeloAlfajores
    | Boba | BobaGoerli

  /** The member's number. */
  function Value(c: SupportedChainId): int {
    match c
    case Mainnet => 1
    case Goerli => 5
    case ArbitrumOne => 42161
    case ArbitrumGoerli => 421613
    case Optimism => 10
    case OptimismGoerli => 420
    case Polygon => 137
    case PolygonMumbai => 80001
    case Celo => 42220
    case CeloAlfajores => 44787
    case Boba => 288
    case BobaGoerli => 2888
  }

  /** The member's name, which the reverse mapping yields. */
  function Key(c: SupportedChainId): string {
    match c
    case Mainnet => "MAINNET"
    case Goerli => "GOERLI"
    case ArbitrumOne => "ARBITRUM_ONE"
    case ArbitrumGoerli => "ARBITRUM_GOERLI"
    case Optimism => "OPTIMISM"
    case OptimismGoerli => "OPTIMISM_GOERLI"
    case Polygon => "POLYGON"
    case PolygonMumbai => "POLYGON_MUMBAI"
    case Celo => "CELO"
    case CeloAlfajores => "CELO_ALFAJORES"
    case Boba => "BOBA"
    case BobaGoerli => "BOBA_GOERLI"
  }

  /** The members in declaration order, the order the name properties were created in. */
  const Declared: seq<SupportedChainId> :=
    [Mainnet, Goerli, ArbitrumOne, ArbitrumGoerli, Optimism, OptimismGoerli,
     Polygon, PolygonMumbai, Celo, CeloAlfajores, Boba, BobaGoerli]

  /** The members by ascending number, the order in which integer-like property keys are enumerated. */
  const ByValue: seq<SupportedChainId> :=
    [Mainnet, Goerli, Optimism, Polygon, Boba, OptimismGoerli,
     BobaGoerli, ArbitrumOne, Celo, CeloAlfajores, PolygonMumbai, ArbitrumGoerli]

  predicate NoDuplicates<X(==)>(xs: seq<X>) {
    forall i, j :: 0 <= i < j < |xs| ==> xs[i] != xs[j]
  }

  /** A member's position in declaration order. */
  function Ordinal(c: SupportedChainId): nat {
    match c
    case Mainnet => 0
    case Goerli => 1
    case ArbitrumOne => 2
    case ArbitrumGoerli => 3
    case Optimism => 4
    case OptimismGoerli => 5
    case Polygon => 6
    case PolygonMumbai => 7
    case Celo => 8
    case CeloAlfajores => 9
    case Boba => 10
    case BobaGoerli => 11
  }

  /** Declaration order lists every member exactly once. */
  lemma DeclaredListsEveryMember()
    ensures |Declared| == 12 && NoDuplicates(Declared)
    ensures forall c :: Ordinal(c) < |Declared| && Declared[Ordinal(c)] == c
  {
    forall c ensures Ordinal(c) < |Declared| && Declared[Ordinal(c)] == c {
      match c
      case Mainnet =>
      case Goerli =>
      case ArbitrumOne =>
      case ArbitrumGoerli =>
      case Optimism =>
      case OptimismGoerli =>
      case Polygon =>
      case PolygonMumbai =>
      case Celo =>
      case CeloAlfajores =>
      case Boba =>
      case BobaGoerli =>
    }
  }

  /** The enumeration order is the declared members sorted by strictly ascending number. */
  lemma ByValueSortsDeclared()
    ensures |ByValue| == |Declared| && NoDuplicates(ByValue)
    ensures forall c :: c in ByValue
    ensures forall i, j :: 0 <= i < j < |ByValue| ==> Value(ByValue[i]) < Value(ByValue[j])
  {
    forall c ensures c in ByValue {
      match c
      case Mainnet => assert ByValue[0] == c;
      case Goerli => assert ByValue[1] == c;
      case Optimism => assert ByValue[2] == c;
      case Polygon => assert ByValue[3] == c;
      case Boba => assert ByValue[4] == c;
      case OptimismGoerli => assert ByValue[5] == c;
      case BobaGoerli => assert ByValue[6] == c;
      case ArbitrumOne => assert ByValue[7] == c;
      case Celo => assert ByValue[8] == c;
      case CeloAlfajores => assert ByValue[9] == c;
      case PolygonMumbai => assert ByValue[10] == c;
      case ArbitrumGoerli => assert ByValue[11] == c;
    }
  }

  /** No two members share a number, so the reverse mapping is well defined. */
  lemma ValueInjective(c: SupportedChainId, d: SupportedChainId)
    requires Value(c) == Value(d)
    ensures c == d
  {
  }

  /** `SupportedChainId[n]` for a number `n`: the reverse mapping. */
  function FromValue(n: int): (c: Option<SupportedChainId>)
    ensures c.Some? ==> Value(c.value) == n
    ensures c.None? ==> forall d :: Value(d) != n
  {
    if n == 1 then Some(Mainnet)
    else if n == 5 then Some(Goerli)
    else if n == 42161 then Some(ArbitrumOne)
    else if n == 421613 then Some(ArbitrumGoerli)
    else if n == 10 then Some(Optimism)
    else if n == 420 then Some(OptimismGoerli)
    else if n == 137 then Some(Polygon)
    else if n == 80001 then Some(PolygonMumbai)
    else if n == 42220 then Some(Celo)
    else if n == 44787 then Some(CeloAlfajores)
    else if n == 288 then Some(Boba)
    else if n == 2888 then Some(BobaGoerli)
    else None
  }

  // ---------------------------------------------------------------------------------------
  // ALL_SUPPORTED_CHAIN_IDS: Object.values of the enum, filtered to the numbers
  // ---------------------------------------------------------------------------------------

  /** A property value of the enum object: a number (under a name) or a name (under a number). */
  datatype JsValue = Number(n: int) | Text(s: string)

  /** The numbers of `cs`, in order. */
  function Ids(cs: seq<SupportedChainId>): seq<int> {
    seq(|cs|, i requires 0 <= i < |cs| => Value(cs[i]))
  }

  /** The reverse-mapped values: each member's name, in the order of `cs`. */
  function NameValues(cs: seq<SupportedChainId>): (vs: seq<JsValue>)
    ensures |vs| == |cs|
    ensures forall i :: 0 <= i < |cs| ==> vs[i] == Text(Key(cs[i]))
  {
    if cs == [] then [] else [Text(Key(cs[0]))] + NameValues(cs[1..])
  }

  /** The forward-mapped values: each member's number, in the order of `cs`. */
  function NumberValues(cs: seq<SupportedChainId>): (vs: seq<JsValue>)
    ensures |vs| == |cs|
    ensures forall i :: 0 <= i < |cs| ==> vs[i] == Number(Value(cs[i]))
  {
    if cs == [] then [] else [Number(Value(cs[0]))] + NumberValues(cs[1..])
  }

  /**
   * The values of an enum object whose integer-like keys enumerate as `byValue` and whose
   * name keys were created as `declared`: first the values under the integer-like keys, in
   * ascending key order (the names), then the values under the name keys, in creation order
   * (the numbers).
   */
  function EnumValues(byValue: seq<SupportedChainId>, declared: seq<SupportedChainId>): (vs: seq<JsValue>)
    ensures |vs| == |byValue| + |declared|
    ensures forall i :: 0 <= i < |byValue| ==> vs[i] == Text(Key(byValue[i]))
    ensures forall i :: |byValue| <= i < |vs| ==> vs[i] == Number(Value(declared[i - |byValue|]))
  {
    NameValues(byValue) + NumberValues(declared)
  }

  /** `Object.values(SupportedChainId)` */
  function ObjectValues(): seq<JsValue> {
    EnumValues(ByValue, Declared)
  }

  /** `.filter((id) => typeof id === 'number')` */
  function Numbers(vs: seq<JsValue>): (ns: seq<int>)
    ensures |ns| <= |vs|
    ensures forall n :: n in ns <==> Number(n) in vs
  {
    if vs == [] then []
    else if vs[0].Number? then [vs[0].n] + Numbers(vs[1..])
    else Numbers(vs[1..])
  }

  const AllSupportedChainIds: seq<int> := Numbers(ObjectValues())

  lemma {:induction false} NumbersDistributes(a: seq<JsValue>, b: seq<JsValue>)
    ensures Numbers(a + b) == Numbers(a) + Numbers(b)
  {
    if a == [] {
      assert a + b == b;
    } else {
      assert (a + b)[0] == a[0];
      assert (a + b)[1..] == a[1..] + b;
      NumbersDistributes(a[1..], b);
    }
  }

  lemma {:induction false} NoNumberAmongNames(cs: seq<SupportedChainId>)
    ensures Numbers(NameValues(cs)) == []
  {
    if cs != [] {
      NoNumberAmongNames(cs[1..]);
    }
  }

  lemma {:induction false} NumbersOfNumberValues(cs: seq<SupportedChainId>)
    ensures Numbers(NumberValues(cs)) == Ids(cs)
  {
    if cs != [] {
      NumbersOfNumberValues(cs[1..]);
      assert Ids(cs) == [Value(cs[0])] + Ids(cs[1..]);
    }
  }

  /** The filter keeps exactly the numbers, in declaration order, and none of the names. */
  lemma AllSupportedChainIdsAreTheNumbers()
    ensures AllSupportedChainIds == Ids(Declared)
  {
    NumbersDistributes(NameValues(ByValue), NumberValues(Declared));
    NoNumberAmongNames(ByValue);
    NumbersOfNumberValues(Declared);
  }

  /** The declared numbers, in declaration order. */
  lemma {:induction false} DeclaredNumbers()
    ensures Ids(Declared) == [1, 5, 42161, 421613, 10, 420, 137, 80001, 42220, 44787, 288, 2888]
  {
    var ids := Ids(Declared);
    assert |ids| == 12;
  }

  /**
   * The facts about the twelve ids, stated of a list equal to them.  Stating them directly
   * of `AllSupportedChainIds` would let the solver unfold that constant's definition, which
   * is far more costly than reasoning about the literal.
   */
  lemma TwelveIds(ids: seq<int>)
    requires ids == [1, 5, 42161, 421613, 10, 420, 137, 80001, 42220, 44787, 288, 2888]
    ensures forall n :: n in ids <==> FromValue(n).Some?
    ensures NoDuplicates(ids)
  {
  }

  /** So the list holds the twelve ids, once each, and a number is on it exactly when it is a member's. */
  lemma AllSupportedChainIdsListed()
    ensures AllSupportedChainIds == [1, 5, 42161, 421613, 10, 420, 137, 80001, 42220, 44787, 288, 2888]
    ensures forall n :: n in AllSupportedChainIds <==> FromValue(n).Some?
    ensures NoDuplicates(AllSupportedChainIds)
  {
    AllSupportedChainIdsAreTheNumbers();
    DeclaredNumbers();
    var ids := AllSupportedChainIds;
    TwelveIds(ids);
  }

  // ---------------------------------------------------------------------------------------
  // isSupportedChain
  // ---------------------------------------------------------------------------------------

  /** The argument of `isSupportedChain`: `number | null | undefined`; only integers are modelled. */
  datatype ChainArg = Null | Undefined | Num(n: int)

  /** JavaScript truthiness of a looked-up property; a missing property is `undefined`. */
  predicate Truthy(v: Option<JsValue>) {
    match v
    case None => false
    case Some(Number(n)) => n != 0
    case Some(Text(s)) => s != ""
  }

  /** `SupportedChainId[chainId]` for a number: the member's name, or `undefined`. */
  function Lookup(n: int): (v: Option<JsValue>)
    ensures v.Some? <==> FromValue(n).Some?
    ensures v.Some? ==> v == Some(Text(Key(FromValue(n).value))) && Key(FromValue(n).value) != ""
  {
    var c := FromValue(n);
    if c.Some? then Some(Text(Key(c.value))) else None
  }

  /** `!!chainId && !!SupportedChainId[chainId]` */
  predicate IsSupportedChain(chainId: ChainArg): (b: bool)
    ensures b <==> chainId.Num? && FromValue(chainId.n).Some?
  {
    match chainId
    case Null => false
    case Undefined => false
    case Num(n) => n != 0 && Truthy(Lookup(n))
  }

  /** The guard accepts exactly the numbers of the members, which are the listed ids. */
  lemma IsSupportedChainExactly(chainId: ChainArg)
    ensures IsSupportedChain(chainId) <==> chainId.Num? && FromValue(chainId.n).Some?
    ensures IsSupportedChain(chainId) <==> chainId.Num? && exists c :: Value(c) == chainId.n
  {
    if chainId.Num? && FromValue(chainId.n).Some? {
      assert Value(FromValue(chainId.n).value) == chainId.n;
    }
  }

  lemma IsSupportedChainRejectsFalsy()
    ensures !IsSupportedChain(Null) && !IsSupportedChain(Undefined) && !IsSupportedChain(Num(0))
  {
  }

  // ---------------------------------------------------------------------------------------
  // CHAIN_IDS_TO_NAMES and the derived lists
  // ---------------------------------------------------------------------------------------

  const ChainIdsToNames: map<int, string> := map[
    1 := "mainnet",
    5 := "goerli",
    137 := "polygon",
    80001 := "polygon_mumbai",
    42220 := "celo",
    44787 := "celo_alfajores",
    42161 := "arbitrum",
    421613 := "arbitrum_goerli",
    10 := "optimism",
    420 := "optimism_goerli",
    288 := "boba",
    2888 := "boba_goerli"
  ]

  /** Every member's number, and nothing else, has a name, and no two ids share one. */
  lemma ChainNamesTotalAndDistinct()
    ensures forall n :: n in ChainIdsToNames <==> FromValue(n).Some?
    ensures forall a, b :: a in ChainIdsToNames && b in ChainIdsToNames && a != b ==> ChainIdsToNames[a] != ChainIdsToNames[b]
  {
  }

  const SupportedGasEstimateChainIds: seq<SupportedChainId> :=
    [Mainnet, Polygon, Celo, Optimism, ArbitrumOne, Boba, BobaGoerli]

  const UnsupportedV2PoolChainIds: seq<SupportedChainId> :=
    [Polygon, Optimism, ArbitrumOne, ArbitrumGoerli, Boba, BobaGoerli]

  const TestnetChainIds: seq<SupportedChainId> :=
    [Goerli, PolygonMumbai, ArbitrumGoerli, OptimismGoerli, BobaGoerli]

  const L1ChainIds: seq<SupportedChainId> :=
    [Mainnet, Goerli, Polygon, PolygonMumbai, Celo, CeloAlfajores]

  const L2ChainIds: seq<SupportedChainId> :=
    [ArbitrumOne, ArbitrumGoerli, Optimism, OptimismGoerli, Boba, BobaGoerli]

  /** Every chain is on exactly one of the L1 and L2 lists, and on it once. */
  lemma L1AndL2Partition()
    ensures forall c :: c in L1ChainIds <==> c !in L2ChainIds
    ensures NoDuplicates(L1ChainIds) && NoDuplicates(L2ChainIds)
    ensures |L1ChainIds| + |L2ChainIds| == 12
  {
    forall c ensures c in L1ChainIds <==> c !in L2ChainIds {
      match c
      case Mainnet => assert L1ChainIds[0] == c;
      case Goerli => assert L1ChainIds[1] == c;
      case Polygon => assert L1ChainIds[2] == c;
      case PolygonMumbai => assert L1ChainIds[3] == c;
      case Celo => assert L1ChainIds[4] == c;
      case CeloAlfajores => assert L1ChainIds[5] == c;
      case ArbitrumOne => assert L2ChainIds[0] == c;
      case ArbitrumGoerli => assert L2ChainIds[1] == c;
      case Optimism => assert L2ChainIds[2] == c;
      case OptimismGoerli => assert L2ChainIds[3] == c;
      case Boba => assert L2ChainIds[4] == c;
      case BobaGoerli => assert L2ChainIds[5] == c;
    }
  }

  /** Every id on `ids` passes the guard, and none appears twice. */
  predicate WellFormedIdList(ids: seq<SupportedChainId>) {
    NoDuplicates(ids) && forall c :: c in ids ==> IsSupportedChain(Num(Value(c)))
  }

  /** Every member's number passes the guard. */
  lemma MembersSupported()
    ensures forall c :: IsSupportedChain(Num(Value(c)))
  {
    forall c ensures IsSupportedChain(Num(Value(c))) {
      IsSupportedChainExactly(Num(Value(c)));
    }
  }

  /** The testnet, gas-estimate and V2-pool lists name supported ids only, each at most once. */
  lemma DerivedListsWellFormed()
    ensures WellFormedIdList(TestnetChainIds)
    ensures WellFormedIdList(SupportedGasEstimateChainIds)
    ensures WellFormedIdList(UnsupportedV2PoolChainIds)
  {
    MembersSupported();
  }
}
