/**
 Properties of the whole feature vector. The vector is sorted and hashed, so only how often
 each token occurs matters; `Expected` gives that count for every token, tag by tag, and
 `VectorCounts` shows the construction produces exactly those counts.
 */
module FeatureLaws {
  import opened Wrappers
  import opened Chars
  import opened Text
  import opened Numerals
  import opened Records
  import opened Features

  /** 1 when `b` holds, else 0. */
  function Once(b: bool): nat {
    if b then 1 else 0
  }

  lemma ChainCount(kind: ChainKind, name: Option<string>, major: Option<string>, minor: Option<string>, t: Token)
    ensures multiset(Chain(kind, name, major, minor))[t] ==
      Once(name.Some? && t == Token(kind.NameTag(), name.value))
      + Once(name.Some? && major.Some? && t == Token(kind.MajorTag(), major.value))
      + Once(name.Some? && major.Some? && minor.Some? && t == Token(kind.MinorTag(), major.value + "." + minor.value))
  {
  }

  lemma DeviceCount(d: Device, t: Token)
    ensures multiset(DeviceTokens(d))[t] ==
      Once(d.name.Some? && t == Token(D, d.name.value))
      + Once(d.name.Some? && d.brand.Some? && t == Token(DB, d.brand.value))
      + Once(d.name.Some? && d.model.Some? && t == Token(DM, d.model.value))
  {
  }

  lemma CpuCount(c: Cpu, t: Token)
    ensures multiset(CpuTokens(c))[t] == Once(c.architecture.Some? && t == Token(C, c.architecture.value))
  {
  }

  lemma EngineCount(e: Engine, t: Token)
    ensures multiset(EngineTokens(e))[t] ==
      Once(e.name.Some? && t == Token(E, e.name.value))
      + Once(e.name.Some? && e.major.Some? && t == Token(EV, e.major.value))
  {
  }

  lemma StatCount(st: TextStats, t: Token)
    ensures multiset(StatTokens(st))[t] ==
      Once(t == Token(L, Decimal(st.length))) + Once(t == Token(D, Decimal(st.digits)))
      + Once(t == Token(S, Decimal(st.symbols))) + Once(t == Token(W, Decimal(st.words)))
  {
  }

  /** The capability flag each marker switches on; Safari only without Chrome. */
  function CapabilityHit(m: Markers, tag: Tag): bool {
    match tag
    case FM => m.mobile
    case FAW => m.appleWebKit
    case FG => m.gecko
    case FC => m.chrome
    case FS => m.safari && !m.chrome
    case FF => m.firefox
    case FE => m.edge
    case FI => m.msie
    case _ => false
  }

  /** No two tests raise the same flag. */
  predicate DistinctFlags(tests: seq<(bool, Tag)>) {
    forall i, j :: 0 <= i < j < |tests| ==> tests[i].1 != tests[j].1
  }

  /** A flag is raised once when some test for it succeeds, and otherwise not at all. */
  lemma {:induction false} RaisedCount(tests: seq<(bool, Tag)>, t: Token)
    requires DistinctFlags(tests)
    ensures multiset(Raised(tests))[t] ==
      Once(t.value == "1" && exists i :: 0 <= i < |tests| && tests[i] == (true, t.tag))
  {
    if tests != [] {
      var rest := tests[1..];
      assert DistinctFlags(rest) by {
        forall i, j | 0 <= i < j < |rest| ensures rest[i].1 != rest[j].1 {
          assert rest[i] == tests[i + 1] && rest[j] == tests[j + 1];
        }
      }
      RaisedCount(rest, t);
      WhenCount(tests[0].0, tests[0].1, t);
      assert (exists i :: 0 <= i < |tests| && tests[i] == (true, t.tag)) <==>
        (tests[0] == (true, t.tag) || exists i :: 0 <= i < |rest| && rest[i] == (true, t.tag)) by {
        if exists i :: 0 <= i < |tests| && tests[i] == (true, t.tag) {
          var i :| 0 <= i < |tests| && tests[i] == (true, t.tag);
          if i > 0 {
            assert rest[i - 1] == tests[i];
          }
        }
        if exists i :: 0 <= i < |rest| && rest[i] == (true, t.tag) {
          var i :| 0 <= i < |rest| && rest[i] == (true, t.tag);
          assert tests[i + 1] == rest[i];
        }
      }
      if tests[0].1 == t.tag {
        forall i | 0 <= i < |rest| ensures rest[i].1 != t.tag {
          assert rest[i] == tests[i + 1];
        }
      }
    }
  }

  lemma WhenCount(cond: bool, flag: Tag, t: Token)
    ensures multiset(When(cond, flag))[t] == Once(cond && t.tag == flag && t.value == "1")
  {
  }

  /** The tests raise exactly the flags `CapabilityHit` names. */
  lemma CapabilityTestsHit(m: Markers, tag: Tag)
    ensures DistinctFlags(CapabilityTests(m))
    ensures (exists i :: 0 <= i < |CapabilityTests(m)| && CapabilityTests(m)[i] == (true, tag)) <==> CapabilityHit(m, tag)
  {
    var tests := CapabilityTests(m);
    if CapabilityHit(m, tag) {
      var i := match tag
        case FM => 0 case FAW => 1 case FG => 2 case FC => 3
        case FS => 4 case FF => 5 case FE => 6 case _ => 7;
      assert tests[i] == (true, tag);
    }
  }

  lemma CapabilityCount(m: Markers, t: Token)
    ensures multiset(CapabilityFlags(m))[t] == Once(t.value == "1" && CapabilityHit(m, t.tag))
  {
    CapabilityTestsHit(m, t.tag);
    RaisedCount(CapabilityTests(m), t);
  }

  /** The platform flag the markers select: the first platform test, in the order
      Windows, Mac, Linux, Android, iOS, that succeeds. */
  function PlatformHit(m: Markers, tag: Tag): bool {
    match tag
    case FOW => m.win
    case FOM => !m.win && m.mac
    case FOL => !m.win && !m.mac && m.linux
    case FOA => !m.win && !m.mac && !m.linux && m.android
    case FOI => !m.win && !m.mac && !m.linux && !m.android && m.ios
    case _ => false
  }

  lemma PlatformCount(m: Markers, t: Token)
    ensures multiset(PlatformFlags(m))[t] == Once(t.value == "1" && PlatformHit(m, t.tag))
  {
    var raised :=
      if m.win then FOW else if m.mac then FOM else if m.linux then FOL
      else if m.android then FOA else FOI;
    if m.win || m.mac || m.linux || m.android || m.ios {
      assert PlatformFlags(m) == [Flag(raised)];
      assert PlatformHit(m, t.tag) <==> t.tag == raised;
    } else {
      assert PlatformFlags(m) == [];
      assert !PlatformHit(m, t.tag);
    }
  }

  lemma NetworkCount(ip: Option<string>, t: Token)
    ensures multiset(NetworkTokens(ip))[t] == Once(ip.Some? && IpToken(ip.value) == Some(t))
  {
  }

  /** How often the token `t` occurs in a vector built from the record `rec`, the text
      statistics `st` and the markers `m`, read off tag by tag. */
  function Expected(rec: UserAgent, st: TextStats, m: Markers, t: Token): nat {
    var p, o, d, e, v := rec.product, rec.os, rec.device, rec.engine, t.value;
    match t.tag
    case B => Once(p.name == Some(v))
    case BV => Once(p.name.Some? && p.major == Some(v))
    case BVM => Once(p.name.Some? && p.major.Some? && p.minor.Some? && v == p.major.value + "." + p.minor.value)
    case O => Once(o.name == Some(v))
    case OV => Once(o.name.Some? && o.major == Some(v))
    case OVM => Once(o.name.Some? && o.major.Some? && o.minor.Some? && v == o.major.value + "." + o.minor.value)
    case D => Once(d.name == Some(v)) + Once(v == Decimal(st.digits))
    case DB => Once(d.name.Some? && d.brand == Some(v))
    case DM => Once(d.name.Some? && d.model == Some(v))
    case C => Once(rec.cpu.architecture == Some(v))
    case E => Once(e.name == Some(v))
    case EV => Once(e.name.Some? && e.major == Some(v))
    case L => Once(v == Decimal(st.length))
    case S => Once(v == Decimal(st.symbols))
    case W => Once(v == Decimal(st.words))
    case FM | FAW | FG | FC | FS | FF | FE | FI => Once(v == "1" && CapabilityHit(m, t.tag))
    case FOW | FOM | FOL | FOA | FOI => Once(v == "1" && PlatformHit(m, t.tag))
    case IP4 | IP6 => Once(rec.ip.Some? && IpToken(rec.ip.value) == Some(t))
  }

  /** A token's count in the vector is the sum of its counts in the blocks. */
  lemma AssembleSum(rec: UserAgent, st: TextStats, m: Markers, t: Token)
    ensures multiset(Assemble(rec, st, m, NetworkTokens(rec.ip)))[t] == BlockSum(rec, st, m, t)
  {
  }

  /** The sum of a token's counts over the nine blocks. */
  function BlockSum(rec: UserAgent, st: TextStats, m: Markers, t: Token): nat {
    multiset(ProductTokens(rec.product))[t] + multiset(OsTokens(rec.os))[t]
    + multiset(DeviceTokens(rec.device))[t] + multiset(CpuTokens(rec.cpu))[t]
    + multiset(EngineTokens(rec.engine))[t] + multiset(StatTokens(st))[t]
    + multiset(CapabilityFlags(m))[t] + multiset(PlatformFlags(m))[t]
    + multiset(NetworkTokens(rec.ip))[t]
  }

  /** The tags each block can emit. */
  predicate ProductTag(tag: Tag) { tag == B || tag == BV || tag == BVM }
  predicate OsTag(tag: Tag) { tag == O || tag == OV || tag == OVM }
  predicate DeviceTag(tag: Tag) { tag == D || tag == DB || tag == DM }
  predicate EngineTag(tag: Tag) { tag == E || tag == EV }
  predicate StatTag(tag: Tag) { tag == L || tag == D || tag == S || tag == W }
  predicate CapabilityTag(tag: Tag) {
    tag == FM || tag == FAW || tag == FG || tag == FC || tag == FS || tag == FF || tag == FE || tag == FI
  }
  predicate PlatformTag(tag: Tag) { tag == FOW || tag == FOM || tag == FOL || tag == FOA || tag == FOI }
  predicate NetworkTag(tag: Tag) { tag == IP4 || tag == IP6 }

  /** The device tags that need the device name, and the text tags only the statistics emit. */
  predicate DetailTag(tag: Tag) { tag == DB || tag == DM }
  predicate TextTag(tag: Tag) { tag == L || tag == S || tag == W }

  /** A block holds no token whose tag it cannot emit. */
  lemma ProductZero(p: Product, t: Token)
    ensures !ProductTag(t.tag) ==> multiset(ProductTokens(p))[t] == 0
  {
    ChainCount(ProductChain, p.name, p.major, p.minor, t);
  }

  lemma OsZero(o: Os, t: Token)
    ensures !OsTag(t.tag) ==> multiset(OsTokens(o))[t] == 0
  {
    ChainCount(OsChain, o.name, o.major, o.minor, t);
  }

  lemma DeviceZero(d: Device, t: Token)
    ensures !DeviceTag(t.tag) ==> multiset(DeviceTokens(d))[t] == 0
  {
    DeviceCount(d, t);
  }

  lemma CpuZero(c: Cpu, t: Token)
    ensures t.tag != C ==> multiset(CpuTokens(c))[t] == 0
  {
    CpuCount(c, t);
  }

  lemma EngineZero(e: Engine, t: Token)
    ensures !EngineTag(t.tag) ==> multiset(EngineTokens(e))[t] == 0
  {
    EngineCount(e, t);
  }

  lemma StatZero(st: TextStats, t: Token)
    ensures !StatTag(t.tag) ==> multiset(StatTokens(st))[t] == 0
  {
    StatCount(st, t);
  }

  lemma CapabilityZero(m: Markers, t: Token)
    ensures !CapabilityTag(t.tag) ==> multiset(CapabilityFlags(m))[t] == 0
  {
    CapabilityCount(m, t);
  }

  lemma PlatformZero(m: Markers, t: Token)
    ensures !PlatformTag(t.tag) ==> multiset(PlatformFlags(m))[t] == 0
  {
    PlatformCount(m, t);
  }

  lemma NetworkZero(ip: Option<string>, t: Token)
    ensures !NetworkTag(t.tag) ==> multiset(NetworkTokens(ip))[t] == 0
  {
    NetworkCount(ip, t);
  }

  lemma ProductGroupTags(tag: Tag)
    requires ProductTag(tag)
    ensures !OsTag(tag) && !DeviceTag(tag) && tag != C && !EngineTag(tag) && !StatTag(tag) && !CapabilityTag(tag) && !PlatformTag(tag) && !NetworkTag(tag)
  {
  }

  lemma ProductBlocks(rec: UserAgent, st: TextStats, m: Markers, t: Token)
    requires ProductTag(t.tag)
    ensures BlockSum(rec, st, m, t) == multiset(ProductTokens(rec.product))[t]
  {
    ProductGroupTags(t.tag);
    OsZero(rec.os, t);
    DeviceZero(rec.device, t);
    CpuZero(rec.cpu, t);
    EngineZero(rec.engine, t);
    StatZero(st, t);
    CapabilityZero(m, t);
    PlatformZero(m, t);
    NetworkZero(rec.ip, t);
  }

  lemma ProductExpected(rec: UserAgent, st: TextStats, m: Markers, t: Token)
    requires ProductTag(t.tag)
    ensures multiset(ProductTokens(rec.product))[t] == Expected(rec, st, m, t)
  {
    ChainCount(ProductChain, rec.product.name, rec.product.major, rec.product.minor, t);
  }

  lemma ProductGroup(rec: UserAgent, st: TextStats, m: Markers, t: Token)
    requires ProductTag(t.tag)
    ensures BlockSum(rec, st, m, t) == Expected(rec, st, m, t)
  {
    ProductBlocks(rec, st, m, t);
    ProductExpected(rec, st, m, t);
  }

  lemma OsGroupTags(tag: Tag)
    requires OsTag(tag)
    ensures !ProductTag(tag) && !DeviceTag(tag) && tag != C && !EngineTag(tag) && !StatTag(tag) && !CapabilityTag(tag) && !PlatformTag(tag) && !NetworkTag(tag)
  {
  }

  lemma OsBlocks(rec: UserAgent, st: TextStats, m: Markers, t: Token)
    requires OsTag(t.tag)
    ensures BlockSum(rec, st, m, t) == multiset(OsTokens(rec.os))[t]
  {
    OsGroupTags(t.tag);
    ProductZero(rec.product, t);
    DeviceZero(rec.device, t);
    CpuZero(rec.cpu, t);
    EngineZero(rec.engine, t);
    StatZero(st, t);
    CapabilityZero(m, t);
    PlatformZero(m, t);
    NetworkZero(rec.ip, t);
  }

  lemma OsExpected(rec: UserAgent, st: TextStats, m: Markers, t: Token)
    requires OsTag(t.tag)
    ensures multiset(OsTokens(rec.os))[t] == Expected(rec, st, m, t)
  {
    ChainCount(OsChain, rec.os.name, rec.os.major, rec.os.minor, t);
  }

  lemma OsGroup(rec: UserAgent, st: TextStats, m: Markers, t: Token)
    requires OsTag(t.tag)
    ensures BlockSum(rec, st, m, t) == Expected(rec, st, m, t)
  {
    OsBlocks(rec, st, m, t);
    OsExpected(rec, st, m, t);
  }

  lemma DigitGroupTags(tag: Tag)
    requires tag == D
    ensures !ProductTag(tag) && !OsTag(tag) && tag != C && !EngineTag(tag) && !CapabilityTag(tag) && !PlatformTag(tag) && !NetworkTag(tag)
  {
  }

  lemma DigitBlocks(rec: UserAgent, st: TextStats, m: Markers, t: Token)
    requires t.tag == D
    ensures BlockSum(rec, st, m, t) == multiset(DeviceTokens(rec.device))[t] + multiset(StatTokens(st))[t]
  {
    DigitGroupTags(t.tag);
    ProductZero(rec.product, t);
    OsZero(rec.os, t);
    CpuZero(rec.cpu, t);
    EngineZero(rec.engine, t);
    CapabilityZero(m, t);
    PlatformZero(m, t);
    NetworkZero(rec.ip, t);
  }

  lemma DigitExpected(rec: UserAgent, st: TextStats, m: Markers, t: Token)
    requires t.tag == D
    ensures multiset(DeviceTokens(rec.device))[t] + multiset(StatTokens(st))[t] == Expected(rec, st, m, t)
  {
    DeviceCount(rec.device, t);
    StatCount(st, t);
  }

  lemma DigitGroup(rec: UserAgent, st: TextStats, m: Markers, t: Token)
    requires t.tag == D
    ensures BlockSum(rec, st, m, t) == Expected(rec, st, m, t)
  {
    DigitBlocks(rec, st, m, t);
    DigitExpected(rec, st, m, t);
  }

  lemma DeviceGroupTags(tag: Tag)
    requires DetailTag(tag)
    ensures !ProductTag(tag) && !OsTag(tag) && tag != C && !EngineTag(tag) && !StatTag(tag) && !CapabilityTag(tag) && !PlatformTag(tag) && !NetworkTag(tag)
  {
  }

  lemma DeviceBlocks(rec: UserAgent, st: TextStats, m: Markers, t: Token)
    requires DetailTag(t.tag)
    ensures BlockSum(rec, st, m, t) == multiset(DeviceTokens(rec.device))[t]
  {
    DeviceGroupTags(t.tag);
    ProductZero(rec.product, t);
    OsZero(rec.os, t);
    CpuZero(rec.cpu, t);
    EngineZero(rec.engine, t);
    StatZero(st, t);
    CapabilityZero(m, t);
    PlatformZero(m, t);
    NetworkZero(rec.ip, t);
  }

  lemma DeviceExpected(rec: UserAgent, st: TextStats, m: Markers, t: Token)
    requires DetailTag(t.tag)
    ensures multiset(DeviceTokens(rec.device))[t] == Expected(rec, st, m, t)
  {
    DeviceCount(rec.device, t);
  }

  lemma DeviceGroup(rec: UserAgent, st: TextStats, m: Markers, t: Token)
    requires DetailTag(t.tag)
    ensures BlockSum(rec, st, m, t) == Expected(rec, st, m, t)
  {
    DeviceBlocks(rec, st, m, t);
    DeviceExpected(rec, st, m, t);
  }

  lemma CpuGroupTags(tag: Tag)
    requires tag == C
    ensures !ProductTag(tag) && !OsTag(tag) && !DeviceTag(tag) && !EngineTag(tag) && !StatTag(tag) && !CapabilityTag(tag) && !PlatformTag(tag) && !NetworkTag(tag)
  {
  }

  lemma CpuBlocks(rec: UserAgent, st: TextStats, m: Markers, t: Token)
    requires t.tag == C
    ensures BlockSum(rec, st, m, t) == multiset(CpuTokens(rec.cpu))[t]
  {
    CpuGroupTags(t.tag);
    ProductZero(rec.product, t);
    OsZero(rec.os, t);
    DeviceZero(rec.device, t);
    EngineZero(rec.engine, t);
    StatZero(st, t);
    CapabilityZero(m, t);
    PlatformZero(m, t);
    NetworkZero(rec.ip, t);
  }

  lemma CpuExpected(rec: UserAgent, st: TextStats, m: Markers, t: Token)
    requires t.tag == C
    ensures multiset(CpuTokens(rec.cpu))[t] == Expected(rec, st, m, t)
  {
    CpuCount(rec.cpu, t);
  }

  lemma CpuGroup(rec: UserAgent, st: TextStats, m: Markers, t: Token)
    requires t.tag == C
    ensures BlockSum(rec, st, m, t) == Expected(rec, st, m, t)
  {
    CpuBlocks(rec, st, m, t);
    CpuExpected(rec, st, m, t);
  }

  lemma EngineGroupTags(tag: Tag)
    requires EngineTag(tag)
    ensures !ProductTag(tag) && !OsTag(tag) && !DeviceTag(tag) && tag != C && !StatTag(tag) && !CapabilityTag(tag) && !PlatformTag(tag) && !NetworkTag(tag)
  {
  }

  lemma EngineBlocks(rec: UserAgent, st: TextStats, m: Markers, t: Token)
    requires EngineTag(t.tag)
    ensures BlockSum(rec, st, m, t) == multiset(EngineTokens(rec.engine))[t]
  {
    EngineGroupTags(t.tag);
    ProductZero(rec.product, t);
    OsZero(rec.os, t);
    DeviceZero(rec.device, t);
    CpuZero(rec.cpu, t);
    StatZero(st, t);
    CapabilityZero(m, t);
    PlatformZero(m, t);
    NetworkZero(rec.ip, t);
  }

  lemma EngineExpected(rec: UserAgent, st: TextStats, m: Markers, t: Token)
    requires EngineTag(t.tag)
    ensures multiset(EngineTokens(rec.engine))[t] == Expected(rec, st, m, t)
  {
    EngineCount(rec.engine, t);
  }

  lemma EngineGroup(rec: UserAgent, st: TextStats, m: Markers, t: Token)
    requires EngineTag(t.tag)
    ensures BlockSum(rec, st, m, t) == Expected(rec, st, m, t)
  {
    EngineBlocks(rec, st, m, t);
    EngineExpected(rec, st, m, t);
  }

  lemma TextGroupTags(tag: Tag)
    requires TextTag(tag)
    ensures !ProductTag(tag) && !OsTag(tag) && !DeviceTag(tag) && tag != C && !EngineTag(tag) && !CapabilityTag(tag) && !PlatformTag(tag) && !NetworkTag(tag)
  {
  }

  lemma TextBlocks(rec: UserAgent, st: TextStats, m: Markers, t: Token)
    requires TextTag(t.tag)
    ensures BlockSum(rec, st, m, t) == multiset(StatTokens(st))[t]
  {
    TextGroupTags(t.tag);
    ProductZero(rec.product, t);
    OsZero(rec.os, t);
    DeviceZero(rec.device, t);
    CpuZero(rec.cpu, t);
    EngineZero(rec.engine, t);
    CapabilityZero(m, t);
    PlatformZero(m, t);
    NetworkZero(rec.ip, t);
  }

  lemma TextExpected(rec: UserAgent, st: TextStats, m: Markers, t: Token)
    requires TextTag(t.tag)
    ensures multiset(StatTokens(st))[t] == Expected(rec, st, m, t)
  {
    StatCount(st, t);
  }

  lemma TextGroup(rec: UserAgent, st: TextStats, m: Markers, t: Token)
    requires TextTag(t.tag)
    ensures BlockSum(rec, st, m, t) == Expected(rec, st, m, t)
  {
    TextBlocks(rec, st, m, t);
    TextExpected(rec, st, m, t);
  }

  lemma CapabilityGroupTags(tag: Tag)
    requires CapabilityTag(tag)
    ensures !ProductTag(tag) && !OsTag(tag) && !DeviceTag(tag) && tag != C && !EngineTag(tag) && !StatTag(tag) && !PlatformTag(tag) && !NetworkTag(tag)
  {
  }

  lemma CapabilityBlocks(rec: UserAgent, st: TextStats, m: Markers, t: Token)
    requires CapabilityTag(t.tag)
    ensures BlockSum(rec, st, m, t) == multiset(CapabilityFlags(m))[t]
  {
    CapabilityGroupTags(t.tag);
    ProductZero(rec.product, t);
    OsZero(rec.os, t);
    DeviceZero(rec.device, t);
    CpuZero(rec.cpu, t);
    EngineZero(rec.engine, t);
    StatZero(st, t);
    PlatformZero(m, t);
    NetworkZero(rec.ip, t);
  }

  lemma CapabilityExpected(rec: UserAgent, st: TextStats, m: Markers, t: Token)
    requires CapabilityTag(t.tag)
    ensures multiset(CapabilityFlags(m))[t] == Expected(rec, st, m, t)
  {
    CapabilityCount(m, t);
  }

  lemma CapabilityGroup(rec: UserAgent, st: TextStats, m: Markers, t: Token)
    requires CapabilityTag(t.tag)
    ensures BlockSum(rec, st, m, t) == Expected(rec, st, m, t)
  {
    CapabilityBlocks(rec, st, m, t);
    CapabilityExpected(rec, st, m, t);
  }

  lemma PlatformGroupTags(tag: Tag)
    requires PlatformTag(tag)
    ensures !ProductTag(tag) && !OsTag(tag) && !DeviceTag(tag) && tag != C && !EngineTag(tag) && !StatTag(tag) && !CapabilityTag(tag) && !NetworkTag(tag)
  {
  }

  lemma PlatformBlocks(rec: UserAgent, st: TextStats, m: Markers, t: Token)
    requires PlatformTag(t.tag)
    ensures BlockSum(rec, st, m, t) == multiset(PlatformFlags(m))[t]
  {
    PlatformGroupTags(t.tag);
    ProductZero(rec.product, t);
    OsZero(rec.os, t);
    DeviceZero(rec.device, t);
    CpuZero(rec.cpu, t);
    EngineZero(rec.engine, t);
    StatZero(st, t);
    CapabilityZero(m, t);
    NetworkZero(rec.ip, t);
  }

  lemma PlatformExpected(rec: UserAgent, st: TextStats, m: Markers, t: Token)
    requires PlatformTag(t.tag)
    ensures multiset(PlatformFlags(m))[t] == Expected(rec, st, m, t)
  {
    PlatformCount(m, t);
  }

  lemma PlatformGroup(rec: UserAgent, st: TextStats, m: Markers, t: Token)
    requires PlatformTag(t.tag)
    ensures BlockSum(rec, st, m, t) == Expected(rec, st, m, t)
  {
    PlatformBlocks(rec, st, m, t);
    PlatformExpected(rec, st, m, t);
  }

  lemma NetworkGroupTags(tag: Tag)
    requires NetworkTag(tag)
    ensures !ProductTag(tag) && !OsTag(tag) && !DeviceTag(tag) && tag != C && !EngineTag(tag) && !StatTag(tag) && !CapabilityTag(tag) && !PlatformTag(tag)
  {
  }

  lemma NetworkBlocks(rec: UserAgent, st: TextStats, m: Markers, t: Token)
    requires NetworkTag(t.tag)
    ensures BlockSum(rec, st, m, t) == multiset(NetworkTokens(rec.ip))[t]
  {
    NetworkGroupTags(t.tag);
    ProductZero(rec.product, t);
    OsZero(rec.os, t);
    DeviceZero(rec.device, t);
    CpuZero(rec.cpu, t);
    EngineZero(rec.engine, t);
    StatZero(st, t);
    CapabilityZero(m, t);
    PlatformZero(m, t);
  }

  lemma NetworkExpected(rec: UserAgent, st: TextStats, m: Markers, t: Token)
    requires NetworkTag(t.tag)
    ensures multiset(NetworkTokens(rec.ip))[t] == Expected(rec, st, m, t)
  {
    NetworkCount(rec.ip, t);
  }

  lemma NetworkGroup(rec: UserAgent, st: TextStats, m: Markers, t: Token)
    requires NetworkTag(t.tag)
    ensures BlockSum(rec, st, m, t) == Expected(rec, st, m, t)
  {
    NetworkBlocks(rec, st, m, t);
    NetworkExpected(rec, st, m, t);
  }

  /** Every tag is owned by one group of blocks, so the block sum is the expected count. */
  lemma BlockSumExpected(rec: UserAgent, st: TextStats, m: Markers, t: Token)
    ensures BlockSum(rec, st, m, t) == Expected(rec, st, m, t)
  {
    match t.tag
    case B | BV | BVM => ProductGroup(rec, st, m, t);
    case O | OV | OVM => OsGroup(rec, st, m, t);
    case D => DigitGroup(rec, st, m, t);
    case DB | DM => DeviceGroup(rec, st, m, t);
    case C => CpuGroup(rec, st, m, t);
    case E | EV => EngineGroup(rec, st, m, t);
    case L | S | W => TextGroup(rec, st, m, t);
    case FM | FAW | FG | FC | FS | FF | FE | FI => CapabilityGroup(rec, st, m, t);
    case FOW | FOM | FOL | FOA | FOI => PlatformGroup(rec, st, m, t);
    case IP4 | IP6 => NetworkGroup(rec, st, m, t);
  }

  /** The feature vector of a record holds every token exactly as often as `Expected` says
      for the statistics and markers of its agent text. */
  lemma VectorCounts(rec: UserAgent, ua: string, t: Token)
    ensures multiset(FeatureVector(rec, ua))[t] == Expected(rec, Measure(ua), Scan(ua), t)
  {
    AssembleSum(rec, Measure(ua), Scan(ua), t);
    BlockSumExpected(rec, Measure(ua), Scan(ua), t);
  }
}
