/**
 The feature vector behind the fingerprint: one `tag:value` token per signal,
 built from the parsed fields, statistics and substrings of the raw agent text,
 and the network part of the address.
 */
module Features {
  import opened Wrappers
  import opened Chars
  import opened Text
  import opened Numerals
  import opened Records

  /** The kinds of feature token. `D` is shared by the device name and the digit count,
      which both render as `d:`. */
  datatype Tag =
    | B | BV | BVM | O | OV | OVM | D | DB | DM | C | E | EV
    | L | S | W
    | FM | FAW | FG | FC | FS | FF | FE | FI
    | FOW | FOM | FOL | FOA | FOI
    | IP4 | IP6

  /** The text written before the colon of a token. */
  function TagName(tag: Tag): string {
    match tag
    case B => "b" case BV => "bv" case BVM => "bvm"
    case O => "o" case OV => "ov" case OVM => "ovm"
    case D => "d" case DB => "db" case DM => "dm"
    case C => "c" case E => "e" case EV => "ev"
    case L => "l" case S => "s" case W => "w"
    case FM => "fm" case FAW => "faw" case FG => "fg" case FC => "fc"
    case FS => "fs" case FF => "ff" case FE => "fe" case FI => "fi"
    case FOW => "fow" case FOM => "fom" case FOL => "fol" case FOA => "foa" case FOI => "foi"
    case IP4 => "ip4" case IP6 => "ip6"
  }

  /** The tag a name stands for, if any: the inverse of `TagName`. */
  function TagNamed(name: string): Option<Tag> {
    match name
    case "b" => Some(B) case "bv" => Some(BV) case "bvm" => Some(BVM)
    case "o" => Some(O) case "ov" => Some(OV) case "ovm" => Some(OVM)
    case "d" => Some(D) case "db" => Some(DB) case "dm" => Some(DM)
    case "c" => Some(C) case "e" => Some(E) case "ev" => Some(EV)
    case "l" => Some(L) case "s" => Some(S) case "w" => Some(W)
    case "fm" => Some(FM) case "faw" => Some(FAW) case "fg" => Some(FG) case "fc" => Some(FC)
    case "fs" => Some(FS) case "ff" => Some(FF) case "fe" => Some(FE) case "fi" => Some(FI)
    case "fow" => Some(FOW) case "fom" => Some(FOM) case "fol" => Some(FOL) case "foa" => Some(FOA)
    case "foi" => Some(FOI)
    case "ip4" => Some(IP4) case "ip6" => Some(IP6)
    case _ => None
  }

  /** Every tag name reads back as its tag and contains no colon, so the colon after it
      marks where the name ends. */
  lemma TagNameRoundTrip(tag: Tag)
    ensures TagNamed(TagName(tag)) == Some(tag)
    ensures ':' !in TagName(tag)
  {
  }

  /** A feature token, rendered as `tag:value`. */
  datatype Token = Token(tag: Tag, value: string)

  /** A capability flag: the literal token `tag:1`. */
  function Flag(tag: Tag): Token {
    Token(tag, "1")
  }

  /** The two version chains: product (`b:`, `bv:`, `bvm:`) and OS (`o:`, `ov:`, `ovm:`). */
  datatype ChainKind = ProductChain | OsChain {
    function NameTag(): Tag { if ProductChain? then B else O }
    function MajorTag(): Tag { if ProductChain? then BV else OV }
    function MinorTag(): Tag { if ProductChain? then BVM else OVM }
  }

  /** The name / major / major.minor chain shared by product and OS: a deeper token
      appears only when every shallower one does. */
  function Chain(kind: ChainKind, name: Option<string>, major: Option<string>, minor: Option<string>): (ts: seq<Token>)
    ensures forall t :: t in ts <==>
      || (name.Some? && t == Token(kind.NameTag(), name.value))
      || (name.Some? && major.Some? && t == Token(kind.MajorTag(), major.value))
      || (name.Some? && major.Some? && minor.Some? && t == Token(kind.MinorTag(), major.value + "." + minor.value))
  {
    match name
    case None => []
    case Some(n) =>
      [Token(kind.NameTag(), n)] +
      match major
      case None => []
      case Some(m) =>
        [Token(kind.MajorTag(), m)] +
        match minor
        case None => []
        case Some(k) => [Token(kind.MinorTag(), m + "." + k)]
  }

  function ProductTokens(p: Product): seq<Token> {
    Chain(ProductChain, p.name, p.major, p.minor)
  }

  function OsTokens(o: Os): seq<Token> {
    Chain(OsChain, o.name, o.major, o.minor)
  }

  /** Device tokens: brand and model are emitted only inside the name branch. */
  function DeviceTokens(d: Device): (ts: seq<Token>)
    ensures forall t :: t in ts <==>
      || (d.name.Some? && t == Token(D, d.name.value))
      || (d.name.Some? && d.brand.Some? && t == Token(DB, d.brand.value))
      || (d.name.Some? && d.model.Some? && t == Token(DM, d.model.value))
  {
    match d.name
    case None => []
    case Some(n) =>
      [Token(D, n)]
      + (match d.brand case None => [] case Some(b) => [Token(DB, b)])
      + (match d.model case None => [] case Some(m) => [Token(DM, m)])
  }

  function CpuTokens(c: Cpu): (ts: seq<Token>)
    ensures forall t :: t in ts <==> c.architecture.Some? && t == Token(C, c.architecture.value)
  {
    match c.architecture
    case None => []
    case Some(a) => [Token(C, a)]
  }

  /** Engine tokens: the major version only together with the name. */
  function EngineTokens(e: Engine): (ts: seq<Token>)
    ensures forall t :: t in ts <==>
      || (e.name.Some? && t == Token(E, e.name.value))
      || (e.name.Some? && e.major.Some? && t == Token(EV, e.major.value))
  {
    match e.name
    case None => []
    case Some(n) =>
      [Token(E, n)] + (match e.major case None => [] case Some(m) => [Token(EV, m)])
  }

  /** The four statistics of the raw text: UTF-8 byte length, ASCII digits, symbols and words. */
  datatype TextStats = TextStats(length: nat, digits: nat, symbols: nat, words: nat)

  /** Digits are never symbols, so the two counts together never exceed the character count,
      which in turn never exceeds the byte length. */
  function Measure(ua: string): (st: TextStats)
    ensures st.digits + st.symbols <= |ua| <= st.length
    ensures st.words <= |ua|
  {
    DigitsAndSymbols(ua);
    WordsBound(ua);
    TextStats(Utf8Len(ua), DigitCount(ua), SymbolCount(ua), |Words(ua)|)
  }

  /** Every word holds at least one character of its own. */
  lemma WordsBound(ua: string)
    ensures |Words(ua)| <= |ua|
  {
    var ws := Words(ua);
    WordsCoverText(ua);
    ConcatLength(ws);
    WithoutLength(ua, IsWhitespace);
  }

  lemma {:induction false} ConcatLength(parts: seq<string>)
    requires forall i :: 0 <= i < |parts| ==> |parts[i]| > 0
    ensures |Concat(parts)| >= |parts|
  {
    if |parts| > 0 {
      ConcatLength(parts[1..]);
    }
  }

  lemma {:induction false} WithoutLength(s: string, p: char -> bool)
    ensures |Without(s, p)| <= |s|
  {
    if |s| > 0 {
      WithoutLength(s[1..], p);
    }
  }

  function StatTokens(st: TextStats): seq<Token>
  {
    [ Token(L, Decimal(st.length)),
      Token(D, Decimal(st.digits)),
      Token(S, Decimal(st.symbols)),
      Token(W, Decimal(st.words)) ]
  }

  function When(cond: bool, tag: Tag): seq<Token>
  {
    if cond then [Flag(tag)] else []
  }

  /** Which of the marker substrings occur in the raw text. */
  datatype Markers = Markers(
    mobile: bool, appleWebKit: bool, gecko: bool, chrome: bool,
    safari: bool, firefox: bool, edge: bool, msie: bool,
    win: bool, mac: bool, linux: bool, android: bool, ios: bool)

  /** The case-sensitive substring tests on the raw text. */
  function Scan(ua: string): Markers
  {
    Markers(
      Contains(ua, "Mobile"),
      Contains(ua, "AppleWebKit"),
      Contains(ua, "Gecko"),
      Contains(ua, "Chrome"),
      Contains(ua, "Safari"),
      Contains(ua, "Firefox"),
      Contains(ua, "Edge") || Contains(ua, "Edg/"),
      Contains(ua, "MSIE") || Contains(ua, "Trident"),
      Contains(ua, "Win"),
      Contains(ua, "Mac"),
      Contains(ua, "Linux"),
      Contains(ua, "Android"),
      Contains(ua, "iOS") || Contains(ua, "iPhone") || Contains(ua, "iPad"))
  }

  /** The capability tests in the order they run, each with the flag it raises; Safari
      counts only without Chrome. */
  function CapabilityTests(m: Markers): seq<(bool, Tag)> {
    [ (m.mobile, FM), (m.appleWebKit, FAW), (m.gecko, FG), (m.chrome, FC),
      (m.safari && !m.chrome, FS), (m.firefox, FF), (m.edge, FE), (m.msie, FI) ]
  }

  /** The flags of the tests that succeed, in test order. */
  function Raised(tests: seq<(bool, Tag)>): seq<Token> {
    if tests == [] then [] else When(tests[0].0, tests[0].1) + Raised(tests[1..])
  }

  function CapabilityFlags(m: Markers): seq<Token> {
    Raised(CapabilityTests(m))
  }

  /** The platform chain: only the first platform test that succeeds raises its flag,
      so at most one platform flag appears. */
  function PlatformFlags(m: Markers): (ts: seq<Token>)
    ensures |ts| <= 1
  {
    if m.win then [Flag(FOW)]
    else if m.mac then [Flag(FOM)]
    else if m.linux then [Flag(FOL)]
    else if m.android then [Flag(FOA)]
    else if m.ios then [Flag(FOI)]
    else []
  }

  /** `v` is the leading part of `ip` that holds exactly `n` separators and stops at the
      next separator or at the end of `ip`. */
  predicate NetworkPrefix(ip: string, sep: char, n: nat, v: string) {
    IsPrefix(v, ip) && Occurrences(v, sep) == n && (|v| == |ip| || ip[|v|] == sep)
  }

  /** At most one leading part of a text satisfies `NetworkPrefix`. */
  lemma NetworkPrefixUnique(ip: string, sep: char, n: nat, v: string, w: string)
    requires NetworkPrefix(ip, sep, n, v) && NetworkPrefix(ip, sep, n, w)
    ensures v == w
  {
    if |v| < |w| {
      PrefixCountsMore(ip, sep, v, w);
    } else if |w| < |v| {
      PrefixCountsMore(ip, sep, w, v);
    } else {
      assert v == ip[..|v|] == w;
    }
  }

  lemma PrefixCountsMore(ip: string, sep: char, v: string, w: string)
    requires IsPrefix(v, ip) && IsPrefix(w, ip) && |v| < |w| && ip[|v|] == sep
    ensures Occurrences(w, sep) > Occurrences(v, sep)
  {
    assert w == v + [sep] + w[|v| + 1..];
    OccurrencesAppend(v + [sep], w[|v| + 1..], sep);
    OccurrencesAppend(v, [sep], sep);
  }

  /** A join of separator-free pieces holds one separator fewer than it has pieces. */
  lemma {:induction false} OccurrencesOfJoin(parts: seq<string>, c: char)
    requires |parts| >= 1
    requires forall i :: 0 <= i < |parts| ==> c !in parts[i]
    ensures Occurrences(Join(parts, [c]), c) == |parts| - 1
  {
    if |parts| > 1 {
      OccurrencesOfJoin(parts[1..], c);
      OccurrencesAppend(parts[0] + [c], Join(parts[1..], [c]), c);
      OccurrencesAppend(parts[0], [c], c);
    }
  }

  /** The first `k` pieces of a split, joined again, form the `NetworkPrefix` with `k - 1` separators. */
  lemma SplitPrefix(ip: string, c: char, k: nat)
    requires 1 <= k <= |Split(ip, c)|
    ensures NetworkPrefix(ip, c, k - 1, Join(Split(ip, c)[..k], [c]))
  {
    SplitPrefixCount(ip, c, k);
    SplitPrefixBoundary(ip, c, k);
  }

  lemma SplitPrefixCount(ip: string, c: char, k: nat)
    requires 1 <= k <= |Split(ip, c)|
    ensures Occurrences(Join(Split(ip, c)[..k], [c]), c) == k - 1
  {
    var parts := Split(ip, c);
    SplitShape(ip, c);
    forall i | 0 <= i < k ensures c !in parts[..k][i] {
      assert parts[..k][i] == parts[i];
    }
    OccurrencesOfJoin(parts[..k], c);
  }

  lemma SplitPrefixBoundary(ip: string, c: char, k: nat)
    requires 1 <= k <= |Split(ip, c)|
    ensures IsPrefix(Join(Split(ip, c)[..k], [c]), ip)
    ensures var v := Join(Split(ip, c)[..k], [c]); |v| == |ip| || ip[|v|] == c
  {
    var parts := Split(ip, c);
    var v := Join(parts[..k], [c]);
    JoinOfSplit(ip, c);
    if k < |parts| {
      var rest := Join(parts[k..], [c]);
      JoinSplitAt(parts, [c], k);
      assert ip == v + ([c] + rest);
      assert ip[..|v|] == v;
      assert ip[|v|] == c;
    } else {
      assert parts[..k] == parts;
      assert ip[..|v|] == v;
    }
  }

  /** The network token of an address: `ip4:` and the first two dot-pieces when the address
      has a dot, otherwise `ip6:` and the first four colon-pieces when it has at least three
      colons, otherwise nothing. Pieces may be empty. */
  function IpToken(ip: string): (r: Option<Token>)
    ensures '.' in ip ==> r.Some? && r.value.tag == IP4 && NetworkPrefix(ip, '.', 1, r.value.value)
    ensures '.' !in ip ==> (r.Some? <==> Occurrences(ip, ':') >= 3)
    ensures '.' !in ip && r.Some? ==> r.value.tag == IP6 && NetworkPrefix(ip, ':', 3, r.value.value)
  {
    if '.' in ip then
      var parts := Split(ip, '.');
      SplitShape(ip, '.');
      if |parts| >= 2 then
        SplitPrefix(ip, '.', 2);
        assert Join(parts[..2], ".") == parts[0] + "." + parts[1];
        Some(Token(IP4, parts[0] + "." + parts[1]))
      else
        None
    else if ':' in ip then
      var parts := Split(ip, ':');
      SplitShape(ip, ':');
      if |parts| >= 4 then
        SplitPrefix(ip, ':', 4);
        Some(Token(IP6, Join(parts[..4], ":")))
      else
        None
    else
      None
  }

  function NetworkTokens(ip: Option<string>): (ts: seq<Token>)
    ensures |ts| <= 1
    ensures forall t :: t in ts <==> ip.Some? && IpToken(ip.value) == Some(t)
  {
    match ip
    case None => []
    case Some(a) =>
      match IpToken(a)
      case None => []
      case Some(t) => [t]
  }

  /** The feature vector from the parsed fields, the raw-text summary and the network tokens,
      in construction order. */
  function Assemble(rec: UserAgent, st: TextStats, m: Markers, net: seq<Token>): seq<Token> {
    ProductTokens(rec.product)
    + OsTokens(rec.os)
    + DeviceTokens(rec.device)
    + CpuTokens(rec.cpu)
    + EngineTokens(rec.engine)
    + StatTokens(st)
    + CapabilityFlags(m)
    + PlatformFlags(m)
    + net
  }

  /** The feature vector of a record whose agent text is `ua`, in construction order. */
  function FeatureVector(rec: UserAgent, ua: string): seq<Token> {
    Assemble(rec, Measure(ua), Scan(ua), NetworkTokens(rec.ip))
  }
}
