/**
 What the feature vector of a record says about the record, tag by tag, read off the
 token counts of `FeatureLaws.VectorCounts`.
 */
module VectorLaws {
  import opened Wrappers
  import opened Chars
  import opened Text
  import opened Numerals
  import opened Records
  import opened Features
  import opened FeatureLaws

  /** `fv` holds every token exactly as often as `Expected` says: the feature vector does,
      and so does every rearrangement of it. */
  ghost predicate Tally(fv: seq<Token>, rec: UserAgent, st: TextStats, m: Markers) {
    forall t: Token :: multiset(fv)[t] == Expected(rec, st, m, t)
  }

  lemma TallyAt(fv: seq<Token>, rec: UserAgent, st: TextStats, m: Markers, t: Token)
    requires Tally(fv, rec, st, m)
    ensures multiset(fv)[t] == Expected(rec, st, m, t)
  {
  }

  /** The feature vector of a record is tallied by `Expected` over its agent text. */
  lemma VectorTally(rec: UserAgent, ua: string)
    ensures Tally(FeatureVector(rec, ua), rec, Measure(ua), Scan(ua))
  {
    forall t: Token ensures multiset(FeatureVector(rec, ua))[t] == Expected(rec, Measure(ua), Scan(ua), t) {
      VectorCounts(rec, ua, t);
    }
  }

  /** The browser tokens form a chain: the name alone, the major version only after a name,
      and `major.minor` only after both. */
  lemma ProductChainGated(fv: seq<Token>, rec: UserAgent, ua: string, v: string)
    requires Tally(fv, rec, Measure(ua), Scan(ua))
    ensures Token(B, v) in multiset(fv) <==> rec.product.name == Some(v)
    ensures Token(BV, v) in multiset(fv) <==>
      rec.product.name.Some? && rec.product.major == Some(v)
    ensures Token(BVM, v) in multiset(fv) <==>
      rec.product.name.Some? && rec.product.major.Some? && rec.product.minor.Some?
      && v == rec.product.major.value + "." + rec.product.minor.value
  {
    TallyAt(fv, rec, Measure(ua), Scan(ua), Token(B, v));
    TallyAt(fv, rec, Measure(ua), Scan(ua), Token(BV, v));
    TallyAt(fv, rec, Measure(ua), Scan(ua), Token(BVM, v));
  }

  /** The operating-system tokens follow the same chain as the browser tokens. */
  lemma OsChainGated(fv: seq<Token>, rec: UserAgent, ua: string, v: string)
    requires Tally(fv, rec, Measure(ua), Scan(ua))
    ensures Token(O, v) in multiset(fv) <==> rec.os.name == Some(v)
    ensures Token(OV, v) in multiset(fv) <==> rec.os.name.Some? && rec.os.major == Some(v)
    ensures Token(OVM, v) in multiset(fv) <==>
      rec.os.name.Some? && rec.os.major.Some? && rec.os.minor.Some?
      && v == rec.os.major.value + "." + rec.os.minor.value
  {
    TallyAt(fv, rec, Measure(ua), Scan(ua), Token(O, v));
    TallyAt(fv, rec, Measure(ua), Scan(ua), Token(OV, v));
    TallyAt(fv, rec, Measure(ua), Scan(ua), Token(OVM, v));
  }

  /** Brand and model appear only beside a device name; without one they are dropped even
      when the parser found them. */
  lemma DeviceDetailGated(fv: seq<Token>, rec: UserAgent, ua: string, v: string)
    requires Tally(fv, rec, Measure(ua), Scan(ua))
    ensures Token(DB, v) in multiset(fv) <==> rec.device.name.Some? && rec.device.brand == Some(v)
    ensures Token(DM, v) in multiset(fv) <==> rec.device.name.Some? && rec.device.model == Some(v)
    ensures rec.device.name.None? ==> Token(DB, v) !in multiset(fv) && Token(DM, v) !in multiset(fv)
  {
    TallyAt(fv, rec, Measure(ua), Scan(ua), Token(DB, v));
    TallyAt(fv, rec, Measure(ua), Scan(ua), Token(DM, v));
  }

  /** The architecture and the engine name and major version each give one token; the engine's
      minor and patch versions never do. */
  lemma CpuAndEngineTokens(fv: seq<Token>, rec: UserAgent, ua: string, v: string)
    requires Tally(fv, rec, Measure(ua), Scan(ua))
    ensures Token(C, v) in multiset(fv) <==> rec.cpu.architecture == Some(v)
    ensures Token(E, v) in multiset(fv) <==> rec.engine.name == Some(v)
    ensures Token(EV, v) in multiset(fv) <==> rec.engine.name.Some? && rec.engine.major == Some(v)
  {
    TallyAt(fv, rec, Measure(ua), Scan(ua), Token(C, v));
    TallyAt(fv, rec, Measure(ua), Scan(ua), Token(E, v));
    TallyAt(fv, rec, Measure(ua), Scan(ua), Token(EV, v));
  }

  /** The length, symbol and word statistics occur exactly once each, with the UTF-8 byte
      length, the symbol count and the word count of the raw text in decimal. */
  lemma TextStatisticsOnce(fv: seq<Token>, rec: UserAgent, ua: string)
    requires Tally(fv, rec, Measure(ua), Scan(ua))
    ensures multiset(fv)[Token(L, Decimal(Utf8Len(ua)))] == 1
    ensures multiset(fv)[Token(S, Decimal(SymbolCount(ua)))] == 1
    ensures multiset(fv)[Token(W, Decimal(|Words(ua)|))] == 1
  {
    StatsOnce(fv, rec, Measure(ua), Scan(ua));
  }

  lemma StatsOnce(fv: seq<Token>, rec: UserAgent, st: TextStats, m: Markers)
    requires Tally(fv, rec, st, m)
    ensures multiset(fv)[Token(L, Decimal(st.length))] == 1
    ensures multiset(fv)[Token(S, Decimal(st.symbols))] == 1
    ensures multiset(fv)[Token(W, Decimal(st.words))] == 1
  {
    TallyAt(fv, rec, st, m, Token(L, Decimal(st.length)));
    TallyAt(fv, rec, st, m, Token(S, Decimal(st.symbols)));
    TallyAt(fv, rec, st, m, Token(W, Decimal(st.words)));
  }

  /** No other value appears under the `l`, `s` and `w` tags. */
  lemma TextStatisticsOnly(fv: seq<Token>, rec: UserAgent, ua: string, v: string)
    requires Tally(fv, rec, Measure(ua), Scan(ua))
    ensures Token(L, v) in multiset(fv) <==> v == Decimal(Utf8Len(ua))
    ensures Token(S, v) in multiset(fv) <==> v == Decimal(SymbolCount(ua))
    ensures Token(W, v) in multiset(fv) <==> v == Decimal(|Words(ua)|)
  {
    StatsOnly(fv, rec, Measure(ua), Scan(ua), v);
  }

  lemma StatsOnly(fv: seq<Token>, rec: UserAgent, st: TextStats, m: Markers, v: string)
    requires Tally(fv, rec, st, m)
    ensures Token(L, v) in multiset(fv) <==> v == Decimal(st.length)
    ensures Token(S, v) in multiset(fv) <==> v == Decimal(st.symbols)
    ensures Token(W, v) in multiset(fv) <==> v == Decimal(st.words)
  {
    TallyAt(fv, rec, st, m, Token(L, v));
    TallyAt(fv, rec, st, m, Token(S, v));
    TallyAt(fv, rec, st, m, Token(W, v));
  }

  /** The `d` tag carries two things: the device name and the digit count of the raw text.
      When the device is named by its own digit count the token occurs twice. */
  lemma DigitTag(fv: seq<Token>, rec: UserAgent, ua: string, v: string)
    requires Tally(fv, rec, Measure(ua), Scan(ua))
    ensures multiset(fv)[Token(D, v)] ==
      (if rec.device.name == Some(v) then 1 else 0) + (if v == Decimal(DigitCount(ua)) then 1 else 0)
    ensures Token(D, v) in multiset(fv) <==>
      rec.device.name == Some(v) || v == Decimal(DigitCount(ua))
  {
    TallyAt(fv, rec, Measure(ua), Scan(ua), Token(D, v));
  }

  /** Safari is flagged only when Chrome is not, so the two flags never occur together;
      every capability flag has the value 1. */
  lemma SafariExcludesChrome(fv: seq<Token>, rec: UserAgent, st: TextStats, m: Markers, v: string)
    requires Tally(fv, rec, st, m)
    ensures Flag(FC) in multiset(fv) <==> m.chrome
    ensures Flag(FS) in multiset(fv) <==> m.safari && !m.chrome
    ensures !(Flag(FS) in multiset(fv) && Flag(FC) in multiset(fv))
    ensures v != "1" ==> Token(FS, v) !in multiset(fv) && Token(FC, v) !in multiset(fv)
  {
    TallyAt(fv, rec, st, m, Flag(FC));
    TallyAt(fv, rec, st, m, Flag(FS));
    TallyAt(fv, rec, st, m, Token(FS, v));
    TallyAt(fv, rec, st, m, Token(FC, v));
  }

  /** The remaining capability flags each follow their own marker. */
  lemma CapabilityMarkers(fv: seq<Token>, rec: UserAgent, st: TextStats, m: Markers)
    requires Tally(fv, rec, st, m)
    ensures Flag(FM) in multiset(fv) <==> m.mobile
    ensures Flag(FAW) in multiset(fv) <==> m.appleWebKit
    ensures Flag(FG) in multiset(fv) <==> m.gecko
    ensures Flag(FF) in multiset(fv) <==> m.firefox
    ensures Flag(FE) in multiset(fv) <==> m.edge
    ensures Flag(FI) in multiset(fv) <==> m.msie
  {
    TallyAt(fv, rec, st, m, Flag(FM));
    TallyAt(fv, rec, st, m, Flag(FAW));
    TallyAt(fv, rec, st, m, Flag(FG));
    TallyAt(fv, rec, st, m, Flag(FF));
    TallyAt(fv, rec, st, m, Flag(FE));
    TallyAt(fv, rec, st, m, Flag(FI));
  }

  /** The platform flags follow the priority Windows, Mac, Linux, Android, iOS. */
  lemma PlatformPriority(fv: seq<Token>, rec: UserAgent, st: TextStats, m: Markers)
    requires Tally(fv, rec, st, m)
    ensures Flag(FOW) in multiset(fv) <==> m.win
    ensures Flag(FOM) in multiset(fv) <==> !m.win && m.mac
    ensures Flag(FOL) in multiset(fv) <==> !m.win && !m.mac && m.linux
    ensures Flag(FOA) in multiset(fv) <==> !m.win && !m.mac && !m.linux && m.android
    ensures Flag(FOI) in multiset(fv) <==> !m.win && !m.mac && !m.linux && !m.android && m.ios
  {
    PlatformAt(fv, rec, st, m, FOW);
    PlatformAt(fv, rec, st, m, FOM);
    PlatformAt(fv, rec, st, m, FOL);
    PlatformAt(fv, rec, st, m, FOA);
    PlatformAt(fv, rec, st, m, FOI);
  }

  lemma PlatformAt(fv: seq<Token>, rec: UserAgent, st: TextStats, m: Markers, tag: Tag)
    requires Tally(fv, rec, st, m)
    requires PlatformTag(tag)
    ensures Flag(tag) in multiset(fv) <==> PlatformHit(m, tag)
  {
    TallyAt(fv, rec, st, m, Flag(tag));
  }

  /** At most one platform token is present: two different platform tags never both occur. */
  lemma OnePlatform(fv: seq<Token>, rec: UserAgent, st: TextStats, m: Markers, a: Token, b: Token)
    requires Tally(fv, rec, st, m)
    requires PlatformTag(a.tag) && PlatformTag(b.tag) && a.tag != b.tag
    ensures !(a in multiset(fv) && b in multiset(fv))
  {
    TallyAt(fv, rec, st, m, a);
    TallyAt(fv, rec, st, m, b);
  }

  /** The browser flags of any arrangement of a record's vector, read off the substrings of
      its agent text. */
  lemma BrowserFlagsOfText(fv: seq<Token>, rec: UserAgent, st: TextStats, ua: string)
    requires Tally(fv, rec, st, Scan(ua))
    ensures Flag(FC) in multiset(fv) <==> Contains(ua, "Chrome")
    ensures Flag(FS) in multiset(fv) <==> Contains(ua, "Safari") && !Contains(ua, "Chrome")
    ensures Flag(FE) in multiset(fv) <==> Contains(ua, "Edge") || Contains(ua, "Edg/")
    ensures Flag(FI) in multiset(fv) <==> Contains(ua, "MSIE") || Contains(ua, "Trident")
  {
    SafariExcludesChrome(fv, rec, st, Scan(ua), "1");
    CapabilityMarkers(fv, rec, st, Scan(ua));
  }

  /** The platform flags of any arrangement of a record's vector: "Win" wins over everything,
      and each later flag needs every earlier test to fail. */
  lemma PlatformOfText(fv: seq<Token>, rec: UserAgent, st: TextStats, ua: string)
    requires Tally(fv, rec, st, Scan(ua))
    ensures Flag(FOW) in multiset(fv) <==> Contains(ua, "Win")
    ensures Flag(FOM) in multiset(fv) <==> !Contains(ua, "Win") && Contains(ua, "Mac")
    ensures Flag(FOL) in multiset(fv) <==>
      !Contains(ua, "Win") && !Contains(ua, "Mac") && Contains(ua, "Linux")
    ensures Flag(FOA) in multiset(fv) <==>
      !Contains(ua, "Win") && !Contains(ua, "Mac") && !Contains(ua, "Linux") && Contains(ua, "Android")
    ensures Flag(FOI) in multiset(fv) <==>
      && !Contains(ua, "Win") && !Contains(ua, "Mac") && !Contains(ua, "Linux") && !Contains(ua, "Android")
      && (Contains(ua, "iOS") || Contains(ua, "iPhone") || Contains(ua, "iPad"))
  {
    PlatformPriority(fv, rec, st, Scan(ua));
  }

  /** The network token is the one `IpToken` derives from the address, and there is none
      without an address. */
  lemma NetworkToken(fv: seq<Token>, rec: UserAgent, ua: string, v: string)
    requires Tally(fv, rec, Measure(ua), Scan(ua))
    ensures Token(IP4, v) in multiset(fv) <==>
      rec.ip.Some? && IpToken(rec.ip.value) == Some(Token(IP4, v))
    ensures Token(IP6, v) in multiset(fv) <==>
      rec.ip.Some? && IpToken(rec.ip.value) == Some(Token(IP6, v))
  {
    NetworkAt(fv, rec, Measure(ua), Scan(ua), Token(IP4, v));
    NetworkAt(fv, rec, Measure(ua), Scan(ua), Token(IP6, v));
  }

  lemma NetworkAt(fv: seq<Token>, rec: UserAgent, st: TextStats, m: Markers, t: Token)
    requires Tally(fv, rec, st, m)
    requires t.tag == IP4 || t.tag == IP6
    ensures t in multiset(fv) <==> rec.ip.Some? && IpToken(rec.ip.value) == Some(t)
  {
    TallyAt(fv, rec, st, m, t);
  }

  /** The fields the vector reads: the browser and OS name, major and minor; the device name,
      brand and model; the architecture; the engine name and major; and the address. */
  predicate SameVectorFields(a: UserAgent, b: UserAgent) {
    && a.product.name == b.product.name && a.product.major == b.product.major
    && a.product.minor == b.product.minor
    && a.os.name == b.os.name && a.os.major == b.os.major && a.os.minor == b.os.minor
    && a.device == b.device && a.cpu == b.cpu
    && a.engine.name == b.engine.name && a.engine.major == b.engine.major
    && a.ip == b.ip
  }

  /** Patch versions, the engine minor version, the stored identifiers and the agent text
      field of the record leave the token counts unchanged. */
  lemma TallyIgnoresOtherFields(fa: seq<Token>, fb: seq<Token>, a: UserAgent, b: UserAgent, st: TextStats, m: Markers)
    requires Tally(fa, a, st, m) && Tally(fb, b, st, m)
    requires SameVectorFields(a, b)
    ensures multiset(fa) == multiset(fb)
  {
    forall t: Token ensures multiset(fa)[t] == multiset(fb)[t] {
      TallyAt(fa, a, st, m, t);
      TallyAt(fb, b, st, m, t);
      ExpectedReadsVectorFields(a, b, st, m, t);
    }
  }

  lemma ExpectedReadsVectorFields(a: UserAgent, b: UserAgent, st: TextStats, m: Markers, t: Token)
    requires SameVectorFields(a, b)
    ensures Expected(a, st, m, t) == Expected(b, st, m, t)
  {
    match t.tag
    case B | BV | BVM => {}
    case O | OV | OVM => {}
    case D | DB | DM => {}
    case C | E | EV => {}
    case L | S | W => {}
    case FM | FAW | FG | FC | FS | FF | FE | FI => {}
    case FOW | FOM | FOL | FOA | FOI => {}
    case IP4 | IP6 => {}
  }

  lemma VectorIgnoresOtherFields(a: UserAgent, b: UserAgent, ua: string)
    requires SameVectorFields(a, b)
    ensures multiset(FeatureVector(a, ua)) == multiset(FeatureVector(b, ua))
  {
    VectorTally(a, ua);
    VectorTally(b, ua);
    TallyIgnoresOtherFields(FeatureVector(a, ua), FeatureVector(b, ua), a, b, Measure(ua), Scan(ua));
  }

  /** A change of the OS major version changes the token counts whenever the OS is named. */
  lemma TallySeesOsMajor(fa: seq<Token>, fb: seq<Token>, a: UserAgent, b: UserAgent, st: TextStats, m: Markers)
    requires Tally(fa, a, st, m) && Tally(fb, b, st, m)
    requires a.os.name.Some? && a.os.major.Some? && a.os.major != b.os.major
    ensures multiset(fa) != multiset(fb)
  {
    var t := Token(OV, a.os.major.value);
    TallyAt(fa, a, st, m, t);
    TallyAt(fb, b, st, m, t);
    assert multiset(fa)[t] != multiset(fb)[t];
  }

  lemma VectorSeesOsMajor(a: UserAgent, b: UserAgent, ua: string)
    requires a.os.name.Some? && a.os.major.Some? && a.os.major != b.os.major
    ensures multiset(FeatureVector(a, ua)) != multiset(FeatureVector(b, ua))
  {
    VectorTally(a, ua);
    VectorTally(b, ua);
    TallySeesOsMajor(FeatureVector(a, ua), FeatureVector(b, ua), a, b, Measure(ua), Scan(ua));
  }

  /** A separator after a separator-free head adds one occurrence. */
  lemma CountPast(head: string, c: char, rest: string)
    requires c !in head
    ensures Occurrences(head + [c] + rest, c) == Occurrences(rest, c) + 1
  {
    OccurrencesAppend(head + [c], rest, c);
    OccurrencesAppend(head, [c], c);
  }

  /** `IpToken` is pinned down by `NetworkPrefix`: a dotted address gives the prefix up to its
      second dot, a dot-free one the prefix up to its fourth colon. */
  lemma Ip4TokenOf(ip: string, v: string)
    requires '.' in ip && NetworkPrefix(ip, '.', 1, v)
    ensures IpToken(ip) == Some(Token(IP4, v))
  {
    NetworkPrefixUnique(ip, '.', 1, IpToken(ip).value.value, v);
  }

  lemma Ip6TokenOf(ip: string, v: string)
    requires '.' !in ip && NetworkPrefix(ip, ':', 3, v)
    ensures IpToken(ip) == Some(Token(IP6, v))
  {
    assert IsPrefix(v, ip);
    assert ip == v + ip[|v|..];
    OccurrencesAppend(v, ip[|v|..], ':');
    NetworkPrefixUnique(ip, ':', 3, IpToken(ip).value.value, v);
  }

  /** An address with exactly three colons and no dot keeps all four of its colon-pieces,
      empty ones included: "2001:db8::1" gives "ip6:2001:db8::1". */
  lemma FourPiecesKept(a: string, b: string, c: string, d: string)
    requires ':' !in a && ':' !in b && ':' !in c && ':' !in d
    requires '.' !in a && '.' !in b && '.' !in c && '.' !in d
    ensures IpToken(a + ":" + b + ":" + c + ":" + d) == Some(Token(IP6, a + ":" + b + ":" + c + ":" + d))
  {
    var ip := a + ":" + b + ":" + c + ":" + d;
    CountPast(c, ':', d);
    CountPast(b, ':', c + ":" + d);
    CountPast(a, ':', b + ":" + c + ":" + d);
    assert ip == a + [':'] + (b + [':'] + (c + [':'] + d));
    assert Occurrences(d, ':') == 0;
    assert '.' !in ip;
    assert IsPrefix(ip, ip);
    Ip6TokenOf(ip, ip);
  }

  /** An address with two colons and no dot has three colon-pieces, one too few, so it gives
      no token: "fe80::1" and "::1" both lose their network part. */
  lemma ThreePiecesDropped(a: string, b: string, c: string)
    requires ':' !in a && ':' !in b && ':' !in c
    requires '.' !in a && '.' !in b && '.' !in c
    ensures IpToken(a + ":" + b + ":" + c) == None
  {
    var ip := a + ":" + b + ":" + c;
    CountPast(b, ':', c);
    CountPast(a, ':', b + ":" + c);
    assert ip == a + [':'] + (b + [':'] + c);
    assert Occurrences(c, ':') == 0;
    assert '.' !in ip;
  }

  /** The loopback address splits into the pieces "", "" and "1": too few for a token. */
  lemma LoopbackHasNoToken()
    ensures IpToken("::1") == None
  {
    assert '.' !in "::1";
    CountPast("", ':', "1");
    CountPast("", ':', ":1");
    assert "::1" == "" + ":" + ":1";
    assert ":1" == "" + ":" + "1";
  }

  /** A dot anywhere makes the address IPv4-shaped, colons and all: "::ffff:1.2.3.4" is cut
      after its second dot-piece and gives "ip4:::ffff:1.2". */
  lemma DottedKeepsTwoPieces(h: string, x: string, tail: string)
    requires '.' !in h && '.' !in x
    requires tail == [] || tail[0] == '.'
    ensures IpToken(h + "." + x + tail) == Some(Token(IP4, h + "." + x))
  {
    var ip, v := h + "." + x + tail, h + "." + x;
    CountPast(h, '.', x);
    assert v == h + ['.'] + x;
    assert Occurrences(x, '.') == 0;
    assert ip == v + tail;
    assert ip[..|v|] == v;
    assert ip[|h|] == '.';
    Ip4TokenOf(ip, v);
  }

  /** A host name with neither dots nor colons gives no token. */
  lemma HostNameHasNoToken(ip: string)
    requires '.' !in ip && ':' !in ip
    ensures IpToken(ip) == None
  {
    assert Occurrences(ip, ':') == 0;
  }

}
