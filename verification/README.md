# rs-mod-agent in Dafny

A model of the identification core of the `rs-mod-agent` crate (`src/lib.rs`). It covers:

- `parse`, which builds a `UserAgent` record from the raw `User-Agent` text, the client address and the regex parser's five results;
- `fingerprint`, a double hash of the sorted feature vector;
- `hash`, the "family id": one hash of the canonical string that `normalized_string_internal` builds;
- `normalized_string`.

The parser's results and the hash function (BLAKE3, hex-encoded) are parameters. Everything downstream of them is modelled as pure functions over immutable datatypes:

- the token blocks;
- the text statistics;
- the substring markers;
- the network prefix of the address;
- the sort, the join with `&%&`, and the canonical `|`-joined sections.

Module layout, following the data flow of `src/lib.rs`:

| module | file | what it holds |
|---|---|---|
| `Wrappers` | wrappers.dfy | `Option` |
| `Chars` | chars.dfy | Rust's character classes, UTF-8 byte length, per-class counts |
| `Text` | text.dfy | `join`, `split(char)`, `split_whitespace`, `contains` and their round trips |
| `Numerals` | numerals.dfy | decimal rendering of counts (`format!("{}", n)`) |
| `Sorting` | sorting.dfy | `Vec<String>::sort`: byte-lexicographic order and an ordered permutation |
| `Records` | records.dfy | `UserAgent`, `Product`, `OS`, `Device`, `CPU`, `Engine` |
| `Canonical` | canonical.dfy | `normalized_string_internal`, `normalized_string`, `hash` |
| `Features` | features.dfy | the feature tokens and the vector in construction order |
| `FeatureLaws` | vector.dfy | how often each token occurs in the vector (`Expected`) |
| `VectorLaws` | laws.dfy | per-tag consequences, stated for every arrangement of the vector |
| `Fingerprint` | fingerprint.dfy | rendering, sort, join and double hash |
| `Parse` | parse.dfy | `parse` |

### How the feature vector is modelled

A feature token is `Token(tag, value)`, rendered as `tag:value`. The tag is an enumeration of the 30 prefixes the source writes. The device name and the ASCII-digit count share the tag `D`, because both render as `d:`.

`FeatureLaws.Expected` gives the count of every token directly from the record, the text statistics and the markers. `FeatureLaws.VectorCounts` proves that the vector built in construction order has exactly those counts.

`VectorLaws.Tally(fv, …)` says that some sequence `fv` has the counts `Expected` gives. Every law in `VectorLaws` about the tokens is stated for any `fv` satisfying `Tally`, so it holds for the sorted vector just as for the construction order. Two exceptions compare the vectors of two records: `VectorIgnoresOtherFields` and `VectorSeesOsMajor` are stated for `FeatureVector`, and `TallyIgnoresOtherFields` and `TallySeesOsMajor` are their forms for any arrangements. The address lemmas (`Ip4TokenOf` to `HostNameHasNoToken`) are about `IpToken` alone and involve no vector.

## Model

| member | source | states |
|---|---|---|
| Canonical.NormalizedStringInternal | src/lib.rs:339-408 | The agent text is always the last section. The result equals the agent text exactly when every group string is empty. Otherwise it is the non-empty groups joined by a pipe, then a pipe, then the agent text. |
| Canonical.Present | src/lib.rs:341-348 | `flatten().collect()`: at most one value per field, and a text is a value exactly when some field holds it. `PresentAppend` fixes their order. |
| Canonical.PresentAppend | src/lib.rs:341-348 | Field order is kept: the values of two field lists one after the other are the values of the first followed by those of the second. |
| Canonical.PresentSingle | src/lib.rs:341-348 | A single field contributes its own value when present and nothing when absent. |
| Canonical.GroupString | src/lib.rs:350-354 | A group with no present value gives the empty string, and one with a single present value gives that value. |
| Canonical.GroupRecoverable | src/lib.rs:341-354 | When no value holds a dot, splitting a non-empty group string at `.` gives back the present values in field order. |
| Canonical.GroupEmpty | src/lib.rs:341-386 | A group contributes no section iff it has no present field or exactly one present empty field. Two present empty fields already give the non-empty ".". |
| Canonical.SectionsRecoverable | src/lib.rs:388-407 | When no section holds a pipe, splitting the canonical string at the pipe gives back exactly the non-empty groups followed by the agent text. |
| Canonical.NoFieldsGivesAgent | src/lib.rs:350-404 | With no product, OS or device field present, the canonical string is the agent text itself. |
| Canonical.CanonicalIgnoresOtherFields | src/lib.rs:339-408 | The canonical string reads only the product, OS and device fields. Engine, CPU, address and the stored identifiers do not affect it. |
| Canonical.NormalizedString | src/lib.rs:332-336 | Present exactly when the agent text is. Its value is the canonical string of that text. |
| Canonical.FamilyHash | src/lib.rs:313-322 | The family hash is present exactly when the agent text is, and then it is one application of the hash to the canonical string of that text. |
| Canonical.FamilyHashIgnoresOtherFields | src/lib.rs:313-322 | Two records with the same agent text, product, OS and device have the same family hash. |
| Features.Chain | src/lib.rs:151-179 | Token membership iff: the name token when the name is present; the major token when name and major are present; `major.minor` when all three are present. |
| Features.DeviceTokens | src/lib.rs:181-192 | Brand and model tokens appear iff the device name is present as well as the brand or model. |
| Features.CpuTokens | src/lib.rs:194-197 | A `c:` token occurs iff the architecture is present, and its value is the architecture. |
| Features.EngineTokens | src/lib.rs:199-206 | The `ev:` token appears iff both engine name and major are present. |
| Features.Measure | src/lib.rs:211-222 | Digits plus symbols never exceed the character count, which never exceeds the UTF-8 byte length. The word count never exceeds the character count. |
| Features.PlatformFlags | src/lib.rs:257-267 | The platform chain raises at most one flag. |
| Features.Scan | src/lib.rs:225-266 | Each marker is the source's case-sensitive `contains` test on the agent text. "Edge" or "Edg/" gives the Edge marker, "MSIE" or "Trident" the IE marker, and "iOS", "iPhone" or "iPad" the iOS marker. |
| Features.IpToken | src/lib.rs:269-284 | With a dot: an `ip4` token whose value is the unique leading part holding exactly one dot and ending at a dot or at the end. Without a dot: a token iff the address has at least three colons. That token is `ip6`, and its value is the leading part holding exactly three colons and ending at a colon or at the end. |
| Features.NetworkTokens | src/lib.rs:269-284 | At most one network token, and exactly the one `IpToken` gives when an address is present. |
| Features.NetworkPrefixUnique | src/lib.rs:271-283 | At most one leading part satisfies the network-prefix condition, so the token value is determined. |
| Features.Assemble | src/lib.rs:149-284 | The nine blocks in the order the source pushes them: product, OS, device, CPU, engine, the four statistics, the capability flags, the platform flag, the network token. `FeatureLaws.VectorCounts` states each token's count. |
| Features.FeatureVector | src/lib.rs:146-284 | The vector of a record with agent text `ua`: `Assemble` over the statistics and markers of `ua` and the record's address. `FeatureLaws.VectorCounts` states each token's count. |
| FeatureLaws.VectorCounts | src/lib.rs:149-284 | Every token occurs in the vector exactly as often as `Expected` says, summed over the nine blocks the source pushes in order. |
| FeatureLaws.RaisedCount | src/lib.rs:224-255 | Each capability flag occurs once when its test succeeds and never otherwise. |
| VectorLaws.VectorTally | src/lib.rs:149-284 | The vector built in construction order satisfies `Tally`. |
| VectorLaws.ProductChainGated | src/lib.rs:151-164 | For every value: `b:` iff the product name is that value; `bv:` iff a name is present and the major is that value; `bvm:` iff name, major and minor are present and the value is `major.minor`. |
| VectorLaws.OsChainGated | src/lib.rs:166-179 | The same three equivalences for `o:`, `ov:` and `ovm:` over the OS fields. |
| VectorLaws.DeviceDetailGated | src/lib.rs:181-192 | `db:` and `dm:` occur iff a device name is present together with the brand or model. Without a name neither occurs. |
| VectorLaws.CpuAndEngineTokens | src/lib.rs:194-206 | `c:` iff the architecture is that value. `e:` iff the engine name is. `ev:` iff a name is present and the major is that value. |
| VectorLaws.TextStatisticsOnce | src/lib.rs:211-222 | `l:` (UTF-8 byte length), `s:` (non-alphanumeric count) and `w:` (whitespace-separated word count) each occur exactly once. |
| VectorLaws.TextStatisticsOnly | src/lib.rs:211-222 | No other value occurs under `l:`, `s:` or `w:`. |
| VectorLaws.DigitTag | src/lib.rs:181-217 | The `d:` count is one for a matching device name plus one for a matching ASCII-digit count. So a device named by the digit count gives `d:` twice. |
| VectorLaws.SafariExcludesChrome | src/lib.rs:237-243 | `fc:1` iff Chrome is seen. `fs:1` iff Safari is seen and Chrome is not. The two never occur together, and neither occurs with any value other than 1. |
| VectorLaws.CapabilityMarkers | src/lib.rs:224-255 | Each of `fm`, `faw`, `fg`, `ff`, `fe`, `fi` occurs iff its marker is seen. |
| VectorLaws.BrowserFlagsOfText | src/lib.rs:237-255 | In any arrangement of the vector, the Chrome, Safari, Edge and IE flags are stated as the source's substring tests on the agent text, including "Edg/" and "Trident". |
| VectorLaws.PlatformPriority | src/lib.rs:257-267 | Priority Windows, Mac, Linux, Android, iOS: each flag occurs iff its marker is seen and every earlier one is not. |
| VectorLaws.PlatformOfText | src/lib.rs:257-267 | In any arrangement of the vector, all five platform flags are stated as substring tests on the agent text, each needing every earlier test to fail. iOS also accepts "iPhone" and "iPad". |
| VectorLaws.OnePlatform | src/lib.rs:257-267 | Two different platform tokens never both occur. |
| VectorLaws.NetworkToken | src/lib.rs:269-284 | `ip4:`/`ip6:` with a value occurs iff an address is present and `IpToken` gives exactly that token. |
| VectorLaws.VectorIgnoresOtherFields | src/lib.rs:149-284 | Records that agree on the fields the vector reads have vectors with equal token counts. Those fields are: name, major and minor of product and OS; the device; the architecture; engine name and major; the address. |
| VectorLaws.VectorSeesOsMajor | src/lib.rs:166-179 | With an OS name present, changing the OS major version changes the vector's token counts. |
| VectorLaws.Ip4TokenOf | src/lib.rs:271-276 | A dotted address whose leading part up to its second dot is `v` gives `ip4:v`. |
| VectorLaws.Ip6TokenOf | src/lib.rs:277-282 | A dot-free address whose leading part holds three colons and ends at a colon or the end gives `ip6:` of that part. |
| VectorLaws.FourPiecesKept | src/lib.rs:277-282 | A dot-free address with exactly three colons keeps all four pieces, empty ones included. So the compressed "2001:db8::1" is kept whole. |
| VectorLaws.ThreePiecesDropped | src/lib.rs:277-282 | A dot-free address with exactly two colons, such as "fe80::1", gives no token. |
| VectorLaws.LoopbackHasNoToken | src/lib.rs:277-282 | "::1" splits into "", "" and "1", which is too few, so it gives no token. |
| VectorLaws.DottedKeepsTwoPieces | src/lib.rs:270-276 | Any address with a dot is treated as IPv4 and cut after its second dot-piece, colons and all: "::ffff:1.2.3.4" gives `ip4:::ffff:1.2`. |
| VectorLaws.HostNameHasNoToken | src/lib.rs:270-283 | Any address with neither dots nor colons, such as a host name, gives no token. |
| Sorting.Sort | src/lib.rs:286-287 | The result is ordered and a permutation of the input. |
| Sorting.SortedUnique | src/lib.rs:286-287 | Two ordered sequences with the same elements are equal, so the sorted vector is unique. |
| Sorting.SortOrderIndependent | src/lib.rs:286-287 | Sorting two permutations of one multiset gives the same sequence. |
| Features.TagNameRoundTrip | src/lib.rs:154-281 | Every tag name written before a colon reads back as its own tag and contains no colon. |
| Fingerprint.Render | src/lib.rs:154-281 | A token renders as its tag name, a colon and its value, as each `format!` of the source writes it. `RenderInjective` states that the rendering loses nothing. |
| Fingerprint.RenderInjective | src/lib.rs:154-281 | Two tokens with the same rendering are the same token, so sorting renderings sorts tokens without merging any. |
| Fingerprint.RenderedPermutation | src/lib.rs:154-287 | Rearranging tokens rearranges their `tag:value` renderings the same way. |
| Fingerprint.FeatureString | src/lib.rs:286-290 | The text the first hash reads: the renderings, sorted, joined with `&%&`. `FeatureStringIsSortedJoin` and `FeatureStringOrderIndependent` state what it is. |
| Fingerprint.FeatureStringIsSortedJoin | src/lib.rs:286-290 | The hashed text is the `&%&`-join of the one ordered arrangement of the renderings. |
| Fingerprint.FeatureStringOrderIndependent | src/lib.rs:286-290 | Token sequences with the same counts give the same hashed text. |
| Fingerprint.FingerprintOf | src/lib.rs:144-302 | The fingerprint is present exactly when the agent text is. |
| Fingerprint.FingerprintOfAnyArrangement | src/lib.rs:144-302 | The fingerprint is the double hash of the joined text of any arrangement of the tokens with the counts `Expected` gives. |
| Fingerprint.FingerprintIgnoresOtherFields | src/lib.rs:144-302 | The fingerprint does not depend on patch versions, the OS `patch_minor`, the engine minor and patch, or the stored identifiers. |
| Parse.KeptAgent | src/lib.rs:76-78 | The agent text is stored iff it is non-empty, and then unchanged. |
| Parse.CopiedEngine | src/lib.rs:101-105 | The engine is copied except for `patch_minor`, which is left absent. |
| Parse.Parse | src/lib.rs:57-112 | The address is always stored. The agent text is stored only when non-empty. Product, OS, device and CPU are copied. The engine is copied without `patch_minor`. Fingerprint and hash are present exactly when the agent text is non-empty, and they equal `fingerprint()` and `hash()` of the finished record. |
| Parse.ParseDropsEnginePatchMinor | src/lib.rs:101-105 | Parser results that differ only in the engine's `patch_minor` give the same record. |
| Parse.EmptyAgentKeepsFields | src/lib.rs:63-109 | An empty agent text still stores the address and the parser's product, OS, device and CPU, and the engine without `patch_minor`. It stores no agent text, fingerprint or hash. |
| Text.JoinOfSplit | src/lib.rs:273-281 | Joining the pieces of `split(c)` with `c` gives the text back. |
| Text.SplitOfJoin | src/lib.rs:404-407 | Splitting a join of separator-free pieces gives the pieces back. |
| Text.SplitShape | src/lib.rs:273-280 | `split(c)` yields one more piece than `c` occurs, and no piece contains `c`. |
| Text.WordsCoverText | src/lib.rs:220-221 | The words of `split_whitespace`, concatenated, are exactly the text with its whitespace removed. |
| Text.WordsAcrossWhitespace | src/lib.rs:220-221 | A whitespace character always separates words: the words of `a`, whitespace, `b` are the words of `a` followed by those of `b`. |
| Text.WordsOfRun | src/lib.rs:220-221 | A non-empty run without whitespace is exactly one word. With `WordsAcrossWhitespace` this makes the words the maximal non-whitespace runs. |
| Chars.Utf8LenBounds | src/lib.rs:211-212 | The byte length lies between the character count and four times it, and equals the character count exactly for pure ASCII. |
| Numerals.DecimalInjective | src/lib.rs:212-222 | Distinct counts render as distinct decimal texts, so each statistic token determines its count. |

## Left out

- `USER_AGENT_PARSER`, `init`, `get` and the environment variable that locates the regex file: these are global state and I/O. The parser's results enter `Parse.Parse` as parameters.
- The regex parser itself (`parse_product`, `parse_os`, `parse_device`, `parse_cpu`, `parse_engine`): it belongs to an external crate, so its outputs are plain inputs.
- BLAKE3 and hex encoding: the hash is an arbitrary function parameter `h`. Nothing is assumed about it beyond being a function.
- `UserAgent::new`, `to_json` and `UserAgent::get(req)`, which reads the record from the request's extensions: these are construction, serialization and HTTP plumbing, with no logic of their own.
- Chars.IsAlphanumeric: exact for ASCII, but every non-ASCII character counts as a symbol. Rust's `char::is_alphanumeric` also accepts non-ASCII letters and numbers, and the full Unicode tables are not modelled. The `s:` statistic therefore agrees with the source only on texts whose non-ASCII characters are not letters or digits.
- VectorLaws.SafariExcludesChrome, VectorLaws.CapabilityMarkers, VectorLaws.PlatformPriority: stated over the `Markers` record of substring tests. `Features.Scan` defines each marker as the source's `contains` test. `VectorLaws.BrowserFlagsOfText` and `VectorLaws.PlatformOfText` restate the Chrome, Safari, Edge and IE flags and all five platform flags as substring tests. The mobile, AppleWebKit, Gecko and Firefox flags are left in marker form.
- Fingerprint.FingerprintOf: its own ensures only says when the value is present. `FingerprintOfAnyArrangement` states the value: the hash parameter applied twice to the feature string.
- Four behaviours of the code are easy to miss. The model follows the code:
  - `db:` and `dm:` are emitted only inside the device-name branch;
  - a group with two or more present but empty fields contributes a section of dots, not nothing;
  - an empty agent text still fills every parsed field and the address;
  - the engine's `patch_minor` is never copied.

  The `ip6:` value of a compressed address such as "2001:db8::1" is the whole address, not a network prefix. "::1" and "fe80::1" give no token.
