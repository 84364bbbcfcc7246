/**
 `parse`: a fresh record populated from the agent text, the client address and the five
 parser results, with the fingerprint and the family hash computed last. The parser
 itself is not modelled: its results are parameters, as is the hash function.
 */
module Parse {
  import opened Wrappers
  import opened Records
  import opened Canonical
  import opened VectorLaws
  import opened Fingerprint

  /** The agent text is kept only when it is non-empty. */
  function KeptAgent(agent: string): (r: Option<string>)
    ensures r.None? <==> agent == ""
    ensures r.Some? ==> r.value == agent
  {
    if agent == "" then None else Some(agent)
  }

  /** The engine as `parse` copies it: name and three version parts, never `patch_minor`. */
  function CopiedEngine(engine: Engine): (r: Engine)
    ensures r.patchMinor == None
    ensures r.(patchMinor := engine.patchMinor) == engine
  {
    Engine(engine.name, engine.major, engine.minor, engine.patch, None)
  }

  /** `parse(agent, ip)` given what the parser found in `agent`. */
  function Parse(agent: string, ip: string, product: Product, os: Os, device: Device, cpu: Cpu,
                 engine: Engine, h: string -> string): (r: UserAgent)
    ensures r.ip == Some(ip)
    ensures r.userAgent == KeptAgent(agent)
    ensures r.product == product && r.os == os && r.device == device && r.cpu == cpu
    ensures r.engine.name == engine.name && r.engine.major == engine.major
    ensures r.engine.minor == engine.minor && r.engine.patch == engine.patch
    ensures r.engine.patchMinor == None
    ensures r.fingerprint.Some? <==> agent != ""
    ensures r.hash.Some? <==> agent != ""
    ensures r.fingerprint == FingerprintOf(r, h)
    ensures r.hash == FamilyHash(r, h)
  {
    var base := UserAgent(Some(ip), None, None, product, os, device, cpu, CopiedEngine(engine), KeptAgent(agent));
    var r := base.(fingerprint := FingerprintOf(base, h), hash := FamilyHash(base, h));
    FingerprintIgnoresOtherFields(base, r, h);
    FamilyHashIgnoresOtherFields(base, r, h);
    r
  }

  /** Re-parsing never depends on the engine's `patch_minor`, which is dropped. */
  lemma ParseDropsEnginePatchMinor(agent: string, ip: string, product: Product, os: Os, device: Device,
                                   cpu: Cpu, e1: Engine, e2: Engine, h: string -> string)
    requires e1.(patchMinor := None) == e2.(patchMinor := None)
    ensures Parse(agent, ip, product, os, device, cpu, e1, h) == Parse(agent, ip, product, os, device, cpu, e2, h)
  {
    assert CopiedEngine(e1) == CopiedEngine(e2);
  }

  /** An empty agent text still records the address and every parser result, but no
      identifiers. */
  lemma EmptyAgentKeepsFields(ip: string, product: Product, os: Os, device: Device, cpu: Cpu,
                              engine: Engine, h: string -> string)
    ensures var r := Parse("", ip, product, os, device, cpu, engine, h);
      && r.ip == Some(ip) && r.userAgent == None
      && r.product == product && r.os == os && r.device == device && r.cpu == cpu
      && r.engine == CopiedEngine(engine)
      && r.fingerprint == None && r.hash == None
  {
  }
}
