/**
 The `UserAgent` record and its parts. Every field is independently optional:
 a present major version does not imply a present name.
 */
module Records {
  import opened Wrappers

  /** The browser or application. */
  datatype Product = Product(
    name: Option<string>,
    major: Option<string>,
    minor: Option<string>,
    patch: Option<string>)

  datatype Os = Os(
    name: Option<string>,
    major: Option<string>,
    minor: Option<string>,
    patch: Option<string>,
    patchMinor: Option<string>)

  datatype Device = Device(
    name: Option<string>,
    brand: Option<string>,
    model: Option<string>)

  datatype Cpu = Cpu(architecture: Option<string>)

  /** The browser engine. */
  datatype Engine = Engine(
    name: Option<string>,
    major: Option<string>,
    minor: Option<string>,
    patch: Option<string>,
    patchMinor: Option<string>)

  /** One client: its address, the two derived identifiers, the parsed parts and the raw agent text. */
  datatype UserAgent = UserAgent(
    ip: Option<string>,
    fingerprint: Option<string>,
    hash: Option<string>,
    product: Product,
    os: Os,
    device: Device,
    cpu: Cpu,
    engine: Engine,
    userAgent: Option<string>)
}
