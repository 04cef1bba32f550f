/** Values shared by the provisioning helpers and the node handle: fixed-width
    integers, the dynamically typed flag values, errors and the node configuration. */
module Types {

  type uint8 = x: int | 0 <= x < 0x100
  type uint16 = x: int | 0 <= x < 0x1_0000
  type uint32 = x: int | 0 <= x < 0x1_0000_0000

  /** A Go byte string: file contents, credentials, the raw config-file text. */
  type Bytes = seq<uint8>

  /** A value held in a dynamically typed flag map (`map[string]interface{}`).
      `Float` stands for a float64 that holds an integral value; JSON numbers
      always decode to float64, so a parsed config file never holds an `Int`. */
  datatype Value = Str(s: string) | Int(i: int) | Float(f: int) | Other

  type Flags = map<string, Value>

  /** The stages of attaching a peer, in the order the controller runs them. */
  datatype AttachStage =
    | NewTlsCert
    | Dial
    | NewMessageCreator
    | NewProtoMessageCreator
    | NewPeerMetrics
    | NewResourceTracker
    | TlsUpgrade
    | AwaitReady

  /** The failures the core reports; their wording is not modelled. */
  datatype Error =
    | DecodeFailed                            // base64 decoding of the signing key
    | ParseFailed                             // JSON decoding of the config file
    | IoFailed(path: string)                  // an OS call on this path failed
    | AlreadyExists(path: string)             // Mkdir on an existing directory
    | NodeDirFailed(cause: Error)             // "error creating temp dir"
    | WriteFailed(path: string, cause: Error) // "couldn't write file at <path>"
    | TypeMismatch(key: string)               // a flag value of the wrong dynamic type
    | NoFreePort(cause: Error)                // "couldn't get free port"
    | NotAttached(peerId: string)             // no such peer in the registry
    | AttachFailed(stage: AttachStage)

  /** The path an I/O error names; "" for the other errors. */
  function ErrorPath(e: Error): string {
    if e.IoFailed? || e.AlreadyExists? || e.WriteFailed? then e.path else ""
  }

  datatype Option<T> = None | Some(value: T)

  datatype Result<T> = Ok(value: T) | Err(error: Error)

  /** The error-only return of a Go function returning `error`. */
  datatype Outcome = Pass | Fail(error: Error)

  /** The fields of a node's configuration that the core reads. */
  datatype NodeConfig = NodeConfig(
    name: string,
    binaryPath: string,
    stakingKey: Bytes,
    stakingCert: Bytes,
    stakingSigningKey: Bytes,              // base64 text
    configFile: Bytes,                     // JSON text, possibly empty
    chainConfigFiles: map<string, Bytes>,  // chain alias -> contents
    upgradeConfigFiles: map<string, Bytes>,
    subnetConfigFiles: map<string, Bytes>, // subnet ID -> contents
    flags: Flags)
}
