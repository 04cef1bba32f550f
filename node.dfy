/** The node handle of the local controller (local/node.go): the registry of
    attached peers, message sending, and the accessors that branch on the
    node's fields. */
module Node {
  import opened Types
  import opened Paths
  import opened Helpers

  /** A peer connection; only its identity matters to the registry. */
  class Peer {
    const id: string

    constructor (id: string)
      ensures this.id == id
    {
      this.id := id;
    }
  }

  /** A test message as message.NewTestMsg builds it: opcode, payload and the
      throttling-bypass flag. */
  datatype OutboundMessage = OutboundMessage(op: uint32, payload: Bytes, bypassThrottling: bool)

  /** The position of a stage in the order AttachPeer runs them. */
  function StageOrder(s: AttachStage): nat {
    match s
    case NewTlsCert => 0
    case Dial => 1
    case NewMessageCreator => 2
    case NewProtoMessageCreator => 3
    case NewPeerMetrics => 4
    case NewResourceTracker => 5
    case TlsUpgrade => 6
    case AwaitReady => 7
  }

  class LocalNode {
    const name: string
    const networkID: uint32
    const apiPort: uint16
    const p2pPort: uint16
    const dbDir: string
    const logsDir: string
    const buildDir: string
    const config: NodeConfig
    const httpHost: string
    /** Peer ID -> peer; entries are only ever added. */
    var attachedPeers: map<string, Peer>

    /** Every peer is registered under its own ID. */
    ghost predicate Valid()
      reads this
    {
      forall id :: id in attachedPeers ==> attachedPeers[id].id == id
    }

    constructor (name: string, networkID: uint32, apiPort: uint16, p2pPort: uint16, dbDir: string,
                 logsDir: string, buildDir: string, config: NodeConfig, httpHost: string)
      ensures this.name == name && this.networkID == networkID
      ensures this.apiPort == apiPort && this.p2pPort == p2pPort
      ensures this.dbDir == dbDir && this.logsDir == logsDir && this.buildDir == buildDir
      ensures this.config == config && this.httpHost == httpHost
      ensures attachedPeers == map[] && Valid()
    {
      this.name, this.networkID, this.apiPort, this.p2pPort := name, networkID, apiPort, p2pPort;
      this.dbDir, this.logsDir, this.buildDir := dbDir, logsDir, buildDir;
      this.config, this.httpHost := config, httpHost;
      attachedPeers := map[];
    }

    /** Attaches a simulated peer. The handshake is abstract: `failing` is the
        set of stages whose library call fails, and `peerId` is the node ID of
        the TLS certificate this call generates for its own side of the
        connection; the peer is started, and so registered, under that ID, not
        under the remote node's. The first failing stage in source order is the
        error and the registry is untouched; when none fails, a new peer is
        registered under `peerId`, replacing any earlier one. */
    method AttachPeer(failing: set<AttachStage>, peerId: string) returns (r: Result<Peer>)
      requires Valid()
      modifies this`attachedPeers
      ensures Valid()
      ensures r.Err? <==> failing != {}
      ensures r.Err? ==>
        && r.error.AttachFailed? && r.error.stage in failing
        && (forall s :: StageOrder(s) < StageOrder(r.error.stage) ==> s !in failing)
        && attachedPeers == old(attachedPeers)
      ensures r.Ok? ==>
        && fresh(r.value) && r.value.id == peerId
        && attachedPeers == old(attachedPeers)[peerId := r.value]
    {
      if NewTlsCert in failing {
        return Err(AttachFailed(NewTlsCert));
      }
      if Dial in failing {
        return Err(AttachFailed(Dial));
      }
      if NewMessageCreator in failing {
        return Err(AttachFailed(NewMessageCreator));
      }
      if NewProtoMessageCreator in failing {
        return Err(AttachFailed(NewProtoMessageCreator));
      }
      if NewPeerMetrics in failing {
        return Err(AttachFailed(NewPeerMetrics));
      }
      if NewResourceTracker in failing {
        return Err(AttachFailed(NewResourceTracker));
      }
      if TlsUpgrade in failing {
        return Err(AttachFailed(TlsUpgrade));
      }
      if AwaitReady in failing {
        return Err(AttachFailed(AwaitReady));
      }
      assert failing == {} by {
        forall s ensures s !in failing {
          match s
          case NewTlsCert =>
          case Dial =>
          case NewMessageCreator =>
          case NewProtoMessageCreator =>
          case NewPeerMetrics =>
          case NewResourceTracker =>
          case TlsUpgrade =>
          case AwaitReady =>
        }
      }
      var p := new Peer(peerId);
      attachedPeers := attachedPeers[p.id := p];
      return Ok(p);
    }

    /** Hands a test message with opcode `op` and payload `content` to the
        attached peer `peerID`; `send` is the peer's Send, which reports whether
        the outbound queue took the message. */
    method SendOutboundMessage(peerID: string, content: Bytes, op: uint32, send: (Peer, OutboundMessage) -> bool)
      returns (sent: bool, err: Option<Error>)
      requires Valid()
      ensures peerID !in attachedPeers ==> !sent && err == Some(NotAttached(peerID))
      ensures peerID in attachedPeers ==>
        && err == None
        && attachedPeers[peerID].id == peerID
        && sent == send(attachedPeers[peerID], OutboundMessage(op, content, false))
    {
      if peerID !in attachedPeers {
        return false, Some(NotAttached(peerID));
      }
      var attachedPeer := attachedPeers[peerID];
      var msg := OutboundMessage(op, content, false);
      sent := send(attachedPeer, msg);
      err := None;
    }

    /** The host other processes reach the node at: the any-address exactly
        when the node listens on it, loopback otherwise. */
    function GetURL(): (url: string)
      ensures url == "0.0.0.0" <==> httpHost == "0.0.0.0" || httpHost == "."
      ensures url != "0.0.0.0" ==> url == "127.0.0.1"
    {
      if httpHost == "0.0.0.0" || httpHost == "." then "0.0.0.0" else "127.0.0.1"
    }

    /** The build directory: the explicit one, else the directory holding the binary. */
    function GetBuildDir(): (d: string)
      ensures buildDir != "" ==> d == buildDir
      ensures buildDir == "" ==> d == Dir(config.binaryPath)
    {
      if buildDir == "" then Dir(config.binaryPath) else buildDir
    }

    /** Without an explicit build directory, a binary at `dir/name` builds in `dir`,
        and a binary given by bare name builds in ".". */
    lemma BuildDirOfBinary(dir: string, binaryName: string)
      requires buildDir == "" && binaryName != "" && Separator !in binaryName
      ensures dir != "" && config.binaryPath == Join(dir, binaryName) ==> GetBuildDir() == dir
      ensures config.binaryPath == binaryName ==> GetBuildDir() == "."
    {
      if dir != "" && config.binaryPath == Join(dir, binaryName) {
        DirOfJoin(dir, binaryName);
      }
      if config.binaryPath == binaryName {
        DirOfBareName(binaryName);
      }
    }

    /** The string flag `k`: when the node has config-file text, only the parsed
        file is consulted (`parse` is JSON decoding, a partial function);
        otherwise only the node's flags. A missing key is "" and a non-string
        an error. A nil flag map behaves as an empty one. */
    function GetFlag(k: string, parse: Bytes -> Option<Flags>): (r: Result<string>)
      ensures |config.configFile| != 0 && parse(config.configFile).None? ==> r == Err(ParseFailed)
      ensures |config.configFile| != 0 && parse(config.configFile).Some? ==>
        r == LookupString(parse(config.configFile).value, k, "")
      ensures |config.configFile| == 0 ==> r == LookupString(config.flags, k, "")
    {
      if |config.configFile| != 0 then
        match parse(config.configFile)
        case None => Err(ParseFailed)
        case Some(configFileMap) =>
          if k in configFileMap then
            match configFileMap[k]
            case Str(v) => Ok(v)
            case _ => Err(TypeMismatch(k))
          else Ok("")
      else if k in config.flags then
        match config.flags[k]
        case Str(v) => Ok(v)
        case _ => Err(TypeMismatch(k))
      else Ok("")
    }
  }

  /** With config-file text present, the node's flags never influence GetFlag. */
  lemma GetFlagIgnoresFlags(a: LocalNode, b: LocalNode, k: string, parse: Bytes -> Option<Flags>)
    requires a.config.configFile == b.config.configFile && |a.config.configFile| != 0
    ensures a.GetFlag(k, parse) == b.GetFlag(k, parse)
  {
  }

  /** GetFlag and getConfigEntry resolve a key present in both places in
      opposite ways: GetFlag takes the config file's value, getConfigEntry the
      node flag's. */
  lemma GetFlagOppositePrecedence(n: LocalNode, k: string, parse: Bytes -> Option<Flags>, defaultVal: string)
    requires |n.config.configFile| != 0 && parse(n.config.configFile).Some?
    requires var fileFlags := parse(n.config.configFile).value;
      k in fileFlags && fileFlags[k].Str? && k in n.config.flags && n.config.flags[k].Str?
    ensures var fileFlags := parse(n.config.configFile).value;
      && n.GetFlag(k, parse) == Ok(fileFlags[k].s)
      && GetConfigEntry(n.config.flags, fileFlags, k, defaultVal) == Ok(n.config.flags[k].s)
  {
  }
}
