/** Flag precedence, lookups, port resolution and the node directory name
    (local/helpers.go). */
module Helpers {
  import opened Types
  import opened Paths

  // ---------------------------------------------------------------------------
  // Lookups in a single flag map (the reference the precedence rules are stated by)
  // ---------------------------------------------------------------------------

  /** The string under `key` in one map: absent gives `default`, a non-string is an error. */
  function LookupString(m: Flags, key: string, default: string): (r: Result<string>)
    ensures key !in m ==> r == Ok(default)
    ensures key in m ==> (r.Ok? <==> m[key].Str?)
    ensures key in m && m[key].Str? ==> r.value == m[key].s
    ensures r.Err? ==> r.error == TypeMismatch(key)
  {
    if key !in m then Ok(default)
    else match m[key]
      case Str(s) => Ok(s)
      case _ => Err(TypeMismatch(key))
  }

  // ---------------------------------------------------------------------------
  // getConfigEntry
  // ---------------------------------------------------------------------------

  /** A string entry: node flags first, then the config file, then `defaultVal`.
      A non-string in the node flags is an error even when the config file
      holds a string for the same key. */
  function GetConfigEntry(nodeConfigFlags: Flags, configFile: Flags, flag: string, defaultVal: string): (r: Result<string>)
    ensures flag in nodeConfigFlags ==>
      r == (if nodeConfigFlags[flag].Str? then Ok(nodeConfigFlags[flag].s) else Err(TypeMismatch(flag)))
    ensures flag !in nodeConfigFlags && flag in configFile ==>
      r == (if configFile[flag].Str? then Ok(configFile[flag].s) else Err(TypeMismatch(flag)))
    ensures flag !in nodeConfigFlags && flag !in configFile ==> r == Ok(defaultVal)
  {
    if flag in nodeConfigFlags then
      match nodeConfigFlags[flag]
      case Str(entry) => Ok(entry)
      case _ => Err(TypeMismatch(flag))
    else if flag in configFile then
      match configFile[flag]
      case Str(entry) => Ok(entry)
      case _ => Err(TypeMismatch(flag))
    else
      Ok(defaultVal)
  }

  /** getConfigEntry is a lookup in the merge of the two maps in which the node
      flags win: the same precedence as addNetworkFlags. */
  lemma ConfigEntryIsMergedLookup(nodeConfigFlags: Flags, configFile: Flags, flag: string, defaultVal: string)
    ensures GetConfigEntry(nodeConfigFlags, configFile, flag, defaultVal)
         == LookupString(MergeFlags(configFile, nodeConfigFlags), flag, defaultVal)
  {
  }

  // ---------------------------------------------------------------------------
  // getPort
  // ---------------------------------------------------------------------------

  /** Go's conversion of an integer to uint16: the low 16 bits, two's complement. */
  function ToUint16(x: int): (p: uint16)
    ensures 0 <= x < 0x1_0000 ==> p == x
    ensures (x - p) % 0x1_0000 == 0
  {
    x % 0x1_0000
  }

  /** The port under `portKey`: a flags entry (int or float) wins, then a
      config-file entry (float only), then the OS free-port oracle `freePort`. */
  function GetPort(flags: Flags, configFile: Flags, portKey: string, freePort: Result<uint16>): (r: Result<uint16>)
    ensures portKey in flags && flags[portKey].Int? ==> r == Ok(ToUint16(flags[portKey].i))
    ensures portKey in flags && flags[portKey].Float? ==> r == Ok(ToUint16(flags[portKey].f))
    ensures portKey in flags && (flags[portKey].Str? || flags[portKey].Other?) ==> r == Err(TypeMismatch(portKey))
    ensures portKey !in flags && portKey in configFile ==>
      r == (if configFile[portKey].Float? then Ok(ToUint16(configFile[portKey].f)) else Err(TypeMismatch(portKey)))
    ensures portKey !in flags && portKey !in configFile ==>
      r == (if freePort.Ok? then freePort else Err(NoFreePort(freePort.error)))
  {
    if portKey in flags then
      match flags[portKey]
      case Int(gotPort) => Ok(ToUint16(gotPort))
      case Float(gotPort) => Ok(ToUint16(gotPort))
      case _ => Err(TypeMismatch(portKey))
    else if portKey in configFile then
      match configFile[portKey]
      case Float(portFromConfigFile) => Ok(ToUint16(portFromConfigFile))
      case _ => Err(TypeMismatch(portKey))
    else
      match freePort
      case Ok(port) => Ok(port)
      case Err(e) => Err(NoFreePort(e))
  }

  /** Once the flags hold the key, neither the config file nor the free-port
      oracle can change the outcome; once the config file holds it, the oracle cannot. */
  lemma GetPortPrecedence(flags: Flags, configFile: Flags, configFile': Flags, portKey: string,
                          freePort: Result<uint16>, freePort': Result<uint16>)
    ensures portKey in flags ==>
      GetPort(flags, configFile, portKey, freePort) == GetPort(flags, configFile', portKey, freePort')
    ensures portKey !in flags && portKey in configFile ==>
      GetPort(flags, configFile, portKey, freePort) == GetPort(flags, configFile, portKey, freePort')
  {
  }

  /** A port written as a number comes back unchanged from the flags (int or
      float) and from the config file (float), but an int in the config file is refused. */
  lemma GetPortExplicit(portKey: string, port: uint16, freePort: Result<uint16>)
    ensures GetPort(map[portKey := Int(port)], map[], portKey, freePort) == Ok(port)
    ensures GetPort(map[portKey := Float(port)], map[], portKey, freePort) == Ok(port)
    ensures GetPort(map[], map[portKey := Float(port)], portKey, freePort) == Ok(port)
    ensures GetPort(map[], map[portKey := Int(port)], portKey, freePort) == Err(TypeMismatch(portKey))
  {
  }

  // ---------------------------------------------------------------------------
  // addNetworkFlags
  // ---------------------------------------------------------------------------

  /** The result of adding `networkFlags` to `nodeFlags`: every key of either
      map, with the node's value wherever the node has one. */
  function MergeFlags(networkFlags: Flags, nodeFlags: Flags): (m: Flags)
    ensures m.Keys == networkFlags.Keys + nodeFlags.Keys
    ensures forall k :: k in nodeFlags ==> m[k] == nodeFlags[k]
    ensures forall k :: k in networkFlags && k !in nodeFlags ==> m[k] == networkFlags[k]
  {
    map k | k in networkFlags.Keys + nodeFlags.Keys ::
      if k in nodeFlags then nodeFlags[k] else networkFlags[k]
  }

  /** Adding the same network flags a second time changes nothing. */
  lemma MergeFlagsIdempotent(networkFlags: Flags, nodeFlags: Flags)
    ensures MergeFlags(networkFlags, MergeFlags(networkFlags, nodeFlags)) == MergeFlags(networkFlags, nodeFlags)
  {
  }

  /** A Go map, shared by reference: the node's flag map that addNetworkFlags fills in place. */
  class FlagMap {
    var entries: Flags

    constructor (entries: Flags)
      ensures this.entries == entries
    {
      this.entries := entries;
    }
  }

  /** Copies into `nodeFlags` every network flag the node does not set itself.
      The two maps may be the same object; then nothing changes. */
  method AddNetworkFlags(networkFlags: FlagMap, nodeFlags: FlagMap)
    modifies nodeFlags
    ensures nodeFlags.entries == MergeFlags(old(networkFlags.entries), old(nodeFlags.entries))
    ensures networkFlags != nodeFlags ==> networkFlags.entries == old(networkFlags.entries)
  {
    var network := networkFlags.entries;
    ghost var node0 := nodeFlags.entries;
    var todo := network.Keys;
    while todo != {}
      invariant todo <= network.Keys
      invariant nodeFlags.entries == MergeFlags(map k | k in network && k !in todo :: network[k], node0)
      decreases todo
    {
      var flagName :| flagName in todo;
      if flagName !in nodeFlags.entries {
        nodeFlags.entries := nodeFlags.entries[flagName := network[flagName]];
      }
      todo := todo - {flagName};
    }
    assert (map k | k in network && k !in todo :: network[k]) == network;
  }

  // ---------------------------------------------------------------------------
  // getNodeDir
  // ---------------------------------------------------------------------------

  /** A node's runtime directory: `rootDir/nodeName`, or `nodeName` relative to
      the working directory when no root directory is given. */
  function GetNodeDir(rootDir: string, nodeName: string): (d: string)
    ensures rootDir == "" ==> d == nodeName
    ensures rootDir != "" && nodeName != "" ==> d == rootDir + "/" + nodeName
  {
    Join(rootDir, nodeName)
  }

  /** The node directory sits directly under the root directory. */
  lemma NodeDirUnderRoot(rootDir: string, nodeName: string)
    requires rootDir != "" && nodeName != "" && Separator !in nodeName
    ensures Dir(GetNodeDir(rootDir, nodeName)) == rootDir
  {
    DirOfJoin(rootDir, nodeName);
  }
}
