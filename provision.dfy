/** Writing the files a node needs on startup (local/helpers.go: writeFiles,
    createFileAndWrite, makeNodeDir) against an abstract file system. */
module Provision {
  import opened Types
  import opened Paths
  import opened Helpers

  // ---------------------------------------------------------------------------
  // Names the core refers to (declared in files that are not part of this model;
  // the proofs rely only on their being distinct and free of separators)
  // ---------------------------------------------------------------------------

  const LocalID: uint32 := 12345

  const StakingKeyFileName: string := "staking.key"
  const StakingCertFileName: string := "staking.crt"
  const StakingSigningKeyFileName: string := "signer.key"
  const GenesisFileName: string := "genesis.json"
  const ConfigFileName: string := "config.json"
  const UpgradeConfigFileName: string := "upgrade.json"
  const ChainConfigSubDir: string := "chainConfigs"
  const SubnetConfigSubDir: string := "subnetConfigs"

  const StakingTLSKeyPathKey: string := "staking-tls-key-file"
  const StakingCertPathKey: string := "staking-tls-cert-file"
  const StakingSignerKeyPathKey: string := "staking-signer-key-file"
  const GenesisFileKey: string := "genesis"
  const ConfigFileKey: string := "config-file"
  const ChainConfigDirKey: string := "chain-config-dir"
  const SubnetConfigDirKey: string := "subnet-config-dir"

  type Files = map<string, Bytes>

  // ---------------------------------------------------------------------------
  // The file system
  // ---------------------------------------------------------------------------

  /** The directories and files on disk, the paths at which the OS refuses to
      create a directory or a file, and the paths whose Write fails once the
      file has been created (the model of every I/O error). */
  class FileSystem {
    var dirs: set<string>
    var files: Files
    const failing: set<string>
    const unwritable: set<string>

    constructor (dirs: set<string>, files: Files, failing: set<string>, unwritable: set<string>)
      ensures this.dirs == dirs && this.files == files
      ensures this.failing == failing && this.unwritable == unwritable
    {
      this.dirs, this.files := dirs, files;
      this.failing, this.unwritable := failing, unwritable;
    }

    /* Refusals are stated against `blocked`, the directories that are refused
       and absent when a write starts (`failing - old(dirs)`). No write ever
       creates one of them, so the set stays the same for the whole write. */

    /** The OS refuses to write the file at `p`: its parent directory cannot be
        created, the file itself cannot be created, or its Write fails. */
    ghost predicate Refused(p: string, blocked: set<string>) {
      Dir(p) in blocked || p in failing || p in unwritable
    }

    /** `e` is an error createFileAndWrite can report for `p`: the refused
        parent directory, or the refused file. */
    ghost predicate RefusalOf(p: string, e: Error, blocked: set<string>) {
      || (e == IoFailed(Dir(p)) && Dir(p) in blocked)
      || (e == IoFailed(p) && (p in failing || p in unwritable))
    }

    /** No file of `w` is refused. */
    ghost predicate NoneRefused(w: Files, blocked: set<string>) {
      forall p :: p in w ==> !Refused(p, blocked)
    }

    /** `e` is writeFiles' "couldn't write file" error for a file of `w` the OS refused. */
    ghost predicate WriteRefused(w: Files, e: Error, blocked: set<string>) {
      e.WriteFailed? && e.path in w && RefusalOf(e.path, e.cause, blocked)
    }

    /** `e` is an error writeFiles can report for the plan `w` with configuration
        directories `x` and `y`: a refused file of `w`, or a refused directory. */
    ghost predicate PlanRefusal(w: Files, x: string, y: string, e: Error, blocked: set<string>) {
      || WriteRefused(w, e, blocked)
      || (e == IoFailed(x) && x in blocked)
      || (e == IoFailed(y) && y in blocked)
    }

    /** os.MkdirAll: nothing to do for an existing directory. */
    method MkdirAll(dir: string) returns (o: Outcome)
      modifies this`dirs
      ensures o == (if dir in old(dirs) || dir !in failing then Pass else Fail(IoFailed(dir)))
      ensures dirs == (if o.Pass? then old(dirs) + {dir} else old(dirs))
      ensures failing - dirs == failing - old(dirs)
    {
      if dir in dirs {
        o := Pass;
      } else if dir in failing {
        o := Fail(IoFailed(dir));
      } else {
        dirs := dirs + {dir};
        o := Pass;
      }
    }

    /** os.Mkdir: an existing directory is an error of its own kind. */
    method Mkdir(dir: string) returns (o: Outcome)
      modifies this`dirs
      ensures dir in old(dirs) ==> o == Fail(AlreadyExists(dir))
      ensures dir !in old(dirs) ==> o == (if dir in failing then Fail(IoFailed(dir)) else Pass)
      ensures dirs == old(dirs) + {dir} - (if dir in old(dirs) || dir !in failing then {} else {dir})
    {
      if dir in dirs {
        o := Fail(AlreadyExists(dir));
      } else if dir in failing {
        o := Fail(IoFailed(dir));
      } else {
        dirs := dirs + {dir};
        o := Pass;
      }
    }

    /** os.Create, which creates or truncates the file, followed by a single
        Write of the whole payload. A Write that fails leaves the file holding
        some prefix of `contents`. */
    method CreateAndWrite(path: string, contents: Bytes) returns (o: Outcome)
      modifies this`files
      ensures o == (if path in failing || path in unwritable then Fail(IoFailed(path)) else Pass)
      ensures path in failing ==> files == old(files)
      ensures path !in failing ==> path in files && files == old(files)[path := files[path]]
      ensures path !in failing && path !in unwritable ==> files[path] == contents
      ensures path !in failing && path in unwritable ==> files[path] <= contents
    {
      if path in failing {
        o := Fail(IoFailed(path));
      } else if path in unwritable {
        var written :| 0 <= written <= |contents|;
        files := files[path := contents[..written]];
        o := Fail(IoFailed(path));
      } else {
        files := files[path := contents];
        o := Pass;
      }
    }

    /** createFileAndWrite: the parent directory first, then the file. On
        success the parent exists and the file holds exactly `contents`; a
        failure names the refused directory or file, and leaves at most the
        file at `path` created with a prefix of `contents`. */
    method CreateFileAndWrite(path: string, contents: Bytes) returns (o: Outcome)
      modifies this`dirs, this`files
      ensures Dir(path) !in old(dirs) && Dir(path) in failing ==>
        o == Fail(IoFailed(Dir(path))) && dirs == old(dirs) && files == old(files)
      ensures Dir(path) in old(dirs) || Dir(path) !in failing ==>
        && dirs == old(dirs) + {Dir(path)}
        && o == (if path in failing || path in unwritable then Fail(IoFailed(path)) else Pass)
        && (path in failing ==> files == old(files))
        && (path !in failing ==> path in files && files == old(files)[path := files[path]] && files[path] <= contents)
      ensures o.Pass? ==> Dir(path) in dirs && files == old(files)[path := contents]
      ensures failing - dirs == failing - old(dirs)
      ensures o.Pass? <==> !Refused(path, failing - old(dirs))
      ensures o.Fail? ==> RefusalOf(path, o.error, failing - old(dirs))
      ensures o.Fail? ==> files == old(files) || Truncated(old(files), files, path, contents)
    {
      o := MkdirAll(Dir(path));
      if o.Fail? {
        return;
      }
      o := CreateAndWrite(path, contents);
    }
  }

  /** `after` is `before` with the file at `p` created holding only a prefix of `contents`. */
  ghost predicate Truncated(before: Files, after: Files, p: string, contents: Bytes) {
    p in after && after == before[p := after[p]] && after[p] <= contents
  }

  // ---------------------------------------------------------------------------
  // makeNodeDir and getNodeDir
  // ---------------------------------------------------------------------------

  /** Creates the node's runtime directory; finding it already there is not an error. */
  method MakeNodeDir(fs: FileSystem, rootDir: string, nodeName: string) returns (r: Result<string>)
    modifies fs`dirs
    ensures var d := GetNodeDir(rootDir, nodeName);
      && (r.Err? <==> d !in old(fs.dirs) && d in fs.failing)
      && (r.Err? ==> r.error == NodeDirFailed(IoFailed(d)) && fs.dirs == old(fs.dirs))
      && (r.Ok? ==> r.value == d && fs.dirs == old(fs.dirs) + {d})
  {
    var nodeRootDir := GetNodeDir(rootDir, nodeName);
    var o := fs.Mkdir(nodeRootDir);
    if o.Fail? && !o.error.AlreadyExists? {
      return Err(NodeDirFailed(o.error));
    }
    return Ok(nodeRootDir);
  }

  // ---------------------------------------------------------------------------
  // The plan writeFiles carries out
  // ---------------------------------------------------------------------------

  /** One entry of writeFiles' `files` slice. */
  datatype FileEntry = FileEntry(pathKey: string, flagValue: string, path: string, contents: Bytes)

  function FileAt(nodeRootDir: string, pathKey: string, fileName: string, contents: Bytes): FileEntry {
    FileEntry(pathKey, Join(nodeRootDir, fileName), Join(nodeRootDir, fileName), contents)
  }

  /** The credential, genesis and config files, in the order writeFiles lists them.
      `signingKey` is the already decoded signing key. */
  function ListedFiles(networkID: uint32, genesis: Bytes, nodeRootDir: string, nodeConfig: NodeConfig, signingKey: Bytes): seq<FileEntry> {
    [ FileAt(nodeRootDir, StakingTLSKeyPathKey, StakingKeyFileName, nodeConfig.stakingKey),
      FileAt(nodeRootDir, StakingCertPathKey, StakingCertFileName, nodeConfig.stakingCert),
      FileAt(nodeRootDir, StakingSignerKeyPathKey, StakingSigningKeyFileName, signingKey) ]
    + (if networkID != LocalID then [FileAt(nodeRootDir, GenesisFileKey, GenesisFileName, genesis)] else [])
    + (if |nodeConfig.configFile| != 0 then [FileAt(nodeRootDir, ConfigFileKey, ConfigFileName, nodeConfig.configFile)] else [])
  }

  /** The flags that writing `files` in order records (a later entry wins). */
  function FlagsOf(files: seq<FileEntry>): map<string, string>
    decreases |files|
  {
    if files == [] then map[]
    else FlagsOf(files[..|files| - 1])[files[|files| - 1].pathKey := files[|files| - 1].flagValue]
  }

  /** The files that writing `files` in order leaves behind (a later entry wins). */
  function WritesOf(files: seq<FileEntry>): Files
    decreases |files|
  {
    if files == [] then map[]
    else WritesOf(files[..|files| - 1])[files[|files| - 1].path := files[|files| - 1].contents]
  }

  function ChainConfigDir(nodeRootDir: string): string {
    Join(nodeRootDir, ChainConfigSubDir)
  }

  function SubnetConfigDir(nodeRootDir: string): string {
    Join(nodeRootDir, SubnetConfigSubDir)
  }

  /** The three per-chain and per-subnet maps writeFiles writes out. */
  datatype Group = ChainConfigs | UpgradeConfigs | SubnetConfigs

  function GroupFiles(nodeConfig: NodeConfig, g: Group): map<string, Bytes> {
    match g
    case ChainConfigs => nodeConfig.chainConfigFiles
    case UpgradeConfigs => nodeConfig.upgradeConfigFiles
    case SubnetConfigs => nodeConfig.subnetConfigFiles
  }

  /** Where the file for chain alias or subnet ID `key` of group `g` goes. */
  function GroupPath(nodeRootDir: string, g: Group, key: string): string {
    match g
    case ChainConfigs => Join(Join(ChainConfigDir(nodeRootDir), key), ConfigFileName)
    case UpgradeConfigs => Join(Join(ChainConfigDir(nodeRootDir), key), UpgradeConfigFileName)
    case SubnetConfigs => Join(SubnetConfigDir(nodeRootDir), key + ".json")
  }

  /** The path function of group `g`. */
  function PathOf(nodeRootDir: string, g: Group): string -> string {
    key => GroupPath(nodeRootDir, g, key)
  }

  /** The files group `g` of map `m` produces: one per key, holding that key's value. */
  ghost function GroupWrites(nodeRootDir: string, g: Group, m: map<string, Bytes>): (w: Files)
    ensures forall key :: key in m ==> GroupPath(nodeRootDir, g, key) in w && w[GroupPath(nodeRootDir, g, key)] == m[key]
  {
    GroupPathsInjective(nodeRootDir, g);
    var w := Relocate(m, PathOf(nodeRootDir, g));
    assert forall key :: PathOf(nodeRootDir, g)(key) == GroupPath(nodeRootDir, g, key);
    w
  }

  ghost predicate Injective(f: string -> string) {
    forall a, b :: f(a) == f(b) ==> a == b
  }

  /** Every value of `m` moved to the path `f` gives its key. */
  ghost function Relocate(m: map<string, Bytes>, f: string -> string): (w: Files)
    requires Injective(f)
    ensures forall k :: k in m ==> f(k) in w && w[f(k)] == m[k]
  {
    map k | k in m :: f(k) := m[k]
  }

  lemma RelocateKeys(m: map<string, Bytes>, f: string -> string, p: string)
    requires Injective(f) && p in Relocate(m, f)
    ensures exists k :: k in m && f(k) == p
  {
  }

  lemma RelocateInsert(m: map<string, Bytes>, f: string -> string, k: string, v: Bytes)
    requires Injective(f)
    ensures Relocate(m[k := v], f) == Relocate(m, f)[f(k) := v]
  {
    var lhs, rhs := Relocate(m[k := v], f), Relocate(m, f)[f(k) := v];
    forall p | p in lhs ensures p in rhs && lhs[p] == rhs[p] {
      RelocateKeys(m[k := v], f, p);
    }
    forall p | p in rhs ensures p in lhs {
      if p != f(k) {
        RelocateKeys(m, f, p);
      }
    }
    assert lhs == rhs;
  }

  lemma RelocateSub(a: map<string, Bytes>, b: map<string, Bytes>, f: string -> string)
    requires Injective(f) && SubMap(a, b)
    ensures SubMap(Relocate(a, f), Relocate(b, f))
  {
    forall p | p in Relocate(a, f) ensures p in Relocate(b, f) && Relocate(a, f)[p] == Relocate(b, f)[p] {
      RelocateKeys(a, f, p);
    }
  }

  /** The parent directories of the files of `w`. */
  ghost function DirsOf(w: Files): set<string> {
    Parents(w.Keys)
  }

  /** The directories of the paths in `s`, collected one path at a time. */
  ghost function Parents(s: set<string>): set<string>
    decreases s
  {
    if s == {} then {}
    else
      var p :| p in s;
      Parents(s - {p}) + {Dir(p)}
  }

  /** The flags writeFiles returns. */
  function PlannedFlags(networkID: uint32, genesis: Bytes, nodeRootDir: string, nodeConfig: NodeConfig, signingKey: Bytes): map<string, string> {
    FlagsOf(ListedFiles(networkID, genesis, nodeRootDir, nodeConfig, signingKey))
      [ChainConfigDirKey := ChainConfigDir(nodeRootDir)]
      [SubnetConfigDirKey := SubnetConfigDir(nodeRootDir)]
  }

  /** Every file writeFiles writes, with its contents. */
  ghost function PlannedWrites(networkID: uint32, genesis: Bytes, nodeRootDir: string, nodeConfig: NodeConfig, signingKey: Bytes): Files {
    WritesOf(ListedFiles(networkID, genesis, nodeRootDir, nodeConfig, signingKey))
    + ( GroupWrites(nodeRootDir, ChainConfigs, nodeConfig.chainConfigFiles)
      + GroupWrites(nodeRootDir, UpgradeConfigs, nodeConfig.upgradeConfigFiles)
      + GroupWrites(nodeRootDir, SubnetConfigs, nodeConfig.subnetConfigFiles))
  }

  /** Every directory writeFiles creates. */
  ghost function PlannedDirs(networkID: uint32, genesis: Bytes, nodeRootDir: string, nodeConfig: NodeConfig, signingKey: Bytes): set<string> {
    {ChainConfigDir(nodeRootDir), SubnetConfigDir(nodeRootDir)}
    + DirsOf(PlannedWrites(networkID, genesis, nodeRootDir, nodeConfig, signingKey))
  }

  /** `after` differs from `before` only by files of `planned`, each holding its
      planned contents, except that the file at `partial` may hold only a prefix
      of them (a Write that failed after its Create). */
  ghost predicate WrittenWithin(before: Files, after: Files, planned: Files, partial: string) {
    && before.Keys <= after.Keys
    && forall p :: p in after ==>
         || (p in planned && (after[p] == planned[p] || (p == partial && after[p] <= planned[p])))
         || (p in before && after[p] == before[p])
  }

  ghost predicate SubMap(a: Files, b: Files) {
    forall p :: p in a ==> p in b && a[p] == b[p]
  }

  // ---------------------------------------------------------------------------
  // writeFiles
  // ---------------------------------------------------------------------------

  /** Writes one file per key of `m`, at `path(key)`, in no particular order
      (the loops writeFiles runs over its per-chain and per-subnet maps). */
  method WriteConfigGroup(fs: FileSystem, m: map<string, Bytes>, path: string -> string) returns (o: Outcome)
    requires Injective(path)
    modifies fs`dirs, fs`files
    ensures o.Pass? ==>
      && fs.files == old(fs.files) + Relocate(m, path)
      && fs.dirs == old(fs.dirs) + DirsOf(Relocate(m, path))
    ensures o.Fail? ==>
      && fs.WriteRefused(Relocate(m, path), o.error, fs.failing - old(fs.dirs))
      && WrittenWithin(old(fs.files), fs.files, Relocate(m, path), ErrorPath(o.error))
      && old(fs.dirs) <= fs.dirs <= old(fs.dirs) + DirsOf(Relocate(m, path))
    ensures o.Pass? <==> fs.NoneRefused(Relocate(m, path), fs.failing - old(fs.dirs))
    ensures fs.failing - fs.dirs == fs.failing - old(fs.dirs)
  {
    var todo := m.Keys;
    while todo != {}
      invariant todo <= m.Keys
      invariant fs.files == old(fs.files) + Relocate(m - todo, path)
      invariant fs.dirs == old(fs.dirs) + DirsOf(Relocate(m - todo, path))
      invariant fs.failing - fs.dirs == fs.failing - old(fs.dirs)
      invariant fs.NoneRefused(Relocate(m - todo, path), fs.failing - old(fs.dirs))
      decreases todo
    {
      var key :| key in todo;
      ghost var files0, dirs0 := fs.files, fs.dirs;
      o := fs.CreateFileAndWrite(path(key), m[key]);
      if o.Fail? {
        WriteFailStep(old(fs.files), old(fs.dirs), m, todo, path, key, dirs0, fs.dirs);
        PartialWithin(old(fs.files), files0, fs.files, Relocate(m, path), path(key));
        RefusalRefutes(fs, Relocate(m, path), WriteFailed(path(key), o.error), fs.failing - old(fs.dirs));
        return Fail(WriteFailed(path(key), o.error));
      }
      WriteStep(old(fs.files), old(fs.dirs), m, todo, path, key);
      NoneRefusedInsert(fs, Relocate(m - todo, path), path(key), m[key], fs.failing - old(fs.dirs));
      todo := todo - {key};
    }
    assert m - todo == m;
    return Pass;
  }

  /** writeFiles: decodes the signing key, then carries out the plan (WritePlan).
      `decode` is base64 decoding (standard alphabet), a partial function. */
  method WriteFiles(fs: FileSystem, networkID: uint32, genesis: Bytes, nodeRootDir: string,
                    nodeConfig: NodeConfig, decode: Bytes -> Option<Bytes>)
    returns (r: Result<map<string, string>>)
    modifies fs`dirs, fs`files
    ensures decode(nodeConfig.stakingSigningKey).None? ==>
      r == Err(DecodeFailed) && fs.files == old(fs.files) && fs.dirs == old(fs.dirs)
    ensures decode(nodeConfig.stakingSigningKey).Some? ==>
      var signingKey := decode(nodeConfig.stakingSigningKey).value;
      var planned := PlannedWrites(networkID, genesis, nodeRootDir, nodeConfig, signingKey);
      var plannedDirs := PlannedDirs(networkID, genesis, nodeRootDir, nodeConfig, signingKey);
      var blocked := fs.failing - old(fs.dirs);
      && (r.Ok? ==> && r.value == PlannedFlags(networkID, genesis, nodeRootDir, nodeConfig, signingKey)
                    && fs.files == old(fs.files) + planned
                    && fs.dirs == old(fs.dirs) + plannedDirs)
      && (r.Err? ==> && fs.PlanRefusal(planned, ChainConfigDir(nodeRootDir), SubnetConfigDir(nodeRootDir), r.error, blocked)
                     && WrittenWithin(old(fs.files), fs.files, planned, ErrorPath(r.error))
                     && old(fs.dirs) <= fs.dirs <= old(fs.dirs) + plannedDirs)
      && (r.Ok? <==> ChainConfigDir(nodeRootDir) !in blocked && SubnetConfigDir(nodeRootDir) !in blocked
                     && fs.NoneRefused(planned, blocked))
    ensures decode(nodeConfig.stakingSigningKey).Some? && r.Err? ==>
      StoppedInPlan(old(fs.files), old(fs.dirs), fs.files, fs.dirs,
                    ListedFiles(networkID, genesis, nodeRootDir, nodeConfig, decode(nodeConfig.stakingSigningKey).value),
                    ChainConfigDir(nodeRootDir), SubnetConfigDir(nodeRootDir), r.error)
  {
    var decoded := decode(nodeConfig.stakingSigningKey);
    if decoded.None? {
      return Err(DecodeFailed);
    }
    var decodedStakingSigningKey := decoded.value;
    var files := ListedFiles(networkID, genesis, nodeRootDir, nodeConfig, decodedStakingSigningKey);
    ListedPathsDistinct(networkID, genesis, nodeRootDir, nodeConfig, decodedStakingSigningKey);
    GroupPathsInjective(nodeRootDir, ChainConfigs);
    GroupPathsInjective(nodeRootDir, UpgradeConfigs);
    GroupPathsInjective(nodeRootDir, SubnetConfigs);
    PlanDisjoint(networkID, genesis, nodeRootDir, nodeConfig, decodedStakingSigningKey);
    r := WritePlan(fs, files, ChainConfigDir(nodeRootDir), SubnetConfigDir(nodeRootDir),
                   nodeConfig.chainConfigFiles, PathOf(nodeRootDir, ChainConfigs),
                   nodeConfig.upgradeConfigFiles, PathOf(nodeRootDir, UpgradeConfigs),
                   nodeConfig.subnetConfigFiles, PathOf(nodeRootDir, SubnetConfigs));
  }

  /** The rest of writeFiles: writes the credential, genesis and config files
      listed in `files` and records a flag for each, creates the chain-config and
      subnet-config directories and records them, then writes the per-chain,
      per-upgrade and per-subnet files, each map to its own path function. */
  method WritePlan(fs: FileSystem, files: seq<FileEntry>, chainConfigDir: string, subnetConfigDir: string,
                   chain: map<string, Bytes>, chainPath: string -> string,
                   upgrade: map<string, Bytes>, upgradePath: string -> string,
                   subnet: map<string, Bytes>, subnetPath: string -> string)
    returns (r: Result<map<string, string>>)
    requires DistinctPaths(files)
    requires Injective(chainPath) && Injective(upgradePath) && Injective(subnetPath)
    requires Disjoint4(WritesOf(files), Relocate(chain, chainPath), Relocate(upgrade, upgradePath), Relocate(subnet, subnetPath))
    modifies fs`dirs, fs`files
    ensures var planned := WritesOf(files) + (Relocate(chain, chainPath) + Relocate(upgrade, upgradePath) + Relocate(subnet, subnetPath));
      var plannedDirs := {chainConfigDir, subnetConfigDir} + DirsOf(planned);
      var blocked := fs.failing - old(fs.dirs);
      && (r.Ok? ==> && r.value == FlagsOf(files)[ChainConfigDirKey := chainConfigDir][SubnetConfigDirKey := subnetConfigDir]
                    && fs.files == old(fs.files) + planned
                    && fs.dirs == old(fs.dirs) + plannedDirs)
      && (r.Err? ==> && fs.PlanRefusal(planned, chainConfigDir, subnetConfigDir, r.error, blocked)
                     && WrittenWithin(old(fs.files), fs.files, planned, ErrorPath(r.error))
                     && old(fs.dirs) <= fs.dirs <= old(fs.dirs) + plannedDirs)
      && (r.Ok? <==> chainConfigDir !in blocked && subnetConfigDir !in blocked && fs.NoneRefused(planned, blocked))
    ensures fs.failing - fs.dirs == fs.failing - old(fs.dirs)
    ensures r.Err? ==> StoppedInPlan(old(fs.files), old(fs.dirs), fs.files, fs.dirs, files, chainConfigDir, subnetConfigDir, r.error)
  {
    ghost var listed := WritesOf(files);
    ghost var groups := Relocate(chain, chainPath) + Relocate(upgrade, upgradePath) + Relocate(subnet, subnetPath);
    ghost var blocked := fs.failing - fs.dirs;
    DisjointSub(listed, Relocate(chain, chainPath), Relocate(upgrade, upgradePath), Relocate(subnet, subnetPath));
    var flags, o := WriteListedFiles(fs, files);
    if o.Fail? {
      PlanFailListed(fs, old(fs.files), old(fs.dirs), listed, groups, fs.files, fs.dirs, chainConfigDir, subnetConfigDir, o.error, blocked);
      StoppedInListed(old(fs.files), old(fs.dirs), fs.files, fs.dirs, files, chainConfigDir, subnetConfigDir, o.error);
      return Err(o.error);
    }
    ghost var midFiles, midDirs := fs.files, fs.dirs;
    r := WriteConfigs(fs, flags, chainConfigDir, subnetConfigDir, chain, chainPath, upgrade, upgradePath, subnet, subnetPath);
    if r.Err? {
      StoppedInConfigs(fs, old(fs.files), old(fs.dirs), midFiles, midDirs, fs.files, fs.dirs, files, groups,
                       chainConfigDir, subnetConfigDir, r.error, blocked);
      PlanFailConfigs(fs, old(fs.files), old(fs.dirs), listed, groups, fs.files, fs.dirs, chainConfigDir, subnetConfigDir, r.error, blocked);
      return;
    }
    PlanDone(old(fs.files), old(fs.dirs), listed, groups, fs.files, fs.dirs, chainConfigDir, subnetConfigDir);
    NoneRefusedUnion(fs, listed, groups, blocked);
  }

  /** The second half of writeFiles: creates the chain-config and subnet-config
      directories and records each in `flags`, then writes the per-chain,
      per-upgrade and per-subnet files. */
  method WriteConfigs(fs: FileSystem, flags: map<string, string>, chainConfigDir: string, subnetConfigDir: string,
                      chain: map<string, Bytes>, chainPath: string -> string,
                      upgrade: map<string, Bytes>, upgradePath: string -> string,
                      subnet: map<string, Bytes>, subnetPath: string -> string)
    returns (r: Result<map<string, string>>)
    requires Injective(chainPath) && Injective(upgradePath) && Injective(subnetPath)
    requires Relocate(chain, chainPath).Keys !! Relocate(upgrade, upgradePath).Keys
    requires Relocate(chain, chainPath).Keys !! Relocate(subnet, subnetPath).Keys
    requires Relocate(upgrade, upgradePath).Keys !! Relocate(subnet, subnetPath).Keys
    modifies fs`dirs, fs`files
    ensures var groups := Relocate(chain, chainPath) + Relocate(upgrade, upgradePath) + Relocate(subnet, subnetPath);
      var blocked := fs.failing - old(fs.dirs);
      && (r.Ok? ==> && r.value == flags[ChainConfigDirKey := chainConfigDir][SubnetConfigDirKey := subnetConfigDir]
                    && fs.files == old(fs.files) + groups
                    && fs.dirs == old(fs.dirs) + {chainConfigDir} + {subnetConfigDir} + DirsOf(groups))
      && (r.Err? ==> && fs.PlanRefusal(groups, chainConfigDir, subnetConfigDir, r.error, blocked)
                     && WrittenWithin(old(fs.files), fs.files, groups, ErrorPath(r.error))
                     && old(fs.dirs) <= fs.dirs <= old(fs.dirs) + {chainConfigDir} + {subnetConfigDir} + DirsOf(groups))
      && (r.Ok? <==> chainConfigDir !in blocked && subnetConfigDir !in blocked && fs.NoneRefused(groups, blocked))
    ensures fs.failing - fs.dirs == fs.failing - old(fs.dirs)
    // the stages run in order and the first failure ends the call
    ensures r.Err? && r.error.IoFailed? ==> fs.files == old(fs.files)
    ensures r == Err(IoFailed(chainConfigDir)) ==> fs.dirs == old(fs.dirs)
    ensures r == Err(IoFailed(subnetConfigDir)) && subnetConfigDir != chainConfigDir ==>
      fs.dirs == old(fs.dirs) + {chainConfigDir}
    ensures r.Err? && r.error.WriteFailed? ==> chainConfigDir in fs.dirs && subnetConfigDir in fs.dirs
  {
    // chain configs dir
    var o := fs.MkdirAll(chainConfigDir);
    if o.Fail? {
      return Err(o.error);
    }
    var flags' := flags[ChainConfigDirKey := chainConfigDir];
    // subnet configs dir
    o := fs.MkdirAll(subnetConfigDir);
    if o.Fail? {
      return Err(o.error);
    }
    flags' := flags'[SubnetConfigDirKey := subnetConfigDir];
    // chain configs, network upgrades, subnet configs
    o := WriteConfigGroups(fs, chain, chainPath, upgrade, upgradePath, subnet, subnetPath);
    if o.Fail? {
      return Err(o.error);
    }
    return Ok(flags');
  }

  /** The three loops of writeFiles over the per-chain, per-upgrade and per-subnet maps. */
  method WriteConfigGroups(fs: FileSystem, chain: map<string, Bytes>, chainPath: string -> string,
                           upgrade: map<string, Bytes>, upgradePath: string -> string,
                           subnet: map<string, Bytes>, subnetPath: string -> string)
    returns (o: Outcome)
    requires Injective(chainPath) && Injective(upgradePath) && Injective(subnetPath)
    requires Relocate(chain, chainPath).Keys !! Relocate(upgrade, upgradePath).Keys
    requires Relocate(chain, chainPath).Keys !! Relocate(subnet, subnetPath).Keys
    requires Relocate(upgrade, upgradePath).Keys !! Relocate(subnet, subnetPath).Keys
    modifies fs`dirs, fs`files
    ensures var planned := Relocate(chain, chainPath) + Relocate(upgrade, upgradePath) + Relocate(subnet, subnetPath);
      && (o.Pass? ==> && fs.files == old(fs.files) + planned
                      && fs.dirs == old(fs.dirs) + DirsOf(planned))
      && (o.Fail? ==> && fs.WriteRefused(planned, o.error, fs.failing - old(fs.dirs))
                      && WrittenWithin(old(fs.files), fs.files, planned, ErrorPath(o.error))
                      && old(fs.dirs) <= fs.dirs <= old(fs.dirs) + DirsOf(planned))
      && (o.Pass? <==> fs.NoneRefused(planned, fs.failing - old(fs.dirs)))
    ensures fs.failing - fs.dirs == fs.failing - old(fs.dirs)
  {
    ghost var chainW, upgradeW, subnetW := Relocate(chain, chainPath), Relocate(upgrade, upgradePath), Relocate(subnet, subnetPath);
    ghost var blocked := fs.failing - fs.dirs;
    o := WriteConfigGroup(fs, chain, chainPath);
    if o.Fail? {
      ChainGroupFailed(fs, old(fs.files), old(fs.dirs), chainW, upgradeW, subnetW, fs.files, fs.dirs, o.error, blocked);
      return;
    }
    o := WriteConfigGroup(fs, upgrade, upgradePath);
    if o.Fail? {
      UpgradeGroupFailed(fs, old(fs.files), old(fs.dirs), chainW, upgradeW, subnetW, fs.files, fs.dirs, o.error, blocked);
      return;
    }
    o := WriteConfigGroup(fs, subnet, subnetPath);
    if o.Fail? {
      SubnetGroupFailed(fs, old(fs.files), old(fs.dirs), chainW, upgradeW, subnetW, fs.files, fs.dirs, o.error, blocked);
      return;
    }
    GroupsDone(old(fs.files), old(fs.dirs), chainW, upgradeW, subnetW, fs.files, fs.dirs);
    NoneRefusedUnion(fs, chainW, upgradeW, blocked);
    NoneRefusedUnion(fs, chainW + upgradeW, subnetW, blocked);
  }

  /** The loop of writeFiles over its `files` slice: writes each file and records its flag. */
  method WriteListedFiles(fs: FileSystem, files: seq<FileEntry>) returns (flags: map<string, string>, o: Outcome)
    requires DistinctPaths(files)
    modifies fs`dirs, fs`files
    ensures o.Pass? ==>
      && flags == FlagsOf(files)
      && fs.files == old(fs.files) + WritesOf(files)
      && fs.dirs == old(fs.dirs) + DirsOf(WritesOf(files))
    ensures o.Fail? ==>
      && fs.WriteRefused(WritesOf(files), o.error, fs.failing - old(fs.dirs))
      && WrittenWithin(old(fs.files), fs.files, WritesOf(files), ErrorPath(o.error))
      && old(fs.dirs) <= fs.dirs <= old(fs.dirs) + DirsOf(WritesOf(files))
    ensures o.Fail? ==> StoppedAt(old(fs.files), fs.files, files, o.error)
    ensures o.Pass? <==> fs.NoneRefused(WritesOf(files), fs.failing - old(fs.dirs))
    ensures fs.failing - fs.dirs == fs.failing - old(fs.dirs)
  {
    flags := map[];
    for i := 0 to |files|
      invariant flags == FlagsOf(files[..i])
      invariant fs.files == old(fs.files) + WritesOf(files[..i])
      invariant fs.dirs == old(fs.dirs) + DirsOf(WritesOf(files[..i]))
      invariant fs.failing - fs.dirs == fs.failing - old(fs.dirs)
      invariant fs.NoneRefused(WritesOf(files[..i]), fs.failing - old(fs.dirs))
    {
      assert files[..i + 1][..i] == files[..i];
      flags := flags[files[i].pathKey := files[i].flagValue];
      ghost var files0 := fs.files;
      o := fs.CreateFileAndWrite(files[i].path, files[i].contents);
      if o.Fail? {
        ListedFailStep(files, i, WritesOf(files));
        PrefixWithin(old(fs.files), WritesOf(files[..i]), WritesOf(files), files[i].path);
        PartialWithin(old(fs.files), files0, fs.files, WritesOf(files), files[i].path);
        ListedStop(old(fs.files), files, i, files0, fs.files);
        RefusalRefutes(fs, WritesOf(files), WriteFailed(files[i].path, o.error), fs.failing - old(fs.dirs));
        return flags, Fail(WriteFailed(files[i].path, o.error));
      }
      ListedStep(old(fs.files), files, i);
      NoneRefusedInsert(fs, WritesOf(files[..i]), files[i].path, files[i].contents, fs.failing - old(fs.dirs));
    }
    assert files[..|files|] == files;
    o := Pass;
  }

  /** Writing `files` in order stopped at the entry whose path the error `e` names:
      every entry before it is in `after`, and no later entry was added to `before`. */
  ghost predicate StoppedAt(before: Files, after: Files, files: seq<FileEntry>, e: Error) {
    && e.WriteFailed?
    && exists i :: 0 <= i < |files| && files[i].path == e.path
         && SubMap(WritesOf(files[..i]), after)
         && after.Keys <= before.Keys + WritesOf(files[..i + 1]).Keys
  }

  /** How far writeFiles got before the error `e` ended it, `x` and `y` being the
      chain-config and subnet-config directories. A refused listed file stops the
      listed files at its entry and creates no configuration directory. A refused
      configuration directory comes after every listed file and before any group
      file, and `x` is created before `y`. A refused group file comes after every
      listed file and after both directories. */
  ghost predicate StoppedInPlan(before: Files, beforeDirs: set<string>, after: Files, afterDirs: set<string>,
                                files: seq<FileEntry>, x: string, y: string, e: Error) {
    && (e.WriteFailed? && e.path in WritesOf(files) ==>
          StoppedAt(before, after, files, e) && afterDirs <= beforeDirs + DirsOf(WritesOf(files)))
    && (e.IoFailed? ==> after == before + WritesOf(files))
    && (e == IoFailed(x) ==> afterDirs == beforeDirs + DirsOf(WritesOf(files)))
    && (e == IoFailed(y) && y != x ==> afterDirs == beforeDirs + DirsOf(WritesOf(files)) + {x})
    && (e.WriteFailed? && e.path !in WritesOf(files) ==>
          SubMap(WritesOf(files), after) && x in afterDirs && y in afterDirs)
  }

  /** The entry at `i` failed after the entries before it were written. */
  lemma ListedStop(base: Files, files: seq<FileEntry>, i: nat, mid: Files, after: Files)
    requires i < |files| && DistinctPaths(files)
    requires mid == base + WritesOf(files[..i])
    requires after == mid || Truncated(mid, after, files[i].path, files[i].contents)
    ensures SubMap(WritesOf(files[..i]), after)
    ensures after.Keys <= base.Keys + WritesOf(files[..i + 1]).Keys
  {
    assert files[..i + 1][..i] == files[..i];
    WritesOfKeys(files[..i]);
    assert files[i].path !in WritesOf(files[..i]);
  }

  ghost predicate Disjoint4(a: Files, b: Files, c: Files, d: Files) {
    && a.Keys !! b.Keys && a.Keys !! c.Keys && a.Keys !! d.Keys
    && b.Keys !! c.Keys && b.Keys !! d.Keys && c.Keys !! d.Keys
  }

  /** One more listed file written: the state the loop invariant names for the next index. */
  lemma ListedStep(base: Files, files: seq<FileEntry>, i: nat)
    requires i < |files|
    ensures (base + WritesOf(files[..i]))[files[i].path := files[i].contents] == base + WritesOf(files[..i + 1])
    ensures DirsOf(WritesOf(files[..i])) + {Dir(files[i].path)} == DirsOf(WritesOf(files[..i + 1]))
  {
    assert files[..i + 1][..i] == files[..i];
    UnionUpdate(base, WritesOf(files[..i]), files[i].path, files[i].contents);
    DirsOfInsert(WritesOf(files[..i]), files[i].path, files[i].contents);
  }

  /** A listed file that cannot be written leaves only planned files and directories behind. */
  lemma ListedFailStep(files: seq<FileEntry>, i: nat, planned: Files)
    requires i < |files| && DistinctPaths(files) && SubMap(WritesOf(files), planned)
    ensures SubMap(WritesOf(files[..i]), planned)
    ensures DirsOf(WritesOf(files[..i])) + {Dir(files[i].path)} <= DirsOf(planned)
    ensures files[i].path in planned && planned[files[i].path] == files[i].contents
  {
    WritesOfSub(files, i);
    WritesOfSub(files, i + 1);
    assert files[..i + 1][..i] == files[..i];
    DirsOfInsert(WritesOf(files[..i]), files[i].path, files[i].contents);
    DirsOfSub(WritesOf(files[..i + 1]), planned);
  }

  // ---------------------------------------------------------------------------
  // What the plan contains
  // ---------------------------------------------------------------------------

  /** The flags returned on success: the three credential files and the two
      configuration directories always, the genesis file exactly when the
      network is not the local one, the config file exactly when there is config
      text; each is a path under the node's root directory, and no
      per-chain or per-subnet file has a flag. */
  lemma PlannedFlagsSpec(networkID: uint32, genesis: Bytes, nodeRootDir: string, nodeConfig: NodeConfig, signingKey: Bytes)
    ensures var flags := PlannedFlags(networkID, genesis, nodeRootDir, nodeConfig, signingKey);
      && flags.Keys == {StakingTLSKeyPathKey, StakingCertPathKey, StakingSignerKeyPathKey, ChainConfigDirKey, SubnetConfigDirKey}
                       + (if networkID != LocalID then {GenesisFileKey} else {})
                       + (if |nodeConfig.configFile| != 0 then {ConfigFileKey} else {})
      && flags[StakingTLSKeyPathKey] == Join(nodeRootDir, StakingKeyFileName)
      && flags[StakingCertPathKey] == Join(nodeRootDir, StakingCertFileName)
      && flags[StakingSignerKeyPathKey] == Join(nodeRootDir, StakingSigningKeyFileName)
      && flags[ChainConfigDirKey] == Join(nodeRootDir, ChainConfigSubDir)
      && flags[SubnetConfigDirKey] == Join(nodeRootDir, SubnetConfigSubDir)
      && (GenesisFileKey in flags <==> networkID != LocalID)
      && (GenesisFileKey in flags ==> flags[GenesisFileKey] == Join(nodeRootDir, GenesisFileName))
      && (ConfigFileKey in flags <==> |nodeConfig.configFile| != 0)
      && (ConfigFileKey in flags ==> flags[ConfigFileKey] == Join(nodeRootDir, ConfigFileName))
  {
    ListedFilesFold(networkID, genesis, nodeRootDir, nodeConfig, signingKey);
  }

  /** The files written on success: each holds exactly its source contents (the
      signing-key file the decoded bytes), the genesis file is written exactly
      when the network is not the local one, the config file exactly when there
      is config text, and every chain alias, upgrade alias and subnet ID has its
      own file under the configuration directories; no other file is written. */
  lemma PlannedWritesSpec(networkID: uint32, genesis: Bytes, nodeRootDir: string, nodeConfig: NodeConfig, signingKey: Bytes)
    ensures var w := PlannedWrites(networkID, genesis, nodeRootDir, nodeConfig, signingKey);
      && Join(nodeRootDir, StakingKeyFileName) in w && w[Join(nodeRootDir, StakingKeyFileName)] == nodeConfig.stakingKey
      && Join(nodeRootDir, StakingCertFileName) in w && w[Join(nodeRootDir, StakingCertFileName)] == nodeConfig.stakingCert
      && Join(nodeRootDir, StakingSigningKeyFileName) in w && w[Join(nodeRootDir, StakingSigningKeyFileName)] == signingKey
      && (Join(nodeRootDir, GenesisFileName) in w <==> networkID != LocalID)
      && (networkID != LocalID ==> w[Join(nodeRootDir, GenesisFileName)] == genesis)
      && (Join(nodeRootDir, ConfigFileName) in w <==> |nodeConfig.configFile| != 0)
      && (|nodeConfig.configFile| != 0 ==> w[Join(nodeRootDir, ConfigFileName)] == nodeConfig.configFile)
      && (forall g: Group :: HoldsGroup(w, nodeRootDir, g, GroupFiles(nodeConfig, g)))
      && (forall p :: p in w ==>
            || p in TopPaths(nodeRootDir)
            || exists g: Group, key :: key in GroupFiles(nodeConfig, g) && p == GroupPath(nodeRootDir, g, key))
  {
    ListedWritesSpec(networkID, genesis, nodeRootDir, nodeConfig, signingKey);
    forall p | p in PlannedWrites(networkID, genesis, nodeRootDir, nodeConfig, signingKey)
      ensures || p in TopPaths(nodeRootDir)
              || exists g: Group, key :: key in GroupFiles(nodeConfig, g) && p == GroupPath(nodeRootDir, g, key)
    {
      PlannedPaths(networkID, genesis, nodeRootDir, nodeConfig, signingKey, p);
    }
    TopInPlan(networkID, genesis, nodeRootDir, nodeConfig, signingKey, Join(nodeRootDir, StakingKeyFileName));
    TopInPlan(networkID, genesis, nodeRootDir, nodeConfig, signingKey, Join(nodeRootDir, StakingCertFileName));
    TopInPlan(networkID, genesis, nodeRootDir, nodeConfig, signingKey, Join(nodeRootDir, StakingSigningKeyFileName));
    TopInPlan(networkID, genesis, nodeRootDir, nodeConfig, signingKey, Join(nodeRootDir, GenesisFileName));
    TopInPlan(networkID, genesis, nodeRootDir, nodeConfig, signingKey, Join(nodeRootDir, ConfigFileName));
    GroupsInPlan(networkID, genesis, nodeRootDir, nodeConfig, signingKey);
  }

  /** A successful createFileAndWrite, and so a successful writeFiles, leaves the
      parent directory of every file it wrote in place. */
  lemma PlannedDirsCoverParents(networkID: uint32, genesis: Bytes, nodeRootDir: string, nodeConfig: NodeConfig, signingKey: Bytes, p: string)
    requires p in PlannedWrites(networkID, genesis, nodeRootDir, nodeConfig, signingKey)
    ensures Dir(p) in PlannedDirs(networkID, genesis, nodeRootDir, nodeConfig, signingKey)
  {
    DirsOfCovers(PlannedWrites(networkID, genesis, nodeRootDir, nodeConfig, signingKey), p);
  }

  // ---------------------------------------------------------------------------
  // Proof helpers: folds, path shapes, disjointness
  // ---------------------------------------------------------------------------

  lemma FoldSnoc(files: seq<FileEntry>, f: FileEntry)
    ensures FlagsOf(files + [f]) == FlagsOf(files)[f.pathKey := f.flagValue]
    ensures WritesOf(files + [f]) == WritesOf(files)[f.path := f.contents]
  {
    assert (files + [f])[..|files|] == files;
  }

  /** The folds over the `files` slice, written out entry by entry. */
  lemma ListedFilesFold(networkID: uint32, genesis: Bytes, nodeRootDir: string, nodeConfig: NodeConfig, signingKey: Bytes)
    ensures var files := ListedFiles(networkID, genesis, nodeRootDir, nodeConfig, signingKey);
      var f3 := map[StakingTLSKeyPathKey := Join(nodeRootDir, StakingKeyFileName)]
                   [StakingCertPathKey := Join(nodeRootDir, StakingCertFileName)]
                   [StakingSignerKeyPathKey := Join(nodeRootDir, StakingSigningKeyFileName)];
      var f4 := if networkID != LocalID then f3[GenesisFileKey := Join(nodeRootDir, GenesisFileName)] else f3;
      var w3 := map[Join(nodeRootDir, StakingKeyFileName) := nodeConfig.stakingKey]
                   [Join(nodeRootDir, StakingCertFileName) := nodeConfig.stakingCert]
                   [Join(nodeRootDir, StakingSigningKeyFileName) := signingKey];
      var w4 := if networkID != LocalID then w3[Join(nodeRootDir, GenesisFileName) := genesis] else w3;
      && FlagsOf(files) == (if |nodeConfig.configFile| != 0 then f4[ConfigFileKey := Join(nodeRootDir, ConfigFileName)] else f4)
      && WritesOf(files) == (if |nodeConfig.configFile| != 0 then w4[Join(nodeRootDir, ConfigFileName) := nodeConfig.configFile] else w4)
  {
    var e1 := FileAt(nodeRootDir, StakingTLSKeyPathKey, StakingKeyFileName, nodeConfig.stakingKey);
    var e2 := FileAt(nodeRootDir, StakingCertPathKey, StakingCertFileName, nodeConfig.stakingCert);
    var e3 := FileAt(nodeRootDir, StakingSignerKeyPathKey, StakingSigningKeyFileName, signingKey);
    var eg := FileAt(nodeRootDir, GenesisFileKey, GenesisFileName, genesis);
    var ec := FileAt(nodeRootDir, ConfigFileKey, ConfigFileName, nodeConfig.configFile);
    FoldSnoc([], e1);
    assert [] + [e1] == [e1];
    FoldSnoc([e1], e2);
    assert [e1] + [e2] == [e1, e2];
    FoldSnoc([e1, e2], e3);
    assert [e1, e2] + [e3] == [e1, e2, e3];
    var base := [e1, e2, e3];
    var withGenesis := base + (if networkID != LocalID then [eg] else []);
    if networkID != LocalID {
      FoldSnoc(base, eg);
    } else {
      assert withGenesis == base;
    }
    if |nodeConfig.configFile| != 0 {
      FoldSnoc(withGenesis, ec);
    } else {
      assert withGenesis + [] == withGenesis;
    }
  }

  /** The five top-level files have five different paths. */
  lemma TopPathsDistinct(nodeRootDir: string)
    ensures var key, cert, signer := Join(nodeRootDir, StakingKeyFileName), Join(nodeRootDir, StakingCertFileName),
                                     Join(nodeRootDir, StakingSigningKeyFileName);
      var gen, conf := Join(nodeRootDir, GenesisFileName), Join(nodeRootDir, ConfigFileName);
      && key != cert && key != signer && key != gen && key != conf
      && cert != signer && cert != gen && cert != conf
      && signer != gen && signer != conf
      && gen != conf
  {
    JoinDiffers(nodeRootDir, StakingKeyFileName, StakingCertFileName, 8);
    JoinDiffers(nodeRootDir, StakingKeyFileName, StakingSigningKeyFileName, 1);
    JoinDiffers(nodeRootDir, StakingKeyFileName, GenesisFileName, 0);
    JoinDiffers(nodeRootDir, StakingKeyFileName, ConfigFileName, 0);
    JoinDiffers(nodeRootDir, StakingCertFileName, StakingSigningKeyFileName, 1);
    JoinDiffers(nodeRootDir, StakingCertFileName, GenesisFileName, 0);
    JoinDiffers(nodeRootDir, StakingCertFileName, ConfigFileName, 0);
    JoinDiffers(nodeRootDir, StakingSigningKeyFileName, GenesisFileName, 0);
    JoinDiffers(nodeRootDir, StakingSigningKeyFileName, ConfigFileName, 0);
    JoinDiffers(nodeRootDir, GenesisFileName, ConfigFileName, 0);
  }

  ghost predicate DistinctPaths(files: seq<FileEntry>) {
    forall j, k :: 0 <= j < k < |files| ==> files[j].path != files[k].path
  }

  lemma DistinctSnoc(files: seq<FileEntry>, f: FileEntry)
    requires DistinctPaths(files)
    requires forall j :: 0 <= j < |files| ==> files[j].path != f.path
    ensures DistinctPaths(files + [f])
  {
    var s := files + [f];
    forall j, k | 0 <= j < k < |s| ensures s[j].path != s[k].path {
      if k < |files| {
        assert s[j] == files[j] && s[k] == files[k];
      } else {
        assert s[j] == files[j] && s[k] == f;
      }
    }
  }

  /** No two entries of the `files` slice share a path. */
  lemma ListedPathsDistinct(networkID: uint32, genesis: Bytes, nodeRootDir: string, nodeConfig: NodeConfig, signingKey: Bytes)
    ensures DistinctPaths(ListedFiles(networkID, genesis, nodeRootDir, nodeConfig, signingKey))
  {
    TopPathsDistinct(nodeRootDir);
    DistinctOptional(FileAt(nodeRootDir, StakingTLSKeyPathKey, StakingKeyFileName, nodeConfig.stakingKey),
                     FileAt(nodeRootDir, StakingCertPathKey, StakingCertFileName, nodeConfig.stakingCert),
                     FileAt(nodeRootDir, StakingSignerKeyPathKey, StakingSigningKeyFileName, signingKey),
                     FileAt(nodeRootDir, GenesisFileKey, GenesisFileName, genesis),
                     FileAt(nodeRootDir, ConfigFileKey, ConfigFileName, nodeConfig.configFile),
                     networkID != LocalID, |nodeConfig.configFile| != 0);
  }

  /** Three entries and two optional ones with pairwise different paths. */
  lemma DistinctOptional(e1: FileEntry, e2: FileEntry, e3: FileEntry, eg: FileEntry, ec: FileEntry, withGenesis: bool, withConfig: bool)
    requires e1.path != e2.path && e1.path != e3.path && e1.path != eg.path && e1.path != ec.path
    requires e2.path != e3.path && e2.path != eg.path && e2.path != ec.path
    requires e3.path != eg.path && e3.path != ec.path && eg.path != ec.path
    ensures DistinctPaths([e1, e2, e3] + (if withGenesis then [eg] else []) + (if withConfig then [ec] else []))
  {
    assert DistinctPaths([e1]);
    DistinctSnoc([e1], e2);
    assert [e1] + [e2] == [e1, e2];
    DistinctSnoc([e1, e2], e3);
    assert [e1, e2] + [e3] == [e1, e2, e3];
    var base := [e1, e2, e3];
    var mid := base + (if withGenesis then [eg] else []);
    if withGenesis {
      DistinctSnoc(base, eg);
    } else {
      assert mid == base;
    }
    assert forall j :: 0 <= j < |mid| ==> mid[j].path != ec.path;
    if withConfig {
      DistinctSnoc(mid, ec);
    } else {
      assert mid + [] == mid;
    }
  }

  ghost predicate StartsWith(p: string, s: string) {
    |s| <= |p| && p[..|s|] == s
  }

  lemma JoinKeepsStart(d: string, e: string, s: string)
    requires StartsWith(d, s) && d != ""
    ensures StartsWith(Join(d, e), s)
  {
    if e != "" {
      assert Join(d, e) == d + ([Separator] + e);
    }
  }

  /** Strings that start with prefixes differing at index `k` differ. */
  lemma StartsDiffer(p: string, q: string, s: string, t: string, k: nat)
    requires StartsWith(p, s) && StartsWith(q, t)
    requires k < |s| && k < |t| && s[k] != t[k]
    ensures p != q
  {
    assert p[k] == p[..|s|][k];
    assert q[k] == q[..|t|][k];
  }

  /** The directory a group's files live under, below the node's root directory. */
  function GroupDirName(g: Group): string {
    if g == SubnetConfigs then SubnetConfigSubDir else ChainConfigSubDir
  }

  lemma GroupPathStart(nodeRootDir: string, g: Group, key: string)
    ensures StartsWith(GroupPath(nodeRootDir, g, key), Prefix(nodeRootDir) + GroupDirName(g))
  {
    var s := Prefix(nodeRootDir) + GroupDirName(g);
    var d := Join(nodeRootDir, GroupDirName(g));
    assert d == s;
    assert StartsWith(d, s);
    match g
    case SubnetConfigs =>
      JoinKeepsStart(d, key + ".json", s);
    case ChainConfigs =>
      JoinKeepsStart(d, key, s);
      JoinKeepsStart(Join(d, key), ConfigFileName, s);
    case UpgradeConfigs =>
      JoinKeepsStart(d, key, s);
      JoinKeepsStart(Join(d, key), UpgradeConfigFileName, s);
  }

  /** Two different keys of one group never share a path. */
  lemma GroupPathsInjective(nodeRootDir: string, g: Group)
    ensures Injective(PathOf(nodeRootDir, g))
    ensures forall a, b :: GroupPath(nodeRootDir, g, a) == GroupPath(nodeRootDir, g, b) ==> a == b
  {
    forall a, b | GroupPath(nodeRootDir, g, a) == GroupPath(nodeRootDir, g, b)
      ensures a == b
    {
      match g
      case SubnetConfigs =>
        JoinInjective(SubnetConfigDir(nodeRootDir), a + ".json", b + ".json");
        assert a == (a + ".json")[..|a|];
        assert b == (b + ".json")[..|b|];
      case ChainConfigs =>
        DirUnderNames(ChainConfigDir(nodeRootDir), a, b, ConfigFileName);
      case UpgradeConfigs =>
        DirUnderNames(ChainConfigDir(nodeRootDir), a, b, UpgradeConfigFileName);
    }
  }

  lemma DirUnderNames(d: string, a: string, b: string, name: string)
    requires d != "" && name != ""
    requires Join(Join(d, a), name) == Join(Join(d, b), name)
    ensures a == b
  {
    var x, y := Join(d, a), Join(d, b);
    assert x != "" && y != "";
    assert Join(x, name) == x + [Separator] + name;
    assert Join(y, name) == y + [Separator] + name;
    assert |x| == |y|;
    assert x == Join(x, name)[..|x|];
    assert y == Join(y, name)[..|y|];
    if a != "" && b != "" {
      JoinInjective(d, a, b);
    }
  }

  /** Different strings `x + s` and `y + t` when `s` and `t` differ `k` places from their ends. */
  lemma SuffixDiffers(x: string, s: string, y: string, t: string, k: nat)
    requires k < |s| && k < |t| && s[|s| - 1 - k] != t[|t| - 1 - k]
    ensures x + s != y + t
  {
    assert (x + s)[|x + s| - 1 - k] == s[|s| - 1 - k];
    assert (y + t)[|y + t| - 1 - k] == t[|t| - 1 - k];
  }

  /** A chain-config file and an upgrade file never share a path. */
  lemma ChainNotUpgrade(nodeRootDir: string, a: string, b: string)
    ensures GroupPath(nodeRootDir, ChainConfigs, a) != GroupPath(nodeRootDir, UpgradeConfigs, b)
  {
    var x := Join(ChainConfigDir(nodeRootDir), a);
    var y := Join(ChainConfigDir(nodeRootDir), b);
    assert x != "" && y != "";
    assert GroupPath(nodeRootDir, ChainConfigs, a) == x + ([Separator] + ConfigFileName);
    assert GroupPath(nodeRootDir, UpgradeConfigs, b) == y + ([Separator] + UpgradeConfigFileName);
    SuffixDiffers(x, [Separator] + ConfigFileName, y, [Separator] + UpgradeConfigFileName, 5);
  }

  /** Files of different groups never share a path. */
  lemma GroupsDisjoint(nodeRootDir: string, g: Group, h: Group, a: string, b: string)
    requires g != h
    ensures GroupPath(nodeRootDir, g, a) != GroupPath(nodeRootDir, h, b)
  {
    if g == SubnetConfigs || h == SubnetConfigs {
      GroupPathStart(nodeRootDir, g, a);
      GroupPathStart(nodeRootDir, h, b);
      var n := |Prefix(nodeRootDir)|;
      assert (Prefix(nodeRootDir) + GroupDirName(g))[n] == GroupDirName(g)[0];
      assert (Prefix(nodeRootDir) + GroupDirName(h))[n] == GroupDirName(h)[0];
      StartsDiffer(GroupPath(nodeRootDir, g, a), GroupPath(nodeRootDir, h, b),
                   Prefix(nodeRootDir) + GroupDirName(g), Prefix(nodeRootDir) + GroupDirName(h), n);
    } else if g == ChainConfigs {
      ChainNotUpgrade(nodeRootDir, a, b);
    } else {
      ChainNotUpgrade(nodeRootDir, b, a);
    }
  }

  /** A file directly under the root directory is not a file of any group. */
  lemma TopNotInGroup(nodeRootDir: string, name: string, g: Group, key: string)
    requires name in {StakingKeyFileName, StakingCertFileName, StakingSigningKeyFileName, GenesisFileName, ConfigFileName}
    ensures Join(nodeRootDir, name) != GroupPath(nodeRootDir, g, key)
  {
    GroupPathStart(nodeRootDir, g, key);
    var n := |Prefix(nodeRootDir)|;
    var s := Prefix(nodeRootDir) + name;
    var t := Prefix(nodeRootDir) + GroupDirName(g);
    assert Join(nodeRootDir, name) == s;
    assert StartsWith(s, s);
    var k := if name == ConfigFileName || (g == SubnetConfigs && name != GenesisFileName) then 1 else 0;
    assert s[n + k] == name[k];
    assert t[n + k] == GroupDirName(g)[k];
    StartsDiffer(s, GroupPath(nodeRootDir, g, key), s, t, n + k);
  }

  lemma NotRelocated(nodeRootDir: string, g: Group, m: map<string, Bytes>, p: string)
    requires forall key :: p != GroupPath(nodeRootDir, g, key)
    ensures p !in GroupWrites(nodeRootDir, g, m)
  {
    if p in GroupWrites(nodeRootDir, g, m) {
      GroupWritesKeys(nodeRootDir, g, m, p);
    }
  }

  /** The top-level files are the only paths of the first part of the plan. */
  lemma ListedKeys(networkID: uint32, genesis: Bytes, nodeRootDir: string, nodeConfig: NodeConfig, signingKey: Bytes)
    ensures WritesOf(ListedFiles(networkID, genesis, nodeRootDir, nodeConfig, signingKey)).Keys <= TopPaths(nodeRootDir)
  {
    ListedFilesFold(networkID, genesis, nodeRootDir, nodeConfig, signingKey);
  }

  lemma TopNotInGroups(nodeRootDir: string, name: string)
    requires name in {StakingKeyFileName, StakingCertFileName, StakingSigningKeyFileName, GenesisFileName, ConfigFileName}
    ensures forall g: Group, key :: Join(nodeRootDir, name) != GroupPath(nodeRootDir, g, key)
  {
    forall g: Group, key ensures Join(nodeRootDir, name) != GroupPath(nodeRootDir, g, key) {
      TopNotInGroup(nodeRootDir, name, g, key);
    }
  }

  /** The credential, genesis and config files of the first part of the plan. */
  lemma ListedWritesSpec(networkID: uint32, genesis: Bytes, nodeRootDir: string, nodeConfig: NodeConfig, signingKey: Bytes)
    ensures var w := WritesOf(ListedFiles(networkID, genesis, nodeRootDir, nodeConfig, signingKey));
      && Join(nodeRootDir, StakingKeyFileName) in w && w[Join(nodeRootDir, StakingKeyFileName)] == nodeConfig.stakingKey
      && Join(nodeRootDir, StakingCertFileName) in w && w[Join(nodeRootDir, StakingCertFileName)] == nodeConfig.stakingCert
      && Join(nodeRootDir, StakingSigningKeyFileName) in w && w[Join(nodeRootDir, StakingSigningKeyFileName)] == signingKey
      && (Join(nodeRootDir, GenesisFileName) in w <==> networkID != LocalID)
      && (networkID != LocalID ==> w[Join(nodeRootDir, GenesisFileName)] == genesis)
      && (Join(nodeRootDir, ConfigFileName) in w <==> |nodeConfig.configFile| != 0)
      && (|nodeConfig.configFile| != 0 ==> w[Join(nodeRootDir, ConfigFileName)] == nodeConfig.configFile)
  {
    TopPathsDistinct(nodeRootDir);
    WritesOfOptional(FileAt(nodeRootDir, StakingTLSKeyPathKey, StakingKeyFileName, nodeConfig.stakingKey),
                     FileAt(nodeRootDir, StakingCertPathKey, StakingCertFileName, nodeConfig.stakingCert),
                     FileAt(nodeRootDir, StakingSignerKeyPathKey, StakingSigningKeyFileName, signingKey),
                     FileAt(nodeRootDir, GenesisFileKey, GenesisFileName, genesis),
                     FileAt(nodeRootDir, ConfigFileKey, ConfigFileName, nodeConfig.configFile),
                     networkID != LocalID, |nodeConfig.configFile| != 0);
  }

  /** The files left by three entries and two optional ones with pairwise different paths. */
  lemma WritesOfOptional(e1: FileEntry, e2: FileEntry, e3: FileEntry, eg: FileEntry, ec: FileEntry, withGenesis: bool, withConfig: bool)
    requires e1.path != e2.path && e1.path != e3.path && e1.path != eg.path && e1.path != ec.path
    requires e2.path != e3.path && e2.path != eg.path && e2.path != ec.path
    requires e3.path != eg.path && e3.path != ec.path && eg.path != ec.path
    ensures var w := WritesOf([e1, e2, e3] + (if withGenesis then [eg] else []) + (if withConfig then [ec] else []));
      && e1.path in w && w[e1.path] == e1.contents
      && e2.path in w && w[e2.path] == e2.contents
      && e3.path in w && w[e3.path] == e3.contents
      && (eg.path in w <==> withGenesis) && (withGenesis ==> w[eg.path] == eg.contents)
      && (ec.path in w <==> withConfig) && (withConfig ==> w[ec.path] == ec.contents)
  {
    FoldSnoc([], e1);
    assert [] + [e1] == [e1];
    FoldSnoc([e1], e2);
    assert [e1] + [e2] == [e1, e2];
    FoldSnoc([e1, e2], e3);
    assert [e1, e2] + [e3] == [e1, e2, e3];
    var base := [e1, e2, e3];
    var mid := base + (if withGenesis then [eg] else []);
    if withGenesis {
      FoldSnoc(base, eg);
    } else {
      assert mid == base;
    }
    if withConfig {
      FoldSnoc(mid, ec);
    } else {
      assert mid + [] == mid;
    }
  }

  /** A file of the plan is a top-level file or the file of a key of some group. */
  lemma PlannedPaths(networkID: uint32, genesis: Bytes, nodeRootDir: string, nodeConfig: NodeConfig, signingKey: Bytes, p: string)
    requires p in PlannedWrites(networkID, genesis, nodeRootDir, nodeConfig, signingKey)
    ensures || p in TopPaths(nodeRootDir)
            || exists g: Group, key :: key in GroupFiles(nodeConfig, g) && p == GroupPath(nodeRootDir, g, key)
  {
    ListedKeys(networkID, genesis, nodeRootDir, nodeConfig, signingKey);
    PlanShape(nodeRootDir, nodeConfig, WritesOf(ListedFiles(networkID, genesis, nodeRootDir, nodeConfig, signingKey)), p);
  }

  /** A file of a plan made of top-level files and the three groups is one or the other. */
  lemma PlanShape(nodeRootDir: string, nodeConfig: NodeConfig, listed: Files, p: string)
    requires listed.Keys <= TopPaths(nodeRootDir)
    requires p in listed + ( GroupWrites(nodeRootDir, ChainConfigs, nodeConfig.chainConfigFiles)
                            + GroupWrites(nodeRootDir, UpgradeConfigs, nodeConfig.upgradeConfigFiles)
                            + GroupWrites(nodeRootDir, SubnetConfigs, nodeConfig.subnetConfigFiles))
    ensures || p in TopPaths(nodeRootDir)
            || exists g: Group, key :: key in GroupFiles(nodeConfig, g) && p == GroupPath(nodeRootDir, g, key)
  {
    if p in GroupWrites(nodeRootDir, ChainConfigs, nodeConfig.chainConfigFiles) {
      GroupWritesKeys(nodeRootDir, ChainConfigs, nodeConfig.chainConfigFiles, p);
      var key :| key in nodeConfig.chainConfigFiles && p == GroupPath(nodeRootDir, ChainConfigs, key);
      assert key in GroupFiles(nodeConfig, ChainConfigs);
    } else if p in GroupWrites(nodeRootDir, UpgradeConfigs, nodeConfig.upgradeConfigFiles) {
      GroupWritesKeys(nodeRootDir, UpgradeConfigs, nodeConfig.upgradeConfigFiles, p);
      var key :| key in nodeConfig.upgradeConfigFiles && p == GroupPath(nodeRootDir, UpgradeConfigs, key);
      assert key in GroupFiles(nodeConfig, UpgradeConfigs);
    } else if p in GroupWrites(nodeRootDir, SubnetConfigs, nodeConfig.subnetConfigFiles) {
      GroupWritesKeys(nodeRootDir, SubnetConfigs, nodeConfig.subnetConfigFiles, p);
      var key :| key in nodeConfig.subnetConfigFiles && p == GroupPath(nodeRootDir, SubnetConfigs, key);
      assert key in GroupFiles(nodeConfig, SubnetConfigs);
    }
  }

  /** A top-level path is in the plan exactly when it is in its first part, with the same contents. */
  lemma TopInPlan(networkID: uint32, genesis: Bytes, nodeRootDir: string, nodeConfig: NodeConfig, signingKey: Bytes, t: string)
    requires t in TopPaths(nodeRootDir)
    ensures var listed := WritesOf(ListedFiles(networkID, genesis, nodeRootDir, nodeConfig, signingKey));
      var planned := PlannedWrites(networkID, genesis, nodeRootDir, nodeConfig, signingKey);
      && (t in planned <==> t in listed)
      && (t in listed ==> planned[t] == listed[t])
  {
    TopsNotWritten(nodeRootDir, nodeConfig, ChainConfigs);
    TopsNotWritten(nodeRootDir, nodeConfig, UpgradeConfigs);
    TopsNotWritten(nodeRootDir, nodeConfig, SubnetConfigs);
  }

  /** Every chain alias, upgrade alias and subnet ID has its file in the plan. */
  lemma GroupsInPlan(networkID: uint32, genesis: Bytes, nodeRootDir: string, nodeConfig: NodeConfig, signingKey: Bytes)
    ensures forall g: Group :: HoldsGroup(PlannedWrites(networkID, genesis, nodeRootDir, nodeConfig, signingKey), nodeRootDir, g, GroupFiles(nodeConfig, g))
  {
    var w := PlannedWrites(networkID, genesis, nodeRootDir, nodeConfig, signingKey);
    PlanDisjoint(networkID, genesis, nodeRootDir, nodeConfig, signingKey);
    GroupsInUnion(nodeRootDir, nodeConfig, WritesOf(ListedFiles(networkID, genesis, nodeRootDir, nodeConfig, signingKey)), w);
    forall g: Group ensures HoldsGroup(w, nodeRootDir, g, GroupFiles(nodeConfig, g)) {
      match g
      case ChainConfigs =>
      case UpgradeConfigs =>
      case SubnetConfigs =>
    }
  }

  /** `w` holds the file of every key of group `g` of map `m`, with that key's contents. */
  ghost predicate HoldsGroup(w: Files, nodeRootDir: string, g: Group, m: map<string, Bytes>) {
    forall key :: key in m ==> GroupPath(nodeRootDir, g, key) in w && w[GroupPath(nodeRootDir, g, key)] == m[key]
  }

  /** The groups' files are in any plan that adds them to disjoint `listed` files. */
  lemma GroupsInUnion(nodeRootDir: string, nodeConfig: NodeConfig, listed: Files, w: Files)
    requires var chainW := GroupWrites(nodeRootDir, ChainConfigs, nodeConfig.chainConfigFiles);
      var upgradeW := GroupWrites(nodeRootDir, UpgradeConfigs, nodeConfig.upgradeConfigFiles);
      var subnetW := GroupWrites(nodeRootDir, SubnetConfigs, nodeConfig.subnetConfigFiles);
      && Disjoint4(listed, chainW, upgradeW, subnetW)
      && w == listed + (chainW + upgradeW + subnetW)
    ensures HoldsGroup(w, nodeRootDir, ChainConfigs, nodeConfig.chainConfigFiles)
    ensures HoldsGroup(w, nodeRootDir, UpgradeConfigs, nodeConfig.upgradeConfigFiles)
    ensures HoldsGroup(w, nodeRootDir, SubnetConfigs, nodeConfig.subnetConfigFiles)
  {
    DisjointSub(listed, GroupWrites(nodeRootDir, ChainConfigs, nodeConfig.chainConfigFiles),
                GroupWrites(nodeRootDir, UpgradeConfigs, nodeConfig.upgradeConfigFiles),
                GroupWrites(nodeRootDir, SubnetConfigs, nodeConfig.subnetConfigFiles));
    GroupInPlan(nodeRootDir, ChainConfigs, nodeConfig.chainConfigFiles, w);
    GroupInPlan(nodeRootDir, UpgradeConfigs, nodeConfig.upgradeConfigFiles, w);
    GroupInPlan(nodeRootDir, SubnetConfigs, nodeConfig.subnetConfigFiles, w);
  }

  /** A group that is part of `w` has the file of every key in `w`. */
  lemma GroupInPlan(nodeRootDir: string, g: Group, m: map<string, Bytes>, w: Files)
    requires SubMap(GroupWrites(nodeRootDir, g, m), w)
    ensures HoldsGroup(w, nodeRootDir, g, m)
  {
  }

  /** The four parts of the plan are pairwise disjoint. */
  lemma PlanDisjoint(networkID: uint32, genesis: Bytes, nodeRootDir: string, nodeConfig: NodeConfig, signingKey: Bytes)
    ensures Disjoint4(WritesOf(ListedFiles(networkID, genesis, nodeRootDir, nodeConfig, signingKey)),
                      GroupWrites(nodeRootDir, ChainConfigs, nodeConfig.chainConfigFiles),
                      GroupWrites(nodeRootDir, UpgradeConfigs, nodeConfig.upgradeConfigFiles),
                      GroupWrites(nodeRootDir, SubnetConfigs, nodeConfig.subnetConfigFiles))
  {
    ListedKeys(networkID, genesis, nodeRootDir, nodeConfig, signingKey);
    ListedDisjoint(WritesOf(ListedFiles(networkID, genesis, nodeRootDir, nodeConfig, signingKey)), nodeRootDir, nodeConfig);
    GroupWritesDisjoint(nodeRootDir, nodeConfig);
  }

  /** Four maps with pairwise disjoint keys are each part of their union. */
  lemma DisjointSub(a: Files, b: Files, c: Files, d: Files)
    requires Disjoint4(a, b, c, d)
    ensures var u := a + (b + c + d);
      && SubMap(a, u) && SubMap(b + c + d, u)
      && SubMap(b, u) && SubMap(c, u) && SubMap(d, u)
      && (b + c + d).Keys !! a.Keys
  {
  }

  /** Three maps with pairwise disjoint keys are each part of their union, as are its prefixes. */
  lemma DisjointSub3(a: Files, b: Files, c: Files)
    requires a.Keys !! b.Keys && a.Keys !! c.Keys && b.Keys !! c.Keys
    ensures var u := a + b + c;
      SubMap(a, u) && SubMap(a + b, u) && SubMap(b, u) && SubMap(c, u)
  {
  }

  lemma ListedDisjoint(listed: Files, nodeRootDir: string, nodeConfig: NodeConfig)
    requires listed.Keys <= TopPaths(nodeRootDir)
    ensures && listed.Keys !! GroupWrites(nodeRootDir, ChainConfigs, nodeConfig.chainConfigFiles).Keys
            && listed.Keys !! GroupWrites(nodeRootDir, UpgradeConfigs, nodeConfig.upgradeConfigFiles).Keys
            && listed.Keys !! GroupWrites(nodeRootDir, SubnetConfigs, nodeConfig.subnetConfigFiles).Keys
  {
    TopsNotWritten(nodeRootDir, nodeConfig, ChainConfigs);
    TopsNotWritten(nodeRootDir, nodeConfig, UpgradeConfigs);
    TopsNotWritten(nodeRootDir, nodeConfig, SubnetConfigs);
    SubsetAvoids(listed.Keys, TopPaths(nodeRootDir), GroupWrites(nodeRootDir, ChainConfigs, nodeConfig.chainConfigFiles));
    SubsetAvoids(listed.Keys, TopPaths(nodeRootDir), GroupWrites(nodeRootDir, UpgradeConfigs, nodeConfig.upgradeConfigFiles));
    SubsetAvoids(listed.Keys, TopPaths(nodeRootDir), GroupWrites(nodeRootDir, SubnetConfigs, nodeConfig.subnetConfigFiles));
  }

  lemma SubsetAvoids(k: set<string>, top: set<string>, w: Files)
    requires k <= top && forall t :: t in top ==> t !in w
    ensures k !! w.Keys
  {
  }

  /** The paths of the five top-level files. */
  function TopPaths(nodeRootDir: string): set<string> {
    {Join(nodeRootDir, StakingKeyFileName), Join(nodeRootDir, StakingCertFileName),
     Join(nodeRootDir, StakingSigningKeyFileName), Join(nodeRootDir, GenesisFileName), Join(nodeRootDir, ConfigFileName)}
  }

  lemma TopsNotWritten(nodeRootDir: string, nodeConfig: NodeConfig, g: Group)
    ensures forall t :: t in TopPaths(nodeRootDir) ==> t !in GroupWrites(nodeRootDir, g, GroupFiles(nodeConfig, g))
  {
    forall t | t in TopPaths(nodeRootDir) ensures t !in GroupWrites(nodeRootDir, g, GroupFiles(nodeConfig, g)) {
      var name :| name in {StakingKeyFileName, StakingCertFileName, StakingSigningKeyFileName, GenesisFileName, ConfigFileName}
                  && t == Join(nodeRootDir, name);
      TopNotInGroups(nodeRootDir, name);
      NotRelocated(nodeRootDir, g, GroupFiles(nodeConfig, g), t);
    }
  }

  lemma GroupWritesDisjoint(nodeRootDir: string, nodeConfig: NodeConfig)
    ensures var chainW := GroupWrites(nodeRootDir, ChainConfigs, nodeConfig.chainConfigFiles);
      var upgradeW := GroupWrites(nodeRootDir, UpgradeConfigs, nodeConfig.upgradeConfigFiles);
      var subnetW := GroupWrites(nodeRootDir, SubnetConfigs, nodeConfig.subnetConfigFiles);
      chainW.Keys !! upgradeW.Keys && chainW.Keys !! subnetW.Keys && upgradeW.Keys !! subnetW.Keys
  {
    GroupPairDisjoint(nodeRootDir, ChainConfigs, UpgradeConfigs, nodeConfig.chainConfigFiles, nodeConfig.upgradeConfigFiles);
    GroupPairDisjoint(nodeRootDir, ChainConfigs, SubnetConfigs, nodeConfig.chainConfigFiles, nodeConfig.subnetConfigFiles);
    GroupPairDisjoint(nodeRootDir, UpgradeConfigs, SubnetConfigs, nodeConfig.upgradeConfigFiles, nodeConfig.subnetConfigFiles);
  }

  lemma GroupPairDisjoint(nodeRootDir: string, g: Group, h: Group, a: map<string, Bytes>, b: map<string, Bytes>)
    requires g != h
    ensures GroupWrites(nodeRootDir, g, a).Keys !! GroupWrites(nodeRootDir, h, b).Keys
  {
    forall p | p in GroupWrites(nodeRootDir, g, a) ensures p !in GroupWrites(nodeRootDir, h, b) {
      GroupWritesKeys(nodeRootDir, g, a, p);
      var x :| x in a && p == GroupPath(nodeRootDir, g, x);
      NotInOtherGroup(nodeRootDir, g, h, x, b);
    }
  }

  lemma NotInOtherGroup(nodeRootDir: string, g: Group, h: Group, x: string, b: map<string, Bytes>)
    requires g != h
    ensures GroupPath(nodeRootDir, g, x) !in GroupWrites(nodeRootDir, h, b)
  {
    forall y ensures GroupPath(nodeRootDir, g, x) != GroupPath(nodeRootDir, h, y) {
      GroupsDisjoint(nodeRootDir, g, h, x, y);
    }
    NotRelocated(nodeRootDir, h, b, GroupPath(nodeRootDir, g, x));
  }

  lemma GroupWritesKeys(nodeRootDir: string, g: Group, m: map<string, Bytes>, p: string)
    requires p in GroupWrites(nodeRootDir, g, m)
    ensures exists key :: key in m && p == GroupPath(nodeRootDir, g, key)
  {
    GroupPathsInjective(nodeRootDir, g);
    RelocateKeys(m, PathOf(nodeRootDir, g), p);
    var k :| k in m && PathOf(nodeRootDir, g)(k) == p;
    assert p == GroupPath(nodeRootDir, g, k);
  }

  lemma {:induction false} WritesOfSub(files: seq<FileEntry>, i: nat)
    requires i <= |files|
    requires DistinctPaths(files)
    ensures SubMap(WritesOf(files[..i]), WritesOf(files))
    decreases |files| - i
  {
    if i < |files| {
      WritesOfSub(files, i + 1);
      var before, after := WritesOf(files[..i]), WritesOf(files[..i + 1]);
      assert files[..i + 1][..i] == files[..i];
      assert after == before[files[i].path := files[i].contents];
      assert files[i].path !in before by {
        WritesOfKeys(files[..i]);
      }
      SubMapTrans(before, after, WritesOf(files));
    } else {
      assert files[..i] == files;
    }
  }

  lemma SubMapTrans(a: Files, b: Files, c: Files)
    requires SubMap(a, b) && SubMap(b, c)
    ensures SubMap(a, c)
  {
  }

  lemma {:induction false} WritesOfKeys(files: seq<FileEntry>)
    ensures forall p :: p in WritesOf(files) ==> exists j :: 0 <= j < |files| && files[j].path == p
    decreases |files|
  {
    if files != [] {
      var n := |files| - 1;
      WritesOfKeys(files[..n]);
      forall p | p in WritesOf(files) ensures exists j :: 0 <= j < |files| && files[j].path == p {
        if p != files[n].path {
          assert p in WritesOf(files[..n]);
          var j :| 0 <= j < |files[..n]| && files[..n][j].path == p;
          assert files[j].path == p;
        }
      }
    }
  }

  // ---------------------------------------------------------------------------
  // Bookkeeping for the write methods: loop steps and the assembly of each
  // stage's outcome into the outcome of the stage that calls it. None of these
  // lemmas states a property of its own; each closes one step of a method proof.
  // ---------------------------------------------------------------------------

  /** One more file of a group written: the state the loop invariant names for one key fewer. */
  lemma WriteStep(base: Files, baseDirs: set<string>, m: map<string, Bytes>, todo: set<string>, path: string -> string, key: string)
    requires Injective(path) && key in todo && todo <= m.Keys
    ensures (base + Relocate(m - todo, path))[path(key) := m[key]] == base + Relocate(m - (todo - {key}), path)
    ensures Relocate(m - todo, path)[path(key) := m[key]] == Relocate(m - (todo - {key}), path)
    ensures baseDirs + DirsOf(Relocate(m - todo, path)) + {Dir(path(key))}
         == baseDirs + DirsOf(Relocate(m - (todo - {key}), path))
  {
    var done := m - todo;
    assert m - (todo - {key}) == done[key := m[key]];
    RelocateInsert(done, path, key, m[key]);
    DirsOfInsert(Relocate(done, path), path(key), m[key]);
    UnionUpdate(base, Relocate(done, path), path(key), m[key]);
  }

  /** A group write that fails part-way leaves only files and directories of the group behind. */
  lemma WriteFailStep(base: Files, baseDirs: set<string>, m: map<string, Bytes>, todo: set<string>, path: string -> string, key: string,
                      dirs0: set<string>, dirs: set<string>)
    requires Injective(path) && key in todo && todo <= m.Keys
    requires dirs0 == baseDirs + DirsOf(Relocate(m - todo, path))
    requires dirs == dirs0 || dirs == dirs0 + {Dir(path(key))}
    ensures WrittenWithin(base, base + Relocate(m - todo, path), Relocate(m, path), path(key))
    ensures baseDirs <= dirs <= baseDirs + DirsOf(Relocate(m, path))
  {
    var done := m - todo;
    assert m - (todo - {key}) == done[key := m[key]];
    RelocateSub(done, m, path);
    RelocateSub(done[key := m[key]], m, path);
    RelocateInsert(done, path, key, m[key]);
    DirsOfInsert(Relocate(done, path), path(key), m[key]);
    DirsOfSub(Relocate(done[key := m[key]], path), Relocate(m, path));
    PrefixWithin(base, Relocate(done, path), Relocate(m, path), path(key));
  }

  lemma UnionUpdate(a: Files, b: Files, p: string, v: Bytes)
    ensures (a + b)[p := v] == a + b[p := v]
  {
  }

  /** Parents is the image of `s` under Dir. */
  lemma {:induction false} ParentsImage(s: set<string>)
    ensures Parents(s) == set p | p in s :: Dir(p)
    decreases s
  {
    if s != {} {
      var p :| p in s && Parents(s) == Parents(s - {p}) + {Dir(p)};
      ParentsImage(s - {p});
      assert (set q | q in s :: Dir(q)) == (set q | q in s - {p} :: Dir(q)) + {Dir(p)};
    }
  }

  lemma DirsOfCovers(w: Files, p: string)
    requires p in w
    ensures Dir(p) in DirsOf(w)
  {
    ParentsImage(w.Keys);
  }

  lemma DirsOfInsert(w: Files, p: string, v: Bytes)
    ensures DirsOf(w[p := v]) == DirsOf(w) + {Dir(p)}
  {
    ParentsImage(w.Keys);
    ParentsImage(w[p := v].Keys);
    assert w[p := v].Keys == w.Keys + {p};
  }

  lemma DirsOfSub(a: Files, b: Files)
    requires SubMap(a, b)
    ensures DirsOf(a) <= DirsOf(b)
  {
    ParentsImage(a.Keys);
    ParentsImage(b.Keys);
  }

  /** Writing part of the plan on top of `before` stays within the plan. */
  lemma PrefixWithin(before: Files, part: Files, planned: Files, partial: string)
    requires SubMap(part, planned)
    ensures WrittenWithin(before, before + part, planned, partial)
  {
  }

  /** A file of the plan left truncated by a failing Write stays within the plan. */
  lemma PartialWithin(before: Files, mid: Files, after: Files, planned: Files, p: string)
    requires WrittenWithin(before, mid, planned, p) && p in planned
    requires after == mid || Truncated(mid, after, p, planned[p])
    ensures WrittenWithin(before, after, planned, p)
  {
  }

  lemma WithinWeaken(before: Files, after: Files, part: Files, planned: Files, partial: string)
    requires WrittenWithin(before, after, part, partial) && SubMap(part, planned)
    ensures WrittenWithin(before, after, planned, partial)
  {
  }

  /** A group that fails part-way after earlier parts of the plan were written stays within the plan. */
  lemma WithinAfterOnePart(base: Files, d1: Files, now: Files, part: Files, planned: Files, partial: string)
    requires SubMap(d1, planned) && SubMap(part, planned)
    requires WrittenWithin(base + d1, now, part, partial)
    ensures WrittenWithin(base, now, planned, partial)
  {
  }

  lemma WithinAfterTwoParts(base: Files, d1: Files, d2: Files, now: Files, part: Files, planned: Files, partial: string)
    requires SubMap(d1, planned) && SubMap(d2, planned) && SubMap(part, planned)
    requires WrittenWithin(base + d1 + d2, now, part, partial)
    ensures WrittenWithin(base, now, planned, partial)
  {
  }

  /** A refusal of a file of `part` is a refusal of a file of any plan that contains `part`. */
  lemma RefusedWithin(fs: FileSystem, part: Files, planned: Files, e: Error, blocked: set<string>)
    requires fs.WriteRefused(part, e, blocked) && part.Keys <= planned.Keys
    ensures fs.WriteRefused(planned, e, blocked)
  {
  }

  /** A reported refusal means some file of the plan is refused. */
  lemma RefusalRefutes(fs: FileSystem, w: Files, e: Error, blocked: set<string>)
    requires fs.WriteRefused(w, e, blocked)
    ensures !fs.NoneRefused(w, blocked)
  {
  }

  /** One more file written that the OS did not refuse. */
  lemma NoneRefusedInsert(fs: FileSystem, w: Files, p: string, v: Bytes, blocked: set<string>)
    requires fs.NoneRefused(w, blocked) && !fs.Refused(p, blocked)
    ensures fs.NoneRefused(w[p := v], blocked)
  {
  }

  /** Parts of a plan none of whose files is refused. */
  lemma NoneRefusedUnion(fs: FileSystem, a: Files, b: Files, blocked: set<string>)
    ensures fs.NoneRefused(a + b, blocked) <==> fs.NoneRefused(a, blocked) && fs.NoneRefused(b, blocked)
  {
  }

  lemma Assoc(a: Files, b: Files, c: Files)
    ensures a + b + c == a + (b + c)
  {
  }

  lemma FilesAssoc3(a: Files, b: Files, c: Files, d: Files)
    ensures a + b + c + d == a + (b + c + d)
  {
  }

  lemma SetsAssoc3(base: set<string>, x: set<string>, y: set<string>, z: set<string>, all: set<string>)
    requires all == x + y + z
    ensures base + x + y + z == base + all
  {
  }

  lemma SetsAssemble(base: set<string>, a: set<string>, b: set<string>, x: string, y: string, all: set<string>)
    requires all == a + b
    ensures base + a + {x} + {y} + b == base + ({x, y} + all)
  {
  }

  lemma DirsOfUnion2(a: Files, b: Files)
    ensures DirsOf(a + b) == DirsOf(a) + DirsOf(b)
  {
    ParentsImage(a.Keys);
    ParentsImage(b.Keys);
    ParentsImage((a + b).Keys);
    assert (a + b).Keys == a.Keys + b.Keys;
  }

  /** Writing the listed files failed part-way. */
  lemma PlanFailListed(fs: FileSystem, base: Files, baseDirs: set<string>, listed: Files, groups: Files, files: Files, dirs: set<string>,
                       x: string, y: string, e: Error, blocked: set<string>)
    requires listed.Keys !! groups.Keys
    requires fs.WriteRefused(listed, e, blocked) && WrittenWithin(base, files, listed, ErrorPath(e))
    requires baseDirs <= dirs <= baseDirs + DirsOf(listed)
    ensures fs.PlanRefusal(listed + groups, x, y, e, blocked) && WrittenWithin(base, files, listed + groups, ErrorPath(e))
    ensures !fs.NoneRefused(listed + groups, blocked)
    ensures baseDirs <= dirs <= baseDirs + ({x, y} + DirsOf(listed + groups))
  {
    DirsOfUnion2(listed, groups);
    WithinWeaken(base, files, listed, listed + groups, ErrorPath(e));
    RefusedWithin(fs, listed, listed + groups, e, blocked);
    RefusalRefutes(fs, listed + groups, e, blocked);
  }

  /** Creating the configuration directories or writing the groups failed
      after the listed files were written. */
  lemma PlanFailConfigs(fs: FileSystem, base: Files, baseDirs: set<string>, listed: Files, groups: Files, files: Files, dirs: set<string>,
                        x: string, y: string, e: Error, blocked: set<string>)
    requires listed.Keys !! groups.Keys
    requires fs.PlanRefusal(groups, x, y, e, blocked) && WrittenWithin(base + listed, files, groups, ErrorPath(e))
    requires baseDirs + DirsOf(listed) <= dirs <= baseDirs + DirsOf(listed) + {x} + {y} + DirsOf(groups)
    ensures fs.PlanRefusal(listed + groups, x, y, e, blocked) && WrittenWithin(base, files, listed + groups, ErrorPath(e))
    ensures !(x !in blocked && y !in blocked && fs.NoneRefused(listed + groups, blocked))
    ensures baseDirs <= dirs <= baseDirs + ({x, y} + DirsOf(listed + groups))
  {
    DirsOfUnion2(listed, groups);
    WithinAfterOnePart(base, listed, files, groups, listed + groups, ErrorPath(e));
    if fs.WriteRefused(groups, e, blocked) {
      RefusedWithin(fs, groups, listed + groups, e, blocked);
      RefusalRefutes(fs, listed + groups, e, blocked);
    }
  }

  /** A listed file was refused: the later stages never started. */
  lemma StoppedInListed(before: Files, beforeDirs: set<string>, after: Files, afterDirs: set<string>,
                        files: seq<FileEntry>, x: string, y: string, e: Error)
    requires e.WriteFailed? && e.path in WritesOf(files)
    requires StoppedAt(before, after, files, e) && afterDirs <= beforeDirs + DirsOf(WritesOf(files))
    ensures StoppedInPlan(before, beforeDirs, after, afterDirs, files, x, y, e)
  {
  }

  /** A configuration directory or a group file was refused after every listed file was written. */
  lemma StoppedInConfigs(fs: FileSystem, before: Files, beforeDirs: set<string>, mid: Files, midDirs: set<string>,
                         after: Files, afterDirs: set<string>, files: seq<FileEntry>, groups: Files,
                         x: string, y: string, e: Error, blocked: set<string>)
    requires WritesOf(files).Keys !! groups.Keys
    requires mid == before + WritesOf(files) && midDirs == beforeDirs + DirsOf(WritesOf(files))
    requires fs.PlanRefusal(groups, x, y, e, blocked) && WrittenWithin(mid, after, groups, ErrorPath(e))
    requires e.IoFailed? ==> after == mid
    requires e == IoFailed(x) ==> afterDirs == midDirs
    requires e == IoFailed(y) && y != x ==> afterDirs == midDirs + {x}
    requires e.WriteFailed? ==> x in afterDirs && y in afterDirs
    ensures StoppedInPlan(before, beforeDirs, after, afterDirs, files, x, y, e)
  {
  }

  /** Everything written: the state WritePlan promises. */
  lemma PlanDone(base: Files, baseDirs: set<string>, listed: Files, groups: Files, files: Files, dirs: set<string>, x: string, y: string)
    requires files == base + listed + groups
    requires dirs == baseDirs + DirsOf(listed) + {x} + {y} + DirsOf(groups)
    ensures files == base + (listed + groups)
    ensures dirs == baseDirs + ({x, y} + DirsOf(listed + groups))
  {
    DirsOfUnion2(listed, groups);
    SetsAssemble(baseDirs, DirsOf(listed), DirsOf(groups), x, y, DirsOf(listed + groups));
    Assoc(base, listed, groups);
  }

  /** All three groups written: the state WriteConfigGroups promises. */
  lemma GroupsDone(base: Files, baseDirs: set<string>, c: Files, u: Files, s: Files, files: Files, dirs: set<string>)
    requires files == base + c + u + s
    requires dirs == baseDirs + DirsOf(c) + DirsOf(u) + DirsOf(s)
    ensures files == base + (c + u + s)
    ensures dirs == baseDirs + DirsOf(c + u + s)
  {
    DirsOfUnion3(c, u, s);
    SetsAssoc3(baseDirs, DirsOf(c), DirsOf(u), DirsOf(s), DirsOf(c + u + s));
    FilesAssoc3(base, c, u, s);
  }

  /** The first group failed part-way. */
  lemma ChainGroupFailed(fs: FileSystem, base: Files, baseDirs: set<string>, c: Files, u: Files, s: Files, files: Files, dirs: set<string>, e: Error, blocked: set<string>)
    requires c.Keys !! u.Keys && c.Keys !! s.Keys && u.Keys !! s.Keys
    requires fs.WriteRefused(c, e, blocked) && WrittenWithin(base, files, c, ErrorPath(e))
    requires baseDirs <= dirs <= baseDirs + DirsOf(c)
    ensures fs.WriteRefused(c + u + s, e, blocked) && WrittenWithin(base, files, c + u + s, ErrorPath(e))
    ensures !fs.NoneRefused(c + u + s, blocked)
    ensures baseDirs <= dirs <= baseDirs + DirsOf(c + u + s)
  {
    DisjointSub3(c, u, s);
    DirsOfUnion3(c, u, s);
    WithinWeaken(base, files, c, c + u + s, ErrorPath(e));
    RefusedWithin(fs, c, c + u + s, e, blocked);
    RefusalRefutes(fs, c + u + s, e, blocked);
  }

  /** The second group failed part-way, after the first was written. */
  lemma UpgradeGroupFailed(fs: FileSystem, base: Files, baseDirs: set<string>, c: Files, u: Files, s: Files, files: Files, dirs: set<string>, e: Error, blocked: set<string>)
    requires c.Keys !! u.Keys && c.Keys !! s.Keys && u.Keys !! s.Keys
    requires fs.WriteRefused(u, e, blocked) && WrittenWithin(base + c, files, u, ErrorPath(e))
    requires baseDirs + DirsOf(c) <= dirs <= baseDirs + DirsOf(c) + DirsOf(u)
    ensures fs.WriteRefused(c + u + s, e, blocked) && WrittenWithin(base, files, c + u + s, ErrorPath(e))
    ensures !fs.NoneRefused(c + u + s, blocked)
    ensures baseDirs <= dirs <= baseDirs + DirsOf(c + u + s)
  {
    DisjointSub3(c, u, s);
    DirsOfUnion3(c, u, s);
    WithinAfterOnePart(base, c, files, u, c + u + s, ErrorPath(e));
    RefusedWithin(fs, u, c + u + s, e, blocked);
    RefusalRefutes(fs, c + u + s, e, blocked);
  }

  /** The third group failed part-way, after the first two were written. */
  lemma SubnetGroupFailed(fs: FileSystem, base: Files, baseDirs: set<string>, c: Files, u: Files, s: Files, files: Files, dirs: set<string>, e: Error, blocked: set<string>)
    requires c.Keys !! u.Keys && c.Keys !! s.Keys && u.Keys !! s.Keys
    requires fs.WriteRefused(s, e, blocked) && WrittenWithin(base + c + u, files, s, ErrorPath(e))
    requires baseDirs + DirsOf(c) + DirsOf(u) <= dirs <= baseDirs + DirsOf(c) + DirsOf(u) + DirsOf(s)
    ensures fs.WriteRefused(c + u + s, e, blocked) && WrittenWithin(base, files, c + u + s, ErrorPath(e))
    ensures !fs.NoneRefused(c + u + s, blocked)
    ensures baseDirs <= dirs <= baseDirs + DirsOf(c + u + s)
  {
    DisjointSub3(c, u, s);
    DirsOfUnion3(c, u, s);
    WithinAfterTwoParts(base, c, u, files, s, c + u + s, ErrorPath(e));
    RefusedWithin(fs, s, c + u + s, e, blocked);
    RefusalRefutes(fs, c + u + s, e, blocked);
  }

  lemma DirsOfUnion3(a: Files, b: Files, c: Files)
    ensures DirsOf(a + b + c) == DirsOf(a) + DirsOf(b) + DirsOf(c)
  {
    DirsOfUnion2(a, b);
    DirsOfUnion2(a + b, c);
  }

}
