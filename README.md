# netrunner local controller: node provisioning and the node handle

A Dafny model of two pieces of the local network controller of netrunner.

The first piece is `local/helpers.go`. It covers:
- how a node's flag maps are merged and read (`addNetworkFlags`, `getConfigEntry`, `getPort`);
- where a node's runtime directory lives (`getNodeDir`, `makeNodeDir`);
- which files `writeFiles` writes on startup, and which directories it creates, through `createFileAndWrite`.

The second piece is the node handle `localNode` in `local/node.go`. It covers:
- the registry of attached peers, filled by `AttachPeer` and read by `SendOutboundMessage`;
- the accessors that branch on the node's fields (`GetURL`, `GetBuildDir`, `GetFlag`).

The model has five modules:
- `Types` (`types.dfy`) holds the fixed-width integers and the dynamically typed flag value. A `Value` is `Str | Int | Float | Other`; its `Float` carries an integral value. It also holds errors, `Result`/`Option` and the fields of a node configuration that the core reads.
- `Paths` (`paths.dfy`) models `filepath.Join` and `filepath.Dir` on slash-separated paths, without lexical cleaning.
- `Helpers` (`helpers.dfy`) holds the pure lookups and getters. `addNetworkFlags` is an in-place loop over a shared map object (`FlagMap`).
- `Provision` (`provision.dfy`) has a `FileSystem` class that holds directories and files. It also holds two fixed sets of paths: those at which the OS refuses to create a directory or a file, and those whose `Write` fails once `os.Create` has created, or truncated, the file. Such a file is left holding some prefix of its contents. A directory is refused when the OS refuses to create it and it is absent when the write starts; an existing directory is never refused, as `os.MkdirAll` succeeds on it. A file is refused when its parent directory is refused, its `os.Create` is refused, or its `Write` fails. No write creates a refused directory, so what is refused stays fixed for a whole call. On that class sit `createFileAndWrite`, `makeNodeDir` and `writeFiles`. `writeFiles` is specified against a plan: the flags it returns (`PlannedFlags`), the files it leaves (`PlannedWrites`) and the directories it creates (`PlannedDirs`). Lemmas then state what the plan contains.
- `Node` (`node.dfy`) holds the `LocalNode` class with its `attachedPeers` map and the `Peer` class.

These are parameters of the model:
- base64 decoding of the signing key (`decode`);
- JSON decoding of the config file (`parse`);
- the free-port lookup (`freePort`);
- a peer's `Send` (`send`);
- the outcome of the attach handshake: the set of stages that fail, and the node ID of the certificate the attach generates.

The file and flag-key names (`staking.key`, `chain-config-dir`, …) and `LocalID` are declared in files that are not part of this model, which gives them constant values. The properties stated need only two facts about the names: they differ from each other, and none contains a separator. Some proofs establish these facts from the characters of the constants (`TopPathsDistinct`, `TopNotInGroup`, `ChainNotUpgrade`).

`writeFiles` is one Go function. The model splits it along the function's own sections, in the same order:
- `WriteFiles` decodes the signing key and builds the file list.
- `WritePlan` runs the rest.
- `WriteListedFiles` is the loop over the files slice.
- `WriteConfigs` creates the two configuration directories, then calls `WriteConfigGroups` for the three map loops. `WriteConfigGroups` uses one `WriteConfigGroup` loop per map.

Three behaviours of the code are easy to misread; the model follows the code:
- **GetFlag's precedence.** Whenever config text is present, `GetFlag` consults only the parsed config file. A key missing there gives "" and the flag map is not consulted (`GetFlagIgnoresFlags`). This is the opposite of `getConfigEntry`, where node flags win over the config file (`GetFlagOppositePrecedence`).
- **The peer registry's key.** `AttachPeer` registers the peer under `p.ID()`. That is the ID passed to `peer.Start` at local/node.go:169, which comes from the certificate generated at local/node.go:85 for the controller's own side. The node ID that the TLS upgrade at local/node.go:160 returns for the remote side is discarded. So every attach registers under the ID of a fresh certificate, not under the remote node's ID.
- **The peer registry's lock.** `attachedPeers` is a plain map, written by `AttachPeer` and read by `SendOutboundMessage` without a lock.

## Model

| member | source | states |
|---|---|---|
| Paths.Join | local/helpers.go:187 | joining a non-empty element puts one separator between directory and element; an empty directory or element is dropped |
| Paths.Dir | local/node.go:241 | the directory of a path is never empty: it is "." or a prefix of the path |
| Paths.DirOfJoin | local/node.go:241 | the directory of `dir/elem` is `dir` when `elem` holds no separator |
| Paths.DirOfBareName | local/node.go:241 | a path with no separator has directory "." |
| Paths.JoinInjective | local/helpers.go:92 | joining two different non-empty elements onto one directory gives two different paths |
| Helpers.LookupString | local/node.go:281-288 | a missing key gives the default; a present key gives its string, or a type-mismatch error naming the key when the value is not a string |
| Helpers.GetConfigEntry | local/helpers.go:115-135 | a node-flag string is returned; a node-flag non-string is an error even when the config file has a string; otherwise a config-file string is returned and a config-file non-string is an error; a key absent from both gives `defaultVal` |
| Helpers.ConfigEntryIsMergedLookup | local/helpers.go:115-135 | getConfigEntry equals a lookup in the merge of the two maps in which node flags win, the same precedence as addNetworkFlags |
| Helpers.ToUint16 | local/helpers.go:147 | Go's integer-to-uint16 conversion keeps in-range values and otherwise agrees with the input modulo 65536 |
| Helpers.GetPort | local/helpers.go:139-166 | an int or float flag is converted to uint16; any other flag type is an error and the config file is not consulted; a config-file entry is accepted only as a float; a key absent from both gives the free-port oracle's port, or its error wrapped |
| Helpers.GetPortPrecedence | local/helpers.go:144-164 | once the flags hold the key, neither the config file nor the oracle changes the result; once only the config file holds it, the oracle does not |
| Helpers.GetPortExplicit | local/helpers.go:144-158 | a port written as a flag (int or float) or as a config-file float comes back unchanged; an int in the config file is refused |
| Helpers.MergeFlags | local/helpers.go:207-215 | the merge has the union of the keys, every node value, and the network value for every network-only key |
| Helpers.MergeFlagsIdempotent | local/helpers.go:207-215 | adding the same network flags twice equals adding them once |
| Helpers.AddNetworkFlags | local/helpers.go:207-215 | the node map becomes the merge of the two old maps; the network map is unchanged unless it is the same object |
| Helpers.GetNodeDir | local/helpers.go:186-188 | the node directory is `rootDir/nodeName`, or `nodeName` when no root is given |
| Helpers.NodeDirUnderRoot | local/helpers.go:186-188 | the node directory sits directly under the root directory |
| Provision.FileSystem.MkdirAll | local/helpers.go:80-82 | an existing directory succeeds unchanged; otherwise the directory is created unless the OS refuses it, which is an error naming it |
| Provision.FileSystem.Mkdir | local/helpers.go:177 | an existing directory is an already-exists error; otherwise it is created or the OS error is returned |
| Provision.FileSystem.CreateAndWrite | local/helpers.go:196-202 | a file that cannot be created is an error naming it, with nothing written; otherwise the file is created or truncated, and it holds exactly the contents, or, when the Write fails, a prefix of them with an error naming it |
| Provision.FileSystem.CreateFileAndWrite | local/helpers.go:192-203 | the parent directory is made first and a failure there writes nothing; on success the parent exists and the file holds exactly the contents; every failure names the refused directory or file and leaves at most this file holding a prefix of the contents; it succeeds exactly when the file is not refused |
| Provision.MakeNodeDir | local/helpers.go:168-184 | fails exactly when the node directory is absent and cannot be created; finding it already there is not an error; on success the directory exists and its path is returned; a failure is the "error creating temp dir" error wrapping the refusal of that directory |
| Provision.ListedFiles | local/helpers.go:35-70 | the `files` slice: the three credential files, then the genesis file off the local network, then the config file when there is config text; its properties are stated by ListedWritesSpec, ListedPathsDistinct and PlannedFlagsSpec |
| Provision.GroupPath | local/helpers.go:92-106 | the path of a key's file in each group; its properties are stated by GroupPathsInjective, GroupsDisjoint and TopNotInGroup |
| Provision.PlannedFlags | local/helpers.go:72-88 | the flags writeFiles returns on success, which WriteFiles is specified against; stated by PlannedFlagsSpec |
| Provision.PlannedWrites | local/helpers.go:35-110 | the files writeFiles leaves on success, which WriteFiles is specified against; stated by PlannedWritesSpec |
| Provision.PlannedDirs | local/helpers.go:78-88 | the directories writeFiles creates on success: the two configuration directories and the parent of every planned file; stated by PlannedDirsCoverParents |
| Provision.GroupWrites | local/helpers.go:91-110 | every key of a per-chain or per-subnet map has a file at its group path holding that key's value |
| Provision.WriteFiles | local/helpers.go:24-112 | a signing key that does not decode is an error with no file or directory touched; otherwise it succeeds exactly when no planned file and neither configuration directory is refused; on success the flags are the planned flags, exactly the planned files are added with their contents, and exactly the planned directories are added; an error names a refused planned file or a refused configuration directory, and leaves only planned files with their planned contents (the named file possibly holding a prefix of them) and only planned directories; the stages run in order and the first failure ends the run, as stated for Provision.WritePlan |
| Provision.WritePlan | local/helpers.go:71-111 | the listed files, the two configuration directories and the three groups are written in that order, and the first failure ends the run: a refused listed file leaves the earlier listed files written, no later listed file or group file added, and no directory beyond the listed files' parents; a refused configuration directory comes after every listed file and before any group file, and a refused subnet-config directory comes after the chain-config one; a refused group file comes after every listed file and both directories; it succeeds exactly when nothing of the plan is refused; on success the flags are those of the listed files plus the two directory flags, and files and directories are exactly the old ones plus the plan; an error names a refused planned file or configuration directory, and nothing outside the plan was written |
| Provision.WriteListedFiles | local/helpers.go:71-77 | every listed file is written in order and its flag recorded (a later entry wins); it succeeds exactly when no listed file is refused; a failure is the "couldn't write file" error for a refused listed file, writing stopped at that entry (every earlier entry is written, no later one is added), and only listed files were written, the failed one possibly holding a prefix of its contents |
| Provision.WriteConfigs | local/helpers.go:78-110 | both configuration directories are created and recorded as flags before the group files are written: a refused directory leaves no group file written, a refused chain-config directory creates no directory, a refused subnet-config directory leaves only the chain-config one created, and a refused group file comes after both directories exist; it succeeds exactly when neither directory and no group file is refused; an error names a refused directory or group file, and only group files and those directories were added |
| Provision.WriteConfigGroups | local/helpers.go:90-110 | the chain-config, upgrade and subnet-config maps each leave exactly their files; it succeeds exactly when no file of the three groups is refused; a failure names a refused file of the groups and leaves only files of the three groups |
| Provision.WriteConfigGroup | local/helpers.go:91-96 | one file per map key at that key's path, in no particular order; it succeeds exactly when no file of the group is refused; a failure is the "couldn't write file" error for a refused file of the group and leaves only files of the group |
| Provision.PlannedFlagsSpec | local/helpers.go:35-89 | the flags always hold the three credential paths and the two configuration directories under the node root; the genesis flag is there exactly when the network is not the local one; the config-file flag exactly when there is config text; no per-chain or per-subnet file has a flag |
| Provision.PlannedWritesSpec | local/helpers.go:35-110 | the credential files hold their source contents, and the signing-key file holds the decoded bytes; the genesis file exists exactly when the network is not the local one and holds the genesis bytes; the config file exists exactly when there is config text and holds it; every chain alias, upgrade alias and subnet ID has its file under the configuration directories, holding that map's value; the plan holds no other file |
| Provision.ListedWritesSpec | local/helpers.go:35-77 | the listed files alone hold the credential, genesis and config files under the stated conditions |
| Provision.GroupsInPlan | local/helpers.go:91-110 | every key of every group has its file in the plan, holding its value |
| Provision.PlannedDirsCoverParents | local/helpers.go:192-195 | the parent directory of every planned file is a planned directory |
| Provision.ListedPathsDistinct | local/helpers.go:35-70 | no two entries of the files slice share a path |
| Provision.GroupPathsInjective | local/helpers.go:91-110 | two different keys of one group never share a path |
| Provision.GroupsDisjoint | local/helpers.go:92-106 | files of different groups never share a path: chain configs and upgrades differ in the file name, subnet files live under another directory |
| Provision.TopNotInGroup | local/helpers.go:37-106 | a file directly under the node root is never a file of any group |
| Provision.PlanDisjoint | local/helpers.go:35-110 | the listed files and the three groups of the model's uncleaned paths are pairwise disjoint |
| Node.LocalNode.AttachPeer | local/node.go:84-185 | fails exactly when some stage fails; the error is the first failing stage in source order and the registry is unchanged; on success a new peer is registered under the ID of the certificate the attach generated, replacing any earlier entry, with every other entry kept; every peer stays registered under its own ID |
| Node.LocalNode.SendOutboundMessage | local/node.go:187-194 | an unattached peer ID gives `false` and a not-attached error; an attached one carries no error and returns that peer's `Send` result for a message with the given opcode and payload that does not bypass throttling; the registry is not changed |
| Node.LocalNode.GetURL | local/node.go:212-217 | the URL is "0.0.0.0" exactly when the host is "0.0.0.0" or ".", and "127.0.0.1" otherwise |
| Node.LocalNode.GetBuildDir | local/node.go:239-244 | an explicit build directory wins; otherwise the directory of the binary path |
| Node.LocalNode.BuildDirOfBinary | local/node.go:239-244 | without an explicit build directory, a binary at `dir/name` builds in `dir` and a bare binary name builds in "." |
| Node.LocalNode.GetFlag | local/node.go:267-291 | with config text, only the parsed config file is read: a parse failure is an error, a missing key gives "", and a non-string is an error; without config text, only the flag map is read under the same rules |
| Node.GetFlagIgnoresFlags | local/node.go:269-280 | with config text present, the node's flag map never changes GetFlag's result |
| Node.GetFlagOppositePrecedence | local/node.go:269-280 | for a key held as a string in both places, GetFlag returns the config file's value while getConfigEntry returns the node flag's |

## Left out

- TLS certificate generation, dialing, the TLS upgrade, the message creators, the Prometheus metrics, the resource tracker, `peer.Start` and the readiness timeout in `AttachPeer` are network and library calls. They become one abstract outcome per stage.
- Concurrency is not modelled. Concurrent `AttachPeer` calls on one node are out of scope, and so is the blocking behaviour of `Send` with its context.
- File permissions (0o750, 0o755), file handles and the deferred `Close` are not modelled.
- `MkdirAll` also creates missing ancestor directories. The model records only the directory asked for.
- How much of its contents a failing `Write` leaves in the file is not determined: the model allows any prefix.
- The model does not represent a file and a directory that share a path.
- Base64 decoding and JSON decoding are library calls, so each is a partial-function parameter.
- `getFreePort` binds an OS socket and is an oracle parameter. The `rand.Seed` call at package initialisation is not modelled.
- Helpers.ToUint16: float64-to-uint16 conversion of non-integral or out-of-range floats is not modelled. A `Float` value carries an integer, and it is converted like an int.
- Lexical cleaning in `filepath.Join` and `filepath.Dir` is not modelled. That covers "." and ".." elements, doubled separators and trailing separators. In Go, cleaning can make two planned files coincide when a chain alias or subnet ID is empty, is "." or "..", or holds a separator. For example, the chain alias ".." puts its config file at the node root's `config.json`, over the node's own config file, and the aliases "" and "." name one file. The next lines name the members whose claims hold only of the uncleaned paths.
- Provision.PlanDisjoint: the parts of the plan are disjoint as uncleaned paths only; for the keys above the program writes the same file twice.
- Provision.GroupPathsInjective: distinct keys give distinct uncleaned paths only; in Go the aliases "" and "." give one path.
- Provision.TopNotInGroup: holds of uncleaned paths only; in Go the chain alias ".." gives a group file at a top-level path.
- Provision.GroupsDisjoint: holds of uncleaned paths only; in Go a key holding ".." elements can reach another group's directory.
- Provision.PlannedWritesSpec: describes the uncleaned plan; for the keys above a later group file can replace a top-level file or another group file in the program.
- Logging is not modelled: `makeNodeDir`'s two warnings (local/helpers.go:170 and :181) have no effect in the model.
- Error message text is not modelled; errors are constructors. This includes `getConfigEntry` printing the type of its shadowed empty variable.
- The order in which a Go map loop visits its keys is not modelled. On an error part-way through a group, the model states only that the files written are files of that group.
- The accessors that return a field unchanged are not modelled as members of their own. These are `GetName`, `GetNodeID`, `GetAPIClient`, `GetP2PPort`, `GetAPIPort`, `Status`, `GetDbDir`, `GetLogsDir`, `GetConfigFile`, `GetConfig` and `GetBinaryPath`. What they return is a field of `LocalNode` or of its configuration.
- A nil flag map in `GetFlag` behaves exactly like an empty one, so the model does not distinguish the two.
- The API client, the process handle and the node ID of `localNode` are not modelled.
- Node.LocalNode.AttachPeer: the registry key is a parameter standing for the node ID of the certificate generated at local/node.go:85. Generating the certificate, and deriving the ID from it, are not modelled.
- Node.LocalNode.SendOutboundMessage: the opcode keeps its `uint32` value. The code converts it with `message.Op(op)`, and that type is declared outside this model; if it is narrower, the opcode is truncated there.
- The "reassign if used" behaviour in `getPort`'s doc comment is not implemented in the code, so it is not modelled.
