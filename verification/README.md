# go-i2p-testnet, modelled in Dafny

go-i2p-testnet starts a small I2P test network in Docker: one container per
router, a shared Docker volume through which the routers exchange their
RouterInfo records (the netDb), and helpers that copy configuration files
into volumes. Almost everything it does is a call into the Docker Engine.
This project models the decisions between those calls, and proves what
they guarantee:

- **netDb record naming and sharding.** A record of a router is named
  `routerInfo-<hash>.dat` after its encoded identity hash, and is filed
  under a shard directory made of the hash's first two characters. Helper
  containers are named after the node. (`NetDbNaming`, `RouterInfoExtract`)
- **The scoped helper-container lifecycle.** Seven routines share this
  lifecycle: create, `defer` a forced remove, then run steps until the
  first error. Those routines are the three netDb sync verbs (publish,
  push and pull) and the four copies of `CopyConfigToVolume`. The
  lifecycle is modelled once (`Scoped.Run`). Each routine supplies its own
  list of steps (`NetDbSync`, `ConfigCopy`).
- **Archive entries.** A tar archive is modelled as the list of its
  entries. The single-entry archive writer is the producer, and the reader
  that scans for `router.info` is the consumer. (`Archive`, `ContainerFiles`)
- **The small pure decisions around the plumbing:**
  - image tag matching, build, removal and build-output handling
    (`ImageControl`);
  - find-or-create of the testnet network (`Networks`);
  - router addresses, peer lists, configuration text, resource names,
    tracking and cleanup in `main` (`Testnet`);
  - the go-i2p router directory layout (`GoI2pLayout`);
  - the i2pd default configuration (`I2pdConfig`);
  - the log-level choice (`TestnetLogger`).

The Docker daemon is not modelled.
- Each operation returns the sequence of `Docker.Call` values it issues, called its trace. The one exception is push: the calls made inside its extraction, `GetRouterInfoWithFilenameRaw`, are not in its trace (see "Left out").
- Each operation receives the outcome of every call as an input: a `Scoped.Fault` naming the first failing step, a `Result`, or an `Option<string>` error.
- Foreign code is a function parameter:
  - go-i2p's RouterInfo parser, identity hash and base64 encoder;
  - the INI and YAML encoders;
  - `os.MkdirAll`.
- Go errors are strings. `fmt.Errorf("<context>: %v", err)` is modelled as `Wrappers.Wrap(context, err)`.

## Model

| member | source | states |
|---|---|---|
| NetDbNaming.RecordFilename | lib/i2pd/extract.go:21-23 | The filename is `"routerInfo-"`, the encoded hash, then `".dat"`. It is 15 characters longer than the hash, and the hash sits between the prefix and the suffix. |
| NetDbNaming.EncodedHashOf | lib/i2pd/extract.go:23 | Reads the hash back out of a name. A result exists exactly when the name is long enough and starts with the prefix. |
| NetDbNaming.FilenameRoundTrip | lib/i2pd/extract.go:23 | Reading the hash back from a record filename gives the hash it was built from. |
| NetDbNaming.FilenameOfParsed | lib/i2pd/extract.go:23 | The reverse round trip: every name that reads as a record filename is the filename of the hash read from it. |
| NetDbNaming.FilenameInjective | lib/i2pd/extract.go:23 | Distinct hashes give distinct record filenames. |
| NetDbNaming.ShardOf | lib/i2pd/sync.go:197-199 | The shard is two characters long and is a prefix of the hash. It is defined only for hashes of at least two characters, which is where the Go slice would panic. |
| NetDbNaming.ShardFromFilename | lib/i2pd/sync.go:197-199 | The shard can also be read off the filename, at positions 11 and 12, right after the prefix. |
| NetDbNaming.PublishedPathShape | lib/i2pd/sync.go:237-241 | The published entry path is the shard, a slash, then the filename. It is 18 characters longer than the hash, and its third character is `/`. |
| NetDbNaming.PublishedPathInjective | lib/i2pd/sync.go:237-241 | Distinct records are published under distinct entry paths, so one publish never overwrites another router's record. |
| NetDbNaming.SharedDir | lib/i2pd/sync.go:57 | The push target directory lies under `/shared/netDb/`, and the caller's directory follows the slash. |
| NetDbNaming.HelperName | lib/i2pd/sync.go:29 | The push and publish helper name is `helper-container-` followed by the first 12 characters of the container ID. IDs shorter than 12 are excluded, because the Go slice would panic. |
| NetDbNaming.HelperNameDistinguishes | lib/i2pd/sync.go:29 | Two nodes get the same helper name exactly when their IDs agree on the first 12 characters. |
| NetDbNaming.PullHelperNameDistinct | lib/i2pd/sync.go:110 | The pull verb's fixed helper name never equals the name of a push or publish helper. |
| RouterInfoExtract.GetRouterInfoWithFilename | lib/i2pd/extract.go:12-25 | Reads `/root/.i2pd/router.info`. A read or parse error is returned unchanged. On success the raw string is what was read, the record is what the parser made of it, and the filename is the record filename of its encoded hash. |
| RouterInfoExtract.ReadsOnlyRouterInfoPath | lib/i2pd/extract.go:13 | Two nodes that agree on the content of the fixed path give the same result. |
| RouterInfoExtract.ReadFailureSkipsParse | lib/i2pd/extract.go:13-16 | A failed read returns before parsing, so the parser cannot affect the result. |
| Archive.CreateTarArchive | lib/utils/tar.go:12-63 | Succeeds exactly when all three tar writer calls succeed. It then holds one entry with the given name, mode 0600, the content as its body and the content's length as its size. The header sets no type flag, so the entry is a directory when the name ends in `/` and a regular file otherwise. Writing content into a directory entry fails with `archive/tar: write too long`. Any other failure returns the failing call's error unchanged. |
| Archive.Decode | lib/docker_control/extract.go:55-62 | Decoding an intact stream gives one entry per member, in order. Decoding fails exactly when some record is not an intact member. |
| Archive.SingleEntryRoundTrip | lib/utils/tar.go:21-25 | Building succeeds unless the name ends in `/` and there is content. Decoding the stream of the archive it builds gives back exactly the entry that was written, with its kind. |
| Archive.DirectoryNameExample | lib/utils/tar.go:21-47 | `CreateTarArchive("x/", "")` gives a directory entry, and `CreateTarArchive("x/", "abc")` fails with `archive/tar: write too long`. |
| ContainerFiles.ReadFileFromContainer | lib/docker_control/extract.go:15-40 | A failed copy, a path that is not a regular file and a failed read each give their own error. Otherwise the copied stream is returned unchanged, and it is returned exactly when none of those happened. |
| ContainerFiles.FindTarget | lib/docker_control/extract.go:55-76 | The scan stops at the first record that is not an intact entry other than a regular `router.info`. That record decides the result: the target's body, or the reader or body error. With no such record the result is "file not found". |
| ContainerFiles.ReadFileFromContainerUnarchive | lib/docker_control/extract.go:42-77 | A copy error is wrapped. Otherwise the result is decided by the first record the scan does not step over, or is "not found" if there is none. |
| ContainerFiles.FindTargetIgnoresPath | lib/docker_control/extract.go:68 | The requested path plays no part in which entry is found. Only the name `router.info` is matched. |
| ContainerFiles.CreateThenUnarchive | lib/docker_control/extract.go:42-77 | Round trip: unarchiving the archive `CreateTarArchive("router.info", c)` writes gives back `c`, whatever path was asked for. |
| Scoped.Run | lib/i2pd/sync.go:41-50 | The lifecycle shared by all seven routines. The helper is removed if and only if its create succeeded, and then exactly once, as the last call. The body's calls are issued in order up to the failing one. The result is the wrapped error of the first failing call, or success. A removal error becomes a warning only under the logging policy. |
| Scoped.RemovalFailureIrrelevant | lib/i2pd/sync.go:47-50 | A failing removal changes neither the calls issued nor the result. |
| Scoped.CleanRun | lib/i2pd/sync.go:41-50 | With no fault, the trace is the create, every body call in order, then the removal, and the result is success. |
| Scoped.FailingRun | lib/i2pd/sync.go:41-50 | A failure at step `k` issues the body's calls up to and including the failing one, then the removal, and fails with that step's context wrapped around the cause. |
| Scoped.IssuedStep | lib/i2pd/sync.go:41-50 | A call that occurs once in the body is issued exactly when the create succeeded and the run reached that step. |
| NetDbSync.SyncRouterInfoToNetDb | lib/i2pd/sync.go:188-277 | Publish. The first call is always the read of the node's `/root/.i2pd/router.info`, made by the extraction (lib/i2pd/extract.go:13). A failed extraction returns its wrapped error after that read and before any container exists. Otherwise the helper is created with the node's helper name and is removed exactly once, last, whenever it exists. Nothing is logged on removal failure. After a successful extraction the verb fails exactly when a daemon call fails, and the error is that call's context wrapped around the cause. |
| NetDbSync.PublishCleanRun | lib/i2pd/sync.go:188-271 | A clean publish issues, in order: the read of the node's `router.info`, the helper create, start, the tar header for `shard/filename` with mode 0600 and the record's size, the write, the close, the one-entry upload into `/shared/netDb`, `ls -lR /shared/netDb`, its attach, and the removal. It then succeeds. |
| NetDbSync.PublishListingFailureFails | lib/i2pd/sync.go:259-271 | If the listing exec or its attach fails after the upload, the verb fails with that step's error, although the record was already uploaded. |
| NetDbSync.PublishedEntryShape | lib/i2pd/sync.go:231-241 | The uploaded archive holds exactly one entry, named `hash[..2] + "/routerInfo-" + hash + ".dat"`. The entry is regular, has mode 0600, and carries the raw record with its length as size. |
| NetDbSync.PushArchiveAgrees | lib/i2pd/sync.go:69-87 | The push builds its archive inline with the same three writer calls as `CreateTarArchive`. Both agree: the archive is built exactly when the filename is not a directory name carrying content, and it is then the push entry. Otherwise both give "archive/tar: write too long". |
| NetDbSync.PushFault | lib/i2pd/sync.go:78-84 | The first failing call of a push is the daemon's, unless the run reaches the tar write with a directory name and content. The write then fails with "archive/tar: write too long". Whether the helper was created is unchanged. |
| NetDbSync.SyncNetDbToShared | lib/i2pd/sync.go:17-103 | Push. The helper is created with the node's helper name and is removed exactly once, last, whenever it was created. The removal error is dropped. The verb fails exactly when a daemon call fails or the write is too long. A daemon failure up to the header, or any daemon failure when the write fits, gives that call's wrapped error. Otherwise a too-long write gives "error writing router info to tar: archive/tar: write too long". |
| NetDbSync.PushCleanRun | lib/i2pd/sync.go:52-95 | Without a daemon failure, and unless the filename is a directory name carrying content, a push issues, in order: the create, start, `mkdir -p /shared/netDb/<dir>`, its start, the three tar writes, the upload of the one entry named by the filename, and the removal. It then succeeds. |
| NetDbSync.PushTooLongRun | lib/i2pd/sync.go:73-84 | A push with a filename ending in `/` and a non-empty record makes a directory header, so the write fails. The trace is the create, start, the mkdir exec and its start, the header, the write, and the removal, with no close and no upload. The verb fails with "error writing router info to tar: archive/tar: write too long". |
| NetDbSync.PushMkdirBeforeCopy | lib/i2pd/sync.go:56-92 | The upload goes into the very directory the mkdir created. Whenever the upload is issued, the mkdir exec and its start came before it. |
| NetDbSync.PushIgnoresExtractionError | lib/i2pd/sync.go:18-21 | The error returned by the raw extraction changes neither the calls nor the result. This is a known defect, modelled as written. |
| NetDbSync.SyncSharedToNetDb | lib/i2pd/sync.go:105-185 | Pull. The helper is always named `helper-container` and is removed exactly once, last, whenever it was created. The verb fails exactly when a daemon call fails, and the error is that call's context wrapped around the cause. |
| NetDbSync.PullCleanRun | lib/i2pd/sync.go:105-181 | A clean pull issues, in order: the create of `helper-container`, start, `ls /shared/netDb`, its start, the read-out of `/shared/netDb`, `mkdir -p /root/.i2pd/netDb` in the node, its start, and the streamed copy into the node with overwrite of directories by files allowed. Then it removes the helper and succeeds. |
| NetDbSync.PullPreparesDestination | lib/i2pd/sync.go:152-178 | Nothing is written into the node before the shared netDb has been read out of the helper and the node's mkdir has run. |
| ConfigCopy.CopyConfigToVolume | lib/i2pd/config.go:441-511 | Models all four copies. A failed create returns its wrapped error and removes nothing. Otherwise the container is force-removed exactly once, last, on every path. The result fails exactly when some step fails. A removal error is logged by the library copies and dropped by main.go. |
| ConfigCopy.ConfigCleanRun | lib/go-i2p/config.go:115-148 | A clean copy issues, in order: start, archive, upload into the mount point, stop, and removal. It then succeeds. |
| ConfigCopy.UploadIsOneEntry | lib/go-i2p/config.go:125-137 | The upload holds one regular entry, named by the site's file name, with mode 0600 and the configuration as its body. The names are `.go-i2p/config.yaml` for go-i2p and `i2pd.conf` for i2pd. |
| ConfigCopy.StopFailureAfterUpload | lib/go-i2p/config.go:106-145 | A stop failure after a successful upload is still returned as an error, and the container is still removed. |
| ImageControl.AnyImageNamed | lib/docker_control/image.go:152-159 | The two nested loops answer true exactly when some tag of some listed image names the image. |
| ImageControl.ImageExists | lib/docker_control/image.go:142-163 | The result is true exactly when some listed image has a tag equal to `name` or `name:latest`, so an empty list gives false. A list error is returned. |
| ImageControl.BuildDockerImage | lib/docker_control/image.go:30-109 | An existing image means one list call and success. `ImageBuild` is issued only when the image is absent and the Dockerfile and tar steps succeeded. It is issued with the image name as tag and a one-entry `Dockerfile` context. The result is success exactly when the image existed or every later step succeeded. |
| ImageControl.BuildContextIsSingleEntry | lib/docker_control/image.go:56-95 | The build context is exactly what `CreateTarArchive("Dockerfile", content)` would build. |
| ImageControl.BuildDockerImageFromDirectory | lib/docker_control/docker.go:70-109 | The directory build skips an existing image. It builds from the packed host directory exactly when the image is absent and packing succeeded. It succeeds exactly when the image existed or every later step succeeded. |
| ImageControl.RemoveDockerImage | lib/docker_control/image.go:112-141 | `ImageRemove` is called, with force and pruning of children, exactly when the image exists. A missing image is an error naming it. The result is success exactly when the image exists and its removal succeeds. |
| ImageControl.CleanStreamBlank | lib/docker_control/image.go:185-193 | Nothing is printed exactly when the stream is all white space. Otherwise the printed text is the trimmed stream with its carriage returns deleted. |
| ImageControl.CleanStreamShape | lib/docker_control/image.go:185-193 | A printed stream line is never empty, contains no carriage return, and neither starts nor ends with white space. |
| ImageControl.HandleLine | lib/docker_control/image.go:170-194 | A non-JSON line is printed unchanged. Otherwise an error takes priority over an image ID, and an image ID over a stream. A message with none of these emits nothing. |
| ImageControl.EmittedByAppend | lib/docker_control/image.go:169-195 | Output is produced line by line: what two runs of lines emit one after the other is the concatenation of what each emits. |
| ImageControl.StreamDockerOutput | lib/docker_control/image.go:166-202 | Emits, in order, what each line emits. A scanner error is wrapped as the result, after everything before it was emitted. The bound of at most one output per line is only a counting fact. |
| Networks.FindNetwork | lib/docker_control/network.go:16-21 | Finds nothing exactly when no listed network carries the name. Otherwise it finds the ID of the first one in list order. |
| Networks.CreateDockerNetwork | lib/docker_control/network.go:10-40 | A list error is returned without a create. An existing network is reused, taking the first with the name. A bridge network on 172.28.0.0/16 is created exactly when none carries the name, and the create's outcome is then the result. |
| Networks.SecondCallReuses | main.go:39-68 | Two successive calls against a daemon that records its creates make at most one network. The second call creates nothing and returns the same ID. |
| Testnet.RouterIPInjective | main.go:409-414 | Router `i` gets `172.28.0.<i+2>`, and distinct routers get distinct addresses. |
| Testnet.PeersOf | main.go:422-427 | The peer list of router `i` holds every address except the router's own, in the original order. |
| Testnet.PeersExcludeSelf | main.go:422-427 | A router's peer list has `n - 1` entries, never contains its own address, and contains every other router's address. |
| Testnet.GenerateRouterConfig | main.go:23-37 | The configuration is the fixed header, carrying the router's UDP host, followed by one `peer.<k>=<ip>` line per peer, numbered from 1 in order. |
| Testnet.OneLinePerPeer | main.go:32-34 | When no peer address holds a newline, the peer section holds exactly one newline per peer. |
| Testnet.NamesDistinguishRouters | main.go:132-135 | Distinct router IDs give distinct container names and distinct volume names. |
| Testnet.Plan | main.go:416-433 | Router `i` of `n`, counted from 0, gets ID `i + 1`, between 1 and `n`. Its address is `RouterIP` of that ID less one. It has `n - 1` peers, its own address not among them. Its container and volume are named after the ID. |
| Testnet.PlanRouter | main.go:416-433 | One iteration of the router loop, with the `routerIPs` slice, the peer loop and `generateRouterConfig`, hands `createRouterContainer` exactly `Testnet.Plan`. |
| Testnet.PlansDistinct | main.go:409-433 | Two routers of one testnet never share an ID, an address, a container name or a volume name. Each router's address is among the other's peers. |
| Testnet.AddCreated | main.go:364-369 | Both tracking slices grow by one together. The old contents are kept and the new IDs are appended, so the slices stay the same length. |
| Testnet.TrackedMeansCleanup | main.go:371-376 | Once anything has been tracked, the guard at main.go:372 lets cleanup proceed. The deferred cleanup then runs exactly when `main` returns. A `log.Fatalf` exit skips it, for instance main.go:435 when the second router fails after the first was tracked. |
| Testnet.FailuresBounded | main.go:308-347 | A bookkeeping bound on the warning count `Cleanup` returns: at most one warning per call, and none when the daemon accepts every call. |
| Testnet.Cleanup | main.go:308-347 | Every tracked container is stopped with a 10-second timeout and then force-removed, in order and whatever earlier calls did. Then every volume is force-removed, then the network is removed. Each refused call logs one warning. |
| GoI2pLayout.InitializeRouterConfig | lib/go-i2p/config.go:19-77 | Creates `testnet/router<id>`, then `<base>/netDb`, then `<base>/config`. The first failure stops the run with a nil configuration. On success the configuration's base, working and netDb paths are those directories. |
| GoI2pLayout.LayoutNested | lib/go-i2p/config.go:34-35 | The netDb and working directories are distinct and both lie inside the base directory. |
| GoI2pLayout.DistinctRoutersDistinctDirs | lib/go-i2p/config.go:22-35 | Two routers never share a base, netDb or working directory. |
| GoI2pLayout.GenerateRouterConfig | lib/go-i2p/config.go:151-169 | Logs the failure message whatever happened, and marshals whatever the layout returned, including nil. This is a known defect, modelled as written. |
| GoI2pLayout.FailureNotReported | lib/go-i2p/config.go:154-158 | When the base directory cannot be created, the text is the nil configuration marshalled, and no error is reported. |
| I2pdConfig.DefaultListeners | lib/i2pd/config.go:254-313 | All seven services listen on 127.0.0.1, on pairwise distinct ports in 1..65535. HTTP, the HTTP proxy, SOCKS and SAM are enabled; BOB, I2CP and I2PControl are disabled. |
| I2pdConfig.DefaultTransport | lib/i2pd/config.go:230-250 | The global, NTCP2 and SSU2 ports are 0, with NTCP2 and SSU2 enabled. Share is 100, and the reseed threshold is 25. Exploratory tunnels have length 2 and quantity 3 in both directions. |
| I2pdConfig.GenerateDefaultRouterConfig | lib/i2pd/config.go:393-439 | A reflect error or a write error is returned unwrapped. Otherwise the result is the INI text of the default record. |
| I2pdConfig.SameForEveryRouter | lib/i2pd/config.go:397-413 | The router ID argument is never read, so two IDs give the same output. This holds by unfolding the definition. |
| I2pdConfig.GeneratedIffBothSucceed | lib/i2pd/config.go:415-431 | Text is produced exactly when both INI steps succeed. This is the two early returns restated as an equivalence. |
| TestnetLogger.Choose | lib/utils/logger/log.go:19-35 | An unset or empty value leaves output discarded at Panic level. Any other value sends output to stdout. The lower-cased value `warn` selects Warn, `error` selects Error, and everything else, `debug` included, selects Debug. |
| TestnetLogger.CaseInsensitive | lib/utils/logger/log.go:26 | Lower-casing the value first chooses the same settings. |
| TestnetLogger.UpperCaseNames | lib/utils/logger/log.go:26-32 | `WARN`, `Error` and `DEBUG` select Warn, Error and Debug. |
| TestnetLogger.Initialize | lib/utils/logger/log.go:17-39 | The first call sets the settings chosen for the environment. Later calls leave the logger unchanged. |
| TestnetLogger.GetTestnetLogger | lib/utils/logger/log.go:42-47 | Returns an initialised logger, initialising it only if it is absent. |
| TestnetLogger.FirstEnvironmentWins | lib/utils/logger/log.go:18 | However many fetches follow, whatever the environment then, the settings are those of the first initialisation. |
| Text.NatToStringRoundTrip | main.go:413 | `%d` of a natural number reads back as that number. |
| Text.IntToStringInjective | main.go:132-135 | Distinct integers are written as distinct `%d` numerals. |
| Text.TrimSpaceCutsSpace | lib/docker_control/image.go:187 | `strings.TrimSpace` keeps a contiguous piece of its input, and everything it cuts off on either side is white space. |
| Text.TrimSpaceEmpty | lib/docker_control/image.go:187-188 | The trim is empty exactly when the input is all white space. |
| Text.RemoveAll | lib/docker_control/image.go:190 | `strings.ReplaceAll(s, "\r", "")` leaves no carriage return, and keeps the count of every other character. |
| Text.RemoveAllOne | lib/docker_control/image.go:190 | A single character is deleted exactly when it is the one being removed. |
| Text.RemoveAllAppend | lib/docker_control/image.go:190 | Deleting from a concatenation concatenates the deletions. With `RemoveAllOne` this fixes the result completely, so the order of the kept characters is preserved. |

## Left out

- The Docker daemon and its effects. Containers, volumes, networks and images exist only as the calls issued and the outcomes received. The model does not say what a created container or a copied archive does inside the daemon.
- The byte layout of tar archives, and `archive.TarWithOptions` (lib/docker_control/docker.go:83). Archives are lists of entries. Packing a host directory is one call whose outcome is an input.
- `CopyFromContainer` delivers a tar stream. `ReadFileFromContainer` returns that stream unchanged, and `GetRouterInfoWithFilename` parses it. The content is opaque, so the model cannot say whether the parser accepts it.
- RouterInfo parsing, `IdentHash` and go-i2p's base64 encoding are foreign go-i2p code. They are the parameters `parse` and `encodedHash`.
- `GetRouterInfoWithFilenameRaw` (called at lib/i2pd/sync.go:18) is not part of this model. Its four results are the input `NetDbSync.RawExtraction`, so how the push directory is derived is not modelled.
- NetDbSync.SyncNetDbToShared: its trace starts at the helper create. Whatever daemon calls `GetRouterInfoWithFilenameRaw` makes are not recorded, because that function is not part of this model.
- The INI writer (gopkg.in/ini.v1), the YAML encoder, and the JSON decoding of build output are foreign serialisers. They are parameters, or `ImageControl` receives already-decoded lines. The panic of go-i2p's `GenerateRouterConfig` on a marshal error is not modelled.
- `io.Copy` of the listing's output (lib/i2pd/sync.go:272-273) and the printing of build output are not modelled beyond the order of the calls.
- The mutex around the tracking slices (main.go:361-369), signal handling and the `sync.Once` of the logger are modelled sequentially. The slices are a value updated by `Testnet.AddCreated`, and the once-guard is the `TestnetLogger.State` value.
- Log and print text is left out, except what `streamDockerOutput` prints and the warnings that `cleanup` and the config copies emit, which are modelled as their occurrence only.
- `main`'s flow of `log.Fatalf` exits is left out, except that such an exit skips the deferred cleanup (`Testnet.TrackedMeansCleanup`). `main.go`'s own `imageExists` and `createTarArchive` are copies of `ImageControl.ImageExists` and `Archive.CreateTarArchive`. Its `buildDockerImage` (main.go:262-289) is `ImageControl.BuildDockerImageFromDirectory` without the existence check. `main` makes that check itself before the call (main.go:383-396), and a list error there ends in `log.Fatalf`. The copies also differ in the capitalisation of their error text.
- `createRouterContainer` beyond its two names (main.go:131-189) is container plumbing and is left out. So are lib/go-i2p/container.go, lib/i2pd/container.go, lib/go-i2p/docker.go, lib/i2pd/docker.go, lib/docker_control/volume.go, lib/docker_control/node.go and lib/dockerfiles/dockerfiles.go.
- lib/docker_control/docker.go:70 and lib/docker_control/image.go:30 both declare `BuildDockerImage`, and docker.go:110 and image.go:142 both declare `imageExists`, all in package `docker_control`. The package as given therefore does not compile. `ImageControl.BuildDockerImage` and `ImageControl.ImageExists` follow image.go. `ImageControl.BuildDockerImageFromDirectory` is docker.go's `BuildDockerImage`, renamed so both can be modelled. docker.go's `imageExists` has the same logic as image.go's, without the logging.
- Text.LowerRune: models `strings.ToLower` only as far as matching against ASCII words needs. It lowers ASCII capitals, and maps KELVIN SIGN to `k` and LATIN CAPITAL LETTER I WITH DOT ABOVE to `i`. Every other rune is kept unchanged, where Go lowers some of them to other non-ASCII runes, so a value of the environment variable compares equal to `debug`, `warn` or `error` exactly as in Go.
- Strings are sequences of characters. The RouterInfo record, archive contents and configuration files are binary or byte text, and are modelled one character per byte, so `|raw|` is Go's `len` and the tar size field agrees with Go. Names and IDs are modelled one character per rune instead, so their lengths and slices are counted in runes where Go counts bytes. Two such slices reach an output:
  - the shard directory `encodedHash[:2]` (lib/i2pd/sync.go:199);
  - the helper name's `containerID[:12]` (lib/i2pd/sync.go:29 and 202).

  They agree with Go only for ASCII text. The model assumes container IDs and encoded hashes are ASCII, as Docker's hex IDs and I2P base64 are. On other text, Go's slices can cut a rune in half, and Go panics on an ID shorter than 12 bytes rather than 12 runes.
- Testnet.TrackedMeansCleanup: which `main` path ends in `log.Fatalf` is not derived. How `main` ends is an input.
- The known defect at lib/i2pd/sync.go:110, where the fixed pull helper name collides under concurrent use, is not modelled, because the model is sequential. `NetDbNaming.PullHelperNameDistinct` only shows that it never collides with the other verbs' helpers.
