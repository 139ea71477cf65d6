/** The three netDb synchronisation verbs of lib/i2pd/sync.go.

    Each verb runs one helper container through the lifecycle of module
    Scoped; what is specific to a verb is its helper's name and the list of
    steps it runs while the helper is live. */
module NetDbSync {
  import opened Wrappers
  import opened Archive
  import opened Docker
  import opened Scoped
  import opened ContainerFiles
  import opened NetDbNaming
  import opened RouterInfoExtract

  const CreateContext: string := "error creating helper container"

  /** The helper every verb creates: alpine sleeping 60 seconds, with the
      shared volume mounted at `/shared`. */
  function HelperCreate(volumeName: string, name: string): (c: Call)
    ensures c.ContainerCreate?
  {
    ContainerCreate(HelperImage, HelperCmd, "", [SharedBind(volumeName)], name)
  }

  /** One record's worth of archive, as published into the shared volume. */
  function PublishedEntry(enc: string, raw: string): Entry
    requires |enc| >= 2
  {
    RegularFile(EntryPath(ShardOf(enc), RecordFilename(enc)), raw)
  }

  /** The upload of the publish verb: one entry `shard/filename` into
      `/shared/netDb`. */
  function PublishCopy(enc: string, raw: string): Call
    requires |enc| >= 2
  {
    CopyToContainer(Helper, SharedNetDb, Built([PublishedEntry(enc, raw)]), false)
  }

  /** The steps of `SyncRouterInfoToNetDb` once its helper exists. */
  function PublishBody(enc: string, raw: string): (body: seq<Step>)
    requires |enc| >= 2
    ensures |body| == 7 && RemovalFree(body)
  {
    var name := EntryPath(ShardOf(enc), RecordFilename(enc));
    [ Step(ContainerStart(Helper), "error starting helper container"),
      Step(TarWriteHeader(name, OwnerReadWrite, |raw|), "error writing tar header"),
      Step(TarWrite(raw), "error writing router info to tar"),
      Step(TarClose, "error closing tar writer"),
      Step(PublishCopy(enc, raw), "error copying router info to helper container"),
      Step(ExecCreate(Helper, ["ls", "-lR", SharedNetDb]), "error creating exec config for listing"),
      Step(ExecAttach(Helper), "error attaching to exec") ]
  }

  /** The Go code slices the container ID and, after a successful
      extraction, the encoded hash; both slices must be in range. */
  predicate PublishSlicesInRange<RI>(containerID: string, ex: Result<Extracted<RI>>, encodedHash: RI -> string)
  {
    ex.Ok? ==> |containerID| >= 12 && |encodedHash(ex.value.ri)| >= 2
  }

  /** The one daemon call of the extraction: `ReadFileFromContainer` of
      the node's `/root/.i2pd/router.info`. */
  function ReadRouterInfo(containerID: string): Call
  {
    CopyFromContainer(Container(containerID), RouterInfoPath)
  }

  /** The publish verb once the record is in hand: the read that obtained
      it, then the helper's lifecycle around the publish body. */
  function PublishRun(containerID: string, volumeName: string, enc: string, raw: string,
                      fault: Fault, removeErr: Option<string>): (r: Scope)
    requires |containerID| >= 12 && |enc| >= 2
    requires fault.FailAt? ==> fault.index <= 7
    ensures |r.trace| >= 2 && r.trace[0] == ReadRouterInfo(containerID)
    ensures r.trace[1] == HelperCreate(volumeName, HelperName(containerID))
    ensures RemovalsAt(r.trace) == if !CreateFails(fault) then {|r.trace| - 1} else {}
    ensures r.result.Fail? <==> fault.FailAt?
    ensures fault.FailAt? ==> r.result.error == Wrap(FailedContext(CreateContext, PublishBody(enc, raw), fault), fault.cause)
    ensures r.warning == None
  {
    var s := Run(HelperCreate(volumeName, HelperName(containerID)), CreateContext,
                 PublishBody(enc, raw), fault, removeErr, Ignore);
    RemovalAfterPrefix(ReadRouterInfo(containerID), s.trace);
    Scope([ReadRouterInfo(containerID)] + s.trace, s.result, s.warning)
  }

  /** `SyncRouterInfoToNetDb` (publish one record).  The node's RouterInfo
      is read first, whatever follows.  A failed extraction returns its
      wrapped error before any container exists.  Otherwise the helper is
      named after the node and is removed exactly once, as the last call,
      whenever it was created; a removal error is dropped.  What a clean
      run uploads is stated by `PublishCleanRun`. */
  function SyncRouterInfoToNetDb<RI>(containerID: string, volumeName: string,
                                     copyFrom: string -> Result<Copied>, parse: string -> Result<RI>,
                                     encodedHash: RI -> string, fault: Fault, removeErr: Option<string>): (r: Scope)
    requires PublishSlicesInRange(containerID, GetRouterInfoWithFilename(copyFrom, parse, encodedHash), encodedHash)
    requires fault.FailAt? ==> fault.index <= 7
    ensures |r.trace| >= 1 && r.trace[0] == ReadRouterInfo(containerID)
    ensures var ex := GetRouterInfoWithFilename(copyFrom, parse, encodedHash);
            && (ex.Err? ==> r.trace == [ReadRouterInfo(containerID)] && r.result == Fail(Wrap("error getting router info", ex.error)))
            && (ex.Ok? ==> |r.trace| >= 2 && r.trace[1] == HelperCreate(volumeName, HelperName(containerID)))
    ensures var ex := GetRouterInfoWithFilename(copyFrom, parse, encodedHash);
            ex.Ok? ==> (r.result.Fail? <==> fault.FailAt?)
    ensures var ex := GetRouterInfoWithFilename(copyFrom, parse, encodedHash);
            ex.Ok? && fault.FailAt? ==>
              r.result.error == Wrap(FailedContext(CreateContext, PublishBody(encodedHash(ex.value.ri), ex.value.raw), fault),
                                     fault.cause)
    ensures RemovalsAt(r.trace) == if |r.trace| >= 2 && !CreateFails(fault) then {|r.trace| - 1} else {}
    ensures r.warning == None
  {
    var ex := GetRouterInfoWithFilename(copyFrom, parse, encodedHash);
    if ex.Err? then
      assert RemovalsAt([ReadRouterInfo(containerID)]) == {};
      Scope([ReadRouterInfo(containerID)], Fail(Wrap("error getting router info", ex.error)), None)
    else
      PublishRun(containerID, volumeName, encodedHash(ex.value.ri), ex.value.raw, fault, removeErr)
  }

  /** A clean publish: the read of the node's RouterInfo, the create,
      start, the three archive writes, the upload of the one-entry archive
      into `/shared/netDb`, the `ls -lR` exec and its attach, the removal;
      and success. */
  lemma PublishCleanRun<RI>(containerID: string, volumeName: string,
                            copyFrom: string -> Result<Copied>, parse: string -> Result<RI>,
                            encodedHash: RI -> string, removeErr: Option<string>)
    requires PublishSlicesInRange(containerID, GetRouterInfoWithFilename(copyFrom, parse, encodedHash), encodedHash)
    requires GetRouterInfoWithFilename(copyFrom, parse, encodedHash).Ok?
    ensures var ex := GetRouterInfoWithFilename(copyFrom, parse, encodedHash).value;
            var enc := encodedHash(ex.ri);
            var r := SyncRouterInfoToNetDb(containerID, volumeName, copyFrom, parse, encodedHash, NoFault, removeErr);
            && r.trace == [ReadRouterInfo(containerID), HelperCreate(volumeName, HelperName(containerID))]
                          + [ContainerStart(Helper),
                             TarWriteHeader(EntryPath(ShardOf(enc), RecordFilename(enc)), OwnerReadWrite, |ex.raw|),
                             TarWrite(ex.raw), TarClose, PublishCopy(enc, ex.raw),
                             ExecCreate(Helper, ["ls", "-lR", SharedNetDb]), ExecAttach(Helper)]
                          + [RemoveHelper]
            && r.result == Pass
  {
    var ex := GetRouterInfoWithFilename(copyFrom, parse, encodedHash).value;
    PublishRunClean(containerID, volumeName, encodedHash(ex.ri), ex.raw, removeErr);
  }

  /** `PublishCleanRun` for a record in hand. */
  lemma PublishRunClean(containerID: string, volumeName: string, enc: string, raw: string, removeErr: Option<string>)
    requires |containerID| >= 12 && |enc| >= 2
    ensures var r := PublishRun(containerID, volumeName, enc, raw, NoFault, removeErr);
            && r.trace == [ReadRouterInfo(containerID), HelperCreate(volumeName, HelperName(containerID))]
                          + [ContainerStart(Helper),
                             TarWriteHeader(EntryPath(ShardOf(enc), RecordFilename(enc)), OwnerReadWrite, |raw|),
                             TarWrite(raw), TarClose, PublishCopy(enc, raw),
                             ExecCreate(Helper, ["ls", "-lR", SharedNetDb]), ExecAttach(Helper)]
                          + [RemoveHelper]
            && r.result == Pass
  {
    var create := HelperCreate(volumeName, HelperName(containerID));
    var body := PublishBody(enc, raw);
    PrefixedCleanRun(ReadRouterInfo(containerID), create, CreateContext, body, removeErr, Ignore);
    CleanRun(create, CreateContext, body, removeErr, Ignore);
    PublishCalls(enc, raw);
  }

  /** The calls of the publish body, in order. */
  lemma PublishCalls(enc: string, raw: string)
    requires |enc| >= 2
    ensures Calls(PublishBody(enc, raw))
            == [ContainerStart(Helper),
                TarWriteHeader(EntryPath(ShardOf(enc), RecordFilename(enc)), OwnerReadWrite, |raw|),
                TarWrite(raw), TarClose, PublishCopy(enc, raw),
                ExecCreate(Helper, ["ls", "-lR", SharedNetDb]), ExecAttach(Helper)]
  {
  }

  /** A failure of the listing after the upload (its exec create or its
      attach) still fails the verb, although the record is already in the
      shared volume. */
  lemma PublishListingFailureFails<RI>(containerID: string, volumeName: string,
                                       copyFrom: string -> Result<Copied>, parse: string -> Result<RI>,
                                       encodedHash: RI -> string, index: nat, cause: string, removeErr: Option<string>)
    requires PublishSlicesInRange(containerID, GetRouterInfoWithFilename(copyFrom, parse, encodedHash), encodedHash)
    requires GetRouterInfoWithFilename(copyFrom, parse, encodedHash).Ok?
    requires index == 6 || index == 7
    ensures var ex := GetRouterInfoWithFilename(copyFrom, parse, encodedHash);
            var r := SyncRouterInfoToNetDb(containerID, volumeName, copyFrom, parse, encodedHash, FailAt(index, cause), removeErr);
            && PublishCopy(encodedHash(ex.value.ri), ex.value.raw) in r.trace
            && r.result == Fail(Wrap(if index == 6 then "error creating exec config for listing"
                                     else "error attaching to exec", cause))
  {
    var ex := GetRouterInfoWithFilename(copyFrom, parse, encodedHash).value;
    var body := PublishBody(encodedHash(ex.ri), ex.raw);
    var s := Run(HelperCreate(volumeName, HelperName(containerID)), CreateContext, body, FailAt(index, cause), removeErr, Ignore);
    var r := PublishRun(containerID, volumeName, encodedHash(ex.ri), ex.raw, FailAt(index, cause), removeErr);
    assert r == SyncRouterInfoToNetDb(containerID, volumeName, copyFrom, parse, encodedHash, FailAt(index, cause), removeErr);
    assert r.trace == [ReadRouterInfo(containerID)] + s.trace;
    assert Issued(body, FailAt(index, cause)) == index;
    assert s.trace[5] == body[4].call;
    assert r.trace[6] == s.trace[5];
  }

  /** The published entry: named `shard/filename`, shard the first two
      characters of the hash, mode 0600, size the record's length, body the
      raw record; the archive holds nothing else. */
  lemma PublishedEntryShape(enc: string, raw: string)
    requires |enc| >= 2
    ensures PublishCopy(enc, raw).payload.entries == [PublishedEntry(enc, raw)]
    ensures PublishedEntry(enc, raw).name == enc[..2] + "/" + "routerInfo-" + enc + ".dat"
    ensures PublishedEntry(enc, raw).kind == Regular && PublishedEntry(enc, raw).mode == OwnerReadWrite
    ensures PublishedEntry(enc, raw).size == |raw| && PublishedEntry(enc, raw).data == raw
  {
  }

  /** What the opaque `GetRouterInfoWithFilenameRaw` returned to the push
      verb: raw record, filename, directory and error. */
  datatype RawExtraction = RawExtraction(raw: string, filename: string, directory: string, err: Option<string>)

  /** The mkdir the push verb runs in its helper, and the upload into the
      same directory. */
  function PushMkdir(directory: string): Call
  {
    ExecCreate(Helper, ["mkdir", "-p", SharedDir(directory)])
  }

  /** The entry the push verb writes: named by the filename verbatim, of
      the kind `WriteHeader` gives a header without a type flag. */
  function PushEntry(ex: RawExtraction): Entry
  {
    Entry(ex.filename, KindOf(ex.filename), OwnerReadWrite, |ex.raw|, ex.raw)
  }

  function PushCopy(ex: RawExtraction): Call
  {
    CopyToContainer(Helper, SharedDir(ex.directory), Built([PushEntry(ex)]), false)
  }

  /** The record cannot be written into the entry: a filename ending in `/`
      makes the entry a directory, which takes no content. */
  predicate PushWriteTooLong(ex: RawExtraction)
  {
    DirectoryName(ex.filename) && |ex.raw| > 0
  }

  /** The push verb builds its archive inline with the same three writer
      calls as `CreateTarArchive`, and agrees with it: the archive is built
      exactly when the write is not too long, and it is the push entry. */
  lemma PushArchiveAgrees(ex: RawExtraction)
    ensures Archive.CreateTarArchive(ex.filename, ex.raw, TarOk).Ok? <==> !PushWriteTooLong(ex)
    ensures !PushWriteTooLong(ex) ==> Archive.CreateTarArchive(ex.filename, ex.raw, TarOk).value == [PushEntry(ex)]
    ensures PushWriteTooLong(ex) ==> Archive.CreateTarArchive(ex.filename, ex.raw, TarOk) == Err(ErrWriteTooLong)
  {
  }

  function PushBody(ex: RawExtraction): (body: seq<Step>)
    ensures |body| == 7 && RemovalFree(body)
  {
    [ Step(ContainerStart(Helper), "error starting helper container"),
      Step(PushMkdir(ex.directory), "error creating mkdir exec"),
      Step(ExecStart(Helper), "error executing mkdir"),
      Step(TarWriteHeader(ex.filename, OwnerReadWrite, |ex.raw|), "error writing tar header"),
      Step(TarWrite(ex.raw), "error writing router info to tar"),
      Step(TarClose, "error closing tar writer"),
      Step(PushCopy(ex), "error copying router info to helper container") ]
  }

  /** The first failing call of the push body: the daemon's fault, except
      that a run that reaches the tar write (step 5) fails there when the
      write is too long. */
  function PushFault(ex: RawExtraction, fault: Fault): (f: Fault)
    requires fault.FailAt? ==> fault.index <= 7
    ensures f.FailAt? ==> f.index <= 7
    ensures CreateFails(f) <==> CreateFails(fault)
    ensures f.FailAt? <==> fault.FailAt? || PushWriteTooLong(ex)
    ensures f != fault ==> f == FailAt(5, ErrWriteTooLong)
  {
    if PushWriteTooLong(ex) && !(fault.FailAt? && fault.index <= 4) then FailAt(5, ErrWriteTooLong) else fault
  }

  /** `SyncNetDbToShared` (push).  It runs `mkdir -p /shared/netDb/<dir>`
      in its helper and uploads the record, as one entry named by the
      filename, into that same directory (`PushMkdirBeforeCopy`).  The
      helper is removed exactly once, last, whenever it was created.
      The verb fails exactly when some call fails, with that call's wrapped
      error; a too-long write fails with `ErrWriteTooLong`.  The extraction
      error is only logged (see `PushIgnoresExtractionError`). */
  function SyncNetDbToShared(containerID: string, volumeName: string, ex: RawExtraction,
                             fault: Fault, removeErr: Option<string>): (r: Scope)
    requires |containerID| >= 12
    requires fault.FailAt? ==> fault.index <= 7
    ensures |r.trace| >= 1 && r.trace[0] == HelperCreate(volumeName, HelperName(containerID))
    ensures RemovalsAt(r.trace) == if !CreateFails(fault) then {|r.trace| - 1} else {}
    ensures r.result.Fail? <==> fault.FailAt? || PushWriteTooLong(ex)
    ensures fault.FailAt? && (fault.index <= 4 || !PushWriteTooLong(ex))
            ==> r.result.error == Wrap(FailedContext(CreateContext, PushBody(ex), fault), fault.cause)
    ensures PushWriteTooLong(ex) && !(fault.FailAt? && fault.index <= 4)
            ==> r.result == Fail(Wrap("error writing router info to tar", ErrWriteTooLong))
    ensures r.warning == None
  {
    Run(HelperCreate(volumeName, HelperName(containerID)), CreateContext, PushBody(ex),
        PushFault(ex, fault), removeErr, Ignore)
  }

  /** The push verb is the lifecycle run under its effective fault. */
  lemma PushIsRun(containerID: string, volumeName: string, ex: RawExtraction, fault: Fault, removeErr: Option<string>)
    requires |containerID| >= 12
    requires fault.FailAt? ==> fault.index <= 7
    ensures SyncNetDbToShared(containerID, volumeName, ex, fault, removeErr)
            == Run(HelperCreate(volumeName, HelperName(containerID)), CreateContext, PushBody(ex),
                   PushFault(ex, fault), removeErr, Ignore)
  {
  }

  /** The calls of the push body, in order. */
  lemma PushCalls(ex: RawExtraction)
    ensures Calls(PushBody(ex))
            == [ContainerStart(Helper), PushMkdir(ex.directory), ExecStart(Helper),
                TarWriteHeader(ex.filename, OwnerReadWrite, |ex.raw|), TarWrite(ex.raw), TarClose,
                PushCopy(ex)]
  {
  }

  /** The calls of the push body up to and including the tar write. */
  lemma PushCallsUpToWrite(ex: RawExtraction)
    ensures Calls(PushBody(ex)[..5])
            == [ContainerStart(Helper), PushMkdir(ex.directory), ExecStart(Helper),
                TarWriteHeader(ex.filename, OwnerReadWrite, |ex.raw|), TarWrite(ex.raw)]
  {
  }

  /** A clean push: start, mkdir exec create and start, the three archive
      writes, the upload, the removal; and success. */
  lemma PushCleanRun(containerID: string, volumeName: string, ex: RawExtraction, removeErr: Option<string>)
    requires |containerID| >= 12
    requires !PushWriteTooLong(ex)
    ensures var r := SyncNetDbToShared(containerID, volumeName, ex, NoFault, removeErr);
            && r.trace == [HelperCreate(volumeName, HelperName(containerID))]
                          + [ContainerStart(Helper), PushMkdir(ex.directory), ExecStart(Helper),
                             TarWriteHeader(ex.filename, OwnerReadWrite, |ex.raw|), TarWrite(ex.raw), TarClose,
                             PushCopy(ex)]
                          + [RemoveHelper]
            && r.result == Pass
  {
    CleanRun(HelperCreate(volumeName, HelperName(containerID)), CreateContext, PushBody(ex), removeErr, Ignore);
    PushCalls(ex);
  }

  /** A push of a record under a directory name: the write is too long, so
      neither the close nor the upload is issued; the helper is still
      removed, and the verb fails with the write's error. */
  lemma PushTooLongRun(containerID: string, volumeName: string, ex: RawExtraction, removeErr: Option<string>)
    requires |containerID| >= 12
    requires PushWriteTooLong(ex)
    ensures var r := SyncNetDbToShared(containerID, volumeName, ex, NoFault, removeErr);
            && r.trace == [HelperCreate(volumeName, HelperName(containerID))]
                          + [ContainerStart(Helper), PushMkdir(ex.directory), ExecStart(Helper),
                             TarWriteHeader(ex.filename, OwnerReadWrite, |ex.raw|), TarWrite(ex.raw)]
                          + [RemoveHelper]
            && r.result == Fail(Wrap("error writing router info to tar", ErrWriteTooLong))
  {
    var body := PushBody(ex);
    assert PushFault(ex, NoFault) == FailAt(5, ErrWriteTooLong);
    PushIsRun(containerID, volumeName, ex, NoFault, removeErr);
    FailingRun(HelperCreate(volumeName, HelperName(containerID)), CreateContext, body, 5, ErrWriteTooLong,
               removeErr, Ignore);
    PushCallsUpToWrite(ex);
  }

  /** The push verb uploads into the very directory its mkdir created, and
      only once that mkdir ran: whenever the upload is issued, the calls
      before it are create, start, mkdir exec create and exec start. */
  lemma PushMkdirBeforeCopy(containerID: string, volumeName: string, ex: RawExtraction,
                            fault: Fault, removeErr: Option<string>)
    requires |containerID| >= 12
    requires fault.FailAt? ==> fault.index <= 7
    ensures PushCopy(ex).path == PushMkdir(ex.directory).argv[2]
    ensures var r := SyncNetDbToShared(containerID, volumeName, ex, fault, removeErr);
            PushCopy(ex) in r.trace ==> |r.trace| == 9 && r.trace[2] == PushMkdir(ex.directory) && r.trace[3] == ExecStart(Helper)
  {
    PushIsRun(containerID, volumeName, ex, fault, removeErr);
    PushRunMkdirBeforeCopy(HelperCreate(volumeName, HelperName(containerID)), ex, PushFault(ex, fault), removeErr);
  }

  /** `PushMkdirBeforeCopy` for the lifecycle under any fault that fits. */
  lemma PushRunMkdirBeforeCopy(create: Call, ex: RawExtraction, f: Fault, removeErr: Option<string>)
    requires create.ContainerCreate?
    requires f.FailAt? ==> f.index <= 7
    ensures var r := Run(create, CreateContext, PushBody(ex), f, removeErr, Ignore);
            PushCopy(ex) in r.trace ==> |r.trace| == 9 && r.trace[2] == PushMkdir(ex.directory) && r.trace[3] == ExecStart(Helper)
  {
    var body := PushBody(ex);
    assert body[1].call == PushMkdir(ex.directory) && body[2].call == ExecStart(Helper);
    assert body[6].call == PushCopy(ex);
    assert forall i :: 0 <= i < 6 ==> !body[i].call.CopyToContainer?;
    LastUploadMeansAllIssued(create, CreateContext, body, f, removeErr, Ignore);
    var r := Run(create, CreateContext, body, f, removeErr, Ignore);
    if PushCopy(ex) in r.trace {
      assert Issued(body, f) == 7;
      assert r.trace[2] == body[1].call;
      assert r.trace[3] == body[2].call;
    }
  }

  /** Known defect, modelled as written: the push verb carries on with
      whatever `GetRouterInfoWithFilenameRaw` returned even when it also
      returned an error; the error changes neither the calls nor the
      result. */
  lemma PushIgnoresExtractionError(containerID: string, volumeName: string, ex: RawExtraction,
                                   fault: Fault, removeErr: Option<string>)
    requires |containerID| >= 12
    requires fault.FailAt? ==> fault.index <= 7
    ensures SyncNetDbToShared(containerID, volumeName, ex, fault, removeErr)
            == SyncNetDbToShared(containerID, volumeName, ex.(err := None), fault, removeErr)
  {
  }

  /** The node-side steps of the pull verb. */
  function PullMkdir(containerID: string): Call
  {
    ExecCreate(Container(containerID), ["mkdir", "-p", NodeNetDb])
  }

  /** The pull verb's upload: the archive of the helper's `/shared/netDb`,
      streamed into the node's netDb with AllowOverwriteDirWithFile. */
  function PullCopy(containerID: string): Call
  {
    CopyToContainer(Container(containerID), NodeNetDb, Streamed(Helper, SharedNetDb), true)
  }

  function PullBody(containerID: string): (body: seq<Step>)
    ensures |body| == 7 && RemovalFree(body)
  {
    [ Step(ContainerStart(Helper), "error starting helper container"),
      Step(ExecCreate(Helper, ["ls", SharedNetDb]), "error creating exec config"),
      Step(ExecStart(Helper), "error starting exec"),
      Step(CopyFromContainer(Helper, SharedNetDb), "error copying from helper container"),
      Step(PullMkdir(containerID), "error creating exec config"),
      Step(ExecStart(Container(containerID)), "error starting exec"),
      Step(PullCopy(containerID), "error copying to target container") ]
  }

  /** `SyncSharedToNetDb` (pull).  The helper always has the fixed name
      `helper-container`.  The helper is removed exactly
      once, last, whenever it was created. */
  function SyncSharedToNetDb(containerID: string, volumeName: string, fault: Fault,
                             removeErr: Option<string>): (r: Scope)
    requires fault.FailAt? ==> fault.index <= 7
    ensures |r.trace| >= 1 && r.trace[0] == HelperCreate(volumeName, PullHelperName)
    ensures RemovalsAt(r.trace) == if !CreateFails(fault) then {|r.trace| - 1} else {}
    ensures r.result.Fail? <==> fault.FailAt?
    ensures fault.FailAt? ==> r.result.error == Wrap(FailedContext(CreateContext, PullBody(containerID), fault), fault.cause)
    ensures r.warning == None
  {
    Run(HelperCreate(volumeName, PullHelperName), CreateContext, PullBody(containerID), fault, removeErr, Ignore)
  }

  /** A clean pull: start the helper, list and read out its netDb, mkdir
      in the node, stream the archive into the node, remove the helper;
      and success. */
  lemma PullCleanRun(containerID: string, volumeName: string, removeErr: Option<string>)
    ensures var r := SyncSharedToNetDb(containerID, volumeName, NoFault, removeErr);
            && r.trace == [HelperCreate(volumeName, PullHelperName)]
                          + [ContainerStart(Helper), ExecCreate(Helper, ["ls", SharedNetDb]), ExecStart(Helper),
                             CopyFromContainer(Helper, SharedNetDb), PullMkdir(containerID),
                             ExecStart(Container(containerID)), PullCopy(containerID)]
                          + [RemoveHelper]
            && r.result == Pass
  {
    CleanRun(HelperCreate(volumeName, PullHelperName), CreateContext, PullBody(containerID), removeErr, Ignore);
    PullCalls(containerID);
  }

  /** The calls of the pull body, in order. */
  lemma PullCalls(containerID: string)
    ensures Calls(PullBody(containerID))
            == [ContainerStart(Helper), ExecCreate(Helper, ["ls", SharedNetDb]), ExecStart(Helper),
                CopyFromContainer(Helper, SharedNetDb), PullMkdir(containerID),
                ExecStart(Container(containerID)), PullCopy(containerID)]
  {
  }

  /** Nothing is written into the node before the shared netDb was read
      out of the helper and `mkdir -p /root/.i2pd/netDb` ran in the node. */
  lemma PullPreparesDestination(containerID: string, volumeName: string, fault: Fault, removeErr: Option<string>)
    requires fault.FailAt? ==> fault.index <= 7
    ensures var r := SyncSharedToNetDb(containerID, volumeName, fault, removeErr);
            PullCopy(containerID) in r.trace ==>
              && |r.trace| == 9
              && r.trace[4] == CopyFromContainer(Helper, SharedNetDb)
              && r.trace[5] == PullMkdir(containerID)
              && r.trace[6] == ExecStart(Container(containerID))
  {
    PullRunPreparesDestination(HelperCreate(volumeName, PullHelperName), containerID, fault, removeErr);
  }

  /** `PullPreparesDestination` for the lifecycle under any fault that fits. */
  lemma PullRunPreparesDestination(create: Call, containerID: string, fault: Fault, removeErr: Option<string>)
    requires create.ContainerCreate?
    requires fault.FailAt? ==> fault.index <= 7
    ensures var r := Run(create, CreateContext, PullBody(containerID), fault, removeErr, Ignore);
            PullCopy(containerID) in r.trace ==>
              && |r.trace| == 9
              && r.trace[4] == CopyFromContainer(Helper, SharedNetDb)
              && r.trace[5] == PullMkdir(containerID)
              && r.trace[6] == ExecStart(Container(containerID))
  {
    var body := PullBody(containerID);
    assert body[6].call == PullCopy(containerID);
    assert forall i :: 0 <= i < 6 ==> !body[i].call.CopyToContainer?;
    LastUploadMeansAllIssued(create, CreateContext, body, fault, removeErr, Ignore);
    var r := Run(create, CreateContext, body, fault, removeErr, Ignore);
    if PullCopy(containerID) in r.trace {
      assert Issued(body, fault) == 7;
      assert r.trace[4] == body[3].call && r.trace[5] == body[4].call && r.trace[6] == body[5].call;
    }
  }
}
