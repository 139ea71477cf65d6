/** Names and paths of the netDb synchronisation (lib/i2pd/extract.go,
    lib/i2pd/sync.go): record filenames, shard directories, archive entry
    paths and helper-container names.  All of them are plain string
    functions; their preconditions are exactly the points where the Go
    slicing would panic. */
module NetDbNaming {
  import opened Wrappers

  const RecordPrefix: string := "routerInfo-"
  const RecordSuffix: string := ".dat"

  /** Where i2pd keeps its own RouterInfo inside a node. */
  const RouterInfoPath: string := "/root/.i2pd/router.info"
  /** The netDb directory inside a node. */
  const NodeNetDb: string := "/root/.i2pd/netDb"
  /** The netDb directory of the shared volume, as the helper sees it. */
  const SharedNetDb: string := "/shared/netDb"

  const HelperImage: string := "alpine"
  const HelperCmd: seq<string> := ["sleep", "60"]
  const HelperPrefix: string := "helper-container-"
  /** The fixed name the pull verb gives its helper. */
  const PullHelperName: string := "helper-container"

  /** `"routerInfo-" + enc + ".dat"`: the filename of the record whose
      identity hash encodes to `enc`.  It starts with the prefix, ends with
      the suffix, holds `enc` between them and is 15 characters longer. */
  function RecordFilename(enc: string): (f: string)
    ensures |f| == |enc| + 15
    ensures RecordPrefix <= f
    ensures f[|f| - 4..] == RecordSuffix
    ensures f[11..|f| - 4] == enc
  {
    RecordPrefix + enc + RecordSuffix
  }

  /** The encoded hash a record filename carries: the reading direction of
      `RecordFilename`. */
  function EncodedHashOf(filename: string): (r: Option<string>)
    ensures r.Some? <==> |filename| >= 15 && RecordPrefix <= filename
                         && filename[|filename| - 4..] == RecordSuffix
  {
    if |filename| >= 15 && RecordPrefix <= filename && filename[|filename| - 4..] == RecordSuffix
    then Some(filename[11..|filename| - 4])
    else None
  }

  /** Round trip: the encoded hash is recovered from its filename. */
  lemma FilenameRoundTrip(enc: string)
    ensures EncodedHashOf(RecordFilename(enc)) == Some(enc)
  {
  }

  /** Round trip the other way: every string the reader accepts is the
      filename of the hash it reads. */
  lemma FilenameOfParsed(filename: string)
    requires EncodedHashOf(filename).Some?
    ensures RecordFilename(EncodedHashOf(filename).value) == filename
  {
    var enc := filename[11..|filename| - 4];
    assert filename == filename[..11] + enc + filename[|filename| - 4..];
  }

  /** Distinct encoded hashes yield distinct filenames. */
  lemma FilenameInjective(a: string, b: string)
    ensures RecordFilename(a) == RecordFilename(b) ==> a == b
  {
    if RecordFilename(a) == RecordFilename(b) {
      FilenameRoundTrip(a);
      FilenameRoundTrip(b);
    }
  }

  /** The shard directory of a record: the first two characters of its
      encoded hash.  The hash must be at least that long, or the Go slice
      `encodedHash[:2]` panics. */
  function ShardOf(enc: string): (d: string)
    requires |enc| >= 2
    ensures |d| == 2 && d <= enc
  {
    enc[..2]
  }

  /** The shard is also read off the filename, right after the prefix. */
  lemma ShardFromFilename(enc: string)
    requires |enc| >= 2
    ensures ShardOf(enc) == RecordFilename(enc)[11..13]
  {
  }

  /** `fmt.Sprintf("%s/%s", directory, filename)`: an archive entry path
      relative to the copy destination. */
  function EntryPath(directory: string, filename: string): string
  {
    directory + "/" + filename
  }

  /** The entry path of a published record: shard, slash, filename. */
  lemma PublishedPathShape(enc: string)
    requires |enc| >= 2
    ensures EntryPath(ShardOf(enc), RecordFilename(enc)) == enc[..2] + "/" + RecordPrefix + enc + RecordSuffix
    ensures |EntryPath(ShardOf(enc), RecordFilename(enc))| == |enc| + 18
    ensures EntryPath(ShardOf(enc), RecordFilename(enc))[2] == '/'
  {
  }

  /** Distinct records are published under distinct entry paths. */
  lemma PublishedPathInjective(a: string, b: string)
    requires |a| >= 2 && |b| >= 2
    ensures EntryPath(ShardOf(a), RecordFilename(a)) == EntryPath(ShardOf(b), RecordFilename(b)) ==> a == b
  {
    var pa := EntryPath(ShardOf(a), RecordFilename(a));
    var pb := EntryPath(ShardOf(b), RecordFilename(b));
    if pa == pb {
      assert pa[3..] == RecordFilename(a);
      assert pb[3..] == RecordFilename(b);
      FilenameInjective(a, b);
    }
  }

  /** `fmt.Sprintf("/shared/netDb/%s", directory)`. */
  function SharedDir(directory: string): (p: string)
    ensures SharedNetDb + "/" <= p && p[|SharedNetDb| + 1..] == directory
  {
    SharedNetDb + "/" + directory
  }

  /** The helper name the push and publish verbs use: the prefix and the
      first twelve characters of the node's container ID (the Go slice
      `containerID[:12]` panics on a shorter ID). */
  function HelperName(containerID: string): (name: string)
    requires |containerID| >= 12
    ensures |name| == |HelperPrefix| + 12
    ensures HelperPrefix <= name && name[|HelperPrefix|..] <= containerID
  {
    HelperPrefix + containerID[..12]
  }

  /** Nodes whose container IDs differ within the first twelve characters
      get helpers with different names. */
  lemma HelperNameDistinguishes(a: string, b: string)
    requires |a| >= 12 && |b| >= 12
    ensures HelperName(a) == HelperName(b) <==> a[..12] == b[..12]
  {
    if HelperName(a) == HelperName(b) {
      assert HelperName(a)[|HelperPrefix|..] == a[..12];
    }
  }

  /** The pull verb's fixed helper name (the same for every node) never
      equals a push or publish helper name. */
  lemma PullHelperNameDistinct()
    ensures PullHelperName != HelperPrefix
    ensures forall id: string {:trigger HelperName(id)} :: |id| >= 12 ==> HelperName(id) != PullHelperName
  {
    assert |PullHelperName| < |HelperPrefix| + 12;
  }

  /** `fmt.Sprintf("%s:/shared", volumeName)`: the bind that mounts the
      shared volume into a helper. */
  function SharedBind(volumeName: string): string
  {
    volumeName + ":/shared"
  }
}
