/** Tar archives as lists of entries (lib/utils/tar.go and its copies in
    main.go and lib/docker_control/docker.go).

    The byte layout written by Go's `archive/tar` is not modelled: an
    archive is the sequence of entries its headers announce, each with the
    body that follows the header. */
module Archive {
  import opened Wrappers

  /** The tar type flag of an entry, as far as the readers distinguish it. */
  datatype EntryKind = Regular | Directory | OtherKind

  /** One archive member: its header fields and its body. */
  datatype Entry = Entry(name: string, kind: EntryKind, mode: int, size: int, data: string)

  /** The permission bits every archive built by the repository carries. */
  const OwnerReadWrite: int := 0x180  // 0600 in octal

  /** A header whose size field announces exactly the body that follows. */
  predicate WellFormed(e: Entry)
  {
    e.size == |e.data|
  }

  /** The outcome of the three `tar.Writer` calls that build an archive:
      `WriteHeader`, `Write` and `Close`, of which the first failing one
      ends the construction. */
  datatype TarFault = TarOk | HeaderFails(cause: string) | WriteFails(cause: string) | CloseFails(cause: string)

  /** The one header every single-file archive in the repository writes. */
  function RegularFile(name: string, content: string): Entry
  {
    Entry(name, Regular, OwnerReadWrite, |content|, content)
  }

  /** A name that ends in `/`.  None of the repository's headers sets a
      type flag, and `tar.Writer.WriteHeader` then files such a name as a
      directory and every other name as a regular file. */
  predicate DirectoryName(name: string)
  {
    |name| > 0 && name[|name| - 1] == '/'
  }

  /** The type flag `WriteHeader` gives a header whose flag is unset. */
  function KindOf(name: string): (k: EntryKind)
    ensures k == Directory <==> DirectoryName(name)
    ensures k == Regular <==> !DirectoryName(name)
  {
    if DirectoryName(name) then Directory else Regular
  }

  /** `tar.ErrWriteTooLong`: a directory entry has no body, so writing
      any content into it fails with this error. */
  const ErrWriteTooLong: string := "archive/tar: write too long"

  /** `CreateTarArchive(filename, content)`: an archive holding exactly one
      entry, named `filename` verbatim, mode 0600, whose size is the length
      of `content` and whose body is `content`.  The entry is a regular file
      unless the name ends in `/`: then it is a directory, and any content
      makes the write fail.  A writer error returns no archive, only that
      error. */
  function CreateTarArchive(filename: string, content: string, fault: TarFault): (r: Result<seq<Entry>>)
    ensures r.Ok? <==> fault.TarOk? && !(DirectoryName(filename) && |content| > 0)
    ensures r.Ok? ==> |r.value| == 1
    ensures r.Ok? ==> r.value[0].name == filename && r.value[0].kind == KindOf(filename)
    ensures r.Ok? ==> r.value[0].mode == OwnerReadWrite
    ensures r.Ok? ==> r.value[0].data == content && r.value[0].size == |content|
    ensures r.Ok? && !DirectoryName(filename) ==> r.value == [RegularFile(filename, content)]
    ensures fault.HeaderFails? ==> r == Err(fault.cause)
    ensures !fault.HeaderFails? && DirectoryName(filename) && |content| > 0 ==> r == Err(ErrWriteTooLong)
    ensures r.Err? && !(DirectoryName(filename) && |content| > 0) ==> r.error == fault.cause
  {
    match fault
    case HeaderFails(e) => Err(e)
    case _ =>
      if DirectoryName(filename) && |content| > 0 then Err(ErrWriteTooLong)
      else match fault
        case WriteFails(e) => Err(e)
        case CloseFails(e) => Err(e)
        case TarOk => Ok([Entry(filename, KindOf(filename), OwnerReadWrite, |content|, content)])
  }

  /** One step of `tar.Reader.Next` over an archive stream: a header whose
      body reads back whole, a header whose body cannot be read to the end,
      or a stream that cannot be parsed at all. */
  datatype Record = Member(entry: Entry) | BodyFails(header: Entry, cause: string) | Corrupt(cause: string)

  /** The stream a reader sees for an archive that was written whole. */
  function Stream(entries: seq<Entry>): (s: seq<Record>)
    ensures |s| == |entries|
    ensures forall i :: 0 <= i < |s| ==> s[i] == Member(entries[i])
  {
    if |entries| == 0 then [] else [Member(entries[0])] + Stream(entries[1..])
  }

  /** Decoding an intact stream: every entry with its regular/directory
      distinction.  A damaged record ends decoding with its error. */
  function Decode(s: seq<Record>): (r: Result<seq<Entry>>)
    ensures r.Ok? ==> |r.value| == |s|
    ensures r.Ok? ==> forall i :: 0 <= i < |s| ==> s[i] == Member(r.value[i])
    ensures r.Ok? <==> forall i :: 0 <= i < |s| ==> s[i].Member?
  {
    if |s| == 0 then Ok([])
    else match s[0]
      case Corrupt(e) => Err(e)
      case BodyFails(_, e) => Err(e)
      case Member(entry) =>
        var rest := Decode(s[1..]);
        if rest.Err? then rest
        else
          assert forall i :: 1 <= i < |s| ==> s[i] == s[1..][i - 1];
          Ok([entry] + rest.value)
  }

  /** Round trip: decoding the archive `CreateTarArchive` builds gives
      back the one entry written, with its name, kind and contents; only a
      directory name with content builds nothing. */
  lemma SingleEntryRoundTrip(filename: string, content: string)
    ensures CreateTarArchive(filename, content, TarOk).Ok? <==> !(DirectoryName(filename) && |content| > 0)
    ensures CreateTarArchive(filename, content, TarOk).Ok? ==>
              Decode(Stream(CreateTarArchive(filename, content, TarOk).value))
              == Ok([Entry(filename, KindOf(filename), OwnerReadWrite, |content|, content)])
  {
    var r := CreateTarArchive(filename, content, TarOk);
    if r.Ok? {
      var es := r.value;
      var s := Stream(es);
      assert s == [Member(es[0])];
      assert s[1..] == [];
      assert [es[0]] + [] == es;
    }
  }

  /** A directory name with no content builds a directory entry; with
      content it fails with `ErrWriteTooLong`. */
  lemma DirectoryNameExample()
    ensures CreateTarArchive("x/", "", TarOk) == Ok([Entry("x/", Directory, OwnerReadWrite, 0, "")])
    ensures CreateTarArchive("x/", "abc", TarOk) == Err(ErrWriteTooLong)
  {
    assert DirectoryName("x/");
  }
}
