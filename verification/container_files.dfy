/** Reading one file out of a container (lib/docker_control/extract.go).

    `CopyFromContainer` itself is the daemon's: the model receives what it
    returned. */
module ContainerFiles {
  import opened Wrappers
  import opened Archive

  /** What a successful `CopyFromContainer` delivered to
      `ReadFileFromContainer`: whether the stat of the path says it is a
      regular file, and the outcome of reading the whole stream. */
  datatype Copied = Copied(isRegular: bool, content: Result<string>)

  const NotRegularFile: string := "requested path is not a regular file"

  /** `ReadFileFromContainer`: a failed copy, a path that is not a regular
      file and a failed read are errors; otherwise the whole copied stream
      is returned unchanged (the daemon delivers it as a tar archive, which
      this function does not unpack). */
  function ReadFileFromContainer(copy: Result<Copied>): (r: Result<string>)
    ensures copy.Err? ==> r == Err(Wrap("error copying from container", copy.error))
    ensures copy.Ok? && !copy.value.isRegular ==> r == Err(NotRegularFile)
    ensures copy.Ok? && copy.value.isRegular && copy.value.content.Err?
            ==> r == Err(Wrap("error reading file content", copy.value.content.error))
    ensures r.Ok? <==> copy.Ok? && copy.value.isRegular && copy.value.content.Ok?
    ensures r.Ok? ==> r.value == copy.value.content.value
  {
    if copy.Err? then Err(Wrap("error copying from container", copy.error))
    else if !copy.value.isRegular then Err(NotRegularFile)
    else if copy.value.content.Err? then Err(Wrap("error reading file content", copy.value.content.error))
    else Ok(copy.value.content.value)
  }

  /** The only entry name `ReadFileFromContainerUnarchive` accepts. */
  const TargetName: string := "router.info"

  /** The entry the scan is looking for: a regular file named exactly
      `router.info`, whatever path the caller asked for. */
  predicate IsTarget(e: Entry)
  {
    e.kind == Regular && e.name == TargetName
  }

  /** A record the scan steps over: an intact entry that is not the target. */
  predicate Passes(rec: Record)
  {
    rec.Member? && !IsTarget(rec.entry)
  }

  predicate AllPass(s: seq<Record>)
  {
    forall j :: 0 <= j < |s| ==> Passes(s[j])
  }

  function NotFound(filePath: string): string
  {
    "file " + filePath + " not found in the tar archive"
  }

  /** What the scan returns at the first record it does not step over. */
  function StopAt(rec: Record): Result<string>
    requires !Passes(rec)
  {
    match rec
    case Member(e) => Ok(e.data)
    case BodyFails(h, e) =>
      if IsTarget(h) then Err(Wrap("error extracting file content", e))
      else Err(Wrap("error reading tar archive", e))  // the next header read fails while skipping the body
    case Corrupt(e) => Err(Wrap("error reading tar archive", e))
  }

  /** The loop of `ReadFileFromContainerUnarchive` over the archive: it
      returns at the first record that is not a non-target entry (the
      target's body, or a read error), and reports "not found" at the end
      of the archive.  Records after that point are never examined. */
  function FindTarget(s: seq<Record>, filePath: string): (r: Result<string>)
    ensures AllPass(s) ==> r == Err(NotFound(filePath))
    ensures forall i :: 0 <= i < |s| && AllPass(s[..i]) && !Passes(s[i]) ==> r == StopAt(s[i])
  {
    if |s| == 0 then Err(NotFound(filePath))
    else if !Passes(s[0]) then
      assert forall i :: 0 < i < |s| ==> !AllPass(s[..i]) by {
        forall i | 0 < i < |s| ensures !AllPass(s[..i]) { assert s[..i][0] == s[0]; }
      }
      StopAt(s[0])
    else
      var r := FindTarget(s[1..], filePath);
      assert forall i :: 0 < i <= |s| ==> s[..i] == [s[0]] + s[1..][..i - 1];
      assert AllPass(s) ==> AllPass(s[1..]);
      assert forall i :: 0 < i < |s| && AllPass(s[..i]) ==> AllPass(s[1..][..i - 1]) by {
        forall i | 0 < i < |s| && AllPass(s[..i]) ensures AllPass(s[1..][..i - 1]) {
          var t := s[1..][..i - 1];
          forall j | 0 <= j < |t| ensures Passes(t[j]) {
            assert t[j] == s[..i][j + 1];
          }
        }
      }
      r
  }

  /** `ReadFileFromContainerUnarchive(filePath)`: a failed copy is an
      error; otherwise the result of scanning the archive.  `filePath`
      only appears in the "not found" message. */
  function ReadFileFromContainerUnarchive(copy: Result<seq<Record>>, filePath: string): (r: Result<string>)
    ensures copy.Err? ==> r == Err(Wrap("error copying from container", copy.error))
    ensures copy.Ok? && AllPass(copy.value) ==> r == Err(NotFound(filePath))
    ensures copy.Ok? ==> forall i :: 0 <= i < |copy.value| && AllPass(copy.value[..i]) && !Passes(copy.value[i])
                                     ==> r == StopAt(copy.value[i])
  {
    if copy.Err? then Err(Wrap("error copying from container", copy.error))
    else FindTarget(copy.value, filePath)
  }

  /** The requested path plays no part in which entry is found. */
  lemma {:induction false} FindTargetIgnoresPath(s: seq<Record>, p: string, q: string)
    ensures FindTarget(s, p).Ok? <==> FindTarget(s, q).Ok?
    ensures FindTarget(s, p).Ok? ==> FindTarget(s, p) == FindTarget(s, q)
  {
    if |s| > 0 && Passes(s[0]) {
      FindTargetIgnoresPath(s[1..], p, q);
    }
  }

  /** Round trip: scanning the archive `CreateTarArchive("router.info", c)`
      builds yields `c`, whatever path was asked for. */
  lemma CreateThenUnarchive(content: string, filePath: string)
    ensures CreateTarArchive(TargetName, content, TarOk).Ok?
    ensures ReadFileFromContainerUnarchive(Ok(Stream(CreateTarArchive(TargetName, content, TarOk).value)), filePath)
            == Ok(content)
  {
    var s := Stream(CreateTarArchive(TargetName, content, TarOk).value);
    assert !Passes(s[0]);
    assert AllPass(s[..0]);
  }
}
