/** Image handling (lib/docker_control/image.go, and the older copies of
    `BuildDockerImage` and `imageExists` in lib/docker_control/docker.go and
    main.go).

    The image list, the embedded Dockerfile lookup, the build and the
    removal are the daemon's; their outcomes are inputs.  Build output
    lines arrive already JSON-decoded. */
module ImageControl {
  import opened Wrappers
  import opened Text
  import Archive
  import opened Docker

  /** An entry of `ImageList`: the repository tags of one image. */
  datatype ImageSummary = ImageSummary(repoTags: seq<string>)

  /** A tag names the image `name` when it is `name` itself or `name:latest`. */
  predicate TagNames(name: string, tag: string)
  {
    tag == name || tag == name + ":latest"
  }

  /** Some image in the list carries a tag naming `name`. */
  ghost predicate Listed(images: seq<ImageSummary>, name: string)
  {
    exists i, j :: 0 <= i < |images| && 0 <= j < |images[i].repoTags| && TagNames(name, images[i].repoTags[j])
  }

  /** The inner loop of `imageExists`, over one image's tags. */
  function AnyTagNames(tags: seq<string>, name: string): (b: bool)
    ensures b <==> exists j :: 0 <= j < |tags| && TagNames(name, tags[j])
  {
    if |tags| == 0 then false
    else if TagNames(name, tags[0]) then true
    else
      var b := AnyTagNames(tags[1..], name);
      assert forall j :: 1 <= j < |tags| ==> tags[j] == tags[1..][j - 1];
      b
  }

  /** The outer loop of `imageExists`, over the images. */
  function AnyImageNamed(images: seq<ImageSummary>, name: string): (b: bool)
    ensures b <==> Listed(images, name)
  {
    if |images| == 0 then false
    else if AnyTagNames(images[0].repoTags, name) then true
    else
      var b := AnyImageNamed(images[1..], name);
      assert forall i :: 1 <= i < |images| ==> images[i] == images[1..][i - 1];
      b
  }

  /** `imageExists`: true exactly when some listed image has a tag equal to
      `name` or `name:latest` (so false on an empty list); a list error is
      returned as `(false, err)`. */
  function ImageExists(list: Result<seq<ImageSummary>>, name: string): (r: Result<bool>)
    ensures list.Err? ==> r == Err(list.error)
    ensures list.Ok? ==> r.Ok? && (r.value <==> Listed(list.value, name))
    ensures list == Ok([]) ==> r == Ok(false)
  {
    if list.Err? then Err(list.error) else Ok(AnyImageNamed(list.value, name))
  }

  /** The calls and the result of a build or removal. */
  datatype Effect = Effect(trace: seq<Call>, result: Outcome)

  /** `BuildDockerImage` of image.go.  Nothing is fetched or built when the
      image already exists.  Otherwise the build context is a one-entry
      archive `Dockerfile`, mode 0600, holding the embedded content, and
      the image is tagged with its name.  `tarFault` is the outcome of the
      tar writer calls, `buildErr` of `ImageBuild` and `scanErr` of reading
      its output. */
  function BuildDockerImage(imageName: string, dockerfileName: string, list: Result<seq<ImageSummary>>,
                            dockerfile: Result<string>, tarFault: Archive.TarFault,
                            buildErr: Option<string>, scanErr: Option<string>): (r: Effect)
    ensures ImageExists(list, imageName).Err? ==>
              r == Effect([ImageList], Fail(Wrap("error checking for Docker image", ImageExists(list, imageName).error)))
    ensures ImageExists(list, imageName) == Ok(true) ==> r == Effect([ImageList], Pass)
    ensures forall k :: 0 <= k < |r.trace| && r.trace[k].ImageBuild? ==>
              && ImageExists(list, imageName) == Ok(false) && dockerfile.Ok? && tarFault.TarOk?
              && r.trace[k] == ImageBuild([imageName], "Dockerfile", Built([Archive.RegularFile("Dockerfile", dockerfile.value)]))
    ensures r.result == Pass <==> (|| ImageExists(list, imageName) == Ok(true)
                                   || (ImageExists(list, imageName) == Ok(false) && dockerfile.Ok? && tarFault.TarOk?
                                       && buildErr.None? && scanErr.None?))
  {
    var found := ImageExists(list, imageName);
    if found.Err? then Effect([ImageList], Fail(Wrap("error checking for Docker image", found.error)))
    else if found.value then Effect([ImageList], Pass)
    else
      var fetched := [ImageList, FetchDockerfile(dockerfileName)];
      if dockerfile.Err? then
        Effect(fetched, Fail(Wrap("error retrieving Dockerfile " + dockerfileName, dockerfile.error)))
      else
        var content := dockerfile.value;
        var header := fetched + [TarWriteHeader("Dockerfile", Archive.OwnerReadWrite, |content|)];
        match tarFault
        case HeaderFails(e) => Effect(header + [TarClose], Fail(Wrap("error writing tar header", e)))
        case WriteFails(e) => Effect(header + [TarWrite(content), TarClose], Fail(Wrap("error writing Dockerfile to tar", e)))
        case CloseFails(e) => Effect(header + [TarWrite(content), TarClose], Fail(Wrap("error closing tar writer", e)))
        case TarOk =>
          var build := header + [TarWrite(content), TarClose,
                                 ImageBuild([imageName], "Dockerfile", Built([Archive.RegularFile("Dockerfile", content)]))];
          if buildErr.Some? then Effect(build, Fail(Wrap("error building Docker image", buildErr.value)))
          else if scanErr.Some? then
            Effect(build + [ReadBuildOutput],
                   Fail(Wrap("error reading build output", Wrap("error reading docker output", scanErr.value))))
          else Effect(build + [ReadBuildOutput], Pass)
  }

  /** The build context of image.go is exactly what `CreateTarArchive`
      would build for the Dockerfile. */
  lemma BuildContextIsSingleEntry(content: string)
    ensures Archive.CreateTarArchive("Dockerfile", content, Archive.TarOk) == Ok([Archive.RegularFile("Dockerfile", content)])
  {
  }

  /** `BuildDockerImage` of docker.go: the same skip, then the directory is
      packed by Docker's archive package and built. */
  function BuildDockerImageFromDirectory(imageName: string, dockerfileDir: string, list: Result<seq<ImageSummary>>,
                                         tarErr: Option<string>, buildErr: Option<string>,
                                         readErr: Option<string>): (r: Effect)
    ensures ImageExists(list, imageName) == Ok(true) ==> r == Effect([ImageList], Pass)
    ensures ImageExists(list, imageName).Err? ==> r.trace == [ImageList] && r.result.Fail?
    ensures ImageBuild([imageName], "Dockerfile", HostDirectory(dockerfileDir)) in r.trace
            <==> ImageExists(list, imageName) == Ok(false) && tarErr.None?
    ensures r.result == Pass <==> (|| ImageExists(list, imageName) == Ok(true)
                                   || (ImageExists(list, imageName) == Ok(false) && tarErr.None? && buildErr.None? && readErr.None?))
  {
    var found := ImageExists(list, imageName);
    if found.Err? then Effect([ImageList], Fail(Wrap("error checking for Docker image", found.error)))
    else if found.value then Effect([ImageList], Pass)
    else if tarErr.Some? then
      Effect([ImageList, PackDirectory(dockerfileDir)], Fail(Wrap("error creating tar archive of Dockerfile", tarErr.value)))
    else
      var build := [ImageList, PackDirectory(dockerfileDir), ImageBuild([imageName], "Dockerfile", HostDirectory(dockerfileDir))];
      if buildErr.Some? then Effect(build, Fail(Wrap("error building Docker image", buildErr.value)))
      else if readErr.Some? then Effect(build + [ReadBuildOutput], Fail(Wrap("error reading build output", readErr.value)))
      else Effect(build + [ReadBuildOutput], Pass)
  }

  /** `RemoveDockerImage`: a list error is returned as is; a missing image
      is an error and `ImageRemove` is never called; otherwise the image is
      removed with force and pruning of children. */
  function RemoveDockerImage(imageName: string, list: Result<seq<ImageSummary>>, removeErr: Option<string>): (r: Effect)
    ensures ImageRemove(imageName, true, true) in r.trace <==> ImageExists(list, imageName) == Ok(true)
    ensures forall k :: 0 <= k < |r.trace| && r.trace[k].ImageRemove? ==> r.trace[k].name == imageName
    ensures list.Err? ==> r.result == Fail(list.error)
    ensures ImageExists(list, imageName) == Ok(false) ==>
              r.result == Fail("error: cant remove image '" + imageName + "' that doesn't exist")
    ensures r.result == Pass <==> ImageExists(list, imageName) == Ok(true) && removeErr.None?
  {
    var found := ImageExists(list, imageName);
    if found.Err? then Effect([ImageList], Fail(found.error))
    else if !found.value then Effect([ImageList], Fail("error: cant remove image '" + imageName + "' that doesn't exist"))
    else if removeErr.Some? then
      Effect([ImageList, ImageRemove(imageName, true, true)], Fail(Wrap("error removing image " + imageName, removeErr.value)))
    else Effect([ImageList, ImageRemove(imageName, true, true)], Pass)
  }

  /** A decoded build output message: `stream`, `aux.ID` and `error`, each
      empty when absent. */
  datatype DockerMessage = DockerMessage(stream: string, auxID: string, error: string)

  /** One line of build output: a JSON message, or a line that is not JSON. */
  datatype OutputLine = Json(msg: DockerMessage) | NotJson(text: string)

  /** What handling one line produces: a printed line, an error log or an
      image ID log. */
  datatype Emitted = Printed(text: string) | LoggedError(message: string) | LoggedImageID(id: string)

  /** The cleaning of a stream message: trimmed, stripped of every `\r`,
      trimmed again; nothing when the trimmed message is empty. */
  function CleanStream(stream: string): (r: Option<string>)
  {
    var trimmed := TrimSpace(stream);
    if trimmed == "" then None
    else Some(TrimSpace(RemoveAll(trimmed, '\r')))
  }

  /** Nothing is printed exactly for a blank stream; otherwise what is
      printed is the trimmed stream with its carriage returns deleted (the
      second trim finds nothing left to cut). */
  lemma CleanStreamBlank(stream: string)
    ensures CleanStream(stream).None? <==> AllSpace(stream)
    ensures CleanStream(stream).Some? ==> CleanStream(stream).value == RemoveAll(TrimSpace(stream), '\r')
  {
    TrimSpaceEmpty(stream);
    if TrimSpace(stream) != "" {
      StripKeepsEnds(TrimSpace(stream));
    }
  }

  /** A printed stream line is never empty, holds no carriage return and
      neither starts nor ends with white space. */
  lemma CleanStreamShape(stream: string)
    ensures CleanStream(stream).Some? ==>
              var v := CleanStream(stream).value;
              |v| > 0 && '\r' !in v && !IsSpace(v[0]) && !IsSpace(v[|v| - 1])
  {
    if TrimSpace(stream) != "" {
      StripKeepsEnds(TrimSpace(stream));
    }
  }

  lemma StripKeepsEnds(t: string)
    requires |t| > 0 && !IsSpace(t[0]) && !IsSpace(t[|t| - 1])
    ensures |RemoveAll(t, '\r')| > 0
    ensures !IsSpace(RemoveAll(t, '\r')[0]) && !IsSpace(RemoveAll(t, '\r')[|RemoveAll(t, '\r')| - 1])
    ensures TrimSpace(RemoveAll(t, '\r')) == RemoveAll(t, '\r')
  {
    RemoveAllKeepsLast(t, '\r');
    var s := RemoveAll(t, '\r');
    assert s[0] == t[0] by { assert t == [t[0]] + t[1..]; }
    TrimSpaceOfTrimmed(s);
  }

  /** The handling of one line in `streamDockerOutput`: a non-JSON line is
      printed verbatim; for a message, a non-empty error wins over a
      non-empty aux ID, which wins over the stream, which is printed only
      when it is not blank. */
  function HandleLine(line: OutputLine): (r: Option<Emitted>)
    ensures line.NotJson? ==> r == Some(Printed(line.text))
    ensures line.Json? && line.msg.error != "" ==> r == Some(LoggedError(line.msg.error))
    ensures line.Json? && line.msg.error == "" && line.msg.auxID != "" ==> r == Some(LoggedImageID(line.msg.auxID))
    ensures line.Json? && line.msg.error == "" && line.msg.auxID == "" ==>
              r == if CleanStream(line.msg.stream).Some? then Some(Printed(CleanStream(line.msg.stream).value)) else None
  {
    match line
    case NotJson(text) => Some(Printed(text))
    case Json(msg) =>
      if msg.error != "" then Some(LoggedError(msg.error))
      else if msg.auxID != "" then Some(LoggedImageID(msg.auxID))
      else if msg.stream != "" then
        var cleaned := CleanStream(msg.stream);
        if cleaned.Some? then Some(Printed(cleaned.value)) else None
      else None
  }

  /** Everything the lines produce, in order. */
  function EmittedBy(lines: seq<OutputLine>): seq<Emitted>
  {
    if |lines| == 0 then []
    else
      var h := HandleLine(lines[|lines| - 1]);
      EmittedBy(lines[..|lines| - 1]) + (if h.Some? then [h.value] else [])
  }

  /** Output is produced line by line: handling two runs of lines one after
      the other emits what each emits, concatenated. */
  lemma {:induction false} EmittedByAppend(a: seq<OutputLine>, b: seq<OutputLine>)
    ensures EmittedBy(a + b) == EmittedBy(a) + EmittedBy(b)
    decreases |b|
  {
    if |b| > 0 {
      var init := b[..|b| - 1];
      assert (a + b)[..|a + b| - 1] == a + init;
      assert (a + b)[|a + b| - 1] == b[|b| - 1];
      EmittedByAppend(a, init);
    } else {
      assert a + b == a;
    }
  }

  /** `streamDockerOutput`: every line the scanner delivers is handled in
      order; a read error of the scanner ends the loop and is returned
      wrapped.  `lines` are the lines read before the error, if any. */
  method StreamDockerOutput(lines: seq<OutputLine>, scanErr: Option<string>) returns (emitted: seq<Emitted>, result: Outcome)
    ensures emitted == EmittedBy(lines)
    ensures |emitted| <= |lines|
    ensures result == if scanErr.Some? then Fail(Wrap("error reading docker output", scanErr.value)) else Pass
  {
    emitted := [];
    var i := 0;
    while i < |lines|
      invariant 0 <= i <= |lines|
      invariant emitted == EmittedBy(lines[..i])
      invariant |emitted| <= i
    {
      assert lines[..i + 1][..i] == lines[..i];
      var h := HandleLine(lines[i]);
      if h.Some? {
        emitted := emitted + [h.value];
      }
      i := i + 1;
    }
    assert lines[..|lines|] == lines;
    result := if scanErr.Some? then Fail(Wrap("error reading docker output", scanErr.value)) else Pass;
  }
}
