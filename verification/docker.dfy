/** The Docker Engine calls the repository issues, as values.

    The daemon's behaviour is not modelled; an operation of the model
    returns the sequence of calls it issues (its trace) and receives the
    outcome of each call as an input. */
module Docker {
  import opened Wrappers
  import Archive

  /** The container a call addresses: the temporary helper the operation
      created itself (its ID is whatever the daemon returned), or a
      container named by the caller. */
  datatype Target = Helper | Container(id: string)

  /** An archive handed to the daemon: one built in memory, the stream
      just read from a path of a container, or a host directory packed by
      Docker's own `archive.TarWithOptions`. */
  datatype Payload = Built(entries: seq<Archive.Entry>) | Streamed(source: Target, path: string) | HostDirectory(dir: string)

  datatype Call =
    | ContainerCreate(image: string, cmd: seq<string>, workingDir: string, binds: seq<string>, name: string)
    | ContainerStart(target: Target)
    | ContainerStop(target: Target, timeout: Option<int>)
    | ContainerRemove(target: Target, force: bool)
    | ExecCreate(target: Target, argv: seq<string>)
    | ExecStart(target: Target)
    | ExecAttach(target: Target)
    | CopyFromContainer(target: Target, path: string)
    | CopyToContainer(target: Target, path: string, payload: Payload, overwriteDirWithFile: bool)
    // building an archive in memory (no daemon involved)
    | TarWriteHeader(name: string, mode: int, size: int)
    | TarWrite(data: string)
    | TarClose
    | CreateTarArchive(name: string, content: string)
    | PackDirectory(dir: string)  // archive.TarWithOptions on a host directory
    // images
    | ImageList
    | FetchDockerfile(name: string)
    | ImageBuild(tags: seq<string>, dockerfile: string, context: Payload)
    | ReadBuildOutput
    | ImageRemove(name: string, force: bool, pruneChildren: bool)
    // volumes and networks
    | VolumeRemove(name: string, force: bool)
    | NetworkList
    | NetworkCreate(name: string, driver: string, subnet: string)
    | NetworkRemove(name: string)

  /** The forced removal of the helper that every scoped operation defers. */
  const RemoveHelper: Call := ContainerRemove(Helper, true)
}
