/** Copying a generated configuration file into a Docker volume: the four
    `CopyConfigToVolume` routines (main.go, lib/docker_control/docker.go,
    lib/go-i2p/config.go, lib/i2pd/config.go).

    All four create an unnamed alpine container with the volume mounted,
    start it, build a one-entry archive, upload it into the mount point and
    stop the container, under the lifecycle of module Scoped.  They differ
    only in the constants below. */
module ConfigCopy {
  import opened Wrappers
  import Archive
  import opened Docker
  import opened Scoped

  /** The four copies of the routine. */
  datatype Site = MainGo | DockerControl | GoI2p | I2pd

  /** Where the volume is mounted and the file uploaded. */
  function MountPoint(site: Site): string
  {
    if site.I2pd? then "/var/lib/i2pd" else "/config"
  }

  /** The command the temporary container runs. */
  function Command(site: Site): seq<string>
  {
    match site
    case MainGo => ["sh", "-c", "sleep 1d"]
    case DockerControl => ["sh", "-c", "sleep 1d"]
    case GoI2p => ["sh", "-c", "mkdir -p /config/.go-i2p && sleep 1d"]
    case I2pd => ["sh", "-c", "mkdir -p /var/lib/i2pd && sleep 1d"]
  }

  /** The name of the one archive entry, relative to the mount point. */
  function EntryName(site: Site): string
  {
    match site
    case MainGo => "router.config"
    case DockerControl => "router.config"
    case GoI2p => ".go-i2p/config.yaml"
    case I2pd => "i2pd.conf"
  }

  /** main.go drops a removal error; the three library copies log it. */
  function Policy(site: Site): RemovalPolicy
  {
    if site.MainGo? then Ignore else Log
  }

  /** The error contexts; main.go capitalises them. */
  function Context(site: Site, what: string): string
  {
    (if site.MainGo? then "Error " else "error ") + what
  }

  function ConfigCreate(site: Site, volumeName: string): (c: Call)
    ensures c.ContainerCreate?
  {
    ContainerCreate("alpine", Command(site), MountPoint(site), [volumeName + ":" + MountPoint(site)], "")
  }

  /** The upload: the archive `CreateTarArchive(EntryName, configData)`
      builds, into the mount point. */
  function ConfigUpload(site: Site, configData: string): Call
  {
    CopyToContainer(Helper, MountPoint(site),
                    Built(Archive.CreateTarArchive(EntryName(site), configData, Archive.TarOk).value), false)
  }

  function ConfigBody(site: Site, configData: string): (body: seq<Step>)
    ensures |body| == 4 && RemovalFree(body)
  {
    [ Step(ContainerStart(Helper), Context(site, "starting temporary container")),
      Step(CreateTarArchive(EntryName(site), configData), Context(site, "creating tar archive")),
      Step(ConfigUpload(site, configData), Context(site, "copying to container")),
      Step(ContainerStop(Helper, None), Context(site, "stopping temporary container")) ]
  }

  /** `CopyConfigToVolume`.  A failed create returns its error and removes
      nothing; once the container exists it is force-removed exactly once,
      as the last call, on every path.  A removal error never reaches the
      result; the library copies log it.  `ConfigCleanRun` and
      `UploadIsOneEntry` state what a clean run uploads. */
  function CopyConfigToVolume(site: Site, volumeName: string, configData: string,
                              fault: Fault, removeErr: Option<string>): (r: Scope)
    requires fault.FailAt? ==> fault.index <= 4
    ensures |r.trace| >= 1 && r.trace[0] == ConfigCreate(site, volumeName)
    ensures CreateFails(fault) ==> r.trace == [ConfigCreate(site, volumeName)]
                                   && r.result == Fail(Wrap(Context(site, "creating temporary container"), fault.cause))
    ensures RemovalsAt(r.trace) == if CreateFails(fault) then {} else {|r.trace| - 1}
    ensures r.result.Fail? <==> fault.FailAt?
    ensures r.warning.Some? <==> !CreateFails(fault) && removeErr.Some? && !site.MainGo?
  {
    Run(ConfigCreate(site, volumeName), Context(site, "creating temporary container"),
        ConfigBody(site, configData), fault, removeErr, Policy(site))
  }

  /** A clean copy: start, archive, upload into the mount point, stop,
      removal; and success. */
  lemma ConfigCleanRun(site: Site, volumeName: string, configData: string, removeErr: Option<string>)
    ensures var r := CopyConfigToVolume(site, volumeName, configData, NoFault, removeErr);
            && r.trace[1..] == [ContainerStart(Helper), CreateTarArchive(EntryName(site), configData),
                                ConfigUpload(site, configData), ContainerStop(Helper, None), RemoveHelper]
            && r.result == Pass
  {
    CleanRun(ConfigCreate(site, volumeName), Context(site, "creating temporary container"),
             ConfigBody(site, configData), removeErr, Policy(site));
  }

  /** The upload holds exactly one regular entry, named after the site's
      file, mode 0600, holding the configuration. */
  lemma UploadIsOneEntry(site: Site, configData: string)
    ensures ConfigUpload(site, configData).payload.entries
            == [Archive.Entry(EntryName(site), Archive.Regular, Archive.OwnerReadWrite, |configData|, configData)]
  {
  }

  /** A failing stop after a successful upload is still returned as an
      error, and the container is still removed. */
  lemma StopFailureAfterUpload(site: Site, volumeName: string, configData: string,
                               cause: string, removeErr: Option<string>)
    ensures var r := CopyConfigToVolume(site, volumeName, configData, FailAt(4, cause), removeErr);
            && ConfigUpload(site, configData) in r.trace
            && r.trace[|r.trace| - 1] == RemoveHelper
            && r.result == Fail(Wrap(Context(site, "stopping temporary container"), cause))
  {
    var body := ConfigBody(site, configData);
    var r := Run(ConfigCreate(site, volumeName), Context(site, "creating temporary container"),
                 body, FailAt(4, cause), removeErr, Policy(site));
    assert r == CopyConfigToVolume(site, volumeName, configData, FailAt(4, cause), removeErr);
    assert Issued(body, FailAt(4, cause)) == 4;
    assert r.trace[3] == body[2].call;
  }
}
