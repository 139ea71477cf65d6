/** Extraction of a node's own RouterInfo (lib/i2pd/extract.go).

    Parsing a RouterInfo, computing its identity hash and the I2P base64
    encoding are go-i2p code outside this model: they are the parameters
    `parse` (router_info.ReadRouterInfo) and `encodedHash`
    (base64.EncodeToString of IdentHash).  The daemon's copy primitive is
    the parameter `copyFrom`, from a path in the node to its outcome. */
module RouterInfoExtract {
  import opened Wrappers
  import opened ContainerFiles
  import opened NetDbNaming

  /** The three values `GetRouterInfoWithFilename` returns on success. */
  datatype Extracted<RI> = Extracted(ri: RI, raw: string, filename: string)

  /** `GetRouterInfoWithFilename`: reads `/root/.i2pd/router.info` from the
      node, parses it, and names it after its encoded identity hash.  A
      read error or a parse error is returned as is; on success the raw
      string is exactly what was read, the record is what the parser made
      of it, and the filename is `"routerInfo-" + hash + ".dat"`. */
  function GetRouterInfoWithFilename<RI>(copyFrom: string -> Result<Copied>, parse: string -> Result<RI>,
                                         encodedHash: RI -> string): (r: Result<Extracted<RI>>)
    ensures var read := ReadFileFromContainer(copyFrom(RouterInfoPath));
            && (read.Err? ==> r.Err? && r.error == read.error)
            && (read.Ok? && parse(read.value).Err? ==> r.Err? && r.error == parse(read.value).error)
            && (r.Ok? <==> read.Ok? && parse(read.value).Ok?)
            && (r.Ok? ==> r.value.raw == read.value && r.value.ri == parse(read.value).value)
    ensures r.Ok? ==> r.value.filename == RecordFilename(encodedHash(r.value.ri))
  {
    var read := ReadFileFromContainer(copyFrom(RouterInfoPath));
    if read.Err? then Err(read.error)
    else
      var parsed := parse(read.value);
      if parsed.Err? then Err(parsed.error)
      else Ok(Extracted(parsed.value, read.value, RecordFilename(encodedHash(parsed.value))))
  }

  /** Only the fixed path is ever read: two nodes that agree on it give the
      same result. */
  lemma ReadsOnlyRouterInfoPath<RI>(copyA: string -> Result<Copied>, copyB: string -> Result<Copied>,
                                    parse: string -> Result<RI>, encodedHash: RI -> string)
    requires copyA(RouterInfoPath) == copyB(RouterInfoPath)
    ensures GetRouterInfoWithFilename(copyA, parse, encodedHash) == GetRouterInfoWithFilename(copyB, parse, encodedHash)
  {
  }

  /** A failed read returns before anything is parsed: the parser has no
      influence on the result. */
  lemma ReadFailureSkipsParse<RI>(copyFrom: string -> Result<Copied>, parseA: string -> Result<RI>,
                                  parseB: string -> Result<RI>, encodedHash: RI -> string)
    requires ReadFileFromContainer(copyFrom(RouterInfoPath)).Err?
    ensures GetRouterInfoWithFilename(copyFrom, parseA, encodedHash) == GetRouterInfoWithFilename(copyFrom, parseB, encodedHash)
  {
  }
}
