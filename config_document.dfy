/**
  The shape the accessors expect of the configuration document, as a typed
  record, and the fact that a document of that shape is served field for
  field: on it the accessors never raise KeyError or TypeError.
*/
module ConfigDocument {
  import opened Results
  import opened PyJson
  import opened Config

  /** The `api` section: where the API server listens. */
  datatype Api = Api(host: string, port: int)

  /** A configuration document; a chamber's own fields are not read by this
      layer, only how many chambers there are. */
  datatype Document = Document(api: Api, chambers: seq<Json>)

  /** The document as `json.loads` would produce it from its minimal file. */
  function ToJson(d: Document): (j: Json)
    ensures IsLoaded(j)
  {
    JObj(map[
      "api" := JObj(map["host" := JStr(d.api.host), "port" := JInt(d.api.port)]),
      "chambers" := JArr(d.chambers)])
  }

  /** `api.host` is a str, `api.port` an int and `chambers` a list. */
  predicate WellShaped(j: Json) {
    && HasPath(j, "api", "host") && j.fields["api"].fields["host"].JStr?
    && HasPath(j, "api", "port") && j.fields["api"].fields["port"].JInt?
    && "chambers" in j.fields && j.fields["chambers"].JArr?
  }

  /** Reads a decoded value as a Document when it has the expected shape
      (further keys are allowed and ignored). */
  function AsDocument(j: Json): (d: Option<Document>)
    ensures d.Some? <==> WellShaped(j)
    ensures d.Some? ==> HasPath(j, "api", "host") && HasPath(j, "api", "port")
    ensures d.Some? ==> j.fields["api"].fields["host"] == JStr(d.value.api.host)
    ensures d.Some? ==> j.fields["api"].fields["port"] == JInt(d.value.api.port)
    ensures d.Some? ==> "chambers" in j.fields && j.fields["chambers"] == JArr(d.value.chambers)
  {
    if HasPath(j, "api", "host") && HasPath(j, "api", "port") && "chambers" in j.fields then
      match (j.fields["api"].fields["host"], j.fields["api"].fields["port"], j.fields["chambers"])
      case (JStr(host), JInt(port), JArr(chambers)) => Some(Document(Api(host, port), chambers))
      case _ => None
    else None
  }

  /** A document written out and read back is the same document. */
  lemma DocumentRoundTrip(d: Document)
    ensures AsDocument(ToJson(d)) == Some(d)
  {
    var j := ToJson(d);
    assert HasPath(j, "api", "host") && HasPath(j, "api", "port");
  }

  /** On a well-shaped document each accessor returns exactly its field. */
  lemma AccessorsProject(j: Json, d: Document)
    requires AsDocument(j) == Some(d)
    ensures ApiHost(j) == Ok(JStr(d.api.host))
    ensures ApiPort(j) == Ok(JInt(d.api.port))
    ensures ChambersCount(j) == Ok(|d.chambers|)
  {
  }

  /** After a successful load of a well-shaped document D, the accessors
      return D's host, D's port and D's number of chambers, whatever the
      store held before. */
  lemma LoadServesDocument(config: Json, file: FileRead, decode: string -> Decoded, d: Document)
    requires file.Content? && decode(file.text).Parsed?
    requires AsDocument(decode(file.text).value) == Some(d)
    ensures var after := LoadStep(config, file, decode);
            after.outcome == Pass &&
            ApiHost(after.config) == Ok(JStr(d.api.host)) &&
            ApiPort(after.config) == Ok(JInt(d.api.port)) &&
            ChambersCount(after.config) == Ok(|d.chambers|)
  {
    AccessorsProject(decode(file.text).value, d);
  }
}
