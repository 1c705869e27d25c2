/** The slice of the Algorithmia client the crate relies on: data-API file
    handles, the temporary staging directory, and one algorithm round trip.
    The transport itself is never modelled: a call is a `pipe` function
    supplied by the caller, and turning its response into a typed record is
    a `decode` function supplied by the caller. */
module Platform {
  import opened Wrappers
  import opened Errors

  type byte = x: int | 0 <= x < 256

  /** A data-API file, identified by its data URI. */
  datatype DataFile = DataFile(uri: string)

  /** The staging directory every upload goes to. */
  const TmpDir: string := "data://.my/tmp"

  /** The prefix every staged file's URI starts with. */
  function TmpPrefix(): (p: string)
    ensures |p| == |TmpDir| + 1 && p[..|TmpDir|] == TmpDir && p[|TmpDir|] == '/'
  {
    TmpDir + "/"
  }

  /** `DATA_TMP.child(name)`: the file called `name` inside the staging directory. */
  function TmpChild(name: string): (f: DataFile)
    ensures |f.uri| == |TmpPrefix()| + |name|
    ensures f.uri[..|TmpPrefix()|] == TmpPrefix() && f.uri[|TmpPrefix()|..] == name
  {
    DataFile(TmpPrefix() + name)
  }

  /** The name of a file inside the staging directory, or `None` for a file
      that does not live there. */
  function TmpChildName(f: DataFile): (r: Option<string>)
    ensures r.Some? ==> TmpChild(r.value) == f
  {
    var p := TmpPrefix();
    if |p| <= |f.uri| && f.uri[..|p|] == p then
      assert f.uri == p + f.uri[|p|..];
      Some(f.uri[|p|..])
    else
      None
  }

  /** Staging a name and reading it back gives the same name. */
  lemma TmpChildNameRoundTrip(name: string)
    ensures TmpChildName(TmpChild(name)) == Some(name)
  {
  }

  /** `CLIENT.file(uri)`, a client call outside this crate. It is assumed,
      not derived, to build a handle bound to exactly `uri` without any
      network call; the rebinding and output-file facts rest on that. */
  function ClientFile(uri: string): (f: DataFile)
    ensures f.uri == uri
  {
    DataFile(uri)
  }

  /** A raw algorithm response as the client hands it over. */
  datatype Response = Response(contentType: string, body: seq<byte>)

  /** `CLIENT.algo(id).pipe(input)?.decode()?`: one synchronous round trip to
      algorithm `id`, then the decoding of its response. A transport failure
      is returned as is and nothing is decoded. */
  function Invoke<I, O>(
    id: string, input: I,
    pipe: (string, I) -> Result<Response>,
    decode: Response -> Result<O>): (r: Result<O>)
    ensures pipe(id, input).Err? ==> r == Err(pipe(id, input).error)
    ensures pipe(id, input).Ok? ==> r == decode(pipe(id, input).value)
  {
    match pipe(id, input)
    case Err(e) => Err(e)
    case Ok(resp) => decode(resp)
  }
}
