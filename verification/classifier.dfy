/** The `Classifier` trait, implemented for every image source
    (src/image/classifier.rs): resolve the source to a data file, then run a
    binding on its data URI. */
module Classifier {
  import opened Errors
  import opened Platform
  import opened Image
  import opened ClassifierAlgo
  import InceptionNet

  /** Whatever the source resolves to, the response for its URI is one the
      binding can map. */
  ghost predicate MappableSource<I, O, E>(
    src: Source, token: SimpleUuid, env: Env, algo: Algo<I, O, E>,
    pipe: (string, I) -> Result<Response>, decode: Response -> Result<O>)
  {
    var d := IntoDataFile(src, token, env);
    d.Ok? ==> Mappable(algo, d.value.uri, pipe, decode)
  }

  /** `classify_with`: a resolution failure is the result and the platform is
      not asked; otherwise the binding runs on the resolved file's URI. */
  function ClassifyWith<I, O, E>(
    src: Source, token: SimpleUuid, env: Env, algo: Algo<I, O, E>,
    pipe: (string, I) -> Result<Response>, decode: Response -> Result<O>): (r: Result<Classification<E>>)
    requires MappableSource(src, token, env, algo, pipe, decode)
    ensures IntoDataFile(src, token, env).Err? ==> r == Err(IntoDataFile(src, token, env).error)
    ensures IntoDataFile(src, token, env).Ok? ==> r == TagUri(algo, IntoDataFile(src, token, env).value.uri, pipe, decode)
  {
    match IntoDataFile(src, token, env)
    case Err(e) => Err(e)
    case Ok(d) => TagUri(algo, d.uri, pipe, decode)
  }

  /** `classify`: the general-purpose classifier on the resolved URI, keeping
      only the tags. Success means the source resolved and the platform's
      answer for that URI decoded, and the tags are exactly the decoded ones. */
  function Classify(
    src: Source, token: SimpleUuid, env: Env,
    pipe: (string, string) -> Result<Response>,
    decode: Response -> Result<InceptionNet.Output>): (r: Result<seq<Tag>>)
    ensures IntoDataFile(src, token, env).Err? ==> r == Err(IntoDataFile(src, token, env).error)
    ensures r.Ok? <==>
      IntoDataFile(src, token, env).Ok? &&
      Invoke(InceptionNet.Id, IntoDataFile(src, token, env).value.uri, pipe, decode).Ok?
    ensures r.Ok? ==>
      r.value == Invoke(InceptionNet.Id, IntoDataFile(src, token, env).value.uri, pipe, decode).value.tags
  {
    match IntoDataFile(src, token, env)
    case Err(e) => Err(e)
    case Ok(d) =>
      (match TagUri(InceptionNet.Binding(), d.uri, pipe, decode)
       case Err(e) => Err(e)
       case Ok(c) => Ok(c.tags))
  }

  /** `classify` is `classify_with` the default binding, with the (unit)
      extra dropped. */
  lemma ClassifyIsDefaultClassifyWith(
    src: Source, token: SimpleUuid, env: Env,
    pipe: (string, string) -> Result<Response>,
    decode: Response -> Result<InceptionNet.Output>)
    ensures MappableSource(src, token, env, InceptionNet.Binding(), pipe, decode)
    ensures Classify(src, token, env, pipe, decode) ==
      match ClassifyWith(src, token, env, InceptionNet.Binding(), pipe, decode)
      case Err(e) => Err(e)
      case Ok(c) => Ok(c.tags)
  {
  }
}
