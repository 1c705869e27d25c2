/** The classifier contract and the dispatch that runs it
    (src/image/classifier.rs, top half).

    `ClassifierAlgo` is a trait with associated request, response and extra
    types; here a binding is a record of its algorithm id, its request
    builder and its response mapping, generic in those three types. */
module ClassifierAlgo {
  import opened Errors
  import opened Platform

  /** One label with the algorithm's confidence in it (`class` in the source,
      which is a reserved word here). */
  datatype Tag = Tag(confidence: real, className: string)

  /** The uniform result: ordered tags plus a binding-specific extra. */
  datatype Classification<E> = Classification(tags: seq<Tag>, extra: E)

  /** A binding: `algo()`, `make_input` and `from_output`. The response
      mapping may have a precondition, for bindings whose mapping panics on
      some responses. */
  datatype Algo<I, !O, E> = Algo(
    id: string,
    makeInput: string -> I,
    fromOutput: O --> Classification<E>)

  /** The request body of bindings that wrap the URI as `{"image": uri}`. */
  datatype ImageWrapper = ImageWrapper(image: string)

  /** A `{class, prob}` prediction, the response element of the scene and
      real-estate classifiers. */
  datatype Prediction = Prediction(className: string, prob: real)

  /** Predictions to tags, one for one and in order. */
  function PredictionsToTags(ps: seq<Prediction>): (tags: seq<Tag>)
    ensures |tags| == |ps|
    ensures forall i :: 0 <= i < |ps| ==> tags[i] == Tag(ps[i].prob, ps[i].className)
  {
    if |ps| == 0 then [] else [Tag(ps[0].prob, ps[0].className)] + PredictionsToTags(ps[1..])
  }

  /** Tags back to predictions: the inverse of `PredictionsToTags`. */
  function TagsToPredictions(tags: seq<Tag>): (ps: seq<Prediction>)
    ensures |ps| == |tags|
  {
    if |tags| == 0 then [] else [Prediction(tags[0].className, tags[0].confidence)] + TagsToPredictions(tags[1..])
  }

  lemma {:induction false} PredictionsRoundTrip(ps: seq<Prediction>)
    ensures TagsToPredictions(PredictionsToTags(ps)) == ps
  {
    if |ps| > 0 {
      PredictionsRoundTrip(ps[1..]);
      assert PredictionsToTags(ps)[1..] == PredictionsToTags(ps[1..]);
      assert ps == [ps[0]] + ps[1..];
    }
  }

  lemma {:induction false} TagsToPredictionsRoundTrip(tags: seq<Tag>)
    ensures PredictionsToTags(TagsToPredictions(tags)) == tags
  {
    if |tags| > 0 {
      TagsToPredictionsRoundTrip(tags[1..]);
      assert TagsToPredictions(tags)[1..] == TagsToPredictions(tags[1..]);
      assert tags == [tags[0]] + tags[1..];
    }
  }

  /** The one remote round trip of a classification. */
  function Call<I, O, E>(
    algo: Algo<I, O, E>, uri: string,
    pipe: (string, I) -> Result<Response>,
    decode: Response -> Result<O>): Result<O>
  {
    Invoke(algo.id, algo.makeInput(uri), pipe, decode)
  }

  /** The decoded response, if any, is one the binding can map. */
  ghost predicate Mappable<I, O, E>(
    algo: Algo<I, O, E>, uri: string,
    pipe: (string, I) -> Result<Response>,
    decode: Response -> Result<O>)
  {
    var o := Call(algo, uri, pipe, decode);
    o.Ok? ==> algo.fromOutput.requires(o.value)
  }

  /** `tag`: build the request from the URI, send it to the binding's own
      algorithm, decode the response and map it. A transport or decoding
      failure is the result and the mapping is never reached. */
  function TagUri<I, O, E>(
    algo: Algo<I, O, E>, uri: string,
    pipe: (string, I) -> Result<Response>,
    decode: Response -> Result<O>): (r: Result<Classification<E>>)
    requires Mappable(algo, uri, pipe, decode)
    ensures pipe(algo.id, algo.makeInput(uri)).Err? ==> r == Err(pipe(algo.id, algo.makeInput(uri)).error)
    ensures pipe(algo.id, algo.makeInput(uri)).Ok? && decode(pipe(algo.id, algo.makeInput(uri)).value).Err? ==>
      r == Err(decode(pipe(algo.id, algo.makeInput(uri)).value).error)
    ensures r.Ok? <==> pipe(algo.id, algo.makeInput(uri)).Ok? && decode(pipe(algo.id, algo.makeInput(uri)).value).Ok?
    ensures r.Ok? ==> r.value == algo.fromOutput(decode(pipe(algo.id, algo.makeInput(uri)).value).value)
  {
    match Call(algo, uri, pipe, decode)
    case Err(e) => Err(e)
    case Ok(o) => Ok(algo.fromOutput(o))
  }

  /** When the round trip fails, the response mapping plays no part: two
      bindings that differ only in their mapping give the same failure. */
  lemma TagFailureSkipsMapping<I, O, E>(
    id: string, makeInput: string -> I,
    f1: O --> Classification<E>, f2: O --> Classification<E>,
    uri: string, pipe: (string, I) -> Result<Response>, decode: Response -> Result<O>)
    requires Call(Algo(id, makeInput, f1), uri, pipe, decode).Err?
    ensures TagUri(Algo(id, makeInput, f1), uri, pipe, decode) == TagUri(Algo(id, makeInput, f2), uri, pipe, decode)
    ensures TagUri(Algo(id, makeInput, f1), uri, pipe, decode).Err?
  {
  }

  /** Only the binding's own algorithm is ever asked, and only with the
      request the binding built for this URI: two platforms that agree on that
      one request give the same result, however they answer anything else. */
  lemma TagTargetsBindingId<I, O, E>(
    algo: Algo<I, O, E>, uri: string,
    pipe1: (string, I) -> Result<Response>, pipe2: (string, I) -> Result<Response>,
    decode: Response -> Result<O>)
    requires pipe1(algo.id, algo.makeInput(uri)) == pipe2(algo.id, algo.makeInput(uri))
    requires Mappable(algo, uri, pipe1, decode)
    ensures Mappable(algo, uri, pipe2, decode)
    ensures TagUri(algo, uri, pipe1, decode) == TagUri(algo, uri, pipe2, decode)
  {
  }
}
