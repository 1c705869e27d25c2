/** Colorising black-and-white images (src/image/colorizer.rs). The
    algorithm is batch-shaped: its request carries a list of data URIs and
    its response a list of result URIs. */
module Colorizer {
  import opened Errors
  import opened Platform
  import opened Image

  const ColorizerId: string := "deeplearning/ColorfulImageColorization/1.1"

  datatype Input = Input(image: seq<string>)
  datatype Output = Output(output: seq<string>)

  /** The one round trip every colorisation makes, always to the same algorithm. */
  function Call(
    input: Input,
    pipe: (string, Input) -> Result<Response>,
    decode: Response -> Result<Output>): (r: Result<Output>)
    ensures pipe(ColorizerId, input).Err? ==> r == Err(pipe(ColorizerId, input).error)
    ensures pipe(ColorizerId, input).Ok? ==> r == decode(pipe(ColorizerId, input).value)
  {
    Invoke(ColorizerId, input, pipe, decode)
  }

  /** The single call indexes the first output; its precondition is that the
      answer, if there is one, has an output to index. */
  ghost predicate FirstOutputExists(
    src: Source, token: SimpleUuid, env: Env,
    pipe: (string, Input) -> Result<Response>, decode: Response -> Result<Output>)
  {
    var d := IntoDataFile(src, token, env);
    d.Ok? ==>
      var c := Call(Input([d.value.uri]), pipe, decode);
      c.Ok? ==> |c.value.output| > 0
  }

  /** `Colorize::colorize`: a batch of one. The request holds exactly the
      resolved URI, and the result is the file of the first output URI. */
  function Colorize(
    src: Source, token: SimpleUuid, env: Env,
    pipe: (string, Input) -> Result<Response>,
    decode: Response -> Result<Output>): (r: Result<ImageFile>)
    requires FirstOutputExists(src, token, env, pipe, decode)
    ensures IntoDataFile(src, token, env).Err? ==> r == Err(IntoDataFile(src, token, env).error)
    ensures IntoDataFile(src, token, env).Ok? && Call(Input([IntoDataFile(src, token, env).value.uri]), pipe, decode).Err? ==>
      r == Err(Call(Input([IntoDataFile(src, token, env).value.uri]), pipe, decode).error)
    ensures r.Ok? <==>
      IntoDataFile(src, token, env).Ok? && Call(Input([IntoDataFile(src, token, env).value.uri]), pipe, decode).Ok?
    ensures r.Ok? ==>
      r.value.file.uri == Call(Input([IntoDataFile(src, token, env).value.uri]), pipe, decode).value.output[0]
  {
    match IntoDataFile(src, token, env)
    case Err(e) => Err(e)
    case Ok(d) =>
      (match Call(Input([d.uri]), pipe, decode)
       case Err(e) => Err(e)
       case Ok(resp) => Ok(ImageFile(ClientFile(resp.output[0]))))
  }

  /** Source `k` is the first that fails to resolve, with error `e`. */
  ghost predicate FirstFailure(srcs: seq<Source>, tokens: seq<SimpleUuid>, env: Env, k: nat, e: Error)
    requires |tokens| == |srcs|
  {
    && k < |srcs|
    && IntoDataFile(srcs[k], tokens[k], env) == Err(e)
    && forall j :: 0 <= j < k ==> IntoDataFile(srcs[j], tokens[j], env).Ok?
  }

  /** Resolving the sources in order, each with its own token, stopping at
      the first failure. On success the URIs match the sources one for one. */
  function ResolveUris(srcs: seq<Source>, tokens: seq<SimpleUuid>, env: Env): (r: Result<seq<string>>)
    requires |tokens| == |srcs|
    ensures r.Ok? ==> |r.value| == |srcs|
    ensures r.Ok? ==> forall i :: 0 <= i < |srcs| ==>
      IntoDataFile(srcs[i], tokens[i], env).Ok? && IntoDataFile(srcs[i], tokens[i], env).value.uri == r.value[i]
    ensures r.Err? ==> exists k :: FirstFailure(srcs, tokens, env, k, r.error)
  {
    if |srcs| == 0 then Ok([])
    else
      match IntoDataFile(srcs[0], tokens[0], env)
      case Err(e) =>
        assert FirstFailure(srcs, tokens, env, 0, e);
        Err(e)
      case Ok(d) =>
        (match ResolveUris(srcs[1..], tokens[1..], env)
         case Err(e) =>
           assert exists k :: FirstFailure(srcs, tokens, env, k, e) by {
             var k: nat :| FirstFailure(srcs[1..], tokens[1..], env, k, e);
             assert FirstFailure(srcs, tokens, env, k + 1, e);
           }
           Err(e)
         case Ok(rest) => Ok([d.uri] + rest))
  }

  /** Output URIs to files, one for one and in order. */
  function ToImageFiles(uris: seq<string>): (files: seq<ImageFile>)
    ensures |files| == |uris|
    ensures forall i :: 0 <= i < |uris| ==> files[i].file.uri == uris[i]
  {
    if |uris| == 0 then [] else [ImageFile(ClientFile(uris[0]))] + ToImageFiles(uris[1..])
  }

  /** `BatchColorize::colorize`: resolve everything first, then one call
      carrying all URIs in order; the files follow the outputs by position. */
  function ColorizeBatch(
    srcs: seq<Source>, tokens: seq<SimpleUuid>, env: Env,
    pipe: (string, Input) -> Result<Response>,
    decode: Response -> Result<Output>): (r: Result<seq<ImageFile>>)
    requires |tokens| == |srcs|
    ensures ResolveUris(srcs, tokens, env).Err? ==> r == Err(ResolveUris(srcs, tokens, env).error)
    ensures ResolveUris(srcs, tokens, env).Ok? && Call(Input(ResolveUris(srcs, tokens, env).value), pipe, decode).Err? ==>
      r == Err(Call(Input(ResolveUris(srcs, tokens, env).value), pipe, decode).error)
    ensures r.Ok? <==>
      ResolveUris(srcs, tokens, env).Ok? && Call(Input(ResolveUris(srcs, tokens, env).value), pipe, decode).Ok?
    ensures r.Ok? ==>
      var out := Call(Input(ResolveUris(srcs, tokens, env).value), pipe, decode).value.output;
      |r.value| == |out| && forall i :: 0 <= i < |out| ==> r.value[i].file.uri == out[i]
  {
    match ResolveUris(srcs, tokens, env)
    case Err(e) => Err(e)
    case Ok(uris) =>
      (match Call(Input(uris), pipe, decode)
       case Err(e) => Err(e)
       case Ok(resp) => Ok(ToImageFiles(resp.output)))
  }

  /** A failed resolution ends the batch before the platform is asked: the
      result is the same whatever the platform would have answered. */
  lemma BatchFailsBeforeRemote(
    srcs: seq<Source>, tokens: seq<SimpleUuid>, env: Env,
    pipe1: (string, Input) -> Result<Response>, decode1: Response -> Result<Output>,
    pipe2: (string, Input) -> Result<Response>, decode2: Response -> Result<Output>)
    requires |tokens| == |srcs|
    requires ResolveUris(srcs, tokens, env).Err?
    ensures ColorizeBatch(srcs, tokens, env, pipe1, decode1) == ColorizeBatch(srcs, tokens, env, pipe2, decode2)
    ensures ColorizeBatch(srcs, tokens, env, pipe1, decode1).Err?
  {
  }

  /** The sources after a failing one are never looked at: whatever
      follows it, resolution gives the same failure. */
  lemma {:induction false} ResolveStopsAtFailure(
    pre: seq<Source>, preTokens: seq<SimpleUuid>, bad: Source, badToken: SimpleUuid,
    more: seq<Source>, moreTokens: seq<SimpleUuid>, env: Env)
    requires |preTokens| == |pre| && |moreTokens| == |more|
    requires IntoDataFile(bad, badToken, env).Err?
    ensures ResolveUris(pre + [bad] + more, preTokens + [badToken] + moreTokens, env)
         == ResolveUris(pre + [bad], preTokens + [badToken], env)
    ensures ResolveUris(pre + [bad], preTokens + [badToken], env).Err?
  {
    var a, ta := pre + [bad] + more, preTokens + [badToken] + moreTokens;
    var b, tb := pre + [bad], preTokens + [badToken];
    if |pre| == 0 {
      assert a[0] == bad && ta[0] == badToken;
      assert b[0] == bad && tb[0] == badToken;
    } else {
      ResolveStopsAtFailure(pre[1..], preTokens[1..], bad, badToken, more, moreTokens, env);
      assert a[0] == b[0] && ta[0] == tb[0];
      assert a[1..] == pre[1..] + [bad] + more;
      assert ta[1..] == preTokens[1..] + [badToken] + moreTokens;
      assert b[1..] == pre[1..] + [bad];
      assert tb[1..] == preTokens[1..] + [badToken];
    }
  }

  /** The single call is the batch call on one source. */
  lemma ColorizeIsBatchOfOne(
    src: Source, token: SimpleUuid, env: Env,
    pipe: (string, Input) -> Result<Response>, decode: Response -> Result<Output>)
    requires FirstOutputExists(src, token, env, pipe, decode)
    ensures var b := ColorizeBatch([src], [token], env, pipe, decode);
      (b.Ok? ==> |b.value| > 0) &&
      Colorize(src, token, env, pipe, decode) == (match b case Err(e) => Err(e) case Ok(fs) => Ok(fs[0]))
  {
    var d := IntoDataFile(src, token, env);
    if d.Ok? {
      assert ResolveUris([src], [token], env) == Ok([d.value.uri]) by {
        assert [src][0] == src && [token][0] == token;
        assert [src][1..] == [] && [token][1..] == [];
        assert ResolveUris([], [], env) == Ok([]);
        assert [d.value.uri] + [] == [d.value.uri];
      }
    }
  }

  /** Only the colorisation algorithm is ever asked, by the single and the
      batch call alike: two platforms that agree on it give the same results. */
  lemma ColorizerTargetsFixedId(
    src: Source, token: SimpleUuid, srcs: seq<Source>, tokens: seq<SimpleUuid>, env: Env,
    pipe1: (string, Input) -> Result<Response>, pipe2: (string, Input) -> Result<Response>,
    decode: Response -> Result<Output>)
    requires |tokens| == |srcs|
    requires forall uris :: pipe1(ColorizerId, Input(uris)) == pipe2(ColorizerId, Input(uris))
    requires FirstOutputExists(src, token, env, pipe1, decode)
    ensures FirstOutputExists(src, token, env, pipe2, decode)
    ensures Colorize(src, token, env, pipe1, decode) == Colorize(src, token, env, pipe2, decode)
    ensures ColorizeBatch(srcs, tokens, env, pipe1, decode) == ColorizeBatch(srcs, tokens, env, pipe2, decode)
  {
  }
}
