// Text summarisation (src/nlp/summarizer.rs): two bindings and the default.

/** Summarisation by `nlp/summarizer`, whose answer is plain text. */
module Classifier4j {
  import opened Wrappers
  import opened Errors
  import opened Platform

  const Id: string := "nlp/summarizer/0.1"

  const NotAString: string := "Algorithm did not output a string"

  /** The text goes to the algorithm; a textual answer is the summary, any
      other answer is an error, and a transport failure is passed on.
      `intoString` is the client's reading of a response as text. */
  function Summarize(
    text: string,
    pipe: (string, string) -> Result<Response>,
    intoString: Response -> Option<string>): (r: Result<string>)
    ensures pipe(Id, text).Err? ==> r == Err(pipe(Id, text).error)
    ensures r.Ok? <==> pipe(Id, text).Ok? && intoString(pipe(Id, text).value).Some?
    ensures r.Ok? ==> r.value == intoString(pipe(Id, text).value).value
    ensures pipe(Id, text).Ok? && intoString(pipe(Id, text).value).None? ==> r == Err(Msg(NotAString))
  {
    match pipe(Id, text)
    case Err(e) => Err(e)
    case Ok(resp) =>
      (match intoString(resp)
       case Some(summary) => Ok(summary)
       case None => Err(Msg(NotAString)))
  }

  /** Only `nlp/summarizer/0.1` is ever asked, and only with the text itself:
      two platforms that agree there give the same result, however they
      answer for other algorithms or other texts. */
  lemma SummarizeTargetsId(
    text: string,
    pipe1: (string, string) -> Result<Response>, pipe2: (string, string) -> Result<Response>,
    intoString: Response -> Option<string>)
    requires pipe1(Id, text) == pipe2(Id, text)
    ensures Summarize(text, pipe1, intoString) == Summarize(text, pipe2, intoString)
  {
  }
}

/** Summarisation by `SummarAI/Summarizer`, whose answer is a record. */
module Summarai {
  import opened Errors
  import opened Platform

  const Id: string := "SummarAI/Summarizer/0.1"

  datatype Output = Output(summarizedData: string, autoGenRankedKeywords: seq<string>)

  datatype Summary = Summary(summary: string, keywords: seq<string>)

  /** The response's fields under the crate's names, keywords in rank order. */
  function FromOutput(output: Output): (s: Summary)
    ensures s.summary == output.summarizedData
    ensures |s.keywords| == |output.autoGenRankedKeywords|
    ensures forall i :: 0 <= i < |s.keywords| ==> s.keywords[i] == output.autoGenRankedKeywords[i]
  {
    Summary(output.summarizedData, output.autoGenRankedKeywords)
  }

  function ToOutput(s: Summary): Output {
    Output(s.summary, s.keywords)
  }

  /** The renaming is a bijection: nothing is lost either way. */
  lemma FromOutputBijective(output: Output, s: Summary)
    ensures ToOutput(FromOutput(output)) == output
    ensures FromOutput(ToOutput(s)) == s
  {
  }

  /** The text goes to the algorithm; a transport or decoding failure is the
      result, otherwise the decoded record renamed. */
  function Summarize(
    text: string,
    pipe: (string, string) -> Result<Response>,
    decode: Response -> Result<Output>): (r: Result<Summary>)
    ensures r.Ok? <==> Invoke(Id, text, pipe, decode).Ok?
    ensures r.Err? ==> r.error == Invoke(Id, text, pipe, decode).error
    ensures r.Ok? ==> ToOutput(r.value) == Invoke(Id, text, pipe, decode).value
  {
    match Invoke(Id, text, pipe, decode)
    case Err(e) => Err(e)
    case Ok(output) => Ok(FromOutput(output))
  }
}

/** The crate's default summariser. */
module Summarizer {
  import opened Wrappers
  import opened Errors
  import opened Platform
  import Classifier4j

  /** `summarize` is the classifier4j binding. */
  function Summarize(
    text: string,
    pipe: (string, string) -> Result<Response>,
    intoString: Response -> Option<string>): (r: Result<string>)
    ensures r == Classifier4j.Summarize(text, pipe, intoString)
  {
    Classifier4j.Summarize(text, pipe, intoString)
  }
}
