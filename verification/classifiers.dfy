// The built-in classifier bindings (src/image/classifier.rs, `mod classifiers`),
// one module per binding.

/** The general-purpose classifier: the bare URI in, a tag list out. */
module InceptionNet {
  import opened ClassifierAlgo

  const Id: string := "deeplearning/InceptionNet/1.0"

  datatype Output = Output(tags: seq<Tag>)

  /** The request is the URI itself. */
  function MakeInput(uri: string): (input: string)
    ensures input == uri
  {
    uri
  }

  /** The response's tags are the result, untouched; there is no extra. */
  function FromOutput(output: Output): (c: Classification<()>)
    ensures c.tags == output.tags
  {
    Classification(output.tags, ())
  }

  function Binding(): (b: Algo<string, Output, ()>)
    ensures b.id == "deeplearning/InceptionNet/1.0"
    ensures forall uri :: b.makeInput(uri) == MakeInput(uri)
    ensures forall o :: b.fromOutput.requires(o) && b.fromOutput(o) == FromOutput(o)
  {
    Algo(Id, MakeInput, FromOutput)
  }
}

/** Face recognition: `{"image": uri}` in, `(confidence, class)` pairs out. */
module DeepFace {
  import opened ClassifierAlgo

  const Id: string := "deeplearning/DeepFaceRecognition/0.1"

  datatype Output = Output(results: seq<(real, string)>)

  function MakeInput(uri: string): (input: ImageWrapper)
    ensures input.image == uri
  {
    ImageWrapper(uri)
  }

  /** Pairs to tags, one for one and in order: the first component is the
      confidence, the second the class. */
  function PairsToTags(ps: seq<(real, string)>): (tags: seq<Tag>)
    ensures |tags| == |ps|
    ensures forall i :: 0 <= i < |ps| ==> tags[i].confidence == ps[i].0 && tags[i].className == ps[i].1
  {
    if |ps| == 0 then [] else [Tag(ps[0].0, ps[0].1)] + PairsToTags(ps[1..])
  }

  /** Tags back to pairs: the inverse of `PairsToTags`. */
  function TagsToPairs(tags: seq<Tag>): (ps: seq<(real, string)>)
    ensures |ps| == |tags|
  {
    if |tags| == 0 then [] else [(tags[0].confidence, tags[0].className)] + TagsToPairs(tags[1..])
  }

  lemma {:induction false} PairsRoundTrip(ps: seq<(real, string)>)
    ensures TagsToPairs(PairsToTags(ps)) == ps
  {
    if |ps| > 0 {
      PairsRoundTrip(ps[1..]);
      assert PairsToTags(ps)[1..] == PairsToTags(ps[1..]);
      assert ps == [ps[0]] + ps[1..];
    }
  }

  lemma {:induction false} TagsToPairsRoundTrip(tags: seq<Tag>)
    ensures PairsToTags(TagsToPairs(tags)) == tags
  {
    if |tags| > 0 {
      TagsToPairsRoundTrip(tags[1..]);
      assert TagsToPairs(tags)[1..] == TagsToPairs(tags[1..]);
      assert tags == [tags[0]] + tags[1..];
    }
  }

  /** One tag per result pair, in the same order; the response is
      recoverable from the classification. */
  function FromOutput(output: Output): (c: Classification<()>)
    ensures |c.tags| == |output.results|
    ensures forall i :: 0 <= i < |c.tags| ==>
      c.tags[i].confidence == output.results[i].0 && c.tags[i].className == output.results[i].1
    ensures TagsToPairs(c.tags) == output.results
  {
    PairsRoundTrip(output.results);
    Classification(PairsToTags(output.results), ())
  }

  function Binding(): (b: Algo<ImageWrapper, Output, ()>)
    ensures b.id == "deeplearning/DeepFaceRecognition/0.1"
    ensures forall uri :: b.makeInput(uri) == MakeInput(uri)
    ensures forall o :: b.fromOutput.requires(o) && b.fromOutput(o) == FromOutput(o)
  {
    Algo(Id, MakeInput, FromOutput)
  }
}

/** Subreddit classifier: the bare URI in, exactly three ranked slots out. */
module Subreddit {
  import opened ClassifierAlgo

  const Id: string := "deeplearning/SubredditClassifier/0.1"

  /** One slot of the response (`className` on the wire). */
  datatype SubredditTag = SubredditTag(className: string, confidence: real)

  datatype Output = Output(first: SubredditTag, second: SubredditTag, third: SubredditTag)

  function MakeInput(uri: string): (input: string)
    ensures input == uri
  {
    uri
  }

  /** The slot of the given rank: 0 is `first`, 1 `second`, 2 `third`. */
  function Slot(output: Output, rank: nat): SubredditTag
    requires rank < 3
  {
    if rank == 0 then output.first else if rank == 1 then output.second else output.third
  }

  /** Exactly three tags, the i-th taken from the slot of rank i. */
  function FromOutput(output: Output): (c: Classification<()>)
    ensures |c.tags| == 3
    ensures forall i :: 0 <= i < 3 ==>
      c.tags[i].className == Slot(output, i).className && c.tags[i].confidence == Slot(output, i).confidence
  {
    Classification([
      Tag(output.first.confidence, output.first.className),
      Tag(output.second.confidence, output.second.className),
      Tag(output.third.confidence, output.third.className)
    ], ())
  }

  /** Three tags back into the three slots. */
  function ToOutput(tags: seq<Tag>): Output
    requires |tags| == 3
  {
    Output(
      SubredditTag(tags[0].className, tags[0].confidence),
      SubredditTag(tags[1].className, tags[1].confidence),
      SubredditTag(tags[2].className, tags[2].confidence))
  }

  /** Nothing of the response is lost or reordered. */
  lemma FromOutputRoundTrip(output: Output)
    ensures ToOutput(FromOutput(output).tags) == output
  {
    assert forall i :: 0 <= i < 3 ==> FromOutput(output).tags[i].className == Slot(output, i).className;
  }

  /** The order of the tags is the rank of the slots, whatever the
      confidences say: two responses with the same classes in the same slots
      give the same class order. */
  lemma RankOrderIgnoresConfidence(o1: Output, o2: Output)
    requires forall i :: 0 <= i < 3 ==> Slot(o1, i).className == Slot(o2, i).className
    ensures forall i :: 0 <= i < 3 ==>
      FromOutput(o1).tags[i].className == FromOutput(o2).tags[i].className
  {
  }

  function Binding(): (b: Algo<string, Output, ()>)
    ensures b.id == "deeplearning/SubredditClassifier/0.1"
    ensures forall uri :: b.makeInput(uri) == MakeInput(uri)
    ensures forall o :: b.fromOutput.requires(o) && b.fromOutput(o) == FromOutput(o)
  {
    Algo(Id, MakeInput, FromOutput)
  }
}

/** Scene classifier: `{"image": uri}` in, `{class, prob}` predictions out. */
module Places365 {
  import opened ClassifierAlgo

  const Id: string := "deeplearning/Places365Classifier/0.1"

  datatype Output = Output(predictions: seq<Prediction>)

  function MakeInput(uri: string): (input: ImageWrapper)
    ensures input.image == uri
  {
    ImageWrapper(uri)
  }

  /** One tag per prediction, in order, with `confidence = prob`. */
  function FromOutput(output: Output): (c: Classification<()>)
    ensures |c.tags| == |output.predictions|
    ensures forall i :: 0 <= i < |c.tags| ==>
      c.tags[i].className == output.predictions[i].className && c.tags[i].confidence == output.predictions[i].prob
    ensures TagsToPredictions(c.tags) == output.predictions
  {
    PredictionsRoundTrip(output.predictions);
    Classification(PredictionsToTags(output.predictions), ())
  }

  function Binding(): (b: Algo<ImageWrapper, Output, ()>)
    ensures b.id == "deeplearning/Places365Classifier/0.1"
    ensures forall uri :: b.makeInput(uri) == MakeInput(uri)
    ensures forall o :: b.fromOutput.requires(o) && b.fromOutput(o) == FromOutput(o)
  {
    Algo(Id, MakeInput, FromOutput)
  }
}

/** Real-estate classifier: the URI plus an optional result count in,
    `{class, prob}` predictions out. */
module RealEstate {
  import opened Wrappers
  import opened ClassifierAlgo

  const Id: string := "deeplearning/RealEstateClassifier/0.2"

  newtype u32 = x: int | 0 <= x < 0x1_0000_0000

  /** The binding's own option: how many predictions to ask for. */
  datatype Config = Config(numResults: Option<u32>)

  datatype Input = Input(image: string, numResults: Option<u32>)

  datatype Output = Output(predictions: seq<Prediction>)

  /** The URI plus the configured count, passed on unchanged. */
  function MakeInput(cfg: Config, uri: string): (input: Input)
    ensures input.image == uri && input.numResults == cfg.numResults
  {
    Input(uri, cfg.numResults)
  }

  /** The keys of the serialised request (camel-cased). The count carries no
      omit-if-absent marker, so its key is sent even when there is no count. */
  function WireKeys(input: Input): (keys: set<string>)
    ensures keys == {"image", "numResults"}
  {
    {"image", "numResults"}
  }

  /** One tag per prediction, in order, with `confidence = prob`. */
  function FromOutput(output: Output): (c: Classification<()>)
    ensures |c.tags| == |output.predictions|
    ensures forall i :: 0 <= i < |c.tags| ==>
      c.tags[i].className == output.predictions[i].className && c.tags[i].confidence == output.predictions[i].prob
    ensures TagsToPredictions(c.tags) == output.predictions
  {
    PredictionsRoundTrip(output.predictions);
    Classification(PredictionsToTags(output.predictions), ())
  }

  function Binding(cfg: Config): (b: Algo<Input, Output, ()>)
    ensures b.id == "deeplearning/RealEstateClassifier/0.2"
    ensures forall uri :: b.makeInput(uri) == MakeInput(cfg, uri)
    ensures forall o :: b.fromOutput.requires(o) && b.fromOutput(o) == FromOutput(o)
  {
    Algo(Id, uri => MakeInput(cfg, uri), FromOutput)
  }
}

/** Illustration tagger: the URI plus an optional whitelist in, four groups
    of single-entry `{label: score}` maps out. */
module Illustration {
  import opened Wrappers
  import opened ClassifierAlgo

  const Id: string := "deeplearning/IllustrationTagger/0.2"

  datatype Config = Config(whitelist: seq<string>)

  datatype Input = Input(image: string, tags: Option<seq<string>>)

  datatype Output = Output(
    character: seq<map<string, real>>,
    copyright: seq<map<string, real>>,
    rating: seq<map<string, real>>,
    general: seq<map<string, real>>)

  datatype Extra = Extra(character: seq<Tag>, copyright: seq<Tag>, rating: seq<Tag>)

  /** An empty whitelist is no filter at all: the field is left absent. */
  function MakeInput(cfg: Config, uri: string): (input: Input)
    ensures input.image == uri
    ensures input.tags.None? <==> |cfg.whitelist| == 0
    ensures input.tags.Some? ==> input.tags.value == cfg.whitelist
  {
    Input(uri, if |cfg.whitelist| == 0 then None else Some(cfg.whitelist))
  }

  /** The filter the request expresses, an absent field meaning none. */
  function WhitelistOf(input: Input): seq<string> {
    match input.tags
    case None => []
    case Some(w) => w
  }

  /** The request expresses exactly the configured whitelist, and never as an
      explicitly empty list. */
  lemma MakeInputKeepsWhitelist(cfg: Config, uri: string)
    ensures WhitelistOf(MakeInput(cfg, uri)) == cfg.whitelist
    ensures MakeInput(cfg, uri).tags != Some([])
  {
  }

  /** The keys of the serialised request: `tags` is omitted when absent. */
  function WireKeys(input: Input): (keys: set<string>)
    ensures "image" in keys
    ensures "tags" in keys <==> input.tags.Some?
    ensures keys <= {"image", "tags"}
  {
    if input.tags.Some? then {"image", "tags"} else {"image"}
  }

  /** A map with one entry has one key. */
  lemma SingleEntryKey(m: map<string, real>, k: string)
    requires |m| == 1 && k in m
    ensures m.Keys == {k}
  {
    var rest := m.Keys - {k};
    assert |rest| == 0;
  }

  /** The label of a single-entry map. */
  function OnlyKey(m: map<string, real>): (k: string)
    requires |m| == 1
    ensures k in m && m == map[k := m[k]]
  {
    assert forall k1, k2 :: k1 in m && k2 in m ==> k1 == k2 by {
      forall k1, k2 | k1 in m && k2 in m ensures k1 == k2 {
        SingleEntryKey(m, k1);
      }
    }
    assert exists k :: k in m by {
      var ks := m.Keys;
      assert |ks| == 1;
      assert ks != {};
    }
    var k :| k in m;
    SingleEntryKey(m, k);
    k
  }

  /** Each map must have exactly one entry (the source unwraps the first). */
  predicate SingleEntries(ms: seq<map<string, real>>) {
    forall i :: 0 <= i < |ms| ==> |ms[i]| == 1
  }

  /** `to_tags`: each single-entry map `{k: v}` becomes `Tag{class: k,
      confidence: v}`, one for one and in order. */
  function ToTags(ms: seq<map<string, real>>): (tags: seq<Tag>)
    requires SingleEntries(ms)
    ensures |tags| == |ms|
    ensures forall i :: 0 <= i < |ms| ==> ms[i] == map[tags[i].className := tags[i].confidence]
  {
    if |ms| == 0 then []
    else
      var k := OnlyKey(ms[0]);
      [Tag(ms[0][k], k)] + ToTags(ms[1..])
  }

  /** Tags back to single-entry maps: the inverse of `ToTags`. */
  function TagsToMaps(tags: seq<Tag>): (ms: seq<map<string, real>>)
    ensures |ms| == |tags|
    ensures SingleEntries(ms)
  {
    if |tags| == 0 then [] else [map[tags[0].className := tags[0].confidence]] + TagsToMaps(tags[1..])
  }

  lemma {:induction false} ToTagsRoundTrip(ms: seq<map<string, real>>)
    requires SingleEntries(ms)
    ensures TagsToMaps(ToTags(ms)) == ms
  {
    if |ms| > 0 {
      ToTagsRoundTrip(ms[1..]);
      assert ToTags(ms)[1..] == ToTags(ms[1..]);
      assert ms == [ms[0]] + ms[1..];
    }
  }

  lemma {:induction false} TagsToMapsRoundTrip(tags: seq<Tag>)
    ensures ToTags(TagsToMaps(tags)) == tags
  {
    if |tags| > 0 {
      TagsToMapsRoundTrip(tags[1..]);
      assert TagsToMaps(tags)[1..] == TagsToMaps(tags[1..]);
      var m := map[tags[0].className := tags[0].confidence];
      assert TagsToMaps(tags)[0] == m;
      assert tags == [tags[0]] + tags[1..];
    }
  }

  /** The single-entry map `{k: v}` is the tag with class `k` and confidence `v`. */
  lemma ToTagsSingleton(k: string, v: real)
    ensures ToTags([map[k := v]]) == [Tag(v, k)]
  {
    var t := ToTags([map[k := v]]);
    assert map[k := v] == map[t[0].className := t[0].confidence];
    assert k in map[t[0].className := t[0].confidence];
  }

  /** Every group holds single-entry maps only. */
  predicate WellFormed(output: Output) {
    SingleEntries(output.character) && SingleEntries(output.copyright) &&
    SingleEntries(output.rating) && SingleEntries(output.general)
  }

  /** `general` gives the tags; `character`, `copyright` and `rating` the extra. */
  function FromOutput(output: Output): (c: Classification<Extra>)
    requires WellFormed(output)
    ensures TagsToMaps(c.tags) == output.general
    ensures TagsToMaps(c.extra.character) == output.character
    ensures TagsToMaps(c.extra.copyright) == output.copyright
    ensures TagsToMaps(c.extra.rating) == output.rating
  {
    ToTagsRoundTrip(output.general);
    ToTagsRoundTrip(output.character);
    ToTagsRoundTrip(output.copyright);
    ToTagsRoundTrip(output.rating);
    Classification(
      ToTags(output.general),
      Extra(ToTags(output.character), ToTags(output.copyright), ToTags(output.rating)))
  }

  /** A classification back into the response it came from. */
  function ToOutput(c: Classification<Extra>): (output: Output)
    ensures WellFormed(output)
  {
    Output(TagsToMaps(c.extra.character), TagsToMaps(c.extra.copyright),
           TagsToMaps(c.extra.rating), TagsToMaps(c.tags))
  }

  /** Mapping a well-formed response loses nothing, and every classification
      is the mapping of some well-formed response. */
  lemma FromOutputRoundTrip(output: Output, c: Classification<Extra>)
    requires WellFormed(output)
    ensures ToOutput(FromOutput(output)) == output
    ensures FromOutput(ToOutput(c)) == c
  {
    TagsToMapsRoundTrip(c.tags);
    TagsToMapsRoundTrip(c.extra.character);
    TagsToMapsRoundTrip(c.extra.copyright);
    TagsToMapsRoundTrip(c.extra.rating);
  }

  function Binding(cfg: Config): (b: Algo<Input, Output, Extra>)
    ensures b.id == "deeplearning/IllustrationTagger/0.2"
    ensures forall uri :: b.makeInput(uri) == MakeInput(cfg, uri)
    ensures forall o :: WellFormed(o) ==> b.fromOutput.requires(o) && b.fromOutput(o) == FromOutput(o)
  {
    Algo(Id, uri => MakeInput(cfg, uri), FromOutput)
  }
}
