/** PhotoAnalysisService: reading the API key from the configuration lines,
    and `analyzePhoto`, which runs the classifier, reports progress through a
    sequence of status messages and returns either a complete result or
    nothing.
 */
module Analysis {
  import opened Wrappers
  import opened Json
  import opened Text
  import opened Tags
  import opened Classifier

  // ---------------------------------------------------------------------------
  // Configuration

  const ApiKeyName: string := "OPENAI_API_KEY"
  const ApiKeyPlaceholder: string := "YOUR_API_KEY_HERE"

  /** A configuration line offers `key`: once trimmed it starts with
      OPENAI_API_KEY and holds exactly one `=`, and the trimmed text after the
      `=` is `key`, which is not the placeholder. */
  ghost predicate OffersKey(line: string, key: string) {
    var t := Trim(line);
    && StartsWith(t, ApiKeyName)
    && (exists name, value :: t == name + "=" + value && '=' !in name && '=' !in value && key == Trim(value))
    && key != ApiKeyPlaceholder
  }

  /** A text with exactly one `=` has exactly two components around it. */
  lemma SplitAtOnlyEquals(t: string, name: string, value: string)
    requires t == name + "=" + value && '=' !in name && '=' !in value
    ensures Split(t, '=') == [name, value]
  {
    SplitConcat(name, '=', value);
    SplitSingleRun(name, '=');
    SplitSingleRun(value, '=');
  }

  /** The key offered by one line, if any: the body of the loop in
      `getOpenAIApiKey`. */
  function KeyFromLine(line: string): Option<string> {
    var t := Trim(line);
    if !StartsWith(t, ApiKeyName) then None
    else
      var parts := Split(t, '=');
      if |parts| != 2 then None
      else
        var key := Trim(parts[1]);
        if key == ApiKeyPlaceholder then None else Some(key)
  }

  /** A line yields a key only when it offers that key. */
  lemma KeyFromLineSound(line: string)
    ensures KeyFromLine(line).Some? ==> OffersKey(line, KeyFromLine(line).value)
  {
    var t := Trim(line);
    if StartsWith(t, ApiKeyName) && |Split(t, '=')| == 2 {
      SplitInTwo(t, '=');
    }
  }

  /** Conversely, a line that offers a key yields exactly that key. */
  lemma KeyFromLineComplete(line: string, key: string)
    requires OffersKey(line, key)
    ensures KeyFromLine(line) == Some(key)
  {
    var t := Trim(line);
    var name, value :| t == name + "=" + value && '=' !in name && '=' !in value && key == Trim(value);
    SplitAtOnlyEquals(t, name, value);
  }

  /** The first offer made by any of `lines`, scanning in order. */
  function FirstOffer(lines: seq<string>, offer: string -> Option<string>): (r: Option<string>)
    ensures r.Some? ==>
      exists i :: 0 <= i < |lines| && offer(lines[i]) == r
                  && forall j :: 0 <= j < i ==> offer(lines[j]).None?
    ensures r.None? <==> forall i :: 0 <= i < |lines| ==> offer(lines[i]).None?
  {
    if |lines| == 0 then None
    else match offer(lines[0])
      case Some(key) => Some(key)
      case None =>
        assert forall i :: 1 <= i < |lines| ==> lines[i] == lines[1..][i - 1];
        FirstOffer(lines[1..], offer)
  }

  /** `getOpenAIApiKey` over the lines of the configuration file: the key of
      the first line that offers one, skipping the lines that do not; `None`
      where the source stops the process with `fatalError`. */
  function ApiKey(lines: seq<string>): (r: Option<string>)
    ensures r.Some? ==>
      exists i :: 0 <= i < |lines| && KeyFromLine(lines[i]) == r
                  && forall j :: 0 <= j < i ==> KeyFromLine(lines[j]).None?
    ensures r.None? <==> forall i :: 0 <= i < |lines| ==> KeyFromLine(lines[i]).None?
  {
    FirstOffer(lines, KeyFromLine)
  }

  /** Trimming leaves a name that starts without whitespace, followed by `=`,
      unchanged. */
  lemma EqualsLineUntrimmed(name: string)
    requires |name| > 0 && !IsWhitespace(name[0])
    ensures Trim(name + "=") == name + "="
  {
    var line := name + "=";
    assert line[0] == name[0] && line[|line| - 1] == '=';
    TrimUnchanged(line);
  }

  /** A name without `=`, followed by `=`, splits into the name and the empty
      value. */
  lemma EqualsLineSplits(name: string)
    requires '=' !in name
    ensures Split(name + "=", '=') == [name, ""]
  {
    var value: string := [];
    assert name + "=" == name + "=" + value;
    SplitAtOnlyEquals(name + "=", name, value);
  }

  /** The key of a line that trimming leaves unchanged and that splits into
      two parts at `=`. */
  lemma KeyFromUntrimmedLine(line: string, name: string, value: string)
    requires Trim(line) == line && StartsWith(line, ApiKeyName)
    requires Split(line, '=') == [name, value] && Trim(value) != ApiKeyPlaceholder
    ensures KeyFromLine(line) == Some(Trim(value))
  {
  }

  /** The configuration line `OPENAI_API_KEY =` yields the empty key: the
      source does not reject an empty value. */
  lemma EmptyKeyAccepted()
    ensures ApiKey([ApiKeyName + " ="]) == Some("")
  {
    var name := ApiKeyName + " ";
    var line := ApiKeyName + " =";
    assert line == name + "=";
    assert '=' !in name by {
      assert forall i :: 0 <= i < |name| ==> name[i] != '=';
    }
    EqualsLineUntrimmed(name);
    EqualsLineSplits(name);
    StartsWithConcat(ApiKeyName, " =");
    TrimEmpty();
    KeyFromUntrimmedLine(line, name, "");
  }

  // ---------------------------------------------------------------------------
  // Result shaping

  /** `PhotoAnalysisService.CategoryResult`; the `Float` narrowing of the
      source is the identity here. */
  datatype CategoryResult = CategoryResult(category: string, confidence: real, matchedTags: seq<WeightedTag>)

  /** `PhotoAnalysisService.AnalysisResult` */
  datatype AnalysisResult = AnalysisResult(topCategories: seq<CategoryResult>, allTags: seq<WeightedTag>)

  /** How many categories are reported: `.prefix(2)`. */
  const TopCategoryCount: nat := 2

  function ToCategoryResult(p: CategoryPrediction): CategoryResult {
    CategoryResult(p.category, p.confidence, p.contributingTags)
  }

  /** The result assembled from the classifier's predictions and a second
      read of the raw predictions. */
  function Shape(predictions: seq<CategoryPrediction>, raw: map<string, real>, order: seq<string>): AnalysisResult
    requires IsEnumeration(order, raw)
  {
    var n := if |predictions| < TopCategoryCount then |predictions| else TopCategoryCount;
    AnalysisResult(
      seq(n, i requires 0 <= i < n => ToCategoryResult(predictions[i])),
      TopTags(raw, order))
  }

  /** What `analyzePhoto` promises of a result built from the classifier's
      `predictions` and the raw tag map `raw`: the first min(2, n)
      predictions in the order the classifier returned them, each copied
      field by field, and the top min(10, |raw|) raw tags, most confident
      first, each an entry of `raw`, none repeated, and no unreported tag
      more confident than the last reported one. */
  predicate ShapedFrom(r: AnalysisResult, predictions: seq<CategoryPrediction>, raw: map<string, real>) {
    && |r.topCategories| == (if |predictions| < TopCategoryCount then |predictions| else TopCategoryCount)
    && (forall i :: 0 <= i < |r.topCategories| ==>
          && r.topCategories[i].category == predictions[i].category
          && r.topCategories[i].confidence == predictions[i].confidence
          && r.topCategories[i].matchedTags == predictions[i].contributingTags)
    && |r.allTags| == (if |raw| < TopTagCount then |raw| else TopTagCount)
    && SortedByConfidence(r.allTags)
    && UniqueTags(r.allTags)
    && (forall i :: 0 <= i < |r.allTags| ==> r.allTags[i].tag in raw && raw[r.allTags[i].tag] == r.allTags[i].confidence)
    && (forall k :: k in raw ==>
          (exists i :: 0 <= i < |r.allTags| && r.allTags[i].tag == k)
          || (|r.allTags| == TopTagCount && raw[k] <= r.allTags[|r.allTags| - 1].confidence))
  }

  /** Shaping keeps the promise of `ShapedFrom` for any enumeration order. */
  lemma ShapeSpec(predictions: seq<CategoryPrediction>, raw: map<string, real>, order: seq<string>)
    requires IsEnumeration(order, raw)
    ensures ShapedFrom(Shape(predictions, raw, order), predictions, raw)
  {
    TopTagsSpec(raw, order);
  }

  // ---------------------------------------------------------------------------
  // analyzePhoto

  const FailedToProcess: string := "Failed to process image"
  const Starting: string := "Starting image analysis..."
  const LoadingModel: string := "Loading model..."
  const Analyzing: string := "Analyzing image..."
  const Complete: string := "Analysis complete!"
  const ErrorPrefix: string := "Error during analysis: "

  /** The progress messages of a successful run, in order. */
  const SuccessProgress: seq<string> := [Starting, LoadingModel, Analyzing, Complete]

  /** Everything `analyzePhoto` depends on besides its own logic. */
  datatype Environment = Environment(
    hasCgImage: bool,                                   // `image.cgImage != nil`
    config: seq<string>,                                // the lines of Config.xcconfig
    modelLoad: Option<Error>,                           // the error the classifier's initialiser throws, if any
    firstInference: Result<seq<Observation>, Error>,    // the Vision pass inside `predict`
    secondInference: Result<seq<Observation>, Error>,   // the Vision pass of the second `getRawPredictions`
    iterate: Iteration,                                 // dictionary iteration order
    format: Formatter,                                  // `String(format: "%.2f", _)`
    send: Transport,                                    // the chat-completions round trip
    parse: Parser,                                      // `JSONSerialization.jsonObject`
    describe: Error -> string)                          // `localizedDescription`

  /** What a run produced: the progress messages in order and the optional
      result, or the progress made before `fatalError` stopped the process. */
  datatype Analysis =
    | Finished(progress: seq<string>, result: Option<AnalysisResult>)
    | Aborted(progress: seq<string>)

  /** The control flow of `analyzePhoto` over one abstract outcome per stage:
      the image check, the key lookup, the model load, `predict` (given the
      key) and the second raw read. Without a `cgImage` the only message is
      the processing failure; a missing key stops the process after the
      loading message; a complete result comes with exactly the four success
      messages; a failing model load ends after the first two success
      messages, and a failing `predict` or raw read after the first three, in
      the description of that stage's error and no result. */
  function Orchestrate(hasCgImage: bool, key: Option<string>, modelLoad: Option<Error>,
                       predict: string -> Result<seq<CategoryPrediction>, Error>,
                       raw: Result<map<string, real>, Error>,
                       iterate: Iteration, describe: Error -> string): (a: Analysis)
    requires EnumeratesKeys(iterate)
    ensures !hasCgImage ==> a == Finished([FailedToProcess], None)
    ensures a.Aborted? <==> hasCgImage && key.None?
    ensures a.Aborted? ==> a.progress == SuccessProgress[..2]
    ensures a.Finished? && a.result.Some? <==>
      hasCgImage && key.Some? && modelLoad.None? && predict(key.value).Success? && raw.Success?
    ensures a.Finished? && a.result.Some? ==>
      && a.progress == SuccessProgress
      && a.result.value == Shape(predict(key.value).value, raw.value, iterate(raw.value))
    ensures hasCgImage && key.Some? && modelLoad.Some? ==>
      a == Finished(SuccessProgress[..2] + [ErrorPrefix + describe(modelLoad.value)], None)
    ensures hasCgImage && key.Some? && modelLoad.None? && predict(key.value).Failure? ==>
      a == Finished(SuccessProgress[..3] + [ErrorPrefix + describe(predict(key.value).error)], None)
    ensures hasCgImage && key.Some? && modelLoad.None? && predict(key.value).Success? && raw.Failure? ==>
      a == Finished(SuccessProgress[..3] + [ErrorPrefix + describe(raw.error)], None)
  {
    if !hasCgImage then Finished([FailedToProcess], None)
    else
      var loading := [Starting, LoadingModel];
      assert loading == SuccessProgress[..2];
      match key
      case None => Aborted(loading)
      case Some(k) =>
        if modelLoad.Some? then Finished(loading + [ErrorPrefix + describe(modelLoad.value)], None)
        else
          var analyzing := loading + [Analyzing];
          assert analyzing == SuccessProgress[..3];
          match predict(k)
          case Failure(e) => Finished(analyzing + [ErrorPrefix + describe(e)], None)
          case Success(predictions) =>
            match raw
            case Failure(e) => Finished(analyzing + [ErrorPrefix + describe(e)], None)
            case Success(m) =>
              Finished(analyzing + [Complete], Some(Shape(predictions, m, iterate(m))))
  }

  /** `analyzePhoto(_:progress:)`: the stages of `Orchestrate` instantiated
      with the key parser, `predict` and `getRawPredictions`. The image
      already has a `cgImage` when `predict` and `getRawPredictions` run. */
  function Analyze(env: Environment): Analysis
    requires EnumeratesKeys(env.iterate)
  {
    Orchestrate(env.hasCgImage, ApiKey(env.config), env.modelLoad,
                key => Predict(key, true, env.firstInference, env.iterate, env.format, env.send, env.parse),
                RawPredictions(true, env.secondInference),
                env.iterate, env.describe)
  }

  /** Every stage of the run succeeds: the image has a `cgImage`, a key is
      configured, the model loads, `predict` returns and the second read of
      the raw predictions returns. */
  predicate AllStagesSucceed(env: Environment)
    requires EnumeratesKeys(env.iterate)
  {
    && env.hasCgImage
    && ApiKey(env.config).Some?
    && env.modelLoad.None?
    && Predict(ApiKey(env.config).value, true, env.firstInference, env.iterate, env.format, env.send, env.parse).Success?
    && env.secondInference.Success?
  }

  /** All or nothing: a result is returned exactly when every stage
      succeeds. */
  lemma AnalyzeAllOrNothing(env: Environment)
    requires EnumeratesKeys(env.iterate)
    ensures var a := Analyze(env);
      (a.Finished? && a.result.Some?) <==> AllStagesSucceed(env)
  {
  }

  /** When every stage succeeds, the result holds at most two categories,
      copied in the classifier's order, and at most ten tags, taken from the
      second raw read and most confident first. */
  lemma AnalyzeResult(env: Environment)
    requires EnumeratesKeys(env.iterate) && AllStagesSucceed(env)
    ensures var a := Analyze(env);
      && a.Finished? && a.result.Some?
      && var raw := Threshold(env.secondInference.value);
        && ShapedFrom(a.result.value,
                      Predict(ApiKey(env.config).value, true, env.firstInference, env.iterate, env.format, env.send, env.parse).value,
                      raw)
        && (forall i :: 0 <= i < |a.result.value.allTags| ==> a.result.value.allTags[i].confidence >= ConfidenceThreshold)
  {
    var predictions := Predict(ApiKey(env.config).value, true, env.firstInference, env.iterate, env.format, env.send, env.parse).value;
    var raw := Threshold(env.secondInference.value);
    assert Analyze(env) == Finished(SuccessProgress, Some(Shape(predictions, raw, env.iterate(raw))));
    ShapeSpec(predictions, raw, env.iterate(raw));
  }
}
