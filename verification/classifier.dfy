/** The language-model half of PlaceClassificationService: the prompt built
    from the selected tags, the chat-completions request body, and the
    two-layer decoding of the reply into category predictions. `Predict`
    strings them together behind the Vision filter of module Tags.
 */
module Classifier {
  import opened Wrappers
  import opened Json
  import opened Text
  import opened Tags

  /** `PlaceClassificationService.CategoryPrediction` */
  datatype CategoryPrediction = CategoryPrediction(category: string, confidence: real, contributingTags: seq<WeightedTag>)

  /** Everything that `predict` and its collaborators can throw. */
  datatype Error =
    | ModelNotFound            // the compiled model is not in the bundle
    | ModelLoadFailed          // `MLModel(contentsOf:)` throws
    | NoCGImage                // the image has no `cgImage`
    | VisionFailed             // `VNCoreMLModel` or the Vision request throws
    | NoClassificationResults  // the Vision results are not classification observations
    | TransportFailed          // `URLSession.data(for:)` throws
    | NotJson                  // `JSONSerialization.jsonObject` throws, at either layer
    | UnparsableResponse       // envelope or payload has the wrong shape
    | InvalidCategory          // a category entry has a missing or mistyped field
    | InvalidTag               // a tag entry has a missing or mistyped field

  /** The `code` of the `NSError` thrown in the "PlaceClassificationService"
      domain; `None` for errors thrown by the frameworks themselves. */
  function ErrorCode(e: Error): Option<nat> {
    match e
    case ModelNotFound => Some(1)
    case NoCGImage => Some(2)
    case NoClassificationResults => Some(3)
    case UnparsableResponse => Some(4)
    case InvalidCategory => Some(5)
    case InvalidTag => Some(6)
    case _ => None
  }

  // ---------------------------------------------------------------------------
  // Prompt and request

  /** The prompt text before the line break that precedes the tag lines. */
  const PromptIntro: string :=
    "Given these image tags and their confidence scores, classify the image into one of these categories: restaurant, sightseeing, shopping, hotel, or park.\n"
    + "For each category, provide a confidence score (0-1) and explain which tags contributed to that classification.\n"
    + "\n"
    + "Tags:"

  /** The prompt text after the line break that follows the tag lines. */
  const PromptOutro: string :=
    "\nPlease respond in JSON format with this structure:\n"
    + "{\n"
    + "    \"categories\": [\n"
    + "        {\n"
    + "            \"category\": \"category_name\",\n"
    + "            \"confidence\": 0.0,\n"
    + "            \"contributing_tags\": [\n"
    + "                {\n"
    + "                    \"tag\": \"tag_name\",\n"
    + "                    \"confidence\": 0.0\n"
    + "                }\n"
    + "            ]\n"
    + "        }\n"
    + "    ]\n"
    + "}"

  /** A rendering of a confidence, `String(format: "%.2f", _)`. */
  type Formatter = real -> string

  /** `"- \(tag) (confidence: \(formatted))"` */
  function TagLine(t: WeightedTag, format: Formatter): string {
    "- " + t.tag + " (confidence: " + format(t.confidence) + ")"
  }

  function TagLines(tags: seq<WeightedTag>, format: Formatter): (lines: seq<string>)
    ensures |lines| == |tags|
    ensures forall i :: 0 <= i < |tags| ==> lines[i] == TagLine(tags[i], format)
  {
    seq(|tags|, i requires 0 <= i < |tags| => TagLine(tags[i], format))
  }

  /** The interpolated tag section: the tag lines joined by newlines. */
  function TagSection(tags: seq<WeightedTag>, format: Formatter): string {
    Join(TagLines(tags, format), '\n')
  }

  function Prompt(tags: seq<WeightedTag>, format: Formatter): string {
    PromptIntro + "\n" + TagSection(tags, format) + "\n" + PromptOutro
  }

  /** Neither a tag nor its rendered confidence contains a line break. */
  predicate SingleLineTags(tags: seq<WeightedTag>, format: Formatter) {
    forall i :: 0 <= i < |tags| ==> '\n' !in tags[i].tag && '\n' !in format(tags[i].confidence)
  }

  /** The lines of the prompt are the lines of its fixed introduction, then
      exactly one line per selected tag in selection order, then the lines of
      its fixed closing part. */
  lemma {:induction false} PromptLines(tags: seq<WeightedTag>, format: Formatter)
    requires |tags| > 0
    requires SingleLineTags(tags, format)
    ensures Split(Prompt(tags, format), '\n') == Split(PromptIntro, '\n') + TagLines(tags, format) + Split(PromptOutro, '\n')
  {
    var lines := TagLines(tags, format);
    forall i | 0 <= i < |lines|
      ensures '\n' !in lines[i]
    {
      assert lines[i] == "- " + tags[i].tag + " (confidence: " + format(tags[i].confidence) + ")";
    }
    SplitAround(PromptIntro, lines, PromptOutro, '\n');
  }

  /** With no tags the interpolated section is empty, so the prompt holds
      one blank line between its introduction and its closing part. */
  lemma PromptLinesEmpty(format: Formatter)
    ensures Split(Prompt([], format), '\n') == Split(PromptIntro, '\n') + [""] + Split(PromptOutro, '\n')
  {
    assert TagSection([], format) == Join([""], '\n');
    SplitAround(PromptIntro, [""], PromptOutro, '\n');
  }

  const ModelName: string := "gpt-3.5-turbo"
  const SystemInstruction: string := "You are a helpful assistant that classifies images based on their tags."
  const Temperature: real := 3.0 / 10.0

  /** One element of the request's `messages` array. */
  datatype ChatMessage = ChatMessage(role: string, content: string)

  function MessageJson(m: ChatMessage): Json {
    Obj(map["role" := Str(m.role), "content" := Str(m.content)])
  }

  /** The `requestBody` dictionary sent to the chat-completions endpoint. */
  function RequestBody(prompt: string): (body: Json)
    ensures body.Obj? && body.fields.Keys == {"model", "messages", "temperature"}
    ensures RequestModel(body) == Some(ModelName)
    ensures RequestMessages(body) == Some([ChatMessage("system", SystemInstruction), ChatMessage("user", prompt)])
    ensures RequestTemperature(body) == Some(Temperature)
  {
    var messages := [ChatMessage("system", SystemInstruction), ChatMessage("user", prompt)];
    ReadMessagesRoundTrip(messages);
    Obj(map[
      "model" := Str(ModelName),
      "messages" := Arr(MessagesJson(messages)),
      "temperature" := Num(Temperature)])
  }

  function MessagesJson(ms: seq<ChatMessage>): seq<Json> {
    seq(|ms|, i requires 0 <= i < |ms| => MessageJson(ms[i]))
  }

  // Readers of a request body, independent of how `RequestBody` builds one.

  function RequestModel(body: Json): Option<string> {
    if body.Obj? then StringField(body.fields, "model") else None
  }

  function RequestTemperature(body: Json): Option<real> {
    if body.Obj? then NumberField(body.fields, "temperature") else None
  }

  function ReadMessage(m: Json): Option<ChatMessage> {
    if m.Obj? && StringField(m.fields, "role").Some? && StringField(m.fields, "content").Some? then
      Some(ChatMessage(m.fields["role"].s, m.fields["content"].s))
    else
      None
  }

  function ReadMessages(items: seq<Json>): Option<seq<ChatMessage>> {
    if |items| == 0 then Some([])
    else
      var m :- ReadMessage(items[0]);
      var rest :- ReadMessages(items[1..]);
      Some([m] + rest)
  }

  /** Messages written as JSON read back as the same messages. */
  lemma {:induction false} ReadMessagesRoundTrip(ms: seq<ChatMessage>)
    ensures ReadMessages(MessagesJson(ms)) == Some(ms)
  {
    if |ms| > 0 {
      ReadMessagesRoundTrip(ms[1..]);
      assert MessagesJson(ms)[1..] == MessagesJson(ms[1..]);
      assert ms == [ms[0]] + ms[1..];
    }
  }

  function RequestMessages(body: Json): Option<seq<ChatMessage>> {
    if body.Obj? && "messages" in body.fields && body.fields["messages"].Arr? then
      ReadMessages(body.fields["messages"].items)
    else
      None
  }

  // ---------------------------------------------------------------------------
  // Reply decoding

  /** First layer: the chat-completions envelope. The reply must be a
      dictionary whose `choices` is an array of dictionaries, the first of
      which has a `message` dictionary holding a string `content`. */
  function UnwrapEnvelope(reply: Json): (r: Result<string, Error>)
    ensures r.Failure? ==> r.error == UnparsableResponse && ErrorCode(r.error) == Some(4)
    ensures r.Success? ==>
      && reply.Obj? && "choices" in reply.fields
      && AsObjectArray(reply.fields["choices"]).Some?
      && var choices := reply.fields["choices"].items;
      && |choices| > 0
      && "message" in choices[0].fields && choices[0].fields["message"].Obj?
      && var message := choices[0].fields["message"].fields;
      && "content" in message && message["content"] == Str(r.value)
  {
    if !reply.Obj? then Failure(UnparsableResponse)
    else match ObjectArrayField(reply.fields, "choices")
      case None => Failure(UnparsableResponse)
      case Some(choices) =>
        if |choices| == 0 then Failure(UnparsableResponse)
        else match ObjectField(choices[0], "message")
          case None => Failure(UnparsableResponse)
          case Some(message) =>
            match StringField(message, "content")
            case None => Failure(UnparsableResponse)
            case Some(content) => Success(content)
  }

  /** A well-formed envelope carrying `content` in its first choice; the other
      fields and choices are arbitrary. */
  function Envelope(content: string, extra: map<string, Json>, choice: map<string, Json>,
                    message: map<string, Json>, others: seq<Json>): Json
  {
    Obj(extra["choices" := Arr([Obj(choice["message" := Obj(message["content" := Str(content)])])] + others)])
  }

  /** The envelope's content is recovered, whatever else the reply holds,
      provided the remaining choices are dictionaries too. */
  lemma UnwrapEnvelopeRoundTrip(content: string, extra: map<string, Json>, choice: map<string, Json>,
                                message: map<string, Json>, others: seq<Json>)
    requires AllObjects(others)
    ensures UnwrapEnvelope(Envelope(content, extra, choice, message, others)) == Success(content)
  {
    var choices := [Obj(choice["message" := Obj(message["content" := Str(content)])])] + others;
    assert AllObjects(choices) by {
      forall i | 0 <= i < |choices|
        ensures choices[i].Obj?
      {
        if i > 0 { assert choices[i] == others[i - 1]; }
      }
    }
  }

  /** A choice after the first that is not a dictionary fails the cast to
      `[[String: Any]]` and with it the whole reply. */
  lemma NonObjectChoiceRejected(reply: Json, i: nat)
    requires reply.Obj? && "choices" in reply.fields && reply.fields["choices"].Arr?
    requires i < |reply.fields["choices"].items| && !reply.fields["choices"].items[i].Obj?
    ensures UnwrapEnvelope(reply) == Failure(UnparsableResponse)
  {
  }

  /** Second layer: the content string must itself parse as a dictionary whose
      `categories` is an array of dictionaries. */
  function DecodePayload(content: string, parse: Parser): (r: Result<seq<map<string, Json>>, Error>)
    ensures parse(content).None? ==> r == Failure(NotJson)
    ensures r.Failure? && parse(content).Some? ==> r.error == UnparsableResponse && ErrorCode(r.error) == Some(4)
    ensures r.Success? ==>
      && parse(content).Some? && parse(content).value.Obj?
      && var fields := parse(content).value.fields;
      && "categories" in fields && fields["categories"].Arr?
      && |r.value| == |fields["categories"].items|
      && forall i :: 0 <= i < |r.value| ==> fields["categories"].items[i] == Obj(r.value[i])
    ensures parse(content).Some? && parse(content).value.Obj?
            && ObjectArrayField(parse(content).value.fields, "categories").Some? ==>
      r == Success(ObjectArrayField(parse(content).value.fields, "categories").value)
  {
    match parse(content)
    case None => Failure(NotJson)
    case Some(payload) =>
      if !payload.Obj? then Failure(UnparsableResponse)
      else match ObjectArrayField(payload.fields, "categories")
        case None => Failure(UnparsableResponse)
        case Some(entries) => Success(entries)
  }

  /** A tag entry has a string `tag` and a numeric `confidence`. */
  predicate ValidTag(entry: map<string, Json>) {
    && "tag" in entry && entry["tag"].Str?
    && "confidence" in entry && entry["confidence"].Num?
  }

  /** `t` holds exactly the fields of `entry`. */
  predicate TagFrom(entry: map<string, Json>, t: WeightedTag) {
    && "tag" in entry && entry["tag"] == Str(t.tag)
    && "confidence" in entry && entry["confidence"] == Num(t.confidence)
  }

  function DecodeTag(entry: map<string, Json>): (r: Result<WeightedTag, Error>)
    ensures r.Success? <==> ValidTag(entry)
    ensures r.Success? ==> TagFrom(entry, r.value)
    ensures r.Failure? ==> r.error == InvalidTag && ErrorCode(r.error) == Some(6)
  {
    match (StringField(entry, "tag"), NumberField(entry, "confidence"))
    case (Some(tag), Some(confidence)) => Success(WeightedTag(tag, confidence))
    case _ => Failure(InvalidTag)
  }

  /** `contributingTags.map { ... }`: the entries in order, the first bad one
      failing the whole list. */
  function DecodeTags(entries: seq<map<string, Json>>): (r: Result<seq<WeightedTag>, Error>)
    ensures r.Success? <==> forall i :: 0 <= i < |entries| ==> ValidTag(entries[i])
    ensures r.Success? ==> |r.value| == |entries| && forall i :: 0 <= i < |entries| ==> TagFrom(entries[i], r.value[i])
    ensures r.Failure? ==> r.error == InvalidTag && ErrorCode(r.error) == Some(6)
  {
    if |entries| == 0 then Success([])
    else
      var t :- DecodeTag(entries[0]);
      var rest :- DecodeTags(entries[1..]);
      assert forall i :: 1 <= i < |entries| ==> entries[i] == entries[1..][i - 1];
      Success([t] + rest)
  }

  /** A category entry has a string `category`, a numeric `confidence` and a
      `contributing_tags` array of dictionaries. */
  predicate HasCategoryFields(entry: map<string, Json>) {
    && "category" in entry && entry["category"].Str?
    && "confidence" in entry && entry["confidence"].Num?
    && "contributing_tags" in entry && AsObjectArray(entry["contributing_tags"]).Some?
  }

  /** A category entry is accepted: its own fields and all its tag entries. */
  predicate ValidCategory(entry: map<string, Json>) {
    && HasCategoryFields(entry)
    && var tags := AsObjectArray(entry["contributing_tags"]).value;
    && forall j :: 0 <= j < |tags| ==> ValidTag(tags[j])
  }

  /** The error a rejected category entry produces: its own fields are checked
      before its tags. */
  function EntryError(entry: map<string, Json>): Error {
    if HasCategoryFields(entry) then InvalidTag else InvalidCategory
  }

  /** `p` holds exactly the fields of `entry`, tags in entry order. */
  predicate PredictionFrom(entry: map<string, Json>, p: CategoryPrediction) {
    && "category" in entry && entry["category"] == Str(p.category)
    && "confidence" in entry && entry["confidence"] == Num(p.confidence)
    && "contributing_tags" in entry
    && var tags := AsObjectArray(entry["contributing_tags"]);
    && tags.Some? && |tags.value| == |p.contributingTags|
    && forall j :: 0 <= j < |p.contributingTags| ==> TagFrom(tags.value[j], p.contributingTags[j])
  }

  function DecodeCategory(entry: map<string, Json>): (r: Result<CategoryPrediction, Error>)
    ensures r.Success? <==> ValidCategory(entry)
    ensures r.Success? ==> PredictionFrom(entry, r.value)
    ensures r.Failure? ==> r.error == EntryError(entry)
  {
    match (StringField(entry, "category"), NumberField(entry, "confidence"), ObjectArrayField(entry, "contributing_tags"))
    case (Some(category), Some(confidence), Some(tagEntries)) =>
      var tags :- DecodeTags(tagEntries);
      Success(CategoryPrediction(category, confidence, tags))
    case _ => Failure(InvalidCategory)
  }

  /** `categories.map { ... }`: one prediction per entry in response order, or
      the error of the first rejected entry; never a partial list. */
  function DecodeCategories(entries: seq<map<string, Json>>): (r: Result<seq<CategoryPrediction>, Error>)
    ensures r.Success? <==> forall i :: 0 <= i < |entries| ==> ValidCategory(entries[i])
    ensures r.Success? ==> |r.value| == |entries| && forall i :: 0 <= i < |entries| ==> PredictionFrom(entries[i], r.value[i])
    ensures r.Failure? ==>
      exists i :: 0 <= i < |entries| && !ValidCategory(entries[i]) && r.error == EntryError(entries[i])
                  && forall j :: 0 <= j < i ==> ValidCategory(entries[j])
  {
    if |entries| == 0 then Success([])
    else
      var p :- DecodeCategory(entries[0]);
      assert forall i :: 1 <= i < |entries| ==> entries[i] == entries[1..][i - 1];
      var rest := DecodeCategories(entries[1..]);
      if rest.Failure? then
        var k :| 0 <= k < |entries[1..]| && !ValidCategory(entries[1..][k]) && rest.error == EntryError(entries[1..][k])
                 && forall j :: 0 <= j < k ==> ValidCategory(entries[1..][j]);
        assert forall j :: 0 <= j < k + 1 ==> ValidCategory(entries[j]);
        Failure(rest.error)
      else
        Success([p] + rest.value)
  }

  /** The whole reply: parse the body, unwrap the envelope, parse its content,
      then decode every category entry. */
  function DecodeResponse(body: string, parse: Parser): (r: Result<seq<CategoryPrediction>, Error>)
    ensures parse(body).None? ==> r == Failure(NotJson)
    ensures r.Failure? ==> r.error in {NotJson, UnparsableResponse, InvalidCategory, InvalidTag}
  {
    match parse(body)
    case None => Failure(NotJson)
    case Some(reply) =>
      var content :- UnwrapEnvelope(reply);
      var entries :- DecodePayload(content, parse);
      DecodeCategories(entries)
  }

  // Encoders: the reply shape the prompt asks for.

  function EncodeTag(t: WeightedTag): map<string, Json> {
    map["tag" := Str(t.tag), "confidence" := Num(t.confidence)]
  }

  function EncodeCategory(p: CategoryPrediction): map<string, Json> {
    map[
      "category" := Str(p.category),
      "confidence" := Num(p.confidence),
      "contributing_tags" := Arr(seq(|p.contributingTags|, j requires 0 <= j < |p.contributingTags| => Obj(EncodeTag(p.contributingTags[j]))))]
  }

  function EncodePayload(ps: seq<CategoryPrediction>): Json {
    Obj(map["categories" := Arr(seq(|ps|, i requires 0 <= i < |ps| => Obj(EncodeCategory(ps[i]))))])
  }

  /** A category encoded in the requested shape is accepted, and the only
      prediction it holds is the one encoded. */
  lemma EncodedCategory(p: CategoryPrediction, q: CategoryPrediction)
    ensures ValidCategory(EncodeCategory(p))
    ensures PredictionFrom(EncodeCategory(p), q) ==> q == p
  {
    var entry := EncodeCategory(p);
    var tagEntries := AsObjectArray(entry["contributing_tags"]).value;
    assert forall j :: 0 <= j < |tagEntries| ==> tagEntries[j] == EncodeTag(p.contributingTags[j]);
    if PredictionFrom(entry, q) {
      assert q.contributingTags == p.contributingTags;
    }
  }

  /** A category encoded in the requested shape decodes to itself. */
  lemma DecodeCategoryRoundTrip(p: CategoryPrediction)
    ensures DecodeCategory(EncodeCategory(p)) == Success(p)
  {
    EncodedCategory(p, DecodeCategory(EncodeCategory(p)).value);
  }

  /** Any list of predictions, whatever their category names and confidences,
      survives encoding and decoding unchanged: category names are not checked
      against the target categories and nothing is re-ranked. */
  lemma DecodeCategoriesRoundTrip(ps: seq<CategoryPrediction>)
    ensures DecodeCategories(seq(|ps|, i requires 0 <= i < |ps| => EncodeCategory(ps[i]))) == Success(ps)
  {
    var entries := seq(|ps|, i requires 0 <= i < |ps| => EncodeCategory(ps[i]));
    forall i | 0 <= i < |ps|
      ensures ValidCategory(entries[i])
    {
      EncodedCategory(ps[i], ps[i]);
    }
    var r := DecodeCategories(entries);
    assert r.Success? && |r.value| == |ps|;
    forall i | 0 <= i < |ps|
      ensures r.value[i] == ps[i]
    {
      assert PredictionFrom(entries[i], r.value[i]);
      EncodedCategory(ps[i], r.value[i]);
    }
    assert r.value == ps;
  }

  /** End to end: a body holding an envelope whose content parses to the
      encoded predictions decodes to exactly those predictions. */
  lemma DecodeResponseRoundTrip(body: string, content: string, ps: seq<CategoryPrediction>, parse: Parser,
                                extra: map<string, Json>, choice: map<string, Json>,
                                message: map<string, Json>, others: seq<Json>)
    requires AllObjects(others)
    requires parse(body) == Some(Envelope(content, extra, choice, message, others))
    requires parse(content) == Some(EncodePayload(ps))
    ensures DecodeResponse(body, parse) == Success(ps)
  {
    UnwrapEnvelopeRoundTrip(content, extra, choice, message, others);
    var entries := seq(|ps|, i requires 0 <= i < |ps| => EncodeCategory(ps[i]));
    var items := EncodePayload(ps).fields["categories"].items;
    assert AllObjects(items);
    assert AsObjectArray(Arr(items)).value == entries;
    assert DecodePayload(content, parse) == Success(entries);
    DecodeCategoriesRoundTrip(ps);
  }

  // ---------------------------------------------------------------------------
  // The pipeline of `getRawPredictions` and `predict`

  /** `getRawPredictions`: the image must have a `cgImage`; the Vision pass
      (an input) then yields observations or throws. */
  function RawPredictions(hasCgImage: bool, inference: Result<seq<Observation>, Error>): (r: Result<map<string, real>, Error>)
    ensures !hasCgImage ==> r == Failure(NoCGImage) && ErrorCode(r.error) == Some(2)
    ensures hasCgImage && inference.Failure? ==> r == Failure(inference.error)
    ensures r.Success? ==> forall k :: k in r.value ==> r.value[k] >= ConfidenceThreshold
    ensures r.Success? ==> forall i :: 0 <= i < |inference.value| && Passes(inference.value[i]) ==> inference.value[i].identifier in r.value
    ensures hasCgImage && inference.Success? ==> r == Success(Threshold(inference.value))
  {
    if !hasCgImage then Failure(NoCGImage)
    else
      var observations :- inference;
      Success(Threshold(observations))
  }

  /** The dictionary iteration order: for every dictionary, an enumeration of
      its keys. */
  type Iteration = map<string, real> -> seq<string>

  ghost predicate EnumeratesKeys(iterate: Iteration) {
    forall m :: IsEnumeration(iterate(m), m)
  }

  /** A chat-completions round trip, given the bearer token and the request
      body: the reply body as text, or `None` when the transport throws. The
      HTTP status is not looked at. */
  type Transport = (string, Json) -> Option<string>

  /** The request `predict` sends for the given raw predictions. */
  function PredictRequest(raw: map<string, real>, iterate: Iteration, format: Formatter): Json
    requires EnumeratesKeys(iterate)
  {
    RequestBody(Prompt(TopTags(raw, iterate(raw)), format))
  }

  /** `predict(image:)` for a classifier built with `apiKey`. */
  function Predict(apiKey: string, hasCgImage: bool, inference: Result<seq<Observation>, Error>, iterate: Iteration,
                   format: Formatter, send: Transport, parse: Parser): (r: Result<seq<CategoryPrediction>, Error>)
    requires EnumeratesKeys(iterate)
    ensures !hasCgImage ==> r == Failure(NoCGImage) && ErrorCode(r.error) == Some(2)
    ensures hasCgImage && inference.Failure? ==> r == Failure(inference.error)
    ensures r.Success? ==> hasCgImage && inference.Success?
    ensures hasCgImage && inference.Success? ==>
      var request := PredictRequest(Threshold(inference.value), iterate, format);
      && (send(apiKey, request).None? ==> r == Failure(TransportFailed))
      && (send(apiKey, request).Some? ==> r == DecodeResponse(send(apiKey, request).value, parse))
  {
    var raw :- RawPredictions(hasCgImage, inference);
    match send(apiKey, PredictRequest(raw, iterate, format))
    case None => Failure(TransportFailed)
    case Some(reply) => DecodeResponse(reply, parse)
  }
}
