/** The translation client and the two-stage translation orchestrator of
    lib/openai.ts: one request to the language service per (text, target
    language), the normalisation of its response, and the relay that
    translates Japanese into English and English into six more languages. */
module OpenAI {
  import opened Wrappers
  import opened JsText
  import opened JsonValue

  // ---------------------------------------------------------------------
  // Languages

  /** The keys of the `LANGUAGES` table. */
  datatype LanguageCode = En | Es | Pt | Ko | Zh | Tw | Th

  /** The key of each code in the table and in the result record. */
  function Code(l: LanguageCode): string {
    match l
    case En => "en"
    case Es => "es"
    case Pt => "pt"
    case Ko => "ko"
    case Zh => "zh"
    case Tw => "tw"
    case Th => "th"
  }

  /** The language name the prompt asks for (the values of `LANGUAGES`). */
  function LanguageName(l: LanguageCode): string {
    match l
    case En => "English"
    case Es => "Spanish (Español)"
    case Pt => "Portuguese (Português)"
    case Ko => "Korean (한국어)"
    case Zh => "Simplified Chinese (简体中文)"
    case Tw => "Traditional Chinese (繁體中文)"
    case Th => "Thai (ไทย)"
  }

  /** The table in its declaration order. */
  const AllLanguages: seq<LanguageCode> := [En, Es, Pt, Ko, Zh, Tw, Th]

  /** `otherLanguages`: the targets of the second stage, in order. */
  const Stage2Languages: seq<LanguageCode> := [Es, Pt, Ko, Zh, Tw, Th]

  /** The table is a bijection between seven distinct codes and names, and
      the second stage covers every language but English, once each. */
  lemma LanguageTable()
    ensures |AllLanguages| == 7
    ensures forall l: LanguageCode :: l in AllLanguages
    ensures forall i, j :: 0 <= i < j < |AllLanguages| ==>
      AllLanguages[i] != AllLanguages[j] && Code(AllLanguages[i]) != Code(AllLanguages[j])
    ensures forall l, l': LanguageCode :: l != l' ==> LanguageName(l) != LanguageName(l')
    ensures forall l: LanguageCode :: l in Stage2Languages <==> l != En
    ensures forall i, j :: 0 <= i < j < |Stage2Languages| ==> Stage2Languages[i] != Stage2Languages[j]
  {
    forall l: LanguageCode ensures l in AllLanguages {
      match l
      case En => assert AllLanguages[0] == l;
      case Es => assert AllLanguages[1] == l;
      case Pt => assert AllLanguages[2] == l;
      case Ko => assert AllLanguages[3] == l;
      case Zh => assert AllLanguages[4] == l;
      case Tw => assert AllLanguages[5] == l;
      case Th => assert AllLanguages[6] == l;
    }
  }

  // ---------------------------------------------------------------------
  // One translation request (translateBlogPost)

  /** The parameters of `translateBlogPost`; an omitted `sourceLanguage` is
      None. */
  datatype TranslateParams = TranslateParams(content: string, targetLanguage: LanguageCode, sourceLanguage: Option<string>)

  const DefaultSourceLanguage: string := "Japanese"
  const ServiceModel: string := "gpt-5-nano"
  const ReasoningEffort: string := "medium"

  /** What the request to the language service carries: the model, the
      reasoning effort, and the values interpolated into the system
      instruction and the user prompt. */
  datatype ServiceRequest = ServiceRequest(
    model: string, effort: string, targetLanguageName: string, sourceLanguage: string, content: string)

  /** The request built from the parameters, with `sourceLanguage`
      defaulting to "Japanese". */
  function RequestFor(p: TranslateParams): (r: ServiceRequest)
    ensures r.sourceLanguage == if p.sourceLanguage.Some? then p.sourceLanguage.value else "Japanese"
    ensures r.targetLanguageName == LanguageName(p.targetLanguage) && r.content == p.content
    ensures r.model == "gpt-5-nano" && r.effort == "medium"
  {
    ServiceRequest(ServiceModel, ReasoningEffort, LanguageName(p.targetLanguage),
                   p.sourceLanguage.GetOr(DefaultSourceLanguage), p.content)
  }

  /** What the transport gives back: the two-minute timer fired, the fetch
      itself failed, or an HTTP response with its status, its text and its
      body parsed as JSON (None if it is not JSON). */
  datatype Transport =
    | TimedOut
    | NetworkFailure
    | Delivered(status: int, body: string, json: Option<Json>)

  datatype TranslateError =
    | Timeout                                // "Translation API call timed out after 2 minutes"
    | NetworkError                           // the rejection of `fetch`, rethrown
    | ServiceError(status: int, body: string) // "OpenAI API error: <status> - <body>"
    | InvalidJson                            // `response.json()` rejected
    | MalformedResponse                      // a property read on `null`, or `.find` on a non-array
    | ExtractionFailed                       // "Could not extract translated content from API response"

  datatype Usage = Usage(promptTokens: int, completionTokens: int, totalTokens: int)

  datatype TranslationResult = TranslationResult(content: string, usage: Usage)

  // ---------------------------------------------------------------------
  // Response normalisation

  /** `data.output_text` joined with "\n" when it is an array, taken as it
      is when it is a string, and "" otherwise. */
  function DirectText(data: Json): string {
    match Field(data, "output_text")
    case Some(JArr(items)) => JoinItems(items, "\n")
    case Some(JStr(s)) => s
    case _ => ""
  }

  predicate IsMessage(item: Json) {
    Field(item, "type") == Some(JStr("message"))
  }

  predicate IsTextPart(part: Json) {
    Field(part, "type") == Some(JStr("output_text")) || Field(part, "type") == Some(JStr("text"))
  }

  /** `items.find(x => x.type === ...)`: the first item that `wanted`
      accepts; reading `type` on a `null` item before that throws. */
  function Find(items: seq<Json>, wanted: Json -> bool): (r: Result<Option<Json>, TranslateError>)
    ensures r.Success? && r.value.Some? ==>
      exists i :: 0 <= i < |items| && items[i] == r.value.value && items[i] != JNull && wanted(items[i]) &&
        forall j :: 0 <= j < i ==> items[j] != JNull && !wanted(items[j])
    ensures r.Success? && r.value.None? ==> forall j :: 0 <= j < |items| ==> items[j] != JNull && !wanted(items[j])
    ensures r.Failure? ==>
      (r.error == MalformedResponse &&
       exists i :: 0 <= i < |items| && items[i] == JNull && forall j :: 0 <= j < i ==> !wanted(items[j]))
    decreases |items|
  {
    if |items| == 0 then Success(None)
    else if items[0].JNull? then Failure(MalformedResponse)
    else if wanted(items[0]) then Success(Some(items[0]))
    else
      var r := Find(items[1..], wanted);
      assert forall j :: 1 <= j < |items| ==> items[j] == items[1..][j - 1];
      r
  }

  /** `messageObject?.content?.find(isTextPart)` and then `?.text || ''`:
      no message, no content or `null` content give ""; a content array
      gives the `text` of its first text part when that is truthy, and ""
      otherwise; other content is an error. */
  function MessageText(message: Option<Json>): (r: Result<string, TranslateError>)
    ensures OptionalField(message, "content").None? || OptionalField(message, "content") == Some(JNull) ==>
      r == Success("")
    ensures OptionalField(message, "content").Some? && OptionalField(message, "content").value.JArr? ==>
      var found := Find(OptionalField(message, "content").value.items, IsTextPart);
      && (found.Failure? ==> r == Failure(found.error))
      && (found.Success? && found.value.None? ==> r == Success(""))
      && (found.Success? && found.value.Some? ==>
            r == Success(if Truthy(Field(found.value.value, "text")) then ElementText(Field(found.value.value, "text").value) else ""))
    ensures (OptionalField(message, "content").Some? && !OptionalField(message, "content").value.JArr? &&
             OptionalField(message, "content") != Some(JNull)) ==> r == Failure(MalformedResponse)
  {
    match message
    case None => Success("")
    case Some(m) =>
      match OptionalField(message, "content")
      case None => Success("")
      case Some(JNull) => Success("")
      case Some(JArr(parts)) =>
        (match Find(parts, IsTextPart)
         case Failure(e) => Failure(e)
         case Success(None) => Success("")
         case Success(Some(part)) =>
           var text := Field(part, "text");
           Success(if Truthy(text) then ElementText(text.value) else ""))
      case Some(_) => Failure(MalformedResponse)
  }

  /** The cascade of lines 98-118 of lib/openai.ts. */
  function ExtractText(data: Json): (r: Result<string, TranslateError>)
    ensures r.Success? ==> r.value != ""
  {
    if data.JNull? then Failure(MalformedResponse)
    else
      var direct := DirectText(data);
      if direct != "" then Success(direct)
      else
        match Field(data, "output")
        case Some(JArr(items)) =>
          (match Find(items, IsMessage)
           case Failure(e) => Failure(e)
           case Success(message) =>
             match MessageText(message)
             case Failure(e) => Failure(e)
             case Success(text) => if text == "" then Failure(ExtractionFailed) else Success(text))
        case _ => Failure(ExtractionFailed)
  }

  /** The shape of the output: the direct field wins whenever it gives
      non-empty text; the message parts are looked at only when it gives
      "", and then the text is that of the first text part of the first
      message; no text at all is an error. */
  lemma ExtractTextCascade(data: Json)
    requires data != JNull
    ensures DirectText(data) != "" ==> ExtractText(data) == Success(DirectText(data))
    ensures DirectText(data) == "" && !(Field(data, "output").Some? && Field(data, "output").value.JArr?) ==>
      ExtractText(data) == Failure(ExtractionFailed)
    ensures DirectText(data) == "" && Field(data, "output").Some? && Field(data, "output").value.JArr? ==>
      match Find(Field(data, "output").value.items, IsMessage)
      case Failure(e) => ExtractText(data) == Failure(e)
      case Success(message) =>
        match MessageText(message)
        case Failure(e) => ExtractText(data) == Failure(e)
        case Success(t) => ExtractText(data) == (if t == "" then Failure(ExtractionFailed) else Success(t))
  {
  }

  /** A string `output_text` is used as it is; an array of strings is
      joined with "\n" and used when that is not empty. */
  lemma ExtractDirectOutputText(data: Json, s: string, parts: seq<string>)
    requires data.JObj? && "output_text" in data.fields
    ensures data.fields["output_text"] == JStr(s) && s != "" ==> ExtractText(data) == Success(s)
    ensures data.fields["output_text"] == JArr(seq(|parts|, i requires 0 <= i < |parts| => JStr(parts[i]))) ==>
      (|parts| >= 2 || (|parts| == 1 && parts[0] != "")) ==> ExtractText(data) == Success(Join(parts, "\n"))
  {
    var items := seq(|parts|, i requires 0 <= i < |parts| => JStr(parts[i]));
    if data.fields["output_text"] == JArr(items) {
      assert seq(|items|, i requires 0 <= i < |items| => ElementText(items[i])) == parts;
      JoinEmpty(parts, "\n");
    }
  }

  /** An `output_text` array holding one empty string gives "" and so falls
      back to the message parts, while two empty strings give "\n". */
  lemma EmptyOutputTextFallsBack(rest: map<string, Json>)
    ensures var data := JObj(rest["output_text" := JArr([JStr("")])]);
      DirectText(data) == "" && ExtractText(data) == ExtractText(JObj(rest - {"output_text"}))
    ensures var data := JObj(rest["output_text" := JArr([JStr(""), JStr("")])]);
      ExtractText(data) == Success("\n")
  {
    var data := JObj(rest["output_text" := JArr([JStr("")])]);
    assert JoinItems([JStr("")], "\n") == "";
    assert Field(data, "output") == Field(JObj(rest - {"output_text"}), "output");
    var two := [JStr(""), JStr("")];
    assert seq(|two|, i requires 0 <= i < |two| => ElementText(two[i])) == ["", ""];
    assert Join(["", ""], "\n") == "" + "\n" + Join([""], "\n");
    var data2 := JObj(rest["output_text" := JArr(two)]);
    assert Field(data2, "output_text") == Some(JArr(two));
    assert DirectText(data2) == "\n";
  }

  // ---------------------------------------------------------------------
  // Token usage

  /** `n` for a number, 0 for anything else (`undefined` included). */
  function TokenCount(v: Option<Json>): int {
    if v.Some? && v.value.JNum? then v.value.n else 0
  }

  /** `data.usage?.first || data.usage?.second || 0`. */
  function TokenField(data: Json, first: string, second: string): int {
    var usage := Field(data, "usage");
    TokenCount(Or(OptionalField(usage, first), OptionalField(usage, second)))
  }

  function UsageOf(data: Json): Usage {
    var prompt := TokenField(data, "input_tokens", "prompt_tokens");
    var completion := TokenField(data, "output_tokens", "completion_tokens");
    Usage(prompt, completion, prompt + completion)
  }

  /** The token cascade: a non-zero number in the first field wins,
      otherwise a non-zero number in the second, otherwise 0; and the total
      is the sum of the two counts. */
  lemma UsageFallback(data: Json, usage: map<string, Json>, first: string, second: string)
    requires data.JObj? && "usage" in data.fields && data.fields["usage"] == JObj(usage)
    requires first != second
    ensures first in usage && usage[first].JNum? && usage[first].n != 0 ==>
      TokenField(data, first, second) == usage[first].n
    ensures first in usage && Truthy(Some(usage[first])) && !usage[first].JNum? ==>
      TokenField(data, first, second) == 0
    ensures first !in usage || !Truthy(Some(usage[first])) ==>
      TokenField(data, first, second) == (if second in usage && usage[second].JNum? then usage[second].n else 0)
    ensures UsageOf(data).totalTokens == UsageOf(data).promptTokens + UsageOf(data).completionTokens
    ensures UsageOf(data).promptTokens == TokenField(data, "input_tokens", "prompt_tokens")
    ensures UsageOf(data).completionTokens == TokenField(data, "output_tokens", "completion_tokens")
  {
  }

  /** A response without a `usage` object (none at all, `null`, or some
      other value) counts zero tokens of either kind. */
  lemma NoUsageObjectCountsZero(data: Json)
    requires !(data.JObj? && "usage" in data.fields && data.fields["usage"].JObj?)
    ensures UsageOf(data) == Usage(0, 0, 0)
  {
  }

  /** A zero `input_tokens` is falsy, so `prompt_tokens` is used instead;
      no usage at all counts zero tokens. */
  lemma ZeroTokensFallThrough()
    ensures UsageOf(JObj(map["usage" := JObj(map["input_tokens" := JNum(0), "prompt_tokens" := JNum(7)])])).promptTokens == 7
    ensures UsageOf(JObj(map[])) == Usage(0, 0, 0)
  {
  }

  // ---------------------------------------------------------------------
  // translateBlogPost

  /** One translation: a request to the service through `send`, then the
      status check, JSON parsing, text extraction and usage accounting. */
  function TranslateBlogPost(p: TranslateParams, send: ServiceRequest -> Transport): (r: Result<TranslationResult, TranslateError>)
    ensures r.Success? ==> r.value.content != ""
    ensures r.Success? ==> r.value.usage.totalTokens == r.value.usage.promptTokens + r.value.usage.completionTokens
    ensures send(RequestFor(p)) == TimedOut ==> r == Failure(Timeout)
    ensures send(RequestFor(p)) == NetworkFailure ==> r == Failure(NetworkError)
    ensures send(RequestFor(p)).Delivered? && !(200 <= send(RequestFor(p)).status <= 299) ==>
      r == Failure(ServiceError(send(RequestFor(p)).status, send(RequestFor(p)).body))
    ensures send(RequestFor(p)).Delivered? && 200 <= send(RequestFor(p)).status <= 299 && send(RequestFor(p)).json.None? ==>
      r == Failure(InvalidJson)
    ensures send(RequestFor(p)).Delivered? && 200 <= send(RequestFor(p)).status <= 299 && send(RequestFor(p)).json.Some? ==>
      r == (match ExtractText(send(RequestFor(p)).json.value)
            case Success(t) => Success(TranslationResult(t, UsageOf(send(RequestFor(p)).json.value)))
            case Failure(e) => Failure(e))
    ensures r.Success? ==>
      (&& send(RequestFor(p)).Delivered? && 200 <= send(RequestFor(p)).status <= 299
       && send(RequestFor(p)).json.Some?
       && ExtractText(send(RequestFor(p)).json.value) == Success(r.value.content)
       && r.value.usage == UsageOf(send(RequestFor(p)).json.value))
  {
    match send(RequestFor(p))
    case TimedOut => Failure(Timeout)
    case NetworkFailure => Failure(NetworkError)
    case Delivered(status, body, parsed) =>
      if !(200 <= status <= 299) then Failure(ServiceError(status, body))
      else
        match parsed
        case None => Failure(InvalidJson)
        case Some(data) =>
          match ExtractText(data)
          case Failure(e) => Failure(e)
          case Success(text) => Success(TranslationResult(text, UsageOf(data)))
  }

  // ---------------------------------------------------------------------
  // translateToAllLanguages

  /** What the orchestrator sees of `translateBlogPost`. */
  type Translator = TranslateParams -> Result<TranslationResult, TranslateError>

  /** The first stage: the original text, to English, from Japanese. */
  function EnglishRequest(content: string): TranslateParams {
    TranslateParams(content, En, Some("Japanese"))
  }

  /** A second-stage call: the English text, to `l`, from English. */
  function Stage2Request(english: string, l: LanguageCode): TranslateParams {
    TranslateParams(english, l, Some("English"))
  }

  function Stage2Requests(english: string): seq<TranslateParams> {
    seq(|Stage2Languages|, i requires 0 <= i < |Stage2Languages| => Stage2Request(english, Stage2Languages[i]))
  }

  /** A settled second-stage promise: fulfilled with `{lang, content}`, or
      rejected with a reason. */
  datatype Settled = Fulfilled(lang: LanguageCode, content: string) | Rejected(reason: TranslateError)

  /** `Promise.allSettled` over the given calls, in their order; each
      fulfilled entry carries its call's target language. */
  function AllSettled(calls: seq<TranslateParams>, translate: Translator): seq<Settled> {
    seq(|calls|, i requires 0 <= i < |calls| =>
      match translate(calls[i])
      case Success(t) => Fulfilled(calls[i].targetLanguage, t.content)
      case Failure(e) => Rejected(e))
  }

  /** The second-stage languages whose call succeeded. */
  function Succeeded(english: string, translate: Translator): set<LanguageCode> {
    set l | l in Stage2Languages && translate(Stage2Request(english, l)).Success?
  }

  /** The languages whose call failed. */
  function Failed(english: string, translate: Translator): set<LanguageCode> {
    set l | l in Stage2Languages && translate(Stage2Request(english, l)).Failure?
  }

  /** The mapping the orchestrator promises once English is done: English to
      its text, and each second-stage language that succeeded to its text. */
  function Translations(english: string, translate: Translator): map<LanguageCode, string> {
    (map l | l in Succeeded(english, translate) :: translate(Stage2Request(english, l)).value.content)[En := english]
  }

  datatype OrchestrationError =
    | EnglishTranslationFailed  // "Failed to translate to English. Cannot proceed with other languages."

  /** `translateToAllLanguages`: English first; if that fails the whole call
      fails after one call; otherwise the six second-stage calls are made on
      the English text and every fulfilled one is written into the record.
      `attempted` is the sequence of calls made to the translator. */
  method TranslateToAllLanguages(content: string, translate: Translator)
    returns (r: Result<map<LanguageCode, string>, OrchestrationError>, attempted: seq<TranslateParams>)
    ensures |attempted| >= 1 && attempted[0] == EnglishRequest(content)
    ensures r.Failure? <==> translate(EnglishRequest(content)).Failure?
    ensures r.Failure? ==> r.error == EnglishTranslationFailed && attempted == [EnglishRequest(content)]
    ensures r.Success? ==>
      var english := translate(EnglishRequest(content)).value.content;
      && attempted == [EnglishRequest(content)] + Stage2Requests(english)
      && (forall k :: 1 <= k < |attempted| ==>
            attempted[k].content == english && attempted[k].sourceLanguage == Some("English"))
      && r.value == Translations(english, translate)
  {
    var translations: map<LanguageCode, string> := map[];
    attempted := [EnglishRequest(content)];
    var englishResult := translate(EnglishRequest(content));
    if englishResult.Failure? {
      return Failure(EnglishTranslationFailed), attempted;
    }
    translations := translations[En := englishResult.value.content];
    var english := translations[En];

    var calls := Stage2Requests(english);
    var results := AllSettled(calls, translate);
    attempted := attempted + calls;
    for i := 0 to |results|
      invariant En in translations && translations[En] == english
      invariant forall l :: l in translations && l != En <==>
        l in Stage2Languages[..i] && translate(Stage2Request(english, l)).Success?
      invariant forall l :: l in translations && l != En ==>
        translations[l] == translate(Stage2Request(english, l)).value.content
    {
      match results[i]
      case Fulfilled(lang, text) =>
        translations := translations[lang := text];
      case Rejected(_) =>
    }
    assert Stage2Languages[..|results|] == Stage2Languages;
    r := Success(translations);
  }

  /** The keys of the result are English and the second-stage languages that
      succeeded: a failed language is absent, not mapped to a placeholder. */
  lemma TranslationsKeys(english: string, translate: Translator)
    ensures Translations(english, translate).Keys == {En} + Succeeded(english, translate)
    ensures Translations(english, translate)[En] == english
    ensures forall l :: l in Stage2Languages ==>
      (l in Translations(english, translate) <==> translate(Stage2Request(english, l)).Success?)
    ensures forall l :: l in Translations(english, translate) && l != En ==>
      Translations(english, translate)[l] == translate(Stage2Request(english, l)).value.content
  {
  }

  /** With K of the six second-stage calls failing, the result has exactly
      1 + (6 - K) entries. */
  lemma TranslationsCount(english: string, translate: Translator)
    ensures |Succeeded(english, translate)| + |Failed(english, translate)| == 6
    ensures |Translations(english, translate)| == 1 + |Succeeded(english, translate)|
  {
    var s, f := Succeeded(english, translate), Failed(english, translate);
    SuccessAndFailurePartition(english, translate);
    assert |s + f| == |s| + |f|;
    var m := Translations(english, translate);
    assert m.Keys == {En} + s;
    assert |{En} + s| == 1 + |s|;
  }

  lemma SuccessAndFailurePartition(english: string, translate: Translator)
    ensures Succeeded(english, translate) !! Failed(english, translate)
    ensures |Succeeded(english, translate) + Failed(english, translate)| == 6
  {
    var s, f := Succeeded(english, translate), Failed(english, translate);
    var six: set<LanguageCode> := {Es, Pt, Ko, Zh, Tw, Th};
    assert s + f == six;
    SixLanguages();
  }

  lemma SixLanguages()
    ensures |{Es, Pt, Ko, Zh, Tw, Th}| == 6
  {
  }

  /** Each entry depends only on its own language's call: changing what the
      translator does for other languages changes nothing for `l`. */
  lemma TranslationsIndependent(english: string, t1: Translator, t2: Translator, l: LanguageCode)
    requires t1(Stage2Request(english, l)) == t2(Stage2Request(english, l))
    ensures (l in Translations(english, t1)) == (l in Translations(english, t2))
    ensures l in Translations(english, t1) ==> Translations(english, t1)[l] == Translations(english, t2)[l]
  {
  }

  /** With the real client behind the orchestrator, every entry of the
      result is non-empty text, English included. */
  lemma RealTranslationsNonEmpty(content: string, send: ServiceRequest -> Transport, translate: Translator)
    requires forall p :: translate(p) == TranslateBlogPost(p, send)
    requires translate(EnglishRequest(content)).Success?
    ensures forall l :: l in Translations(translate(EnglishRequest(content)).value.content, translate) ==>
      Translations(translate(EnglishRequest(content)).value.content, translate)[l] != ""
  {
  }
}
