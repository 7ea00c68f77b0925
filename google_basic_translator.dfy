/**
  * The Google Cloud Translation (basic, v2) translator: the decisions it takes before a request
  * (short-circuits, locale negotiation, request parameters) and after it (status check, detected
  * locale). The HTTP exchange itself is a parameter: a function from request parameters to the
  * parsed response.
  */
module GoogleBasic {
  import opened Common
  import opened Translation

  /** The parsed answer of the translate endpoint: status code and the fields read from its JSON body. */
  datatype TranslateResponse = TranslateResponse(status: int, translatedText: string, detectedSourceLanguage: string)

  /** The parsed answer of the languages endpoint: status code and the language codes listed. */
  datatype LanguagesResponse = LanguagesResponse(status: int, languages: seq<string>)

  /** A constructed translator: its API key and the supported locales fetched once at construction. */
  datatype GoogleBasicTranslator = GoogleBasicTranslator(apiKey: string, supported: set<Locale>)

  /** The locales a request is made with, once negotiated. */
  datatype Negotiated = Negotiated(source: Locale, target: Locale)

  /** What translateDetecting settles on before any network traffic. */
  datatype Decision =
    | Answer(result: TranslatedText)                                       // completed without a request
    | Reject(error: TranslationError)                                      // thrown before a request
    | Request(parameters: map<string, string>, fixedSource: Locale)        // a GET with these query parameters

  /**
    * Construction: the supported set comes from the languages endpoint, and construction fails
    * outright when that request does not answer 200.
    */
  function Create(apiKey: string, response: LanguagesResponse): (r: Result<GoogleBasicTranslator, int>)
    ensures r.Err? <==> response.status != 200
    ensures r.Err? ==> r.error == response.status
    ensures r.Ok? ==> r.value.apiKey == apiKey
    ensures r.Ok? ==> forall l :: l in r.value.supported <==> exists i :: 0 <= i < |response.languages| && l == ForLanguageTag(response.languages[i])
  {
    if response.status != 200 then Err(response.status)
    else Ok(GoogleBasicTranslator(apiKey, set i | 0 <= i < |response.languages| :: ForLanguageTag(response.languages[i])))
  }

  /** True when the source locale must be negotiated: it is a concrete locale the provider does not list. */
  predicate SourceNeedsFallback(supported: set<Locale>, source: Locale) {
    source != AutoDetect && source !in supported
  }

  /**
    * Locale negotiation. An unsupported concrete source is retried as its language-only locale;
    * only when the source needed no retry is an unsupported target retried the same way. A locale
    * whose retry is unsupported too is reported with the locale as the caller gave it.
    */
  function Negotiation(supported: set<Locale>, source: Locale, target: Locale): (r: Result<Negotiated, TranslationError>)
    // the source branch: retried as language-only, the target passes through unchecked
    ensures SourceNeedsFallback(supported, source) ==>
      (r.Ok? <==> LanguageOnly(source) in supported)
    ensures SourceNeedsFallback(supported, source) && r.Ok? ==>
      r.value.source == LanguageOnly(source) && r.value.target == target
    ensures SourceNeedsFallback(supported, source) && r.Err? ==>
      r.error == UnsupportedLanguage(source)
    // the target branch, taken only when the source is AUTO_DETECT or supported
    ensures !SourceNeedsFallback(supported, source) ==>
      (r.Ok? <==> target in supported || LanguageOnly(target) in supported)
    ensures !SourceNeedsFallback(supported, source) && r.Ok? ==>
      r.value.source == source && r.value.target in supported &&
      r.value.target == (if target in supported then target else LanguageOnly(target))
    ensures !SourceNeedsFallback(supported, source) && r.Err? ==>
      r.error == UnsupportedLanguage(target)
    // whatever happens, a negotiated source is one the provider can be asked for
    ensures r.Ok? ==> r.value.source == AutoDetect || r.value.source in supported
  {
    if SourceNeedsFallback(supported, source) then
      if LanguageOnly(source) in supported then Ok(Negotiated(LanguageOnly(source), target))
      else Err(UnsupportedLanguage(source))
    else if target in supported then Ok(Negotiated(source, target))
    else if LanguageOnly(target) in supported then Ok(Negotiated(source, LanguageOnly(target)))
    else Err(UnsupportedLanguage(target))
  }

  /** Negotiation as the translator does it, by reassigning the two fixed locales. */
  method Negotiate(supported: set<Locale>, source: Locale, target: Locale) returns (r: Result<Negotiated, TranslationError>)
    ensures r == Negotiation(supported, source, target)
  {
    var fixedSource := source;
    var fixedTarget := target;
    if source != AutoDetect && source !in supported {
      fixedSource := LanguageOnly(source);
      if fixedSource !in supported {
        return Err(UnsupportedLanguage(source));
      }
    } else if target !in supported {
      fixedTarget := LanguageOnly(target);
      if fixedTarget !in supported {
        return Err(UnsupportedLanguage(target));
      }
    }
    r := Ok(Negotiated(fixedSource, fixedTarget));
  }

  /** The query parameters of a translation request. */
  function Parameters(apiKey: string, text: string, fixedSource: Locale, fixedTarget: Locale): (p: map<string, string>)
    ensures "key" in p && p["key"] == apiKey
    ensures "q" in p && p["q"] == text
    ensures "target" in p && p["target"] == ToLanguageTag(fixedTarget)
    ensures "format" in p && p["format"] == "text"
    ensures "source" in p <==> fixedSource != AutoDetect
    ensures "source" in p ==> p["source"] == ToLanguageTag(fixedSource)
    ensures p.Keys <= {"key", "q", "target", "format", "source"}
  {
    var always := map["key" := apiKey, "q" := text, "target" := ToLanguageTag(fixedTarget), "format" := "text"];
    if fixedSource != AutoDetect then always["source" := ToLanguageTag(fixedSource)] else always
  }

  /** The parameter map as the translator builds it: four entries, then "source" when known. */
  method RequestParameters(apiKey: string, text: string, fixedSource: Locale, fixedTarget: Locale) returns (p: map<string, string>)
    ensures p == Parameters(apiKey, text, fixedSource, fixedTarget)
  {
    p := map["key" := apiKey, "q" := text, "target" := ToLanguageTag(fixedTarget), "format" := "text"];
    if fixedSource != AutoDetect {
      p := p["source" := ToLanguageTag(fixedSource)];
    }
  }

  /** Everything translateDetecting decides before it sends a request. */
  function Decide(g: GoogleBasicTranslator, text: string, source: Locale, target: Locale): (d: Decision)
    // ROUTER is checked first and answers the literal "router" with no detected locale
    ensures source == Router || target == Router ==> d == Answer(TranslatedText("router", None))
    // then blank text or a shared language answers the input, detected as the source
    ensures source != Router && target != Router && (IsBlank(text) || source.language == target.language) ==>
      d == Answer(TranslatedText(text, Some(source)))
    // no other input is answered without a request or a rejection
    ensures d.Answer? ==> source == Router || target == Router || IsBlank(text) || source.language == target.language
    // a rejection is the negotiation's error
    ensures d.Reject? ==> Negotiation(g.supported, source, target) == Err(d.error)
    // a request carries the negotiated locales
    ensures d.Request? ==>
      Negotiation(g.supported, source, target).Ok? &&
      var n := Negotiation(g.supported, source, target).value;
      d.fixedSource == n.source && d.parameters == Parameters(g.apiKey, text, n.source, n.target)
  {
    if source == Router || target == Router then Answer(TranslatedText("router", None))
    else if IsBlank(text) || source.language == target.language then Answer(TranslatedText(text, Some(source)))
    else
      match Negotiation(g.supported, source, target)
      case Err(e) => Reject(e)
      case Ok(n) => Request(Parameters(g.apiKey, text, n.source, n.target), n.source)
  }

  /** The response handler: a non-200 status fails; otherwise the translation and the detected locale. */
  function HandleResponse(fixedSource: Locale, response: TranslateResponse): (r: Result<TranslatedText, TranslationError>)
    ensures r.Err? <==> response.status != 200
    ensures r.Err? ==> r.error == RequestFailed(response.status)
    ensures r.Ok? ==> r.value.text == response.translatedText && r.value.detected.Some?
    // the response's detected language is used exactly when the source was AUTO_DETECT
    ensures r.Ok? && fixedSource == AutoDetect ==> r.value.detected.value == ForLanguageTag(response.detectedSourceLanguage)
    ensures r.Ok? && fixedSource != AutoDetect ==> r.value.detected.value == fixedSource
  {
    if response.status != 200 then Err(RequestFailed(response.status))
    else
      var detected := if fixedSource == AutoDetect then ForLanguageTag(response.detectedSourceLanguage) else fixedSource;
      Ok(TranslatedText(response.translatedText, Some(detected)))
  }

  /**
    * translateDetecting. `send` stands for the HTTP exchange; `sent` is the query of the request
    * actually made, None when the call completed or failed without one.
    */
  method TranslateDetecting(g: GoogleBasicTranslator, text: string, source: Locale, target: Locale,
                            send: map<string, string> -> TranslateResponse)
    returns (r: Result<TranslatedText, TranslationError>, sent: Option<map<string, string>>)
    ensures match Decide(g, text, source, target)
      case Answer(t) => r == Ok(t) && sent == None
      case Reject(e) => r == Err(e) && sent == None
      case Request(p, fixedSource) => sent == Some(p) && r == HandleResponse(fixedSource, send(p))
  {
    if source == Router || target == Router {
      return Ok(TranslatedText("router", None)), None;
    } else if IsBlank(text) || source.language == target.language {
      return Ok(TranslatedText(text, Some(source))), None;
    }
    var negotiated := Negotiate(g.supported, source, target);
    if negotiated.Err? {
      return Err(negotiated.error), None;
    }
    var fixedSource, fixedTarget := negotiated.value.source, negotiated.value.target;
    var parameters := RequestParameters(g.apiKey, text, fixedSource, fixedTarget);
    r := HandleResponse(fixedSource, send(parameters));
    sent := Some(parameters);
  }

  /** The deprecated translate: translateDetecting with the detected locale dropped. */
  method Translate(g: GoogleBasicTranslator, text: string, source: Locale, target: Locale,
                   send: map<string, string> -> TranslateResponse)
    returns (r: Result<string, TranslationError>, sent: Option<map<string, string>>)
    ensures match Decide(g, text, source, target)
      case Answer(t) => r == Ok(t.text) && sent == None
      case Reject(e) => r == Err(e) && sent == None
      case Request(p, fixedSource) =>
        sent == Some(p) &&
        match HandleResponse(fixedSource, send(p))
        case Ok(t) => r == Ok(t.text)
        case Err(e) => r == Err(e)
  {
    var detecting;
    detecting, sent := TranslateDetecting(g, text, source, target, send);
    r := match detecting
      case Ok(t) => Ok(t.text)
      case Err(e) => Err(e);
  }

  const French: Locale := ForLanguageTag("fr")
  const English: Locale := ForLanguageTag("en")

  /** French to English, with both supported, reports French as the detected language. */
  lemma FrenchToEnglishReportsFrench(g: GoogleBasicTranslator, text: string, response: TranslateResponse)
    requires French in g.supported && English in g.supported
    requires !IsBlank(text) && response.status == 200
    ensures Decide(g, text, French, English).Request?
    ensures Decide(g, text, French, English).fixedSource == French
    ensures HandleResponse(French, response) == Ok(TranslatedText(response.translatedText, Some(French)))
  {
    assert French.language != English.language;
    assert French != AutoDetect && French != Router && English != Router;
  }

  /** With AUTO_DETECT as source and a supported target, the reported locale is the one the provider detected. */
  lemma AutoDetectReportsResponse(g: GoogleBasicTranslator, text: string, target: Locale, response: TranslateResponse)
    requires target in g.supported && target != Router && target.language != AutoDetect.language
    requires !IsBlank(text) && response.status == 200
    ensures Decide(g, text, AutoDetect, target) ==
      Request(Parameters(g.apiKey, text, AutoDetect, target), AutoDetect)
    ensures "source" !in Decide(g, text, AutoDetect, target).parameters
    ensures HandleResponse(AutoDetect, response).value.detected == Some(ForLanguageTag(response.detectedSourceLanguage))
  {
    assert AutoDetect != Router;
  }
  const Taiwanese: Locale := Locale("zh", ["TW"])

  /** A listed region tag is supported as that locale, not as a language of its own. */
  lemma RegionTagListed(apiKey: string)
    ensures var g := Create(apiKey, LanguagesResponse(200, ["en", "zh-TW"]));
      g.Ok? && English in g.value.supported && Taiwanese in g.value.supported
  {
    var languages := ["en", "zh-TW"];
    ForLanguageTagOfTag(Taiwanese);
    assert ToLanguageTag(Taiwanese) == "zh-TW" == languages[1];
    assert ForLanguageTag(languages[0]) == English;
  }

  /** The region locale is written back as its whole tag. */
  lemma TaiwaneseTag()
    ensures ToLanguageTag(Taiwanese) == "zh-TW"
  {
    assert Taiwanese.rest[1..] == [];
  }

  /** A request into a supported region locale names the whole tag as its target. */
  lemma RegionTagRequested(g: GoogleBasicTranslator, text: string)
    requires English in g.supported && Taiwanese in g.supported && !IsBlank(text)
    ensures Decide(g, text, English, Taiwanese) == Request(Parameters(g.apiKey, text, English, Taiwanese), English)
    ensures Parameters(g.apiKey, text, English, Taiwanese)["target"] == "zh-TW"
  {
    assert English != AutoDetect && English != Router && Taiwanese != Router;
    assert English.language != Taiwanese.language;
    TaiwaneseTag();
  }

  /** A detected region tag reports its language subtag as the language. */
  lemma DetectedRegionTag(translatedText: string)
    ensures HandleResponse(AutoDetect, TranslateResponse(200, translatedText, "zh-CN")) ==
      Ok(TranslatedText(translatedText, Some(Locale("zh", ["CN"]))))
  {
    ForLanguageTagOfTag(Locale("zh", ["CN"]));
    assert ToLanguageTag(Locale("zh", ["CN"])) == "zh-CN";
  }
}
