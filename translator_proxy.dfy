/**
  * The translator proxy: a recursive builder from the configured backend tree to a tree of
  * translators, and a one-field object that delegates to the translator it holds and replaces it
  * on a configuration reload.
  */
module Proxy {
  import opened Common
  import opened Translation
  import opened Config
  import G = GoogleBasic

  /**
    * The translators the builder can produce. Their behaviour is not part of this model: each
    * constructor records only the arguments its factory received.
    */
  datatype Translator =
    | Noop
    | LibreTranslateTranslator(endpoint: string, libreApiKey: Option<string>)
    | DeepLTranslator(apiKey: string)
    | GoogleBasicTranslator(apiKey: string)
    | RollingTranslator(translators: seq<Translator>, fallback: Translator)
    | CachingTranslator(translator: Translator, maximumSize: int, successRetention: Duration, failureRetention: Duration)

  /** `ltApiKey?.value`: the value of an optional secret. */
  function KeyOf(key: Option<Secret>): Option<string> {
    match key
    case None => Option.None
    case Some(k) => Option.Some(k.value)
  }

  /** createTranslator: one translator per configuration node, recursing only into sub-configurations. */
  function CreateTranslator(config: Backend): (t: Translator)
    decreases config
    ensures config.None? <==> t == Noop
    ensures config.LibreTranslate? ==> t == LibreTranslateTranslator(config.ltEndpoint, KeyOf(config.ltApiKey))
    ensures config.DeepL? ==> t == DeepLTranslator(config.deeplApiKey.value)
    ensures config.GoogleBasic? ==> t == GoogleBasicTranslator(config.googleBasicApiKey.value)
    ensures config.Rolling? ==>
      t.RollingTranslator? && |t.translators| == |config.translators| &&
      t.fallback == CreateTranslator(config.fallback) &&
      forall i :: 0 <= i < |config.translators| ==> t.translators[i] == CreateTranslator(config.translators[i])
    ensures config.Caching? ==>
      t == CachingTranslator(CreateTranslator(config.cachingTranslator), config.maximumSize,
                             config.successRetention, config.failureRetention)
  {
    match config
    case None => Noop
    case LibreTranslate(endpoint, key) => LibreTranslateTranslator(endpoint, KeyOf(key))
    case DeepL(key) => DeepLTranslator(key.value)
    case GoogleBasic(key) => GoogleBasicTranslator(key.value)
    case Rolling(translators, fallback) =>
      RollingTranslator(seq(|translators|, i requires 0 <= i < |translators| => CreateTranslator(translators[i])),
                        CreateTranslator(fallback))
    case Caching(inner, maximumSize, success, failure) =>
      CachingTranslator(CreateTranslator(inner), maximumSize, success, failure)
  }

  /** Reads back the configuration a translator tree was built from. */
  function BackendOf(t: Translator): Backend
    decreases t
  {
    match t
    case Noop => Backend.None
    case LibreTranslateTranslator(endpoint, key) =>
      LibreTranslate(endpoint, match key case None => Option.None case Some(k) => Option.Some(Secret(k)))
    case DeepLTranslator(key) => DeepL(Secret(key))
    case GoogleBasicTranslator(key) => GoogleBasic(Secret(key))
    case RollingTranslator(translators, fallback) =>
      Rolling(seq(|translators|, i requires 0 <= i < |translators| => BackendOf(translators[i])), BackendOf(fallback))
    case CachingTranslator(inner, maximumSize, success, failure) =>
      Caching(BackendOf(inner), maximumSize, success, failure)
  }

  /** The builder loses nothing: every configured field, at every depth, is found in the tree it builds. */
  lemma {:induction false} CreateTranslatorFaithful(config: Backend)
    ensures BackendOf(CreateTranslator(config)) == config
    decreases config
  {
    match config
    case None =>
    case LibreTranslate(endpoint, key) =>
    case DeepL(key) =>
    case GoogleBasic(key) =>
    case Rolling(translators, fallback) =>
      var built := CreateTranslator(config);
      forall i | 0 <= i < |translators|
        ensures BackendOf(built.translators[i]) == translators[i]
      {
        CreateTranslatorFaithful(translators[i]);
      }
      CreateTranslatorFaithful(fallback);
      assert BackendOf(built) == Rolling(seq(|translators|, i requires 0 <= i < |translators| => BackendOf(built.translators[i])), BackendOf(built.fallback));
    case Caching(inner, maximumSize, success, failure) =>
      CreateTranslatorFaithful(inner);
  }

  /** Distinct configurations build distinct translators. */
  lemma CreateTranslatorInjective(a: Backend, b: Backend)
    requires CreateTranslator(a) == CreateTranslator(b)
    ensures a == b
  {
    CreateTranslatorFaithful(a);
    CreateTranslatorFaithful(b);
  }

  /**
    * The languages request a Google leaf makes while it is built, answered by API key. Building a
    * Google translator fetches the supported languages and throws on any status but 200.
    */
  type FetchLanguages = string -> G.LanguagesResponse

  /** The API keys of the Google leaves of a configuration tree, at every depth. */
  function GoogleKeys(config: Backend): set<string>
    decreases config
  {
    match config
    case GoogleBasic(key) => {key.value}
    case Rolling(translators, fallback) =>
      (set i, k | 0 <= i < |translators| && k in GoogleKeys(translators[i]) :: k) + GoogleKeys(fallback)
    case Caching(inner, _, _, _) => GoogleKeys(inner)
    case _ => {}
  }

  /** The first failure of a list of builds, in order. */
  function FirstFailure(failures: seq<Option<int>>): (f: Option<int>)
    ensures f.None? <==> forall i :: 0 <= i < |failures| ==> failures[i].None?
    ensures f.Some? ==> f in failures
  {
    if failures == [] then Option.None
    else if failures[0].Some? then failures[0]
    else FirstFailure(failures[1..])
  }

  /**
    * Whether createTranslator throws: the status of the first Google leaf, in build order, whose
    * languages request does not answer 200; None when the whole tree builds.
    */
  function BuildFailure(config: Backend, fetch: FetchLanguages): Option<int>
    decreases config
  {
    match config
    case GoogleBasic(key) =>
      (match G.Create(key.value, fetch(key.value)) case Err(status) => Some(status) case Ok(_) => Option.None)
    case Rolling(translators, fallback) =>
      FirstFailure(seq(|translators|, i requires 0 <= i < |translators| => BuildFailure(translators[i], fetch))
                   + [BuildFailure(fallback, fetch)])
    case Caching(inner, _, _, _) => BuildFailure(inner, fetch)
    case _ => Option.None
  }

  /**
    * The tree builds exactly when every Google leaf's languages request answers 200; a failure
    * reports the non-200 status of one of the leaves.
    */
  lemma {:induction false} BuildFailureIff(config: Backend, fetch: FetchLanguages)
    decreases config
    ensures BuildFailure(config, fetch).None? <==> forall k :: k in GoogleKeys(config) ==> fetch(k).status == 200
    ensures BuildFailure(config, fetch).Some? ==>
      exists k :: k in GoogleKeys(config) && fetch(k).status == BuildFailure(config, fetch).value != 200
  {
    match config
    case None =>
    case LibreTranslate(_, _) =>
    case DeepL(_) =>
    case GoogleBasic(key) =>
    case Rolling(translators, fallback) =>
      var failures := seq(|translators|, i requires 0 <= i < |translators| => BuildFailure(translators[i], fetch))
                      + [BuildFailure(fallback, fetch)];
      forall i | 0 <= i < |translators| {
        BuildFailureIff(translators[i], fetch);
      }
      BuildFailureIff(fallback, fetch);
      var f := BuildFailure(config, fetch);
      if f.Some? {
        var i :| 0 <= i < |failures| && failures[i] == f;
        var sub := if i < |translators| then translators[i] else fallback;
        assert failures[i] == BuildFailure(sub, fetch);
        var k :| k in GoogleKeys(sub) && fetch(k).status == f.value != 200;
        assert k in GoogleKeys(config);
      } else {
        forall k | k in GoogleKeys(config) ensures fetch(k).status == 200 {
          if k !in GoogleKeys(fallback) {
            var i :| 0 <= i < |translators| && k in GoogleKeys(translators[i]);
            assert failures[i] == BuildFailure(translators[i], fetch);
          } else {
            assert failures[|translators|] == BuildFailure(fallback, fetch);
          }
        }
      }
    case Caching(inner, _, _, _) =>
      BuildFailureIff(inner, fetch);
  }

  /** The answer of a held translator to a translate or translateDetecting call. */
  type TranslateAnswer = (Translator, string, Locale, Locale) -> Result<string, TranslationError>
  type DetectingAnswer = (Translator, string, Locale, Locale) -> Result<TranslatedText, TranslationError>

  class TranslatorProxy {
    var translator: Translator

    constructor(config: Backend)
      ensures translator == CreateTranslator(config)
    {
      translator := CreateTranslator(config);
    }

    /** Delegates to the held translator. */
    method Translate(text: string, source: Locale, target: Locale, run: TranslateAnswer) returns (r: Result<string, TranslationError>)
      ensures r == run(translator, text, source, target)
    {
      r := run(translator, text, source, target);
    }

    /** Delegates to the held translator. */
    method TranslateDetecting(text: string, source: Locale, target: Locale, run: DetectingAnswer)
      returns (r: Result<TranslatedText, TranslationError>)
      ensures r == run(translator, text, source, target)
    {
      r := run(translator, text, source, target);
    }

    /**
      * A reload replaces the held translator with one built from the new backend configuration.
      * When building throws, the reload fails with that status and the old translator stays.
      */
    method OnFlexConfigReload(config: FlexConfig, fetch: FetchLanguages) returns (failure: Option<int>)
      modifies this
      ensures failure == BuildFailure(config.translator.backend, fetch)
      ensures failure.None? ==> translator == CreateTranslator(config.translator.backend)
      ensures failure.Some? ==> translator == old(translator)
    {
      failure := BuildFailure(config.translator.backend, fetch);
      if failure.None? {
        translator := CreateTranslator(config.translator.backend);
      }
    }
  }

  /**
    * After a reload, a call is answered by the translator built from the new configuration, or by
    * the old one when the reload failed.
    */
  method ReloadThenTranslate(proxy: TranslatorProxy, config: FlexConfig, fetch: FetchLanguages,
                             text: string, source: Locale, target: Locale, run: DetectingAnswer)
    returns (failure: Option<int>, r: Result<TranslatedText, TranslationError>)
    modifies proxy
    ensures failure == BuildFailure(config.translator.backend, fetch)
    ensures failure.None? ==> r == run(CreateTranslator(config.translator.backend), text, source, target)
    ensures failure.Some? ==> r == run(old(proxy.translator), text, source, target)
  {
    failure := proxy.OnFlexConfigReload(config, fetch);
    r := proxy.TranslateDetecting(text, source, target, run);
  }
}
