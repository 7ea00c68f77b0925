/** The parts of Flex's configuration the core reads: the message settings and the translator backend tree. */
module Config {
  import Common

  /** A configured secret (an API key); the translators receive its value. */
  datatype Secret = Secret(value: string)

  /** A retention time; its conversion to java.time.Duration is taken as the identity. */
  datatype Duration = Duration(nanoseconds: int)

  /** TranslatorConfig.Backend: a recursive description of the translator to build. */
  datatype Backend =
    | None
    | LibreTranslate(ltEndpoint: string, ltApiKey: Common.Option<Secret>)
    | DeepL(deeplApiKey: Secret)
    | GoogleBasic(googleBasicApiKey: Secret)
    | Rolling(translators: seq<Backend>, fallback: Backend)
    | Caching(cachingTranslator: Backend, maximumSize: int, successRetention: Duration, failureRetention: Duration)

  datatype TranslatorConfig = TranslatorConfig(backend: Backend)

  datatype MessageConfig = MessageConfig(fooClientCompatibility: bool)

  /** FlexConfig, as handed to every listener on a reload. */
  datatype FlexConfig = FlexConfig(translator: TranslatorConfig, messages: MessageConfig)
}
