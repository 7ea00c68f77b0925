# Flex message pipeline and translators, modelled in Dafny

Flex is a text-processing library for Mindustry servers. This project models four pieces of it:

- **The message pipeline** (`message_pipeline_impl.dfy`, module `Pipeline`).
  - `pump` threads a chat message through the registered processors in their sorted order. A processor that fails leaves the running result unchanged. The loop stops at the first blank result.
  - `broadcast` pumps the message once per recipient, renders it through the `%template:<name>%` placeholder, and delivers it. A message that is blank after pumping or after rendering is dropped. A foo-client recipient under the compatibility flag is shown an empty sender.
  - The built-in `foo_sign_strip` processor removes the foo client's two-character invisible signature.
  - The set of foo clients grows on a `fooCheck` packet and shrinks when a player leaves.
  - The pipeline object is a class whose `config` and `foo` fields its handlers reassign. `Pump` is a loop proved against an index-based specification (`Running`, `StopFrom`, `PumpResult`, `Calls`).
- **The message values** (`message_pipeline.dfy`, module `Messages`): `MessageContext` with its defaults, `Kind`, audiences and placeholder queries.
- **The Google basic translator** (`google_basic_translator.dfy`, module `GoogleBasic`).
  - What it decides around its HTTP requests: the ROUTER and passthrough short-circuits, the negotiation of locales against the supported set, the query parameters, the status checks, and which detected locale is reported.
  - The HTTP exchange is a function parameter from query parameters to the parsed response.
- **The translator proxy** (`translator_proxy.dfy`, module `Proxy`).
  - `createTranslator` builds a translator tree from the configured backend tree. The model proves it loses nothing by reading the configuration back from the tree.
  - Building a Google leaf fetches its supported languages and throws unless the request answers 200. The model states when a tree's build throws, taking the other translators' factories never to throw.
  - The proxy object delegates to the translator it holds. A reload replaces it when the new tree builds and keeps the old one otherwise.

Shared vocabulary lives in `common.dfy` (options, results, Kotlin's `isBlank`), `translation.dfy` (locales and the parsing of language tags, the AUTO_DETECT and ROUTER sentinels, translation results) and `config.dfy` (the configuration tree).

Two behaviours of the code that the model keeps:

- With ROUTER as source or target, `translateDetecting` completes with the literal text `"router"` and no detected locale. It does not return the input text.
- The target locale is negotiated only when the source needed no fallback. This is the `else if` of GoogleBasicTranslator.kt:58-68. When the source falls back, the target is sent unchecked.

## Model

| member | source | states |
|---|---|---|
| Pipeline.MessagePipelineImpl.Pump | src/main/kotlin/com/xpdustry/flex/message/MessagePipelineImpl.kt:84-103 | the loop completes with the specified pump result, and the contexts it hands to the processors are exactly the specified call sequence |
| Pipeline.StopFromFacts | src/main/kotlin/com/xpdustry/flex/message/MessagePipelineImpl.kt:87-101 | from any point on, pump goes on past every non-blank running result and stops at the first blank one; when a processor is left, it calls at least one more |
| Pipeline.CallsPrefixStep | src/main/kotlin/com/xpdustry/flex/message/MessagePipelineImpl.kt:87-90 | each call extends the calls before it with the context carrying the current running result |
| Pipeline.PumpWithoutProcessors | src/main/kotlin/com/xpdustry/flex/message/MessagePipelineImpl.kt:86-102 | with no processors, pump completes with the input message and calls nothing |
| Pipeline.PumpCallsContexts | src/main/kotlin/com/xpdustry/flex/message/MessagePipelineImpl.kt:87-90 | at most one call per processor; the first processor receives the original context even when its message is blank; every call keeps sender, target, filter and kind and replaces only the message |
| Pipeline.PumpThreadsResults | src/main/kotlin/com/xpdustry/flex/message/MessagePipelineImpl.kt:88-99 | each processor after the first receives the previous processor's output if it completed, and the unchanged previous result if it failed |
| Pipeline.PumpStopsAtBlank | src/main/kotlin/com/xpdustry/flex/message/MessagePipelineImpl.kt:100-102 | no running result before the last call is blank; the output is the last call's result; when processors were skipped, the output is blank |
| Pipeline.RunningOrigin | src/main/kotlin/com/xpdustry/flex/message/MessagePipelineImpl.kt:86-99 | every running result is the input message or the successful output of an earlier processor |
| Pipeline.PumpOutputOrigin | src/main/kotlin/com/xpdustry/flex/message/MessagePipelineImpl.kt:84-103 | pump's output is its input message or what one of the processors it called completed with; failures never invent text |
| Pipeline.StripFooSign | src/main/kotlin/com/xpdustry/flex/message/MessagePipelineImpl.kt:65-76 | the result is a prefix of the message; it differs only with the flag on, a foo-client sender and the last min(2, length) characters all in [0xF80, 0x107F), and then exactly those characters are dropped; whenever all three conditions hold they are dropped |
| Pipeline.MessagePipelineImpl.FooSignStrip | src/main/kotlin/com/xpdustry/flex/message/MessagePipelineImpl.kt:65-76 | the processor always completes successfully, with the stripping rule applied to the current flag and the sender's foo-client status |
| Pipeline.MessagePipelineImpl.constructor | src/main/kotlin/com/xpdustry/flex/message/MessagePipelineImpl.kt:52-60 | a new pipeline holds the given settings and no foo clients |
| Pipeline.MessagePipelineImpl.OnFooCheck | src/main/kotlin/com/xpdustry/flex/message/MessagePipelineImpl.kt:63 | the player joins the foo-client set and is then reported as a foo client; nothing else changes |
| Pipeline.MessagePipelineImpl.OnPlayerQuit | src/main/kotlin/com/xpdustry/flex/message/MessagePipelineImpl.kt:144-147 | the player leaves the foo-client set and is no longer reported as a foo client; the settings are kept |
| Pipeline.MessagePipelineImpl.OnFlexConfigReload | src/main/kotlin/com/xpdustry/flex/message/MessagePipelineImpl.kt:79-82 | a reload takes the new message settings and keeps the foo clients |
| Pipeline.MessagePipelineImpl.IsFooClient | src/main/kotlin/com/xpdustry/flex/message/MessagePipelineImpl.kt:149 | an audience without a MUUID is never a foo client; an audience with one is a foo client exactly when its MUUID is in the foo-client set |
| Pipeline.MessagePipelineImpl.ShownSender | src/main/kotlin/com/xpdustry/flex/message/MessagePipelineImpl.kt:136 | a foo-client recipient under the compatibility flag is shown the empty audience; any other recipient sees the real sender |
| Pipeline.MessagePipelineImpl.BroadcastTo | src/main/kotlin/com/xpdustry/flex/message/MessagePipelineImpl.kt:113-138 | a recipient is dropped by the pipeline exactly when the pumped message is blank; is delivered exactly when both the pumped message and the rendered template are non-blank; is delivered the rendered and pumped forms and the shown sender; the query is the `%template:<name>%` placeholder with the pumped message under flex:message |
| Pipeline.MessagePipelineImpl.Broadcast | src/main/kotlin/com/xpdustry/flex/message/MessagePipelineImpl.kt:105-142 | one outcome per recipient, each that recipient's branch, in the target's order |
| Pipeline.MessagePipelineImpl.BroadcastChat | src/main/kotlin/com/xpdustry/flex/message/MessagePipeline.kt:49-50 | the three-argument broadcast is broadcast with the chat template, and every query it renders names that template |
| Messages.ContextDefaultsAndCopy | src/main/kotlin/com/xpdustry/flex/message/MessagePipeline.kt:33-41 | a context built from sender, target and message is not filtering and is of kind CHAT; copying it with a new message changes only the message |
| Messages.KindIsChatOrCommand | src/main/kotlin/com/xpdustry/flex/message/MessagePipeline.kt:42-45 | a message kind is CHAT or COMMAND |
| GoogleBasic.Create | flex-translator/src/main/kotlin/com/xpdustry/flex/translator/GoogleBasicTranslator.kt:107-124 | construction fails exactly when the languages request does not answer 200; otherwise the supported set is exactly the locales parsed from the listed language tags |
| GoogleBasic.Negotiation | flex-translator/src/main/kotlin/com/xpdustry/flex/translator/GoogleBasicTranslator.kt:56-68 | an unsupported concrete source is retried language-only, or rejected with the source as given; only otherwise is an unsupported target retried or rejected; any negotiated source is AUTO_DETECT or supported |
| GoogleBasic.Negotiate | flex-translator/src/main/kotlin/com/xpdustry/flex/translator/GoogleBasicTranslator.kt:56-68 | the reassigning code computes exactly the negotiation above |
| GoogleBasic.Parameters | flex-translator/src/main/kotlin/com/xpdustry/flex/translator/GoogleBasicTranslator.kt:70-75 | the query holds key, q, target and format=text; it holds source exactly when the fixed source is not AUTO_DETECT; there are no other keys |
| GoogleBasic.RequestParameters | flex-translator/src/main/kotlin/com/xpdustry/flex/translator/GoogleBasicTranslator.kt:70-75 | the map built by update is that query |
| GoogleBasic.Decide | flex-translator/src/main/kotlin/com/xpdustry/flex/translator/GoogleBasicTranslator.kt:49-75 | ROUTER answers "router" with no locale; otherwise blank text or a shared language answers the input, detected as the source; nothing else is answered without a request; a rejection is the negotiation's error; a request carries the negotiated locales' query |
| GoogleBasic.HandleResponse | flex-translator/src/main/kotlin/com/xpdustry/flex/translator/GoogleBasicTranslator.kt:82-104 | a non-200 status fails with that status; otherwise the text is the translation, and the detected locale is the response's exactly when the source was AUTO_DETECT, else the fixed source |
| GoogleBasic.TranslateDetecting | flex-translator/src/main/kotlin/com/xpdustry/flex/translator/GoogleBasicTranslator.kt:49-105 | a request is sent exactly when the decision is a request, and only with the decided query; its response is handled as above; answers and rejections complete without traffic |
| GoogleBasic.Translate | flex-translator/src/main/kotlin/com/xpdustry/flex/translator/GoogleBasicTranslator.kt:45-47 | translate is translateDetecting with the detected locale dropped, sending the same request |
| GoogleBasic.RegionTagListed | flex-translator/src/main/kotlin/com/xpdustry/flex/translator/GoogleBasicTranslator.kt:118-123 | a listed region tag such as zh-TW is supported as the locale with language zh and region TW, not as a language of its own |
| GoogleBasic.RegionTagRequested | flex-translator/src/main/kotlin/com/xpdustry/flex/translator/GoogleBasicTranslator.kt:56-75 | a request into a supported region locale is sent with the whole tag zh-TW as its target |
| GoogleBasic.DetectedRegionTag | flex-translator/src/main/kotlin/com/xpdustry/flex/translator/GoogleBasicTranslator.kt:96-97 | a detected tag zh-CN is reported as the locale with language zh and region CN |
| GoogleBasic.FrenchToEnglishReportsFrench | flex-translator/src/test/kotlin/com/xpdustry/flex/translator/GoogleBasicTranslatorTest.kt:41-44 | French to English with both supported sends a request with French as source and reports French as detected |
| GoogleBasic.AutoDetectReportsResponse | flex-translator/src/test/kotlin/com/xpdustry/flex/translator/GoogleBasicTranslatorTest.kt:45-48 | with AUTO_DETECT as source, no source parameter is sent and the detected locale is the one the provider reports |
| Translation.ForLanguageTag | flex-translator/src/main/kotlin/com/xpdustry/flex/translator/GoogleBasicTranslator.kt:122 | parsing a tag takes its first subtag as the language and keeps the others in order; in the model, the parsed locale is written back as the same tag (in Java, legacy-code aliasing breaks this for one spelling of each of the pairs iw/he, ji/yi and in/id), and a tag without separators is a bare language |
| Translation.ForLanguageTagOfTag | flex-translator/src/main/kotlin/com/xpdustry/flex/translator/GoogleBasicTranslator.kt:71-74 | parsing the tag a locale is written as gives that locale back |
| Translation.LanguageOnly | flex-translator/src/main/kotlin/com/xpdustry/flex/translator/GoogleBasicTranslator.kt:59 | the language-only locale keeps the language and drops every other subtag; it equals the input exactly when the input had no other subtags |
| Proxy.CreateTranslator | src/main/kotlin/com/xpdustry/flex/translator/TranslatorProxy.kt:50-69 | each backend kind builds its own translator with its configured arguments; rolling builds one translator per listed backend, in order, plus the fallback; caching wraps the built inner translator |
| Proxy.CreateTranslatorFaithful | src/main/kotlin/com/xpdustry/flex/translator/TranslatorProxy.kt:50-69 | the configuration can be read back from the built tree, at every depth |
| Proxy.CreateTranslatorInjective | src/main/kotlin/com/xpdustry/flex/translator/TranslatorProxy.kt:50-69 | distinct configurations build distinct translators |
| Proxy.BuildFailureIff | src/main/kotlin/com/xpdustry/flex/translator/TranslatorProxy.kt:50-69 | in the model, where only Google leaves can fail to build, building a configuration tree throws exactly when the languages request of one of its Google leaves answers a status other than 200, and the failure reports such a status |
| Proxy.TranslatorProxy.constructor | src/main/kotlin/com/xpdustry/flex/translator/TranslatorProxy.kt:36-37 | the proxy starts with the translator built from its configuration |
| Proxy.TranslatorProxy.Translate | src/main/kotlin/com/xpdustry/flex/translator/TranslatorProxy.kt:39-40 | a call is answered by the held translator |
| Proxy.TranslatorProxy.TranslateDetecting | src/main/kotlin/com/xpdustry/flex/translator/TranslatorProxy.kt:42-43 | a call is answered by the held translator |
| Proxy.TranslatorProxy.OnFlexConfigReload | src/main/kotlin/com/xpdustry/flex/translator/TranslatorProxy.kt:45-48 | a reload that builds holds the translator built from the new backend configuration; a reload whose build throws fails with that status and keeps the old translator |
| Proxy.ReloadThenTranslate | src/main/kotlin/com/xpdustry/flex/translator/TranslatorProxy.kt:42-48 | after a reload, calls are answered by the translator built from the new configuration, or by the old one when the build failed |

## Left out

- HTTP, JSON parsing and executors are not modelled. Each translator request is a function parameter returning the parsed status and fields. A malformed JSON body is not modelled; the Kotlin code would throw on it.
- Futures, coroutines and `awaitAll` are not modelled. Each recipient's branch of `broadcast` is a value, and the model says nothing about the order in which recipients are served.
- The proxy's `@Volatile` publication and any concurrent reload are not modelled.
- The noop, LibreTranslate, DeepL, rolling and caching translators are not part of this model. Of the Google leaf, only its construction is modelled: `Translator.googleBasic` is taken to construct a `GoogleBasicTranslator`, whose constructor throws when the languages request does not answer 200 (`Proxy.BuildFailure`). Translator.kt is not part of this model. A built translator records only the arguments its factory received. Their answers are the `run` parameter of the proxy's methods.
- Processor registration, the priority comparator behind `processors.values.sorted()` and the `register` call of `foo_sign_strip` are not modelled. `Pump` receives the already-sorted processors, and `foo_sign_strip` is modelled as its own operation.
- Logging (including the processor error log and the reload messages) is left out.
- Packet-handler and event registration are not modelled. `OnFooCheck` and `OnPlayerQuit` are the handlers' bodies.
- The placeholder pipeline's `pump` is a function parameter of `broadcast`.
- The component decoding of the formatted and processed text before `sendMessage` is left out. A delivery records the two strings.
- Strings are sequences of `char`; UTF-16 surrogate pairs are not treated specially. `isBlank` follows Kotlin's whitespace set, listed code point by code point.
- Translator.AUTO_DETECT and Translator.ROUTER are modelled as the language-only locales "auto" and "router". Translator.kt is not part of this model.
- TemplateManager.CHAT_TEMPLATE_NAME is left as an unspecified constant. TemplateManager is not part of this model.
- Configured retention durations are passed through as they are; the conversion to java.time.Duration is taken as the identity.
- Translation.ForLanguageTag: tags are cut at every '-'. Java's rejection of ill-formed subtags, its case normalisation, its "und" for an empty language and its canonical ordering of script, region and variant are not modelled. The listed and detected codes are taken to be well-formed. Java's aliasing of the legacy language codes iw, ji and in with he, yi and id is not modelled either: in Java `forLanguageTag("iw")` equals `forLanguageTag("he")` and is written back under one spelling, whereas the model keeps the two codes apart, so a listed "iw" does not make "he" supported.
- Translation.ToLanguageTag: `Locale.toLanguageTag` is modelled as the subtags joined by '-', the inverse of the parser.
- Pipeline.MessagePipelineImpl.Broadcast: no branch can fail in the model, because rendering is a total function and a delivery is a record. In the Kotlin code an exception from the placeholder pipeline, the decoder or `sendMessage` in one branch fails the whole broadcast future through `awaitAll`; that is not modelled.
- Pipeline.MessagePipelineImpl.Broadcast: the recipients are a sequence of single audiences. `Audience.audiences` of a composite target is not modelled.
- Proxy.TranslatorProxy.constructor: models only a proxy whose initial build succeeds. When a Google leaf fails to build, the Kotlin constructor throws and no proxy exists; a Dafny constructor cannot fail, and `Proxy.BuildFailure` states when that happens.
- Proxy.BuildFailure: the languages request of a Google leaf is answered as a function of its API key, so two leaves with the same key get the same answer.
- Proxy.BuildFailureIff: the noop, LibreTranslate, DeepL, rolling and caching factories are taken never to throw, because their code in Translator.kt is not part of this model. Only a Google leaf's languages request can make a build fail, and the same assumption underlies `Proxy.TranslatorProxy.OnFlexConfigReload` and `Proxy.ReloadThenTranslate`.
