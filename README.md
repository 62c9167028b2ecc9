# HanLP tokenizer factory

A model of the tokenizer factory of the OpenSearch HanLP analysis plugin.
A factory is bound to one segmentation kind (`HanLPType`) when one of its
eight static `get…TokenizerFactory` methods builds it, and the kind never
changes. Each `create()` call then:

- picks the segmentation engine for that kind: the general-purpose HanLP
  segment, with or without index mode; the perceptron analyser; the CRF
  analyser; the N-shortest-path, Dijkstra or double-array-trie segment;
- may first overwrite toggles of the factory's shared analysis
  configuration: index mode, custom dictionary, place-name recognition and
  organisation-name recognition;
- for the CRF kind, builds the richest analyser the loaded models allow:
  segmenter only when the part-of-speech tagger is missing, segmenter and
  tagger when only the named-entity recogniser is missing, all three
  otherwise.

`Segments.dfy` holds the values: the configuration's four toggles with the
fluent `EnableX(b)` updates, the model handles, and the engines as
constructors that record which toggles they were built with and which
models they hold. `TokenizerFactory.dfy` holds the kind, the specification
functions of `create()` (`ConfigAfterCreate`, `EngineFor`,
`CrfAnalyzerFor`), the lemmas about them, and the factory class. The class
has a `const kind` and a mutable `configuration`. Its `Create` method
updates the configuration in place and is proved against the specification
functions.

Whether the CRF tagger and recogniser singletons hold a model is a pair of
boolean inputs to `Create`. The host settings that the configuration is
read from become the constructor's `settings` parameter.

## Model

| member | source | states |
|---|---|---|
| TokenizerFactory.HanLPTokenizerFactory.constructor | src/main/java/org/opensearch/index/analysis/HanLPTokenizerFactory.java:42-46 | the factory is bound to the given kind, and its configuration is the one read from the settings |
| TokenizerFactory.HanLPTokenizerFactory.GetHanLPTokenizerFactory | src/main/java/org/opensearch/index/analysis/HanLPTokenizerFactory.java:48-51 | returns a new factory bound to the default HanLP kind |
| TokenizerFactory.HanLPTokenizerFactory.GetStandardTokenizerFactory | src/main/java/org/opensearch/index/analysis/HanLPTokenizerFactory.java:53-56 | returns a new factory bound to the standard kind |
| TokenizerFactory.HanLPTokenizerFactory.GetIndexTokenizerFactory | src/main/java/org/opensearch/index/analysis/HanLPTokenizerFactory.java:58-61 | returns a new factory bound to the index kind |
| TokenizerFactory.HanLPTokenizerFactory.GetNLPTokenizerFactory | src/main/java/org/opensearch/index/analysis/HanLPTokenizerFactory.java:63-66 | returns a new factory bound to the perceptron (NLP) kind |
| TokenizerFactory.HanLPTokenizerFactory.GetCRFTokenizerFactory | src/main/java/org/opensearch/index/analysis/HanLPTokenizerFactory.java:68-71 | returns a new factory bound to the CRF kind |
| TokenizerFactory.HanLPTokenizerFactory.GetNShortTokenizerFactory | src/main/java/org/opensearch/index/analysis/HanLPTokenizerFactory.java:73-76 | returns a new factory bound to the N-shortest-path kind |
| TokenizerFactory.HanLPTokenizerFactory.GetDijkstraTokenizerFactory | src/main/java/org/opensearch/index/analysis/HanLPTokenizerFactory.java:78-81 | returns a new factory bound to the Dijkstra kind |
| TokenizerFactory.HanLPTokenizerFactory.GetSpeedTokenizerFactory | src/main/java/org/opensearch/index/analysis/HanLPTokenizerFactory.java:83-86 | returns a new factory bound to the speed (double-array trie) kind |
| TokenizerFactory.HanLPTokenizerFactory.Create | src/main/java/org/opensearch/index/analysis/HanLPTokenizerFactory.java:88-162 | the new configuration is `ConfigAfterCreate` of the kind and the old configuration; the tokenizer pairs `EngineFor` of the kind and the availability flags with that new configuration; the kind is a constant |
| TokenizerFactory.ConfigAfterCreate | src/main/java/org/opensearch/index/analysis/HanLPTokenizerFactory.java:88-161 | index mode is switched on only by the index kind; the custom dictionary is switched off by the N-shortest-path, Dijkstra and speed kinds and by no other; place and organisation recognition are switched on by the two graph kinds only; every other toggle keeps its old value; the HanLP, standard, NLP and CRF kinds leave the configuration unchanged |
| TokenizerFactory.EngineFor | src/main/java/org/opensearch/index/analysis/HanLPTokenizerFactory.java:88-161 | each kind builds its own engine family and no other; the base segment has index mode on exactly for the index kind; NLP always combines the three perceptron models; the graph segments are built with custom dictionary off and place and organisation recognition on; the trie segment with custom dictionary off; only the CRF engine depends on model availability |
| TokenizerFactory.CrfAnalyzerFor | src/main/java/org/opensearch/index/analysis/HanLPTokenizerFactory.java:104-129 | the CRF analyser always holds the segmenter; it holds the tagger exactly when the tagger is available; it holds the recogniser exactly when both tagger and recogniser are available; it holds only available models |
| TokenizerFactory.CrfRichestAvailable | src/main/java/org/opensearch/index/analysis/HanLPTokenizerFactory.java:104-129 | the CRF analyser never has the recogniser without the tagger; it is one of the three composites (segmenter, +tagger, +recogniser); it includes every composite whose models are all available |
| TokenizerFactory.CrfMonotone | src/main/java/org/opensearch/index/analysis/HanLPTokenizerFactory.java:104-129 | making more optional models available never removes a model from the CRF analyser |
| TokenizerFactory.CreateIdempotentOnConfig | src/main/java/org/opensearch/index/analysis/HanLPTokenizerFactory.java:88-161 | applying `create()`'s configuration update twice gives the same configuration as applying it once |
| TokenizerFactory.RepeatedCreateSettles | src/main/java/org/opensearch/index/analysis/HanLPTokenizerFactory.java:88-161 | after any positive number of `create()` calls the configuration is the one the first call left |
| TokenizerFactory.EngineAgreesWithConfig | src/main/java/org/opensearch/index/analysis/HanLPTokenizerFactory.java:130-154 | every toggle set on the engine (index mode, custom dictionary, place and organisation recognition) has the same value in the configuration handed to the tokenizer, whatever the prior configuration |
| TokenizerFactory.CreateTwice | src/main/java/org/opensearch/index/analysis/HanLPTokenizerFactory.java:88-162 | two successive `create()` calls with the same model availability return equal tokenizers, and the configuration is as after one call |

## Left out

- `AccessController.doPrivileged` is the identity application `RunPrivileged` of the engine-building closure. Security-manager permission checks and their failures are not modelled.
- `TokenizerBuilder.tokenizer` and the Lucene `Tokenizer` are foreign token-stream code. `create()` returns a `Tokenizer` value that pairs the engine with the configuration.
- TokenizerFactory.HanLPTokenizerFactory.Create: the tokenizer holds a copy of the configuration, not a reference to the shared object, so a later `create()` call that changes a toggle is not seen by tokenizers made earlier. Because every arm sets constants (`RepeatedCreateSettles`), only the first call of a factory can change the configuration at all.
- The HanLP engines (`HanLP.newSegment`, `NShortSegment`, `DijkstraSegment`, `DoubleArrayTrieSegment`, `CRFLexicalAnalyzer`, `PerceptronLexicalAnalyzer`) are opaque statistical and graph algorithms. They are constructors of `Engine` that record only the toggles set when they are built and the models they hold. The defaults of the general-purpose segment are not part of this model: `NewSegment(false)` means index mode was not switched on.
- The lazy model singletons (`com.hankcs.model.*Instance`) are not part of this model. Thread-safe loading from files is not modelled. Whether the CRF tagger and recogniser are loaded is a boolean input to `Create`.
- The CRF segmenter and the three perceptron models are assumed to be loaded, because the source never checks them for null. Failure to load them is not modelled.
- `HanLPType` is not part of this model. It is modelled with exactly the eight kinds the static factories bind, so the `default` arm of the switch behaves like the HanLP and standard arms and is not modelled separately.
- Building `Configuration(env, settings)` from the host settings, and the `AbstractTokenizerFactory`/`IndexSettings` superclass, are host plumbing. The read configuration is the `settings` parameter. The index settings, environment and name are left out.
