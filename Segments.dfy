/** The values a HanLP tokenizer is built from: the analysis configuration's
    four behavioural toggles, the statistical model handles an engine may hold,
    and the segmentation engines themselves, which are kept abstract. */
module Segments {

  datatype Option<+T> = None | Some(value: T)

  /** The toggles of the analysis configuration that tokenizer creation may
      overwrite. Each `EnableX(b)` sets toggle X to `b` and hands back the
      updated configuration, so that calls chain as they do on the shared
      configuration object. */
  datatype Config = Config(
    indexMode: bool,
    customDictionary: bool,
    placeRecognize: bool,
    organizationRecognize: bool)
  {
    function EnableIndexMode(enable: bool): Config {
      this.(indexMode := enable)
    }

    function EnableCustomDictionary(enable: bool): Config {
      this.(customDictionary := enable)
    }

    function EnablePlaceRecognize(enable: bool): Config {
      this.(placeRecognize := enable)
    }

    function EnableOrganizationRecognize(enable: bool): Config {
      this.(organizationRecognize := enable)
    }
  }

  /** The lazily loaded statistical models, one per model singleton. */
  datatype Model =
    | PerceptronSegmenter
    | PerceptronTagger
    | PerceptronRecognizer
    | CrfSegmenter
    | CrfTagger
    | CrfRecognizer

  /** The toggles set on a graph-search segment when it is built. */
  datatype SegmentToggles = SegmentToggles(
    customDictionary: bool,
    placeRecognize: bool,
    organizationRecognize: bool)

  /** A segmentation engine. Its algorithm is opaque; what is recorded is
      which engine it is, which toggles were set on it when it was built,
      and which models it holds. */
  datatype Engine =
      /** The general-purpose segment of `HanLP.newSegment()`; `indexMode`
          records whether index mode was switched on when it was built. */
    | NewSegment(indexMode: bool)
      /** The perceptron lexical analyser over its three linear models. */
    | PerceptronAnalyzer(cws: Model, pos: Model, ner: Model)
      /** The CRF lexical analyser: a segmenter, then optionally a
          part-of-speech tagger and a named-entity recogniser. */
    | CrfAnalyzer(segmenter: Model, tagger: Option<Model>, recognizer: Option<Model>)
    | NShortSegment(toggles: SegmentToggles)
    | DijkstraSegment(toggles: SegmentToggles)
      /** The dictionary-only double-array trie segment. */
    | DoubleArrayTrieSegment(customDictionary: bool)
  {
    /** The statistical models the engine holds. */
    function Models(): set<Model> {
      match this
      case PerceptronAnalyzer(cws, pos, ner) => {cws, pos, ner}
      case CrfAnalyzer(seg, tagger, recognizer) =>
        {seg}
        + (if tagger.Some? then {tagger.value} else {})
        + (if recognizer.Some? then {recognizer.value} else {})
      case _ => {}
    }
  }

  /** What a tokenizer is built from: the engine and the configuration it
      reads. */
  datatype Tokenizer = Tokenizer(segment: Engine, configuration: Config)

  /** Runs an engine-building action in a privileged context. The privilege
      scope has no effect on the engine that is built, so the action is
      simply applied. */
  function RunPrivileged<T>(action: () -> T): T {
    action()
  }
}
