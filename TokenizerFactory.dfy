/** The HanLP tokenizer factory: each factory is bound to one segmentation
    kind for its lifetime, and every `Create` call picks the engine for that
    kind, possibly overwriting toggles of the factory's configuration first. */
module TokenizerFactory {
  import opened Segments

  /** The segmentation kinds a factory can be bound to. */
  datatype HanLPType = HanLP | Standard | Index | NLP | CRF | NShort | Dijkstra | Speed

  /** The configuration a factory of kind `kind` holds after one `Create`
      call that found it as `c`. */
  function ConfigAfterCreate(kind: HanLPType, c: Config): (r: Config)
    // Index mode is switched on by the index kind only.
    ensures r.indexMode == (c.indexMode || kind == Index)
    // The graph-search kinds and the speed kind switch the custom dictionary off.
    ensures r.customDictionary == (c.customDictionary && kind !in {NShort, Dijkstra, Speed})
    // Only the graph-search kinds switch place and organisation recognition on.
    ensures r.placeRecognize == (c.placeRecognize || kind in {NShort, Dijkstra})
    ensures r.organizationRecognize == (c.organizationRecognize || kind in {NShort, Dijkstra})
    // The default, standard, perceptron and CRF kinds leave it untouched.
    ensures kind in {HanLP, Standard, NLP, CRF} ==> r == c
  {
    match kind
    case Index => c.EnableIndexMode(true)
    case NShort | Dijkstra =>
      c.EnableCustomDictionary(false).EnablePlaceRecognize(true).EnableOrganizationRecognize(true)
    case Speed => c.EnableCustomDictionary(false)
    case HanLP | Standard | NLP | CRF => c
  }

  /** The CRF models loaded when the POS tagger and the NER recogniser are
      or are not available; the segmenter is always there. */
  function CrfAvailable(posTagger: bool, recognizer: bool): set<Model> {
    {CrfSegmenter}
    + (if posTagger then {CrfTagger} else {})
    + (if recognizer then {CrfRecognizer} else {})
  }

  /** The CRF composites in increasing richness. */
  function CrfLevels(): seq<set<Model>> {
    [{CrfSegmenter}, {CrfSegmenter, CrfTagger}, {CrfSegmenter, CrfTagger, CrfRecognizer}]
  }

  /** The CRF analyser built from whichever optional models are available. */
  function CrfAnalyzerFor(posTagger: bool, recognizer: bool): (r: Engine)
    ensures r.CrfAnalyzer? && r.segmenter == CrfSegmenter
    // The tagger is used exactly when it is available.
    ensures r.tagger.Some? <==> posTagger
    // The recogniser is used exactly when both it and the tagger are available.
    ensures r.recognizer.Some? <==> posTagger && recognizer
    ensures r.tagger.Some? ==> r.tagger.value == CrfTagger
    ensures r.recognizer.Some? ==> r.recognizer.value == CrfRecognizer
    // Only available models are used.
    ensures r.Models() <= CrfAvailable(posTagger, recognizer)
  {
    if !posTagger then
      CrfAnalyzer(CrfSegmenter, None, None)
    else if !recognizer then
      CrfAnalyzer(CrfSegmenter, Some(CrfTagger), None)
    else
      CrfAnalyzer(CrfSegmenter, Some(CrfTagger), Some(CrfRecognizer))
  }

  /** The engine a factory of kind `kind` builds, given whether the CRF
      POS tagger and NER recogniser are available. */
  function EngineFor(kind: HanLPType, posTagger: bool, recognizer: bool): (r: Engine)
    // Each kind builds its own family of engine and no other.
    ensures r.NewSegment? <==> kind in {HanLP, Standard, Index}
    ensures r.PerceptronAnalyzer? <==> kind == NLP
    ensures r.CrfAnalyzer? <==> kind == CRF
    ensures r.NShortSegment? <==> kind == NShort
    ensures r.DijkstraSegment? <==> kind == Dijkstra
    ensures r.DoubleArrayTrieSegment? <==> kind == Speed
    // Index mode is on in the base segment exactly for the index kind.
    ensures r.NewSegment? ==> (r.indexMode <==> kind == Index)
    // The perceptron analyser always combines all three perceptron models.
    ensures r.PerceptronAnalyzer? ==>
      r.Models() == {PerceptronSegmenter, PerceptronTagger, PerceptronRecognizer}
    // The graph-search segments are built without the custom dictionary and
    // with place and organisation recognition.
    ensures r.NShortSegment? || r.DijkstraSegment? ==>
      r.toggles == SegmentToggles(false, true, true)
    ensures r.DoubleArrayTrieSegment? ==> !r.customDictionary
    // Only the CRF kind depends on which models are available.
    ensures kind != CRF ==> r == EngineFor(kind, false, false)
  {
    match kind
    case Index => NewSegment(true)
    case NLP => PerceptronAnalyzer(PerceptronSegmenter, PerceptronTagger, PerceptronRecognizer)
    case CRF => CrfAnalyzerFor(posTagger, recognizer)
    case NShort => NShortSegment(SegmentToggles(false, true, true))
    case Dijkstra => DijkstraSegment(SegmentToggles(false, true, true))
    case Speed => DoubleArrayTrieSegment(false)
    case HanLP | Standard => NewSegment(false)
  }

  /** Every toggle an engine was built with agrees with the configuration
      the tokenizer is given. */
  predicate AgreesWith(e: Engine, c: Config) {
    match e
    case NewSegment(indexMode) => indexMode ==> c.indexMode
    case NShortSegment(t) =>
      t.customDictionary == c.customDictionary
      && t.placeRecognize == c.placeRecognize
      && t.organizationRecognize == c.organizationRecognize
    case DijkstraSegment(t) =>
      t.customDictionary == c.customDictionary
      && t.placeRecognize == c.placeRecognize
      && t.organizationRecognize == c.organizationRecognize
    case DoubleArrayTrieSegment(customDictionary) => customDictionary == c.customDictionary
    case _ => true
  }

  /** The configuration after `n` successive `Create` calls from `c`. */
  function ConfigAfterCalls(kind: HanLPType, c: Config, n: nat): Config {
    if n == 0 then c else ConfigAfterCreate(kind, ConfigAfterCalls(kind, c, n - 1))
  }

  /** Every arm sets toggles to constants, so a second `Create` call does
      not change the configuration any further. */
  lemma CreateIdempotentOnConfig(kind: HanLPType, c: Config)
    ensures ConfigAfterCreate(kind, ConfigAfterCreate(kind, c)) == ConfigAfterCreate(kind, c)
  {
  }

  /** However many times a factory is asked for a tokenizer, its
      configuration ends up as after the first call. */
  lemma {:induction false} RepeatedCreateSettles(kind: HanLPType, c: Config, n: nat)
    requires n >= 1
    ensures ConfigAfterCalls(kind, c, n) == ConfigAfterCreate(kind, c)
  {
    if n > 1 {
      RepeatedCreateSettles(kind, c, n - 1);
      CreateIdempotentOnConfig(kind, c);
    }
  }

  /** The engine built by `Create` and the configuration it hands to the
      tokenizer agree on every toggle the engine was built with, whatever
      the configuration was before. */
  lemma EngineAgreesWithConfig(kind: HanLPType, c: Config, posTagger: bool, recognizer: bool)
    ensures AgreesWith(EngineFor(kind, posTagger, recognizer), ConfigAfterCreate(kind, c))
  {
  }

  /** The CRF analyser never holds the recogniser without the tagger, is one
      of the three composites, and is the richest composite whose models are
      all available. */
  lemma CrfRichestAvailable(posTagger: bool, recognizer: bool)
    ensures CrfRecognizer in CrfAnalyzerFor(posTagger, recognizer).Models() ==>
      CrfTagger in CrfAnalyzerFor(posTagger, recognizer).Models()
    ensures CrfAnalyzerFor(posTagger, recognizer).Models() in CrfLevels()
    ensures forall i :: 0 <= i < |CrfLevels()| && CrfLevels()[i] <= CrfAvailable(posTagger, recognizer) ==>
      CrfLevels()[i] <= CrfAnalyzerFor(posTagger, recognizer).Models()
  {
    var models := CrfAnalyzerFor(posTagger, recognizer).Models();
    if !posTagger {
      assert models == CrfLevels()[0];
    } else if !recognizer {
      assert models == CrfLevels()[1];
    } else {
      assert models == CrfLevels()[2];
    }
  }

  /** Making more optional models available never makes the CRF analyser
      poorer. */
  lemma CrfMonotone(pos1: bool, ner1: bool, pos2: bool, ner2: bool)
    requires pos1 ==> pos2
    requires ner1 ==> ner2
    ensures CrfAnalyzerFor(pos1, ner1).Models() <= CrfAnalyzerFor(pos2, ner2).Models()
  {
  }

  /** A tokenizer factory. Its kind is fixed at construction; its
      configuration is shared by every tokenizer it creates and `Create`
      may overwrite some of its toggles. */
  class HanLPTokenizerFactory {
    const kind: HanLPType
    var configuration: Config

    /** `settings` is the configuration read from the host's settings. */
    constructor (settings: Config, kind: HanLPType)
      ensures this.kind == kind && configuration == settings
    {
      this.kind := kind;
      configuration := settings;
    }

    static method GetHanLPTokenizerFactory(settings: Config) returns (f: HanLPTokenizerFactory)
      ensures fresh(f) && f.kind == HanLP && f.configuration == settings
    {
      f := new HanLPTokenizerFactory(settings, HanLP);
    }

    static method GetStandardTokenizerFactory(settings: Config) returns (f: HanLPTokenizerFactory)
      ensures fresh(f) && f.kind == Standard && f.configuration == settings
    {
      f := new HanLPTokenizerFactory(settings, Standard);
    }

    static method GetIndexTokenizerFactory(settings: Config) returns (f: HanLPTokenizerFactory)
      ensures fresh(f) && f.kind == Index && f.configuration == settings
    {
      f := new HanLPTokenizerFactory(settings, Index);
    }

    static method GetNLPTokenizerFactory(settings: Config) returns (f: HanLPTokenizerFactory)
      ensures fresh(f) && f.kind == NLP && f.configuration == settings
    {
      f := new HanLPTokenizerFactory(settings, NLP);
    }

    static method GetCRFTokenizerFactory(settings: Config) returns (f: HanLPTokenizerFactory)
      ensures fresh(f) && f.kind == CRF && f.configuration == settings
    {
      f := new HanLPTokenizerFactory(settings, CRF);
    }

    static method GetNShortTokenizerFactory(settings: Config) returns (f: HanLPTokenizerFactory)
      ensures fresh(f) && f.kind == NShort && f.configuration == settings
    {
      f := new HanLPTokenizerFactory(settings, NShort);
    }

    static method GetDijkstraTokenizerFactory(settings: Config) returns (f: HanLPTokenizerFactory)
      ensures fresh(f) && f.kind == Dijkstra && f.configuration == settings
    {
      f := new HanLPTokenizerFactory(settings, Dijkstra);
    }

    static method GetSpeedTokenizerFactory(settings: Config) returns (f: HanLPTokenizerFactory)
      ensures fresh(f) && f.kind == Speed && f.configuration == settings
    {
      f := new HanLPTokenizerFactory(settings, Speed);
    }

    /** Builds a tokenizer for this factory's kind. `posTagger` and
        `recognizer` say whether the CRF part-of-speech tagger and
        named-entity recogniser singletons hold a model. */
    method Create(posTagger: bool, recognizer: bool) returns (t: Tokenizer)
      modifies this
      ensures configuration == ConfigAfterCreate(kind, old(configuration))
      ensures t == Tokenizer(EngineFor(kind, posTagger, recognizer), configuration)
    {
      match kind
      case Index =>
        configuration := configuration.EnableIndexMode(true);
        t := Tokenizer(RunPrivileged(() => NewSegment(true)), configuration);
      case NLP =>
        var segment := RunPrivileged(() =>
          PerceptronAnalyzer(PerceptronSegmenter, PerceptronTagger, PerceptronRecognizer));
        t := Tokenizer(segment, configuration);
      case CRF =>
        if !posTagger {
          t := Tokenizer(RunPrivileged(() => CrfAnalyzer(CrfSegmenter, None, None)), configuration);
        } else if !recognizer {
          var segment := RunPrivileged(() => CrfAnalyzer(CrfSegmenter, Some(CrfTagger), None));
          t := Tokenizer(segment, configuration);
        } else {
          var segment := RunPrivileged(() =>
            CrfAnalyzer(CrfSegmenter, Some(CrfTagger), Some(CrfRecognizer)));
          t := Tokenizer(segment, configuration);
        }
      case NShort =>
        configuration :=
          configuration.EnableCustomDictionary(false).EnablePlaceRecognize(true).EnableOrganizationRecognize(true);
        t := Tokenizer(RunPrivileged(() => NShortSegment(SegmentToggles(false, true, true))), configuration);
      case Dijkstra =>
        configuration :=
          configuration.EnableCustomDictionary(false).EnablePlaceRecognize(true).EnableOrganizationRecognize(true);
        t := Tokenizer(RunPrivileged(() => DijkstraSegment(SegmentToggles(false, true, true))), configuration);
      case Speed =>
        configuration := configuration.EnableCustomDictionary(false);
        t := Tokenizer(RunPrivileged(() => DoubleArrayTrieSegment(false)), configuration);
      case HanLP | Standard =>
        t := Tokenizer(RunPrivileged(() => NewSegment(false)), configuration);
    }
  }

  /** A client of the factory: a second tokenizer from the same factory sees
      the configuration the first one saw, and the same engine when the
      model availability has not changed. */
  method CreateTwice(f: HanLPTokenizerFactory, posTagger: bool, recognizer: bool)
    returns (first: Tokenizer, second: Tokenizer)
    modifies f
    ensures first == second
    ensures f.configuration == ConfigAfterCreate(f.kind, old(f.configuration))
  {
    first := f.Create(posTagger, recognizer);
    CreateIdempotentOnConfig(f.kind, old(f.configuration));
    second := f.Create(posTagger, recognizer);
  }
}
