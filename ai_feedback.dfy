/** `generateAnalysis` of `AIFeedback.tsx`: both local analysers run over
    the entries, the rule-based feedback is computed, and a non-empty reply
    of an available on-device model replaces its message. Rendering is not
    modelled. */
module AiFeedbackPanel {
  import opened Types
  import opened Text
  import opened LocalAI
  import opened LlamaClient

  /** The fields the analysers receive, in entry order. */
  function Records(es: seq<EmotionEntry>): (r: seq<MoodRecord>)
    ensures |r| == |es|
    ensures forall i :: 0 <= i < |es| ==> r[i] == MoodRecord(es[i].emotion, es[i].date, es[i].mood)
  {
    seq(|es|, i requires 0 <= i < |es| => MoodRecord(es[i].emotion, es[i].date, es[i].mood))
  }

  const PromptHead := "User emotions summary: "
  const InsightsLabel := "\nInsights: "
  const RecommendationsLabel := "\nRecommendations: "
  const PromptTail := "\nProvide a short supportive message in Korean."

  /** The prompt built from the analysis. */
  function Prompt(a: PatternAnalysis): (p: string)
    ensures |p| >= 98 + |a.emotionalTrend|
  {
    PromptHead + a.emotionalTrend + InsightsLabel + Join(a.insights, ", ")
      + RecommendationsLabel + Join(a.recommendations, ", ") + PromptTail
  }

  /** Every prompt is longer than 100 characters, so a rule-based reply to it
      is drawn from three replies, the thank-you for detail among them. */
  lemma PromptAlwaysDetailed(a: PatternAnalysis)
    requires |a.emotionalTrend| >= 3
    ensures |Pool(ExtractKeywords(Prompt(a)), Prompt(a))| == 3
    ensures DetailedReply in Pool(ExtractKeywords(Prompt(a)), Prompt(a))
  {
  }

  /** The override: a usable model with a non-empty reply replaces the message
      and sets the confidence to 0.9; type and timestamp always stay. */
  function Override(base: AIFeedback, usable: bool, text: string): (f: AIFeedback)
    ensures f.timestamp == base.timestamp && f.kind == base.kind
    ensures usable && text != "" ==> f.message == text && f.confidence == 0.9
    ensures !(usable && text != "") ==> f == base
  {
    if usable && |text| > 0 then base.(message := text, confidence := 0.9) else base
  }

  /** An override keeps the feedback within the annotated confidence range. */
  lemma OverrideKeepsConfidenceRange(base: AIFeedback, usable: bool, text: string)
    requires AnnotatedFeedback(base)
    ensures AnnotatedFeedback(Override(base, usable, text))
  {
  }

  class Panel {
    var analysis: Option<PatternAnalysis>
    var advanced: Option<AdvancedAnalysis>
    var feedback: Option<AIFeedback>
    var loading: bool
    const templates: FeedbackTemplates
    const bridge: ModelBridge
    /** The basic analyser the panel imports. */
    const analyse: (seq<MoodRecord>, int) -> PatternAnalysis

    constructor(templates: FeedbackTemplates, bridge: ModelBridge)
      ensures analysis == None && advanced == None && feedback == None && !loading
      ensures this.templates == templates && this.bridge == bridge
      ensures analyse == AnalyzeWithLocalAI
    {
      analysis, advanced, feedback, loading := None, None, None, false;
      this.templates := templates;
      this.bridge := bridge;
      analyse := AnalyzeWithLocalAI;
    }

    /** The model step: probe once, and when the model is available let its
        non-empty reply override the feedback. */
    method AskModel(base: AIFeedback, a: PatternAnalysis, rndModel: real, probe: string -> bool, imported: Option<WebLlm>)
      returns (f: AIFeedback)
      requires bridge.Valid() && 0.0 <= rndModel < 1.0
      modifies bridge
      ensures bridge.Valid() && bridge.initialized
      ensures f == Override(base, bridge.available, bridge.GenerateResponse(Prompt(a), rndModel))
    {
      var detected := bridge.Init(probe, imported);
      var usable := detected || bridge.IsAvailable();
      var text := "";
      if usable {
        text := bridge.GenerateResponse(Prompt(a), rndModel);
      }
      f := Override(base, usable, text);
    }

    /** The basic analysis of the entries is shown, and so is the advanced
        analysis of the same records, which reports too little data exactly
        below seven entries. */
    ghost predicate Analysed(emotions: seq<EmotionEntry>, hour: int, tz: int)
      reads this`analysis, this`advanced
    {
      && analysis == Some(analyse(Records(emotions), hour))
      && advanced.Some? && AdvancedFor(Records(emotions), tz, advanced.value)
      && (|emotions| < 7 <==> advanced.value.weeklyPattern == NotEnoughData)
    }

    /** Both analysers over the same records, in entry order. */
    method RunAnalysers(emotions: seq<EmotionEntry>, hour: int, tz: int)
      modifies this
      ensures Analysed(emotions, hour, tz)
      ensures feedback == old(feedback) && loading == old(loading)
    {
      var records := Records(emotions);
      var adv := AdvancedPatternAnalysis(records, tz);
      assert |records| < 7 <==> adv.weeklyPattern == NotEnoughData;
      analysis, advanced := Some(analyse(records, hour)), Some(adv);
    }

    /** The feedback shown for analysis a: stamped now, an encouragement
        exactly when the narrative says the mood is improving, and carrying
        the model's reply with confidence 0.9 when the model is available and
        replied with text; otherwise a rule-based message from the template
        list of the narrative's trend, with confidence 0.85. */
    ghost predicate Delivered(a: PatternAnalysis, now: Millis, rndModel: real)
      reads this`feedback, templates, bridge
      requires 0.0 <= rndModel < 1.0
    {
      && feedback.Some?
      && feedback.value.timestamp == now
      && feedback.value.kind == FeedbackKind(a.emotionalTrend)
      && var text := bridge.GenerateResponse(Prompt(a), rndModel);
         if bridge.available && text != "" then feedback.value.message == text && feedback.value.confidence == 0.9
         else feedback.value.message in templates.Pool(PoolFor(a.emotionalTrend)) && feedback.value.confidence == 0.85
    }

    /** The feedback for an analysis: the rule-based feedback, then the model
        step. */
    method FeedbackFor(a: PatternAnalysis, records: seq<MoodRecord>, now: Millis, rnd: real, rndModel: real,
                       probe: string -> bool, imported: Option<WebLlm>)
      requires templates.Valid() && bridge.Valid()
      requires 0.0 <= rnd < 1.0 && 0.0 <= rndModel < 1.0
      modifies this, templates, bridge
      ensures templates.Valid() && bridge.Valid() && bridge.initialized
      ensures analysis == old(analysis) && advanced == old(advanced) && loading == old(loading)
      ensures Delivered(a, now, rndModel)
    {
      var result := templates.GenerateLocalAIFeedback(a, records, rnd, now);
      result := AskModel(result, a, rndModel, probe, imported);
      feedback := Some(result);
    }

    /** `generateAnalysis`, run with the clock (`now`, `hour`, `tz`), two
        draws of `Math.random()` and the outcomes of the model probe. The
        model's own failures are caught inside the bridge, so the rule-based
        feedback is kept exactly when the model is not available or replies
        with the empty string. */
    method GenerateAnalysis(emotions: seq<EmotionEntry>, now: Millis, hour: int, tz: int, rnd: real, rndModel: real,
                            probe: string -> bool, imported: Option<WebLlm>)
      requires templates.Valid() && bridge.Valid()
      requires 0.0 <= rnd < 1.0 && 0.0 <= rndModel < 1.0
      modifies this, templates, bridge
      ensures templates.Valid() && bridge.Valid() && bridge.initialized && !loading
      ensures Analysed(emotions, hour, tz) && analysis.Some?
      ensures Delivered(analysis.value, now, rndModel)
    {
      loading := true;
      RunAnalysers(emotions, hour, tz);
      FeedbackFor(analysis.value, Records(emotions), now, rnd, rndModel, probe, imported);
      loading := false;
    }
  }
}
