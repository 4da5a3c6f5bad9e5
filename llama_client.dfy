/** The optional on-device model of `llamaClient.ts`: a one-time probe for
    model files and a runtime, a reply chain that tries the loaded handles
    in a fixed order, and the keyword rules that answer when no handle
    does. The file probes, the dynamic import and the runtime's own calls
    are foreign; their outcomes are parameters. */
module LlamaClient {
  import opened Types
  import opened Seqs
  import opened Text

  // ---------------------------------------------------------------------------
  // What the foreign calls can give back

  /** A value a handle returned: a string; an object whose `text` and
      `result` fields are read ("" stands for a missing or falsy field); a
      non-empty array whose first element's `generated_text` is read; or
      anything else (null, an empty array). */
  datatype Output = Plain(s: string) | Fields(text: string, result: string) | Generations(first: string) | Nothing

  /** One call of a handle's function: it returns or it throws. */
  datatype Call = Returns(out: Output) | Throws

  /** A model handle: callable itself or not, with or without `generate`.
      `None` means the member is not a function. */
  datatype ModelHandle = ModelHandle(call: Option<Call>, generate: Option<Call>)

  /** What `createModel` or `loadModel` did, the first of the two that is a
      function being the one called. */
  datatype LoadOutcome = NoLoader | Loaded(model: Option<ModelHandle>) | LoadThrows

  /** A runtime object: its `init` (absent, succeeds or throws), its model
      loader, and its own `generate` and `run`. */
  datatype RuntimeHandle = RuntimeHandle(init: Option<bool>, load: LoadOutcome, generate: Option<Call>, run: Option<Call>)

  /** What `pipeline("text-generation", …)` did. */
  datatype PipelineOutcome = Built(model: Option<ModelHandle>) | PipelineThrows

  /** The imported module: its `pipeline` function if it has one (None
      otherwise), the module object itself, and the object the fallback
      branch picks (`WebLLM`, `default.WebLLM` or the module). */
  datatype WebLlm = WebLlm(pipeline: Option<PipelineOutcome>, moduleObject: RuntimeHandle, runtime: RuntimeHandle)

  /** The failures `lastError` can record. */
  datatype Failure = PipelineFailed | RuntimeInitFailed | ModelLoadFailed

  /** The three places model files may be found, in probing order. */
  const ManifestPaths: seq<string> := [
    "/models/llama-3.2-1b/manifest.json",
    "/models/llama-3-2-1b/manifest.json",
    "/models/llama-3-2-1b.ggml"]

  // ---------------------------------------------------------------------------
  // The module-level state

  class ModelBridge {
    var initialized: bool
    var hasModelFiles: bool
    var available: bool
    var runtime: Option<RuntimeHandle>
    var model: Option<ModelHandle>
    var lastError: Option<Failure>

    /** Before the probe nothing is known; afterwards `available` is set
        exactly when a runtime handle is held, which needs model files; a
        model handle comes with a runtime handle. */
    ghost predicate Valid()
      reads this
    {
      && (available <==> runtime.Some?)
      && (available ==> hasModelFiles)
      && (model.Some? ==> runtime.Some?)
      && (!initialized ==> !hasModelFiles && runtime == None && model == None && lastError == None)
    }

    /** The values at module load. */
    constructor()
      ensures Valid() && !initialized && !available
    {
      initialized, hasModelFiles, available := false, false, false;
      runtime, model, lastError := None, None, None;
    }

    /** `initLlamaClient`: probes at most once, and afterwards answers with
        the cached `available`. `probe(p)` is whether a HEAD request for p
        succeeded (a request that throws counts as failed); `imported` is
        the module, or None when the import fails. */
    method Init(probe: string -> bool, imported: Option<WebLlm>) returns (ok: bool)
      requires Valid()
      modifies this
      ensures Valid() && initialized && ok == available
      ensures old(initialized) ==> unchanged(this)
      ensures !old(initialized) ==> hasModelFiles == exists i :: 0 <= i < |ManifestPaths| && probe(ManifestPaths[i])
      ensures !old(initialized) ==>
        (available <==> hasModelFiles && imported.Some? && (imported.value.pipeline.Some? ==> imported.value.pipeline.value.Built?))
      ensures !old(initialized) && available ==>
        var w := imported.value;
        if w.pipeline.Some? then runtime == Some(w.moduleObject) && model == w.pipeline.value.model
        else runtime == Some(w.runtime) && model == (if w.runtime.load.Loaded? then w.runtime.load.model else None)
      ensures !old(initialized) ==> (lastError.Some? ==> available || lastError == Some(PipelineFailed))
    {
      if initialized {
        return available;
      }
      initialized := true;

      var i := 0;
      while i < |ManifestPaths|
        invariant 0 <= i <= |ManifestPaths|
        invariant !hasModelFiles && forall j :: 0 <= j < i ==> !probe(ManifestPaths[j])
      {
        if probe(ManifestPaths[i]) {
          hasModelFiles := true;
          break;
        }
        i := i + 1;
      }

      if hasModelFiles && imported.Some? {
        var w := imported.value;
        if w.pipeline.Some? {
          match w.pipeline.value {
            case Built(m) =>
              model := m;
              runtime := Some(w.moduleObject);
              available := true;
            case PipelineThrows =>
              lastError := Some(PipelineFailed);
          }
        } else {
          var rt := w.runtime;
          runtime := Some(rt);
          if rt.init == Some(false) {
            lastError := Some(RuntimeInitFailed);
          }
          match rt.load {
            case NoLoader =>
            case Loaded(m) =>
              model := m;
            case LoadThrows =>
              lastError := Some(ModelLoadFailed);
          }
          available := true;
        }
      }
      ok := available;
    }

    /** `isLlamaAvailable`. */
    function IsAvailable(): (r: bool)
      reads this
      requires Valid()
      ensures r ==> hasModelFiles && runtime.Some?
    {
      available
    }

    /** `getLlamaStatus`. */
    function Status(): (s: LlamaStatus)
      reads this
      requires Valid()
      ensures s.hasModelFiles == hasModelFiles && s.lastError == lastError
      ensures s.runtimeAvailable <==> runtime.Some?
      ensures s.modelLoaded <==> model.Some?
      ensures s.modelLoaded ==> s.runtimeAvailable
      ensures s.runtimeAvailable ==> s.hasModelFiles
    {
      LlamaStatus(hasModelFiles, runtime.Some?, model.Some?, lastError)
    }

    /** `generateResponse` on the current handles. */
    function GenerateResponse(prompt: string, rnd: real): (r: string)
      reads this
      requires 0.0 <= rnd < 1.0
    {
      Respond(model, runtime, prompt, rnd)
    }
  }

  datatype LlamaStatus = LlamaStatus(hasModelFiles: bool, runtimeAvailable: bool, modelLoaded: bool, lastError: Option<Failure>)

  // ---------------------------------------------------------------------------
  // generateResponse

  /** The text a handle's output yields, if any: a string as it is (even
      empty), else a truthy `text`, else (for a callable model only) a truthy
      `generated_text` of the first element, else a truthy `result`. */
  function Normalise(out: Output, callable: bool): (r: Option<string>)
    ensures out.Plain? ==> r == Some(out.s)
    ensures r.Some? && !out.Plain? ==> r.value != ""
    ensures out.Generations? && !callable ==> r == None
    ensures out == Nothing ==> r == None
  {
    match out
    case Plain(s) => Some(s)
    case Fields(text, result) =>
      if text != "" then Some(text) else if result != "" then Some(result) else None
    case Generations(first) => if callable && first != "" then Some(first) else None
    case Nothing => None
  }

  /** One of the later steps of the chain: an absent function passes to
      the next step, a throw abandons the whole chain (the outer `catch`),
      and an output that yields no text passes on. */
  function Step(c: Option<Call>, next: Option<string>): Option<string>
  {
    match c
    case None => next
    case Some(Throws) => None
    case Some(Returns(out)) => if Normalise(out, false).Some? then Normalise(out, false) else next
  }

  /** The handles in order: the model called directly (a throw here is
      caught on the spot and the chain goes on), the model's `generate`,
      the runtime's `generate`, the runtime's `run`. */
  function ModelReply(model: Option<ModelHandle>, runtime: Option<RuntimeHandle>): (r: Option<string>)
    ensures model == None && runtime == None ==> r == None
  {
    var viaRuntime := if runtime.Some? then Step(runtime.value.generate, Step(runtime.value.run, None)) else None;
    var viaGenerate := if model.Some? then Step(model.value.generate, viaRuntime) else viaRuntime;
    if model.Some? && model.value.call.Some? && model.value.call.value.Returns? && Normalise(model.value.call.value.out, true).Some?
    then Normalise(model.value.call.value.out, true)
    else viaGenerate
  }

  /** The reply: a handle's text, or the rule-based answer. The rules cannot
      throw on a string prompt, so the fixed fallback text is never used. */
  function Respond(model: Option<ModelHandle>, runtime: Option<RuntimeHandle>, prompt: string, rnd: real): (r: string)
    requires 0.0 <= rnd < 1.0
    ensures ModelReply(model, runtime).Some? ==> r == ModelReply(model, runtime).value
    ensures ModelReply(model, runtime) == None ==> r in Pool(ExtractKeywords(prompt), prompt)
  {
    match ModelReply(model, runtime)
    case Some(s) => s
    case None => RuleBasedResponse(ExtractKeywords(prompt), prompt, rnd)
  }

  /** A callable model that answers with a string always wins, even with an
      empty string. */
  lemma CallableStringWins(h: ModelHandle, runtime: Option<RuntimeHandle>, s: string, prompt: string, rnd: real)
    requires h.call == Some(Returns(Plain(s))) && 0.0 <= rnd < 1.0
    ensures Respond(Some(h), runtime, prompt, rnd) == s
  {
  }

  /** A throwing `generate` on the model ends the chain: the runtime is not
      asked even when it would answer, and the rules reply. */
  lemma GenerateThrowSkipsRuntime(h: ModelHandle, rt: RuntimeHandle, prompt: string, rnd: real)
    requires h.call == None && h.generate == Some(Throws) && 0.0 <= rnd < 1.0
    ensures ModelReply(Some(h), Some(rt)) == None
    ensures Respond(Some(h), Some(rt), prompt, rnd) in Pool(ExtractKeywords(prompt), prompt)
  {
  }

  /** A throw from the directly called model is caught on the spot, so the
      next handles are still asked. */
  lemma CallThrowIsCaught(h: ModelHandle, rt: RuntimeHandle, s: string)
    requires h.call == Some(Throws) && h.generate == None && rt.generate == Some(Returns(Plain(s)))
    ensures ModelReply(Some(h), Some(rt)) == Some(s)
  {
  }

  /** A model that never got files or a runtime answers by the rules. */
  lemma NoHandlesUsesRules(prompt: string, rnd: real)
    requires 0.0 <= rnd < 1.0
    ensures Respond(None, None, prompt, rnd) == RuleBasedResponse(ExtractKeywords(prompt), prompt, rnd)
  {
  }

  // ---------------------------------------------------------------------------
  // extractKeywords and generateRuleBasedResponse

  datatype Tone = Positive | Negative | Calm

  const PositiveWords: seq<string> := ["좋", "행복", "기쁨", "즐거", "신남", "만족"]
  const NegativeWords: seq<string> := ["슬픔", "우울", "불안", "스트레스", "힘듦", "피곤"]
  const CalmWords: seq<string> := ["보통", "평범", "안정", "차분"]

  function Words(t: Tone): seq<string>
  {
    match t
    case Positive => PositiveWords
    case Negative => NegativeWords
    case Calm => CalmWords
  }

  /** The fixed order in which the tones are pushed. */
  function Rank(t: Tone): int
  {
    match t
    case Positive => 0
    case Negative => 1
    case Calm => 2
  }

  /** Some word of the tone occurs in the text. */
  predicate Heard(text: string, t: Tone)
  {
    exists w :: w in Words(t) && Contains(text, w)
  }

  lemma WordsCaseless(t: Tone)
    ensures forall w :: w in Words(t) ==> Caseless(w)
  {
  }

  lemma HeardLower(text: string, t: Tone)
    ensures Heard(Lower(text), t) <==> Heard(text, t)
  {
    WordsCaseless(t);
    forall w | w in Words(t) ensures Contains(Lower(text), w) <==> Contains(text, w) {
      LowerKeepsMatches(text, w);
    }
  }

  /** The pushes of `extractKeywords`, given which tones were heard. */
  function Pushes(positive: bool, negative: bool, calm: bool): (r: seq<Tone>)
    ensures forall t :: t in r <==> (t == Positive && positive) || (t == Negative && negative) || (t == Calm && calm)
    ensures forall i, j :: 0 <= i < j < |r| ==> Rank(r[i]) < Rank(r[j])
  {
    (if positive then [Positive] else []) + (if negative then [Negative] else []) + (if calm then [Calm] else [])
  }

  /** `extractKeywords`: each tone at most once, in the fixed order, exactly
      when one of its words occurs in the text. */
  function ExtractKeywords(text: string): (r: seq<Tone>)
    ensures forall t :: t in r <==> Heard(text, t)
    ensures forall i, j :: 0 <= i < j < |r| ==> Rank(r[i]) < Rank(r[j])
  {
    var lower := Lower(text);
    HeardLower(text, Positive);
    HeardLower(text, Negative);
    HeardLower(text, Calm);
    Pushes(Heard(lower, Positive), Heard(lower, Negative), Heard(lower, Calm))
  }

  const PositiveReplies: seq<string> := [
    "좋은 기분이 느껴지네요! 이 긍정적인 에너지를 유지해보세요. ✨",
    "행복한 순간을 기록해주셔서 감사합니다. 계속해서 긍정적인 활동을 이어가세요. 🌟"]
  const NegativeReplies: seq<string> := [
    "요즘 힘드시는 것 같아요. 자신을 아끼고 충분한 휴식을 취해보세요. 💙",
    "어려운 시기를 겪고 계시는군요. 작은 것부터 시작해서 점진적으로 개선해보세요. 🌱"]
  const NeutralReplies: seq<string> := [
    "감정을 꾸준히 기록하시는 모습이 훌륭합니다. 계속 관찰해보세요. 📊",
    "안정적인 감정 상태를 유지하고 계시네요. 현재의 균형을 유지하세요. 😌"]
  const DetailedReply: string := "상세한 기록을 해주셔서 감사합니다. 이런 정보들이 더 나은 분석을 도와줍니다."

  /** The replies to choose from: positive before negative before the rest,
      and the thank-you for a detailed prompt when it is over 100 characters. */
  function Pool(keywords: seq<Tone>, prompt: string): (pool: seq<string>)
    ensures |pool| == if |prompt| > 100 then 3 else 2
    ensures pool[..2] == if Positive in keywords then PositiveReplies
                         else if Negative in keywords then NegativeReplies
                         else NeutralReplies
    ensures |prompt| > 100 ==> pool[2] == DetailedReply
  {
    var base := if Positive in keywords then PositiveReplies
                else if Negative in keywords then NegativeReplies
                else NeutralReplies;
    if |prompt| > 100 then base + [DetailedReply] else base
  }

  /** `generateRuleBasedResponse`: a uniformly indexed member of the pool. */
  function RuleBasedResponse(keywords: seq<Tone>, prompt: string, rnd: real): (r: string)
    requires 0.0 <= rnd < 1.0
    ensures r in Pool(keywords, prompt)
  {
    Pick(Pool(keywords, prompt), rnd)
  }

  /** Positive words win over negative ones: a prompt with both never gets a
      reply meant for a hard time. */
  lemma PositiveWins(prompt: string, rnd: real)
    requires Heard(prompt, Positive) && 0.0 <= rnd < 1.0
    ensures RuleBasedResponse(ExtractKeywords(prompt), prompt, rnd) !in NegativeReplies
    ensures RuleBasedResponse(ExtractKeywords(prompt), prompt, rnd) in PositiveReplies + [DetailedReply]
  {
    var pool := Pool(ExtractKeywords(prompt), prompt);
    assert pool == PositiveReplies || pool == PositiveReplies + [DetailedReply];
  }
}
