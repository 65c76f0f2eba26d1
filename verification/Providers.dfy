/** The provider adapters: how reasoning options change a request, and what the request
    falls back to when the provider rejects them. */
module Providers {
  import opened Domain

  /** A JSON value, as far as the adapters look into it. */
  datatype Json =
    | Number(n: int)
    | Text(s: string)
    | Bool(b: bool)
    | Object(fields: map<string, Json>)
    | Opaque(id: int)

  type Payload = map<string, Json>

  datatype Provider = Compatible | OpenAI | OpenRouter | Ollama | Nvidia

  datatype Effort = Off | Low | Medium | High

  /** `effort` None is `auto`. */
  datatype Options = Options(
    extraBody: Payload,
    maxCompletionTokens: Option<int>,
    thinking: Option<bool>,
    effort: Option<Effort>,
    budget: Option<int>)

  datatype Budget = Nested | Thinking | MaxThinking | Template

  /** What the name tests say of a model; the tests themselves are not modelled. */
  datatype Model = Model(
    openAIReasoning: bool,
    openAIPro: bool,
    weakestEffort: string,
    gptOss: bool,
    nemotron: bool,
    budgetField: Budget)

  const CORE: set<string> := {"model", "messages", "tools", "stream", "stream_options", "temperature"}

  datatype Adapted = Adapted(
    payload: Payload,
    fallback: Payload,
    provider: Provider,
    reasoningFields: set<string>,
    effort: Option<string>)

  function EffortName(e: Effort): string {
    match e
    case Off => "off"
    case Low => "low"
    case Medium => "medium"
    case High => "high"
  }

  function RequestedEffort(o: Options): Option<Effort> {
    if o.thinking == Some(false) then Some(Off)
    else if o.effort.Some? then o.effort
    else if o.thinking == Some(true) then Some(Medium)
    else None
  }

  function OpenAIEffort(m: Model, e: Effort): Option<string> {
    if m.openAIPro then if e.High? then Some("high") else None
    else if !e.Off? then Some(EffortName(e))
    else Some(m.weakestEffort)
  }

  function Mapping(p: Payload, key: string): map<string, Json> {
    if key in p && p[key].Object? then p[key].fields else map[]
  }

  function ApplyOutputLimit(provider: Provider, p: Payload, limit: int): Payload {
    if provider.OpenAI? then p["max_completion_tokens" := Number(limit)] else p["max_tokens" := Number(limit)]
  }

  /** What reasoning does to a request: the payload, the fields it set, and the effort. */
  datatype Reasoned = Reasoned(payload: Payload, fields: set<string>, effort: Option<string>)

  function Unchanged(p: Payload): Reasoned {
    Reasoned(p, {}, None)
  }

  function ReasonOpenAI(p: Payload, m: Model, o: Options): Reasoned {
    var effort := RequestedEffort(o);
    if effort.None? || !m.openAIReasoning then Unchanged(p)
    else
      match OpenAIEffort(m, effort.value)
      case None => Unchanged(p)
      case Some(e) => Reasoned(p["reasoning_effort" := Text(e)], {"reasoning_effort"}, Some(e))
  }

  function ReasonOpenRouter(p: Payload, o: Options): Reasoned {
    var effort := RequestedEffort(o);
    var reasoning := Mapping(p, "reasoning");
    if o.budget.Some? && effort != Some(Off) then
      var r := (reasoning - {"effort"})["max_tokens" := Number(o.budget.value)];
      Reasoned(p["reasoning" := Object(r)], {"reasoning"}, None)
    else if effort.Some? then
      var e := if effort.value.Off? then "none" else EffortName(effort.value);
      Reasoned(p["reasoning" := Object(reasoning["effort" := Text(e)])], {"reasoning"}, Some(e))
    else Unchanged(p)
  }

  function ReasonOllama(p: Payload, m: Model, o: Options): Reasoned {
    var effort := RequestedEffort(o);
    if effort.None? then Unchanged(p)
    else
      var e := if !effort.value.Off? then EffortName(effort.value) else if m.gptOss then "low" else "none";
      Reasoned(p["reasoning_effort" := Text(e)], {"reasoning_effort"}, Some(e))
  }

  const BUDGET_FIELDS: set<string> := {"thinking_token_budget", "max_thinking_tokens", "nvext"}

  /** Where a Nemotron model takes its budget: a field of the payload, or of the template. */
  function ApplyBudget(p: Payload, template: map<string, Json>, m: Model, budget: int): (Payload, map<string, Json>) {
    match m.budgetField
    case Nested => (p["nvext" := Object(Mapping(p, "nvext")["max_thinking_tokens" := Number(budget)])], template)
    case Thinking => (p["thinking_token_budget" := Number(budget)], template)
    case MaxThinking => (p["max_thinking_tokens" := Number(budget)], template)
    case Template => (p, template["reasoning_budget" := Number(budget)])
  }

  function ReasonNvidia(p: Payload, m: Model, o: Options): Reasoned {
    var effort := RequestedEffort(o);
    if !m.nemotron || (effort.None? && o.budget.None?) then Unchanged(p)
    else
      var template := Mapping(p, "chat_template_kwargs");
      var (body, kwargs) :=
        if effort == Some(Off) then (p, template["enable_thinking" := Bool(false)] - {"low_effort"})
        else
          var t := template["enable_thinking" := Bool(true)]["low_effort" := Bool(effort == Some(Low))];
          if o.budget.Some? then ApplyBudget(p, t, m, o.budget.value) else (p, t);
      var all := body["chat_template_kwargs" := Object(kwargs)];
      Reasoned(
        all, {"chat_template_kwargs"} + (set k | k in BUDGET_FIELDS && k in all),
        if effort.Some? then Some(EffortName(effort.value)) else None)
  }

  function ApplyReasoning(provider: Provider, p: Payload, m: Model, o: Options): Reasoned {
    match provider
    case Compatible => Unchanged(p)
    case OpenAI => ReasonOpenAI(p, m, o)
    case OpenRouter => ReasonOpenRouter(p, o)
    case Ollama => ReasonOllama(p, m, o)
    case Nvidia => ReasonNvidia(p, m, o)
  }

  /** The caller's extra fields never replace a core field. */
  function WithExtra(p: Payload, extra: Payload): Payload {
    p + (map k | k in extra && k !in CORE :: extra[k])
  }

  function AdaptRequest(provider: Provider, p: Payload, m: Model, options: Option<Options>): Adapted {
    match options
    case None => Adapted(p, p, provider, {}, None)
    case Some(o) =>
      var body := WithExtra(p, o.extraBody);
      var limited :=
        if o.maxCompletionTokens.Some? then ApplyOutputLimit(provider, body, o.maxCompletionTokens.value) else body;
      var r := ApplyReasoning(provider, limited, m, o);
      Adapted(r.payload, limited, provider, r.fields, r.effort)
  }

  predicate SameAt(p: Payload, q: Payload, k: string) {
    (k in p <==> k in q) && (k in p && k in q ==> p[k] == q[k])
  }

  /** Reasoning touches only the fields it reports, none of them a core field, and each of
      them is in the payload. */
  lemma ReasoningStaysInItsFields(provider: Provider, p: Payload, m: Model, o: Options, k: string)
    ensures
      var r := ApplyReasoning(provider, p, m, o);
      && (k !in r.fields ==> SameAt(r.payload, p, k))
      && (k in r.fields ==> k !in CORE && k in r.payload)
      && (r.fields == {} ==> r.payload == p)
  {
    if provider.Nvidia? { NvidiaStaysInItsFields(p, m, o, k); }
  }

  lemma NvidiaStaysInItsFields(p: Payload, m: Model, o: Options, k: string)
    ensures
      var r := ReasonNvidia(p, m, o);
      && (k !in r.fields ==> SameAt(r.payload, p, k))
      && (k in r.fields ==> k !in CORE && k in r.payload)
      && (r.fields == {} ==> r.payload == p)
  {
    var r := ReasonNvidia(p, m, o);
    assert r.fields != {} ==> "chat_template_kwargs" in r.fields;
  }

  /** Reasoning is switched off by `thinking`, whatever the effort says. */
  predicate SwitchedOff(o: Options) {
    o.thinking == Some(false) || o.effort == Some(Off)
  }

  /** The effort asked for by name: a level, or the middle one for thinking without a level. */
  function Level(o: Options): Option<string> {
    if SwitchedOff(o) then None
    else if o.effort == Some(Low) then Some("low")
    else if o.effort == Some(Medium) || (o.effort == None && o.thinking == Some(true)) then Some("medium")
    else if o.effort == Some(High) then Some("high")
    else None
  }

  /** Exactly what is sent for the effort, on the two providers that take it as a text: the
      level asked for, or the least the model can do when switched off. An OpenAI pro model
      takes only the highest. */
  lemma EffortIsSent(provider: Provider, p: Payload, m: Model, o: Options)
    requires provider.OpenAI? || provider.Ollama?
    ensures
      var r, level := ApplyReasoning(provider, p, m, o), Level(o);
      var least := if provider.OpenAI? then m.weakestEffort else if m.gptOss then "low" else "none";
      var sent :=
        if provider.OpenAI? && !m.openAIReasoning then None
        else if provider.OpenAI? && m.openAIPro then if level == Some("high") then level else None
        else if SwitchedOff(o) then Some(least) else level;
      if sent == None then r == Reasoned(p, {}, None)
      else r == Reasoned(p["reasoning_effort" := Text(sent.value)], {"reasoning_effort"}, sent)
  {}

  /** On OpenRouter a budget comes before a level, unless reasoning is switched off. */
  lemma OpenRouterIsSent(p: Payload, m: Model, o: Options)
    ensures
      var r := ApplyReasoning(OpenRouter, p, m, o);
      var budget, level := o.budget.Some? && !SwitchedOff(o), if SwitchedOff(o) then Some("none") else Level(o);
      && (r.fields == {} <==> !budget && level == None)
      && (r.fields != {} ==>
            && r.fields == {"reasoning"} && r.payload["reasoning"].Object?
            && var sent := r.payload["reasoning"].fields;
            if budget then "effort" !in sent && "max_tokens" in sent && sent["max_tokens"] == Number(o.budget.value) && r.effort == None
            else "effort" in sent && sent["effort"] == Text(level.value) && r.effort == level)
  {}

  /** A Nemotron model is told whether to think, whether with low effort, and its budget, in the
      field it has for it; a budget is never sent when reasoning is switched off. */
  lemma NemotronIsSent(p: Payload, m: Model, o: Options)
    ensures
      var r := ApplyReasoning(Nvidia, p, m, o);
      && (r.fields == {} <==> !m.nemotron || (!SwitchedOff(o) && Level(o) == None && o.budget == None))
      && (r.fields != {} ==>
            && r.payload["chat_template_kwargs"].Object?
            && var kwargs := r.payload["chat_template_kwargs"].fields;
            && "enable_thinking" in kwargs && kwargs["enable_thinking"] == Bool(!SwitchedOff(o))
            && (SwitchedOff(o) ==> "low_effort" !in kwargs && r.effort == Some("off"))
            && (!SwitchedOff(o) ==>
                  "low_effort" in kwargs && kwargs["low_effort"] == Bool(Level(o) == Some("low")) && r.effort == Level(o))
            && (o.budget.Some? && !SwitchedOff(o) ==> TakesBudget(r.payload, kwargs, m, o.budget.value)))
  {}

  predicate TakesBudget(p: Payload, kwargs: map<string, Json>, m: Model, budget: int) {
    match m.budgetField
    case Nested => "nvext" in p && p["nvext"].Object? && "max_thinking_tokens" in p["nvext"].fields
      && p["nvext"].fields["max_thinking_tokens"] == Number(budget)
    case Thinking => "thinking_token_budget" in p && p["thinking_token_budget"] == Number(budget)
    case MaxThinking => "max_thinking_tokens" in p && p["max_thinking_tokens"] == Number(budget)
    case Template => "reasoning_budget" in kwargs && kwargs["reasoning_budget"] == Number(budget)
  }

  /** What the fallback is: the request with the caller's extra fields, but for core ones, and
      the output limit under the provider's name for it. */
  lemma FallbackIs(provider: Provider, p: Payload, m: Model, o: Options, k: string)
    ensures
      var f := AdaptRequest(provider, p, m, Some(o)).fallback;
      var limit := if provider.OpenAI? then "max_completion_tokens" else "max_tokens";
      if o.maxCompletionTokens.Some? && k == limit then k in f && f[k] == Number(o.maxCompletionTokens.value)
      else if k in o.extraBody && k !in CORE then k in f && f[k] == o.extraBody[k]
      else SameAt(f, p, k)
  {}

  /** The request and its fallback agree outside the reported fields, on every provider;
      both keep the caller's core fields; and without reported fields they are equal. */
  lemma FallbackDiffersOnlyInReasoning(provider: Provider, p: Payload, m: Model, options: Option<Options>, k: string)
    ensures
      var a := AdaptRequest(provider, p, m, options);
      && (k !in a.reasoningFields ==> SameAt(a.payload, a.fallback, k))
      && (k in CORE ==> SameAt(a.payload, p, k) && SameAt(a.fallback, p, k))
      && (a.reasoningFields == {} ==> a.payload == a.fallback)
  {
    match options {
      case None =>
      case Some(o) =>
        var body := WithExtra(p, o.extraBody);
        var limited :=
          if o.maxCompletionTokens.Some? then ApplyOutputLimit(provider, body, o.maxCompletionTokens.value) else body;
        ReasoningStaysInItsFields(provider, limited, m, o, k);
    }
  }
}
