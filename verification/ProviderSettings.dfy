/** The strict parser for provider settings and the printer that should undo it. */
module ProviderSettings {
  import opened PyText
  import opened Options

  datatype Json = Null | Bool(b: bool) | Int(n: int) | Float(r: real) | Str(s: string) | Arr(items: seq<Json>) | Obj(fields: map<string, Json>)

  datatype Problem =
    | UnknownFields | WrongVersion | EmptyString | TooLong | NotAnObject | NotAnArray | TooManyProviders | TooManyModels
    | NoDefault | BadIdentifier | BadEnvName | BadUrl | BadApiMode | DuplicateProvider | DuplicateModel | ForeignModelId
    | BadModelId | HalfWindow | NotPositive | ReserveTooLarge | WrongApiMode | BadReasoningKind | BadMode | DuplicateMode | SmallBudget | UnknownId

  datatype Result<+T> = Ok(value: T) | Err(problem: Problem) {
    predicate IsFailure() { Err? }
    function PropagateFailure<U>(): Result<U> requires Err? { Err(problem) }
    function Extract(): T requires Ok? { value }
  }

  datatype ApiMode = OpenAi | Anthropic

  datatype ReasoningKind = Unsupported | Effort | Thinking

  datatype Reasoning = Reasoning(kind: ReasoningKind, modes: seq<string>, budgets: seq<(string, int)>)

  datatype Model = Model(id: string, caption: string, provider: string, window: Option<int>, reserve: Option<int>, reasoning: Reasoning)

  datatype Provider = Provider(id: string, caption: string, apiMode: ApiMode, baseUrl: string, apiKeyEnv: string, models: seq<Model>)

  datatype Settings = Settings(defaultModel: string, providers: seq<Provider>)

  /** `urlsplit` and the scheme, host, credential and control-character rules. */
  type UrlRule = string -> bool

  const MAX_PROVIDERS := 32
  const MAX_MODELS := 256
  const MODES: seq<string> := ["low", "medium", "high"]
  const NO_REASONING := Reasoning(Unsupported, [], [])

  // ---------------------------------------------------------------------------
  // Scalars.

  function Get(fields: map<string, Json>, key: string): Json { if key in fields then fields[key] else Null }

  function NonEmptyString(v: Json): Result<string> {
    if !v.Str? || Strip(v.s) == "" then Err(EmptyString)
    else if |Strip(v.s)| > 512 then Err(TooLong)
    else Ok(Strip(v.s))
  }

  predicate IdChar(c: char) { 'a' <= c <= 'z' || '0' <= c <= '9' }

  /** `[a-z0-9][a-z0-9_-]{0,63}` */
  predicate IsProviderId(s: string) {
    1 <= |s| <= 64 && IdChar(s[0]) && forall i :: 0 <= i < |s| ==> IdChar(s[i]) || s[i] == '_' || s[i] == '-'
  }

  /** `[A-Z_][A-Z0-9_]{0,127}` */
  predicate IsEnvName(s: string) {
    && 1 <= |s| <= 128 && ('A' <= s[0] <= 'Z' || s[0] == '_')
    && forall i :: 0 <= i < |s| ==> 'A' <= s[i] <= 'Z' || '0' <= s[i] <= '9' || s[i] == '_'
  }

  function Identifier(v: Json): Result<string> {
    var s :- NonEmptyString(v);
    if IsProviderId(s) then Ok(s) else Err(BadIdentifier)
  }

  function ApiKeyEnv(v: Json): Result<string> {
    var s :- NonEmptyString(v);
    if IsEnvName(s) then Ok(s) else Err(BadEnvName)
  }

  function ParseApiMode(v: Json): Result<ApiMode> {
    var s :- NonEmptyString(v);
    if s == "openai_chat_completions" then Ok(OpenAi) else if s == "anthropic_messages" then Ok(Anthropic) else Err(BadApiMode)
  }

  function PrintApiMode(m: ApiMode): string { if m.OpenAi? then "openai_chat_completions" else "anthropic_messages" }

  /** `result.rstrip("/")` */
  function TrimSlashes(s: string): string {
    if s != "" && s[|s| - 1] == '/' then TrimSlashes(s[..|s| - 1]) else s
  }

  function BaseUrl(v: Json, urlOk: UrlRule): Result<string> {
    var s :- NonEmptyString(v);
    if urlOk(s) then Ok(TrimSlashes(s)) else Err(BadUrl)
  }

  function PositiveInteger(v: Json): Result<int> {
    if v.Int? && v.n > 0 then Ok(v.n) else Err(NotPositive)
  }

  // ---------------------------------------------------------------------------
  // Reasoning.

  function ParseModes(items: seq<Json>): Result<seq<string>> {
    if items == [] then Ok([])
    else
      var modes :- ParseModes(items[..|items| - 1]);
      var mode :- NonEmptyString(items[|items| - 1]);
      if mode !in MODES then Err(BadMode) else if mode in modes then Err(DuplicateMode) else Ok(modes + [mode])
  }

  /** Budgets in the fixed order of the modes. */
  function ParseBudgets(raw: map<string, Json>, modes: seq<string>): Result<seq<(string, int)>> {
    if modes == [] then Ok([])
    else
      var before :- ParseBudgets(raw, modes[..|modes| - 1]);
      var mode := modes[|modes| - 1];
      if mode !in raw then Ok(before)
      else
        var budget :- PositiveInteger(raw[mode]);
        if budget < 1024 then Err(SmallBudget) else Ok(before + [(mode, budget)])
  }

  function Firsts(budgets: seq<(string, int)>): (r: seq<string>)
    ensures |r| == |budgets| && forall i :: 0 <= i < |r| ==> r[i] == budgets[i].0
  {
    seq(|budgets|, i requires 0 <= i < |budgets| => budgets[i].0)
  }

  function ParseReasoning(v: Json, apiMode: ApiMode): Result<Reasoning> {
    if !v.Obj? then Err(NotAnObject)
    else
      var kind := Get(v.fields, "kind");
      if kind == Str("unsupported") then
        if v.fields.Keys <= {"kind"} then Ok(NO_REASONING) else Err(UnknownFields)
      else if kind == Str("openai_reasoning_effort") then
        if !apiMode.OpenAi? then Err(WrongApiMode)
        else if !(v.fields.Keys <= {"kind", "modes"}) then Err(UnknownFields)
        else
          var modes := Get(v.fields, "modes");
          if !modes.Arr? || modes.items == [] then Err(NotAnArray)
          else
            var parsed :- ParseModes(modes.items);
            Ok(Reasoning(Effort, parsed, []))
      else if kind == Str("anthropic_thinking_budget") then
        if !apiMode.Anthropic? then Err(WrongApiMode)
        else if !(v.fields.Keys <= {"kind", "budgets"}) then Err(UnknownFields)
        else
          var raw := Get(v.fields, "budgets");
          if !raw.Obj? || raw.fields.Keys == {} then Err(NotAnObject)
          else if !(raw.fields.Keys <= {"low", "medium", "high"}) then Err(BadMode)
          else
            var budgets :- ParseBudgets(raw.fields, MODES);
            Ok(Reasoning(Thinking, Firsts(budgets), budgets))
      else Err(BadReasoningKind)
  }

  function PrintModes(modes: seq<string>): (r: seq<Json>)
    ensures |r| == |modes| && forall i :: 0 <= i < |r| ==> r[i] == Str(modes[i])
  {
    seq(|modes|, i requires 0 <= i < |modes| => Str(modes[i]))
  }

  /** `dict(budgets)` */
  function PrintBudgets(budgets: seq<(string, int)>): map<string, Json> {
    if budgets == [] then map[] else PrintBudgets(budgets[..|budgets| - 1])[budgets[|budgets| - 1].0 := Int(budgets[|budgets| - 1].1)]
  }

  function PrintReasoning(r: Reasoning): Json {
    match r.kind
    case Effort => Obj(map["kind" := Str("openai_reasoning_effort"), "modes" := Arr(PrintModes(r.modes))])
    case Thinking => Obj(map["kind" := Str("anthropic_thinking_budget"), "budgets" := Obj(PrintBudgets(r.budgets))])
    case Unsupported => Obj(map["kind" := Str("unsupported")])
  }

  datatype Request = NoKwargs | ReasoningEffort(mode: string) | ThinkingBudget(tokens: int)

  function BudgetFor(budgets: seq<(string, int)>, mode: string): Option<int> {
    if budgets == [] then None
    else if budgets[|budgets| - 1].0 == mode then Some(budgets[|budgets| - 1].1)
    else BudgetFor(budgets[..|budgets| - 1], mode)
  }

  function RequestKwargs(r: Reasoning, mode: string): Result<Request> {
    if mode == "off" then Ok(NoKwargs)
    else if mode !in r.modes then Err(BadMode)
    else
      match r.kind
      case Effort => Ok(ReasoningEffort(mode))
      case Thinking => if BudgetFor(r.budgets, mode).Some? then Ok(ThinkingBudget(BudgetFor(r.budgets, mode).value)) else Err(UnknownId)
      case Unsupported => Err(BadMode)
  }

  // ---------------------------------------------------------------------------
  // Models and providers.

  predicate ModelIdOk(providerId: string, id: string) {
    |providerId| + 1 <= |id| <= 192 && id[..|providerId| + 1] == providerId + ":"
  }

  predicate NoControl(s: string) { forall i :: 0 <= i < |s| ==> s[i] as int >= 33 }

  function ParseWindow(fields: map<string, Json>): Result<(Option<int>, Option<int>)> {
    var hasWindow, hasReserve := "context_window_tokens" in fields, "output_reserve_tokens" in fields;
    if hasWindow != hasReserve then Err(HalfWindow)
    else if !hasWindow then Ok((None, None))
    else
      var window :- PositiveInteger(fields["context_window_tokens"]);
      var reserve :- PositiveInteger(fields["output_reserve_tokens"]);
      if reserve >= window then Err(ReserveTooLarge) else Ok((Some(window), Some(reserve)))
  }

  const MODEL_FIELDS := {"id", "label", "context_window_tokens", "output_reserve_tokens", "reasoning"}

  function ParseModel(providerId: string, apiMode: ApiMode, raw: Json, modelIds: set<string>): Result<Model> {
    if !raw.Obj? then Err(NotAnObject)
    else if !(raw.fields.Keys <= MODEL_FIELDS) then Err(UnknownFields)
    else
      var id :- NonEmptyString(Get(raw.fields, "id"));
      if !ModelIdOk(providerId, id) then Err(ForeignModelId)
      else if !NoControl(id) then Err(BadModelId)
      else if id in modelIds then Err(DuplicateModel)
      else
        var caption :- NonEmptyString(Get(raw.fields, "label"));
        var window :- ParseWindow(raw.fields);
        var reasoning :- ParseReasoning(if "reasoning" in raw.fields then raw.fields["reasoning"] else Obj(map["kind" := Str("unsupported")]), apiMode);
        Ok(Model(id, caption, providerId, window.0, window.1, reasoning))
  }

  function PrintModel(m: Model): Json {
    var base := map["id" := Str(m.id), "label" := Str(m.caption), "reasoning" := PrintReasoning(m.reasoning)];
    if m.window.None? then Obj(base)
    else Obj(base["context_window_tokens" := Int(m.window.value)]["output_reserve_tokens" := if m.reserve.Some? then Int(m.reserve.value) else Null])
  }

  function PrintModels(models: seq<Model>): (r: seq<Json>)
    ensures |r| == |models| && forall i :: 0 <= i < |r| ==> r[i] == PrintModel(models[i])
  {
    seq(|models|, i requires 0 <= i < |models| => PrintModel(models[i]))
  }

  function Ids(models: seq<Model>): set<string> { set i | 0 <= i < |models| :: models[i].id }

  /** Models in order; each must be new against `modelIds` and those before it. */
  function ParseModels(providerId: string, apiMode: ApiMode, raws: seq<Json>, modelIds: set<string>): Result<seq<Model>> {
    if raws == [] then Ok([])
    else
      var before :- ParseModels(providerId, apiMode, raws[..|raws| - 1], modelIds);
      var model :- ParseModel(providerId, apiMode, raws[|raws| - 1], modelIds + Ids(before));
      Ok(before + [model])
  }

  const PROVIDER_FIELDS := {"id", "label", "api_mode", "base_url", "api_key_env", "models"}

  function ParseProvider(raw: Json, providerIds: set<string>, modelIds: set<string>, urlOk: UrlRule): Result<Provider> {
    if !raw.Obj? then Err(NotAnObject)
    else if !(raw.fields.Keys <= PROVIDER_FIELDS) then Err(UnknownFields)
    else
      var id :- Identifier(Get(raw.fields, "id"));
      if id in providerIds then Err(DuplicateProvider)
      else
        var caption :- NonEmptyString(Get(raw.fields, "label"));
        var apiMode :- ParseApiMode(Get(raw.fields, "api_mode"));
        var baseUrl :- BaseUrl(Get(raw.fields, "base_url"), urlOk);
        var apiKeyEnv :- ApiKeyEnv(Get(raw.fields, "api_key_env"));
        var models := Get(raw.fields, "models");
        if !models.Arr? || models.items == [] then Err(NotAnArray)
        else
          var parsed :- ParseModels(id, apiMode, models.items, modelIds);
          Ok(Provider(id, caption, apiMode, baseUrl, apiKeyEnv, parsed))
  }

  function PrintProvider(p: Provider): Json {
    Obj(map["id" := Str(p.id), "label" := Str(p.caption), "api_mode" := Str(PrintApiMode(p.apiMode)), "base_url" := Str(p.baseUrl),
            "api_key_env" := Str(p.apiKeyEnv), "models" := Arr(PrintModels(p.models))])
  }

  function PrintProviders(ps: seq<Provider>): (r: seq<Json>)
    ensures |r| == |ps| && forall i :: 0 <= i < |r| ==> r[i] == PrintProvider(ps[i])
  {
    seq(|ps|, i requires 0 <= i < |ps| => PrintProvider(ps[i]))
  }

  function ProviderIds(ps: seq<Provider>): set<string> { set i | 0 <= i < |ps| :: ps[i].id }

  function AllModels(ps: seq<Provider>): seq<Model> {
    if ps == [] then [] else AllModels(ps[..|ps| - 1]) + ps[|ps| - 1].models
  }

  function ParseProviders(raws: seq<Json>, urlOk: UrlRule): Result<seq<Provider>> {
    if raws == [] then Ok([])
    else
      var before :- ParseProviders(raws[..|raws| - 1], urlOk);
      var provider :- ParseProvider(raws[|raws| - 1], ProviderIds(before), Ids(AllModels(before)), urlOk);
      Ok(before + [provider])
  }

  /** `value.get("version") != 1`: True and 1.0 are equal to 1. */
  predicate IsOne(v: Json) { v == Int(1) || v == Bool(true) || v == Float(1.0) }

  function AssembleSettings(defaultModel: string, raws: seq<Json>, urlOk: UrlRule): Result<Settings> {
    if |raws| > MAX_PROVIDERS then Err(TooManyProviders)
    else
      var providers :- ParseProviders(raws, urlOk);
      if |Ids(AllModels(providers))| > MAX_MODELS then Err(TooManyModels)
      else if defaultModel !in Ids(AllModels(providers)) then Err(NoDefault)
      else Ok(Settings(defaultModel, providers))
  }

  function FromMapping(doc: map<string, Json>, urlOk: UrlRule): Result<Settings> {
    if !(doc.Keys <= {"version", "default_model", "providers"}) then Err(UnknownFields)
    else if !IsOne(Get(doc, "version")) then Err(WrongVersion)
    else
      var defaultModel :- NonEmptyString(Get(doc, "default_model"));
      var raws := Get(doc, "providers");
      if !raws.Arr? || raws.items == [] then Err(NotAnArray) else AssembleSettings(defaultModel, raws.items, urlOk)
  }

  function ToMapping(s: Settings): map<string, Json> {
    map["version" := Int(1), "default_model" := Str(s.defaultModel), "providers" := Arr(PrintProviders(s.providers))]
  }
}
