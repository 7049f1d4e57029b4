/** Parsing provider settings: the round trip, and what acceptance guarantees. */
module ProviderSettingsProofs {
  import opened PyText
  import opened ProviderSettings
  import opened Options

  lemma StringReparses(v: Json)
    requires NonEmptyString(v).Ok?
    ensures var s := NonEmptyString(v).value; NonEmptyString(Str(s)) == Ok(s) && s != "" && Strip(s) == s
  {
    StripIsClean(v.s);
  }

  // ---------------------------------------------------------------------------
  // Reasoning.

  ghost predicate Distinct(xs: seq<string>) {
    forall i, j :: 0 <= i < j < |xs| ==> xs[i] != xs[j]
  }

  lemma {:induction false} ModesReparse(items: seq<Json>)
    requires ParseModes(items).Ok?
    ensures var modes := ParseModes(items).value;
      && ParseModes(PrintModes(modes)) == Ok(modes)
      && |modes| == |items| && Distinct(modes)
      && (forall m :: m in modes ==> m in MODES)
    decreases |items|
  {
    if items != [] {
      ModesReparse(items[..|items| - 1]);
      StringReparses(items[|items| - 1]);
      var modes := ParseModes(items).value;
      assert PrintModes(modes)[..|modes| - 1] == PrintModes(modes[..|modes| - 1]);
    }
  }

  /** Budgets come back from their own print-out. */
  lemma {:induction false} BudgetsAreRaw(raw: map<string, Json>, modes: seq<string>)
    requires ParseBudgets(raw, modes).Ok? && Distinct(modes)
    ensures var b := ParseBudgets(raw, modes).value; var printed := PrintBudgets(b);
      && (forall m :: m in modes ==> (m in raw <==> m in printed))
      && (forall m :: m in printed ==> m in modes && m in raw && printed[m] == raw[m])
    decreases |modes|
  {
    if modes != [] {
      var init := modes[..|modes| - 1];
      BudgetsAreRaw(raw, init);
      assert modes == init + [modes[|modes| - 1]];
      var b := ParseBudgets(raw, modes).value;
      if modes[|modes| - 1] in raw { assert b[..|b| - 1] == ParseBudgets(raw, init).value; }
    }
  }

  lemma {:induction false} BudgetsAgree(raw: map<string, Json>, raw': map<string, Json>, modes: seq<string>)
    requires forall m :: m in modes ==> (m in raw <==> m in raw') && (m in raw ==> raw[m] == raw'[m])
    ensures ParseBudgets(raw, modes) == ParseBudgets(raw', modes)
    decreases |modes|
  {
    if modes != [] {
      assert modes == modes[..|modes| - 1] + [modes[|modes| - 1]];
      BudgetsAgree(raw, raw', modes[..|modes| - 1]);
    }
  }

  lemma ThinkingReparses(raw: map<string, Json>)
    requires raw.Keys != {} && raw.Keys <= {"low", "medium", "high"} && ParseBudgets(raw, MODES).Ok?
    ensures var b := ParseBudgets(raw, MODES).value; var printed := PrintBudgets(b);
      && ParseBudgets(printed, MODES) == Ok(b)
      && printed.Keys != {} && printed.Keys <= {"low", "medium", "high"}
  {
    BudgetsAreRaw(raw, MODES);
    var printed := PrintBudgets(ParseBudgets(raw, MODES).value);
    BudgetsAgree(raw, printed, MODES);
    var k :| k in raw.Keys;
    assert k in MODES && k in printed.Keys;
    forall m | m in printed.Keys ensures m in {"low", "medium", "high"} { assert m in raw.Keys; }
  }

  lemma ReasoningReparses(v: Json, apiMode: ApiMode)
    requires ParseReasoning(v, apiMode).Ok?
    ensures ParseReasoning(PrintReasoning(ParseReasoning(v, apiMode).value), apiMode) == ParseReasoning(v, apiMode)
  {
    var r := ParseReasoning(v, apiMode).value;
    var kind := Get(v.fields, "kind");
    var printed := PrintReasoning(r);
    if kind == Str("openai_reasoning_effort") {
      ModesReparse(Get(v.fields, "modes").items);
      assert printed.fields.Keys <= {"kind", "modes"};
      assert PrintModes(r.modes) != [];
    } else if kind == Str("anthropic_thinking_budget") {
      ThinkingReparses(Get(v.fields, "budgets").fields);
      assert printed.fields.Keys <= {"kind", "budgets"};
    } else {
      assert printed.fields.Keys <= {"kind"};
    }
  }

  // ---------------------------------------------------------------------------
  // Models.

  lemma WindowReparses(fields: map<string, Json>, printed: map<string, Json>)
    requires ParseWindow(fields).Ok?
    requires ParseWindow(fields).value.0.None? ==> "context_window_tokens" !in printed && "output_reserve_tokens" !in printed
    requires ParseWindow(fields).value.0.Some? ==>
      && ParseWindow(fields).value.1.Some?
      && "context_window_tokens" in printed && printed["context_window_tokens"] == Int(ParseWindow(fields).value.0.value)
      && "output_reserve_tokens" in printed && printed["output_reserve_tokens"] == Int(ParseWindow(fields).value.1.value)
    ensures ParseWindow(printed) == ParseWindow(fields)
  {
  }

  lemma ModelReparses(providerId: string, apiMode: ApiMode, raw: Json, ids: set<string>)
    requires ParseModel(providerId, apiMode, raw, ids).Ok?
    ensures ParseModel(providerId, apiMode, PrintModel(ParseModel(providerId, apiMode, raw, ids).value), ids) == ParseModel(providerId, apiMode, raw, ids)
  {
    var m := ParseModel(providerId, apiMode, raw, ids).value;
    var printed := PrintModel(m).fields;
    StringReparses(Get(raw.fields, "id"));
    StringReparses(Get(raw.fields, "label"));
    WindowReparses(raw.fields, printed);
    ReasoningReparses(if "reasoning" in raw.fields then raw.fields["reasoning"] else Obj(map["kind" := Str("unsupported")]), apiMode);
    assert printed.Keys <= MODEL_FIELDS;
    assert printed["id"] == Str(m.id) && printed["label"] == Str(m.caption) && printed["reasoning"] == PrintReasoning(m.reasoning);
  }

  lemma {:induction false} ModelsReparse(providerId: string, apiMode: ApiMode, raws: seq<Json>, ids: set<string>)
    requires ParseModels(providerId, apiMode, raws, ids).Ok?
    ensures var ms := ParseModels(providerId, apiMode, raws, ids).value;
      |ms| == |raws| && ParseModels(providerId, apiMode, PrintModels(ms), ids) == Ok(ms)
    decreases |raws|
  {
    if raws != [] {
      var init := raws[..|raws| - 1];
      ModelsReparse(providerId, apiMode, init, ids);
      var before := ParseModels(providerId, apiMode, init, ids).value;
      ModelReparses(providerId, apiMode, raws[|raws| - 1], ids + Ids(before));
      var ms := ParseModels(providerId, apiMode, raws, ids).value;
      assert ms[..|ms| - 1] == before;
      assert PrintModels(ms)[..|ms| - 1] == PrintModels(before);
    }
  }

  // ---------------------------------------------------------------------------
  // Base URLs: the one field that may not come back.

  /** No blank is left at the end once the trailing slashes are gone. */
  predicate Unpadded(url: string) { url == "" || !IsSpace(url[|url| - 1]) }

  lemma {:induction false} TrimSlashesIs(s: string)
    ensures TrimSlashes(s) <= s && TrimSlashes(TrimSlashes(s)) == TrimSlashes(s)
    decreases |s|
  {
    if s != "" && s[|s| - 1] == '/' { TrimSlashesIs(s[..|s| - 1]); }
  }

  /** Rules for URLs that the standard library's parser satisfies: removing trailing slashes
      keeps a URL acceptable, and an empty string is not acceptable. */
  ghost predicate UrlRuleOk(urlOk: UrlRule) {
    !urlOk("") && forall u: string :: urlOk(u) ==> urlOk(TrimSlashes(u))
  }

  lemma BaseUrlReparsesIff(v: Json, urlOk: UrlRule)
    requires UrlRuleOk(urlOk) && BaseUrl(v, urlOk).Ok?
    ensures var b := BaseUrl(v, urlOk).value; BaseUrl(Str(b), urlOk) == Ok(b) <==> Unpadded(b)
  {
    var s := NonEmptyString(v).value;
    var b := TrimSlashes(s);
    StripIsClean(v.s);
    TrimSlashesIs(s);
    assert b != "" && b[0] == s[0];
    if Unpadded(b) {
      StripClean(b);
    } else {
      PaddedShrinks(b);
    }
  }

  /** A base URL with a blank before its trailing slash is accepted with the blank, which a second parse removes. */
  lemma PaddedBaseUrlChanges(urlOk: UrlRule)
    requires UrlRuleOk(urlOk) && urlOk("https://h/a /")
    ensures BaseUrl(Str("https://h/a /"), urlOk) == Ok("https://h/a ")
    ensures BaseUrl(Str("https://h/a "), urlOk) != Ok("https://h/a ")
  {
    var s, b := "https://h/a /", "https://h/a ";
    StripClean(s);
    assert s[..|s| - 1] == b && TrimSlashes(b) == b;
    BaseUrlReparsesIff(Str(s), urlOk);
  }

  /** A string that ends in a blank loses it when stripped. */
  lemma PaddedShrinks(b: string)
    requires b != "" && !Unpadded(b)
    ensures |TrimSlashes(Strip(b))| < |b|
  {
    RStripIs(b);
    LStripIs(RStrip(b));
    TrimSlashesIs(Strip(b));
    assert RStrip(b) == RStrip(b[..|b| - 1]);
    RStripIs(b[..|b| - 1]);
  }

  // ---------------------------------------------------------------------------
  // Providers.

  /** Parsing a printed provider reduces to parsing its base URL once the rest comes back. */
  lemma PrintedProvider(p: Provider, pids: set<string>, mids: set<string>, urlOk: UrlRule)
    requires Identifier(Str(p.id)) == Ok(p.id) && p.id !in pids
    requires NonEmptyString(Str(p.caption)) == Ok(p.caption) && ApiKeyEnv(Str(p.apiKeyEnv)) == Ok(p.apiKeyEnv)
    requires ParseApiMode(Str(PrintApiMode(p.apiMode))) == Ok(p.apiMode)
    requires p.models != [] && ParseModels(p.id, p.apiMode, PrintModels(p.models), mids) == Ok(p.models)
    ensures ParseProvider(PrintProvider(p), pids, mids, urlOk) ==
      match BaseUrl(Str(p.baseUrl), urlOk) case Ok(b) => Ok(p.(baseUrl := b)) case Err(e) => Err(e)
  {
    PrintedFields(p);
    ParsedFields(PrintProvider(p), p, pids, mids, urlOk);
  }

  /** The fields of a provider, wherever they are written down. */
  predicate HasFields(printed: map<string, Json>, p: Provider) {
    && printed.Keys <= PROVIDER_FIELDS
    && Get(printed, "id") == Str(p.id) && Get(printed, "label") == Str(p.caption)
    && Get(printed, "api_mode") == Str(PrintApiMode(p.apiMode)) && Get(printed, "base_url") == Str(p.baseUrl)
    && Get(printed, "api_key_env") == Str(p.apiKeyEnv) && Get(printed, "models") == Arr(PrintModels(p.models))
  }

  lemma PrintedFields(p: Provider)
    ensures PrintProvider(p).Obj? && HasFields(PrintProvider(p).fields, p)
  {
  }

  lemma ParsedFields(raw: Json, p: Provider, pids: set<string>, mids: set<string>, urlOk: UrlRule)
    requires raw.Obj? && HasFields(raw.fields, p)
    requires Identifier(Str(p.id)) == Ok(p.id) && p.id !in pids
    requires NonEmptyString(Str(p.caption)) == Ok(p.caption) && ApiKeyEnv(Str(p.apiKeyEnv)) == Ok(p.apiKeyEnv)
    requires ParseApiMode(Str(PrintApiMode(p.apiMode))) == Ok(p.apiMode)
    requires p.models != [] && ParseModels(p.id, p.apiMode, PrintModels(p.models), mids) == Ok(p.models)
    ensures ParseProvider(raw, pids, mids, urlOk) ==
      match BaseUrl(Str(p.baseUrl), urlOk) case Ok(b) => Ok(p.(baseUrl := b)) case Err(e) => Err(e)
  {
  }

  /** What an accepted provider's fields satisfy on their own. */
  lemma ProviderFields(raw: Json, pids: set<string>, mids: set<string>, urlOk: UrlRule)
    requires ParseProvider(raw, pids, mids, urlOk).Ok?
    ensures var p := ParseProvider(raw, pids, mids, urlOk).value;
      && Identifier(Str(p.id)) == Ok(p.id) && p.id !in pids
      && NonEmptyString(Str(p.caption)) == Ok(p.caption) && ApiKeyEnv(Str(p.apiKeyEnv)) == Ok(p.apiKeyEnv)
      && BaseUrl(Get(raw.fields, "base_url"), urlOk) == Ok(p.baseUrl)
      && p.models != [] && Get(raw.fields, "models").Arr?
      && ParseModels(p.id, p.apiMode, Get(raw.fields, "models").items, mids) == Ok(p.models)
  {
    StringReparses(Get(raw.fields, "id"));
    StringReparses(Get(raw.fields, "label"));
    StringReparses(Get(raw.fields, "api_key_env"));
    var p := ParseProvider(raw, pids, mids, urlOk).value;
    ModelsReparse(p.id, p.apiMode, Get(raw.fields, "models").items, mids);
  }

  lemma ProviderReparsesIff(raw: Json, pids: set<string>, mids: set<string>, urlOk: UrlRule)
    requires UrlRuleOk(urlOk) && ParseProvider(raw, pids, mids, urlOk).Ok?
    ensures var p := ParseProvider(raw, pids, mids, urlOk).value;
      ParseProvider(PrintProvider(p), pids, mids, urlOk) == Ok(p) <==> Unpadded(p.baseUrl)
  {
    var p := ParseProvider(raw, pids, mids, urlOk).value;
    ProviderFields(raw, pids, mids, urlOk);
    BaseUrlReparsesIff(Get(raw.fields, "base_url"), urlOk);
    ApiModeReparses(p.apiMode);
    ModelsReparse(p.id, p.apiMode, Get(raw.fields, "models").items, mids);
    PrintedProvider(p, pids, mids, urlOk);
  }

  lemma ApiModeReparses(m: ApiMode)
    ensures ParseApiMode(Str(PrintApiMode(m))) == Ok(m)
  {
    var s := PrintApiMode(m);
    assert !IsSpace(s[0]) && !IsSpace(s[|s| - 1]);
    StripClean(s);
  }

  ghost predicate AllUnpadded(ps: seq<Provider>) { forall i :: 0 <= i < |ps| ==> Unpadded(ps[i].baseUrl) }

  lemma UnpaddedSnoc(ps: seq<Provider>, p: Provider)
    ensures AllUnpadded(ps + [p]) <==> AllUnpadded(ps) && Unpadded(p.baseUrl)
  {
    var all := ps + [p];
    assert all[|ps|] == p && forall i :: 0 <= i < |ps| ==> all[i] == ps[i];
  }

  /** Printed providers parse back one by one. */
  lemma ProvidersSnoc(before: seq<Provider>, last: Provider, urlOk: UrlRule)
    ensures ParseProviders(PrintProviders(before + [last]), urlOk) == Ok(before + [last]) <==>
      && ParseProviders(PrintProviders(before), urlOk) == Ok(before)
      && ParseProvider(PrintProvider(last), ProviderIds(before), Ids(AllModels(before)), urlOk) == Ok(last)
  {
    var ps, printed := before + [last], PrintProviders(before + [last]);
    assert printed[..|printed| - 1] == PrintProviders(before) && printed[|printed| - 1] == PrintProvider(last);
    if ParseProviders(printed, urlOk) == Ok(ps) {
      assert ps[..|before|] == ParseProviders(PrintProviders(before), urlOk).value && ps[..|before|] == before;
    }
  }

  lemma {:induction false} ProvidersReparseIff(raws: seq<Json>, urlOk: UrlRule)
    requires UrlRuleOk(urlOk) && ParseProviders(raws, urlOk).Ok?
    ensures var ps := ParseProviders(raws, urlOk).value;
      |ps| == |raws| && (ParseProviders(PrintProviders(ps), urlOk) == Ok(ps) <==> AllUnpadded(ps))
    decreases |raws|
  {
    if raws != [] {
      var init := raws[..|raws| - 1];
      ProvidersReparseIff(init, urlOk);
      var before := ParseProviders(init, urlOk).value;
      var last := ParseProvider(raws[|raws| - 1], ProviderIds(before), Ids(AllModels(before)), urlOk).value;
      ProviderReparsesIff(raws[|raws| - 1], ProviderIds(before), Ids(AllModels(before)), urlOk);
      ProvidersSnoc(before, last, urlOk);
      UnpaddedSnoc(before, last);
    }
  }

  lemma PrintedSettings(s: Settings, urlOk: UrlRule)
    requires NonEmptyString(Str(s.defaultModel)) == Ok(s.defaultModel) && s.providers != []
    ensures FromMapping(ToMapping(s), urlOk) == AssembleSettings(s.defaultModel, PrintProviders(s.providers), urlOk)
  {
    var printed := ToMapping(s);
    assert printed.Keys <= {"version", "default_model", "providers"};
    assert Get(printed, "version") == Int(1) && Get(printed, "default_model") == Str(s.defaultModel);
    assert Get(printed, "providers") == Arr(PrintProviders(s.providers));
  }

  /** An accepted document comes back from its own print-out exactly when no base URL has a
      blank right before its trailing slashes. */
  lemma RoundTripIff(doc: map<string, Json>, urlOk: UrlRule)
    requires UrlRuleOk(urlOk) && FromMapping(doc, urlOk).Ok?
    ensures var s := FromMapping(doc, urlOk).value;
      FromMapping(ToMapping(s), urlOk) == Ok(s) <==> forall i :: 0 <= i < |s.providers| ==> Unpadded(s.providers[i].baseUrl)
  {
    StringReparses(Get(doc, "default_model"));
    ProvidersReparseIff(Get(doc, "providers").items, urlOk);
    PrintedSettings(FromMapping(doc, urlOk).value, urlOk);
  }

  // ---------------------------------------------------------------------------
  // What acceptance guarantees.

  ghost predicate DistinctModels(ms: seq<Model>) {
    forall i, j :: 0 <= i < j < |ms| ==> ms[i].id != ms[j].id
  }

  lemma {:induction false} ParsedModels(providerId: string, apiMode: ApiMode, raws: seq<Json>, ids: set<string>)
    requires ParseModels(providerId, apiMode, raws, ids).Ok?
    ensures var ms := ParseModels(providerId, apiMode, raws, ids).value;
      && DistinctModels(ms)
      && (forall i :: 0 <= i < |ms| ==> ms[i].id !in ids && ms[i].provider == providerId && ModelIdOk(providerId, ms[i].id))
    decreases |raws|
  {
    if raws != [] {
      var init := raws[..|raws| - 1];
      ParsedModels(providerId, apiMode, init, ids);
      var before := ParseModels(providerId, apiMode, init, ids).value;
      var ms := ParseModels(providerId, apiMode, raws, ids).value;
      assert ms == before + [ms[|ms| - 1]];
      forall i | 0 <= i < |before| ensures ms[i].id != ms[|ms| - 1].id { assert before[i].id in Ids(before); }
    }
  }

  lemma ModelsConcat(a: seq<Model>, b: seq<Model>)
    requires DistinctModels(a) && DistinctModels(b) && forall i :: 0 <= i < |b| ==> b[i].id !in Ids(a)
    ensures DistinctModels(a + b)
  {
    var c := a + b;
    forall i, j | 0 <= i < j < |c| ensures c[i].id != c[j].id {
      if i < |a| <= j { assert a[i].id in Ids(a); }
    }
  }

  ghost predicate Consistent(ps: seq<Provider>) {
    && (forall i, j :: 0 <= i < j < |ps| ==> ps[i].id != ps[j].id)
    && DistinctModels(AllModels(ps))
    && (forall i :: 0 <= i < |ps| ==> ps[i].models != [] && IsProviderId(ps[i].id))
    && (forall i, k :: 0 <= i < |ps| && 0 <= k < |ps[i].models| ==>
          ps[i].models[k].provider == ps[i].id && ModelIdOk(ps[i].id, ps[i].models[k].id))
  }

  lemma ConsistentSnoc(before: seq<Provider>, last: Provider)
    requires Consistent(before) && last.id !in ProviderIds(before) && IsProviderId(last.id) && last.models != []
    requires DistinctModels(last.models)
    requires forall k :: 0 <= k < |last.models| ==>
      last.models[k].id !in Ids(AllModels(before)) && last.models[k].provider == last.id && ModelIdOk(last.id, last.models[k].id)
    ensures Consistent(before + [last])
  {
    var ps := before + [last];
    assert ps[..|ps| - 1] == before;
    ModelsConcat(AllModels(before), last.models);
    forall i | 0 <= i < |before| ensures ps[i].id != last.id { assert before[i].id in ProviderIds(before); }
  }

  lemma {:induction false} ParsedProviders(raws: seq<Json>, urlOk: UrlRule)
    requires ParseProviders(raws, urlOk).Ok?
    ensures Consistent(ParseProviders(raws, urlOk).value) && |ParseProviders(raws, urlOk).value| == |raws|
    decreases |raws|
  {
    if raws != [] {
      var init, raw := raws[..|raws| - 1], raws[|raws| - 1];
      ParsedProviders(init, urlOk);
      var before := ParseProviders(init, urlOk).value;
      var last := ParseProvider(raw, ProviderIds(before), Ids(AllModels(before)), urlOk).value;
      ProviderFields(raw, ProviderIds(before), Ids(AllModels(before)), urlOk);
      ParsedModels(last.id, last.apiMode, Get(raw.fields, "models").items, Ids(AllModels(before)));
      ConsistentSnoc(before, last);
    }
  }

  /** Accepted settings have between 1 and 32 providers with distinct ids, at most 256 models
      with distinct ids, each under the provider its id names, and a default among them. */
  lemma AcceptedSettingsAreConsistent(doc: map<string, Json>, urlOk: UrlRule)
    requires FromMapping(doc, urlOk).Ok?
    ensures var s := FromMapping(doc, urlOk).value;
      && 1 <= |s.providers| <= MAX_PROVIDERS && Consistent(s.providers)
      && |AllModels(s.providers)| <= MAX_MODELS
      && s.defaultModel in Ids(AllModels(s.providers))
  {
    var s := FromMapping(doc, urlOk).value;
    ParsedProviders(Get(doc, "providers").items, urlOk);
    IdsCount(AllModels(s.providers));
  }

  lemma {:induction false} IdsCount(ms: seq<Model>)
    requires DistinctModels(ms)
    ensures |Ids(ms)| == |ms|
    decreases |ms|
  {
    if ms == [] {
      assert Ids(ms) == {};
    } else {
      var init, last := ms[..|ms| - 1], ms[|ms| - 1];
      IdsCount(init);
      assert forall i :: 0 <= i < |init| ==> init[i] == ms[i];
      assert Ids(ms) == Ids(init) + {last.id};
      assert last.id !in Ids(init);
    }
  }

  // ---------------------------------------------------------------------------
  // Lookups.

  function FindModel(ms: seq<Model>, id: string): Result<Model> {
    if ms == [] then Err(UnknownId) else if ms[0].id == id then Ok(ms[0]) else FindModel(ms[1..], id)
  }

  function FindProvider(ps: seq<Provider>, id: string): Result<Provider> {
    if ps == [] then Err(UnknownId) else if ps[0].id == id then Ok(ps[0]) else FindProvider(ps[1..], id)
  }

  function ProviderForModel(s: Settings, id: string): Result<Provider> {
    var m :- FindModel(AllModels(s.providers), id);
    FindProvider(s.providers, m.provider)
  }

  lemma {:induction false} FindModelIs(ms: seq<Model>, k: nat)
    requires DistinctModels(ms) && k < |ms|
    ensures FindModel(ms, ms[k].id) == Ok(ms[k])
    decreases |ms|
  {
    if k > 0 { FindModelIs(ms[1..], k - 1); }
  }

  lemma {:induction false} FindModelFails(ms: seq<Model>, id: string)
    requires id !in Ids(ms)
    ensures FindModel(ms, id).Err?
    decreases |ms|
  {
    if ms != [] {
      assert ms[0].id in Ids(ms);
      assert forall i :: 0 <= i < |ms[1..]| ==> ms[1..][i] == ms[i + 1];
      FindModelFails(ms[1..], id);
    }
  }

  lemma {:induction false} FindProviderIs(ps: seq<Provider>, k: nat)
    requires (forall i, j :: 0 <= i < j < |ps| ==> ps[i].id != ps[j].id) && k < |ps|
    ensures FindProvider(ps, ps[k].id) == Ok(ps[k])
    decreases |ps|
  {
    if k > 0 { FindProviderIs(ps[1..], k - 1); }
  }

  lemma {:induction false} AllModelsHas(ps: seq<Provider>, i: nat, k: nat) returns (n: nat)
    requires i < |ps| && k < |ps[i].models|
    ensures n < |AllModels(ps)| && AllModels(ps)[n] == ps[i].models[k]
    decreases |ps|
  {
    if i == |ps| - 1 {
      n := |AllModels(ps[..i])| + k;
    } else {
      n := AllModelsHas(ps[..|ps| - 1], i, k);
    }
  }

  /** Lookups agree with the declared catalog: every declared model is found under its id with
      the provider that declares it, and no other id is found. */
  lemma LookupsAgreeWithTheCatalog(doc: map<string, Json>, urlOk: UrlRule, i: nat, k: nat, other: string)
    requires FromMapping(doc, urlOk).Ok?
    ensures var s := FromMapping(doc, urlOk).value;
      && (i < |s.providers| && k < |s.providers[i].models| ==>
            && FindModel(AllModels(s.providers), s.providers[i].models[k].id) == Ok(s.providers[i].models[k])
            && ProviderForModel(s, s.providers[i].models[k].id) == Ok(s.providers[i]))
      && (other !in Ids(AllModels(s.providers)) ==> FindModel(AllModels(s.providers), other).Err? && ProviderForModel(s, other).Err?)
      && FindModel(AllModels(s.providers), s.defaultModel).Ok?
  {
    AcceptedSettingsAreConsistent(doc, urlOk);
    var s := FromMapping(doc, urlOk).value;
    var all := AllModels(s.providers);
    if i < |s.providers| && k < |s.providers[i].models| {
      var n := AllModelsHas(s.providers, i, k);
      FindModelIs(all, n);
      FindProviderIs(s.providers, i);
    }
    if other !in Ids(all) { FindModelFails(all, other); }
    var d :| 0 <= d < |all| && all[d].id == s.defaultModel;
    FindModelIs(all, d);
  }

  // ---------------------------------------------------------------------------
  // Requests.

  lemma {:induction false} BudgetForListed(raw: map<string, Json>, modes: seq<string>, mode: string)
    requires ParseBudgets(raw, modes).Ok?
    ensures var b := ParseBudgets(raw, modes).value;
      && (mode in Firsts(b) <==> BudgetFor(b, mode).Some?)
      && (BudgetFor(b, mode).Some? ==> BudgetFor(b, mode).value >= 1024 && mode in raw && raw[mode] == Int(BudgetFor(b, mode).value))
    decreases |modes|
  {
    if modes != [] {
      BudgetForListed(raw, modes[..|modes| - 1], mode);
      var b := ParseBudgets(raw, modes).value;
      if modes[|modes| - 1] in raw {
        var before := b[..|b| - 1];
        assert before == ParseBudgets(raw, modes[..|modes| - 1]).value;
        assert Firsts(b) == Firsts(before) + [b[|b| - 1].0];
      }
    }
  }

  /** For accepted reasoning, a request succeeds exactly for "off" and the listed modes; a
      thinking request carries the configured budget, at least 1024 tokens. */
  lemma RequestsSucceedExactlyForListedModes(v: Json, apiMode: ApiMode, mode: string)
    requires ParseReasoning(v, apiMode).Ok?
    ensures var r := ParseReasoning(v, apiMode).value;
      && (RequestKwargs(r, mode).Ok? <==> mode == "off" || mode in r.modes)
      && (mode != "off" && r.kind.Effort? && mode in r.modes ==> RequestKwargs(r, mode) == Ok(ReasoningEffort(mode)))
      && (mode != "off" && r.kind.Thinking? && mode in r.modes ==>
            RequestKwargs(r, mode).value.ThinkingBudget? && RequestKwargs(r, mode).value.tokens >= 1024
            && mode in Get(v.fields, "budgets").fields
            && Get(v.fields, "budgets").fields[mode] == Int(RequestKwargs(r, mode).value.tokens))
  {
    if Get(v.fields, "kind") == Str("anthropic_thinking_budget") {
      BudgetForListed(Get(v.fields, "budgets").fields, MODES, mode);
    }
  }
}
