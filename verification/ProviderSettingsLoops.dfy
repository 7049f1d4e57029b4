/** The parser as the loops it is: accumulators and id sets that grow until an entry fails. */
module ProviderSettingsLoops {
  import opened ProviderSettings

  lemma {:induction false} ModesErrSticks(items: seq<Json>, i: nat)
    requires i <= |items| && ParseModes(items[..i]).Err?
    ensures ParseModes(items) == ParseModes(items[..i])
    decreases |items|
  {
    if i == |items| {
      assert items[..i] == items;
    } else {
      assert items[..|items| - 1][..i] == items[..i];
      ModesErrSticks(items[..|items| - 1], i);
    }
  }

  method Modes(items: seq<Json>) returns (r: Result<seq<string>>)
    ensures r == ParseModes(items)
  {
    var modes: seq<string> := [];
    var i := 0;
    while i < |items|
      invariant 0 <= i <= |items| && ParseModes(items[..i]) == Ok(modes)
    {
      assert items[..i + 1][..i] == items[..i];
      var mode := NonEmptyString(items[i]);
      if mode.Err? || mode.value !in MODES || mode.value in modes {
        r := if mode.Err? then Err(mode.problem) else if mode.value !in MODES then Err(BadMode) else Err(DuplicateMode);
        ModesErrSticks(items, i + 1);
        return;
      }
      modes := modes + [mode.value];
      i := i + 1;
    }
    assert items[..i] == items;
    r := Ok(modes);
  }

  lemma {:induction false} ModelsErrSticks(providerId: string, apiMode: ApiMode, raws: seq<Json>, ids: set<string>, i: nat)
    requires i <= |raws| && ParseModels(providerId, apiMode, raws[..i], ids).Err?
    ensures ParseModels(providerId, apiMode, raws, ids) == ParseModels(providerId, apiMode, raws[..i], ids)
    decreases |raws|
  {
    if i == |raws| {
      assert raws[..i] == raws;
    } else {
      assert raws[..|raws| - 1][..i] == raws[..i];
      ModelsErrSticks(providerId, apiMode, raws[..|raws| - 1], ids, i);
    }
  }

  lemma IdsSnoc(models: seq<Model>, m: Model)
    ensures Ids(models + [m]) == Ids(models) + {m.id}
  {
    var all := models + [m];
    assert forall i :: 0 <= i < |models| ==> all[i] == models[i];
    assert all[|models|] == m;
  }

  lemma IdsConcat(a: seq<Model>, b: seq<Model>)
    ensures Ids(a + b) == Ids(a) + Ids(b)
  {
    var all := a + b;
    assert forall i :: 0 <= i < |a| ==> all[i] == a[i];
    assert forall i :: 0 <= i < |b| ==> all[|a| + i] == b[i];
  }

  /** The models of one provider; `modelIds` is the set shared by the whole document. */
  method Models(providerId: string, apiMode: ApiMode, raws: seq<Json>, modelIds: set<string>) returns (r: Result<seq<Model>>, ids: set<string>)
    ensures r == ParseModels(providerId, apiMode, raws, modelIds)
    ensures r.Ok? ==> ids == modelIds + Ids(r.value)
  {
    var models: seq<Model> := [];
    ids := modelIds;
    var i := 0;
    while i < |raws|
      invariant 0 <= i <= |raws| && ParseModels(providerId, apiMode, raws[..i], modelIds) == Ok(models)
      invariant ids == modelIds + Ids(models)
    {
      assert raws[..i + 1][..i] == raws[..i];
      var model := ParseModel(providerId, apiMode, raws[i], ids);
      if model.Err? {
        ModelsErrSticks(providerId, apiMode, raws, modelIds, i + 1);
        r := Err(model.problem);
        return;
      }
      IdsSnoc(models, model.value);
      models := models + [model.value];
      ids := ids + {model.value.id};
      i := i + 1;
    }
    assert raws[..i] == raws;
    r := Ok(models);
  }

  lemma {:induction false} ProvidersErrSticks(raws: seq<Json>, urlOk: UrlRule, i: nat)
    requires i <= |raws| && ParseProviders(raws[..i], urlOk).Err?
    ensures ParseProviders(raws, urlOk) == ParseProviders(raws[..i], urlOk)
    decreases |raws|
  {
    if i == |raws| {
      assert raws[..i] == raws;
    } else {
      assert raws[..|raws| - 1][..i] == raws[..i];
      ProvidersErrSticks(raws[..|raws| - 1], urlOk, i);
    }
  }

  lemma SnocIds(ps: seq<Provider>, p: Provider)
    ensures ProviderIds(ps + [p]) == ProviderIds(ps) + {p.id}
    ensures Ids(AllModels(ps + [p])) == Ids(AllModels(ps)) + Ids(p.models)
  {
    var all := ps + [p];
    assert forall i :: 0 <= i < |ps| ==> all[i] == ps[i];
    assert all[|ps|] == p && all[..|ps|] == ps;
    IdsConcat(AllModels(ps), p.models);
  }

  /** The provider loop with its two growing id sets. */
  method Providers(raws: seq<Json>, urlOk: UrlRule) returns (r: Result<seq<Provider>>, modelIds: set<string>)
    ensures r == ParseProviders(raws, urlOk)
    ensures r.Ok? ==> modelIds == Ids(AllModels(r.value))
  {
    var providers: seq<Provider> := [];
    var providerIds: set<string> := {};
    modelIds := {};
    var i := 0;
    assert ProviderIds([]) == {} && Ids(AllModels([])) == {};
    while i < |raws|
      invariant 0 <= i <= |raws| && ParseProviders(raws[..i], urlOk) == Ok(providers)
      invariant providerIds == ProviderIds(providers) && modelIds == Ids(AllModels(providers))
    {
      assert raws[..i + 1][..i] == raws[..i];
      var p := ParseProvider(raws[i], providerIds, modelIds, urlOk);
      if p.Err? {
        ProvidersErrSticks(raws, urlOk, i + 1);
        r := Err(p.problem);
        return;
      }
      SnocIds(providers, p.value);
      providers := providers + [p.value];
      providerIds := providerIds + {p.value.id};
      modelIds := modelIds + Ids(p.value.models);
      i := i + 1;
    }
    assert raws[..i] == raws;
    r := Ok(providers);
  }
}
