// Which executor plugin serves which provider, and which models it is registered for. Records come in their
// order of priority; a first loop hands out the models, a second one the providers.
module Executors {
  import opened Text

  // A model; info stands for everything but its id.
  datatype Model = Model(id: string, info: int)

  // A record with an executor, as the two loops see it: the provider found for it in the first and in the second
  // loop (none when it is fused, not current or has no provider) and the models registered for it.
  datatype Candidate = Candidate(pluginId: string, first: Option<string>, second: Option<string>, models: seq<Model>)

  // Which providers and which models have an executor that is not the host's own.
  datatype Natives = Natives(provider: string -> bool, model: string -> bool)

  datatype Adapter = Adapter(provider: string, pluginId: string)

  datatype ModelClient = ModelClient(id: string, provider: string, models: seq<Model>)

  function ModelId(m: Model): string {
    TrimSpace(m.id)
  }

  function ModelIds(models: seq<Model>): set<string> {
    set m | m in models :: ModelId(m)
  }

  // The provider found for a record is normalised, and not empty.
  predicate ProvidersNormal(cands: seq<Candidate>) {
    forall c :: c in cands && c.second.Some? ==> Normal(c.second.value) != ""
  }

  predicate DistinctPlugins(cands: seq<Candidate>) {
    forall i, j :: 0 <= i < j < |cands| ==> cands[i].pluginId != cands[j].pluginId
  }

  // ---------- models per provider ----------

  function Normal(provider: string): string {
    ToLower(TrimSpace(provider))
  }

  function ListOf(out: map<string, seq<Model>>, key: string): seq<Model> {
    if key in out then out[key] else []
  }

  predicate Unrepeated(models: seq<Model>) {
    forall i, j :: 0 <= i < j < |models| ==> ModelId(models[i]) != ModelId(models[j])
  }

  // The list with the models appended whose ids it lacks
  function Appended(list: seq<Model>, models: seq<Model>): seq<Model> {
    if models == [] then list
    else
      var before, last := Appended(list, models[..|models| - 1]), models[|models| - 1];
      if ModelId(last) == "" || ModelId(last) in ModelIds(before) then before else before + [last]
  }

  lemma IdsPlus(models: seq<Model>, last: Model)
    ensures ModelIds(models + [last]) == ModelIds(models) + {ModelId(last)}
  {
  }

  lemma {:induction false} AppendedAdds(list: seq<Model>, models: seq<Model>)
    ensures ModelIds(Appended(list, models)) == ModelIds(list) + (ModelIds(models) - {""})
  {
    if models != [] {
      var init, last := models[..|models| - 1], models[|models| - 1];
      assert models == init + [last];
      AppendedAdds(list, init);
      IdsPlus(init, last);
      IdsPlus(Appended(list, init), last);
    }
  }

  lemma {:induction false} AppendedUnrepeated(list: seq<Model>, models: seq<Model>)
    requires Unrepeated(list)
    ensures Unrepeated(Appended(list, models))
  {
    if models != [] {
      var init := models[..|models| - 1];
      AppendedUnrepeated(list, init);
      var before := Appended(list, init);
      assert forall k | 0 <= k < |before| :: ModelId(before[k]) in ModelIds(before);
    }
  }

  function WithModels(out: map<string, seq<Model>>, provider: string, models: seq<Model>): map<string, seq<Model>> {
    var key := Normal(provider);
    var list := Appended(ListOf(out, key), models);
    if key == "" || list == [] then out else out[key := list]
  }

  method AppendModels(list: seq<Model>, models: seq<Model>) returns (all: seq<Model>)
    ensures all == Appended(list, models)
  {
    all := list;
    var seen := set m | m in list && ModelId(m) != "" :: ModelId(m);
    for i := 0 to |models|
      invariant all == Appended(list, models[..i])
      invariant seen == ModelIds(all) - {""}
    {
      assert models[..i + 1][..i] == models[..i];
      var id := ModelId(models[i]);
      if id == "" || id in seen {
        continue;
      }
      IdsPlus(all, models[i]);
      seen := seen + {id};
      all := all + [models[i]];
    }
    assert models[..|models|] == models;
  }

  lemma NothingToAppend(out: map<string, seq<Model>>, provider: string, models: seq<Model>)
    requires Normal(provider) == "" || models == []
    ensures WithModels(out, provider, models) == out
  {
    var key := Normal(provider);
    assert key in out ==> out[key := out[key]] == out;
  }

  method AppendModelsForProvider(out: map<string, seq<Model>>, provider: string, models: seq<Model>)
    returns (r: map<string, seq<Model>>)
    ensures r == WithModels(out, provider, models)
  {
    var key := Normal(provider);
    if key == "" || |models| == 0 {
      NothingToAppend(out, provider, models);
      return out;
    }
    var list := AppendModels(ListOf(out, key), models);
    r := if |list| > 0 then out[key := list] else out;
  }

  // What every append keeps: a provider lists no model twice.
  predicate NoneTwice(out: map<string, seq<Model>>) {
    forall key :: key in out ==> Unrepeated(out[key])
  }

  predicate Lists(out: map<string, seq<Model>>, provider: string, ids: set<string>) {
    ids <= ModelIds(ListOf(out, Normal(provider)))
  }

  lemma AppendKeeps(out: map<string, seq<Model>>, provider: string, models: seq<Model>)
    requires NoneTwice(out)
    ensures NoneTwice(WithModels(out, provider, models))
    ensures Normal(provider) != "" ==> Lists(WithModels(out, provider, models), provider, ModelIds(models) - {""})
    ensures forall p, ids :: Lists(out, p, ids) ==> Lists(WithModels(out, provider, models), p, ids)
  {
    var list := Appended(ListOf(out, Normal(provider)), models);
    AppendedAdds(ListOf(out, Normal(provider)), models);
    AppendedUnrepeated(ListOf(out, Normal(provider)), models);
    if list == [] {
      assert ModelIds(list) == {};
    }
  }

  // ---------- everything listed per provider ----------

  // Models to be listed under a provider
  datatype Entry = Entry(provider: string, models: seq<Model>)

  // The lists after the entries were appended, one after the other
  function Listed(out: map<string, seq<Model>>, entries: seq<Entry>): map<string, seq<Model>> {
    if entries == [] then out
    else
      var last := entries[|entries| - 1];
      WithModels(Listed(out, entries[..|entries| - 1]), last.provider, last.models)
  }

  // All models of the entries whose provider has that normal form, in their order
  function ModelsFor(entries: seq<Entry>, key: string): seq<Model> {
    if entries == [] then []
    else
      var last := entries[|entries| - 1];
      ModelsFor(entries[..|entries| - 1], key) + if Normal(last.provider) == key then last.models else []
  }

  lemma {:induction false} AppendedMore(list: seq<Model>, a: seq<Model>, b: seq<Model>)
    ensures Appended(list, a + b) == Appended(Appended(list, a), b)
    decreases |b|
  {
    if b == [] {
      assert a + b == a;
    } else {
      var init := b[..|b| - 1];
      assert (a + b)[..|a + b| - 1] == a + init;
      AppendedMore(list, a, init);
    }
  }

  lemma WithModelsAt(out: map<string, seq<Model>>, provider: string, models: seq<Model>, key: string)
    requires key != ""
    ensures ListOf(WithModels(out, provider, models), key) ==
      if Normal(provider) == key then Appended(ListOf(out, key), models) else ListOf(out, key)
  {
  }

  // What a provider lists is, in order, the first model of each id among all models of its entries.
  lemma {:induction false} ListedExactly(entries: seq<Entry>, key: string)
    requires key != ""
    ensures ListOf(Listed(map[], entries), key) == Appended([], ModelsFor(entries, key))
  {
    if entries != [] {
      var init, last := entries[..|entries| - 1], entries[|entries| - 1];
      ListedExactly(init, key);
      WithModelsAt(Listed(map[], init), last.provider, last.models, key);
      if Normal(last.provider) == key {
        AppendedMore([], ModelsFor(init, key), last.models);
      } else {
        assert ModelsFor(init, key) + [] == ModelsFor(init, key);
      }
    }
  }

  lemma {:induction false} ListedMore(out: map<string, seq<Model>>, a: seq<Entry>, b: seq<Entry>)
    ensures Listed(out, a + b) == Listed(Listed(out, a), b)
    decreases |b|
  {
    if b == [] {
      assert a + b == a;
    } else {
      assert (a + b)[..|a + b| - 1] == a + b[..|b| - 1];
      ListedMore(out, a, b[..|b| - 1]);
    }
  }

  // So no model is listed twice, and a model is listed if and only if some entry of the provider has it.
  lemma ListedIds(entries: seq<Entry>, key: string)
    requires key != ""
    ensures Unrepeated(ListOf(Listed(map[], entries), key))
    ensures ModelIds(ListOf(Listed(map[], entries), key)) == ModelIds(ModelsFor(entries, key)) - {""}
  {
    ListedExactly(entries, key);
    AppendedAdds([], ModelsFor(entries, key));
    AppendedUnrepeated([], ModelsFor(entries, key));
    assert ModelIds([]) == {};
  }

  // ---------- who wins a model ----------

  predicate Offers(natives: Natives, c: Candidate, m: string) {
    c.first.Some? && !natives.provider(c.first.value) && m != "" && !natives.model(m) && m in ModelIds(c.models)
  }

  // A record wins a model that it offers when no earlier record has won the model, and no earlier record of its
  // provider has won any model.
  ghost predicate Wins(cands: seq<Candidate>, natives: Natives, i: nat, m: string)
    requires i < |cands|
    decreases i
  {
    Offers(natives, cands[i], m) &&
    (forall j: nat :: j < i ==> !Wins(cands, natives, j, m)) &&
    (forall j: nat, n: string :: j < i && cands[j].first == cands[i].first ==> !Wins(cands, natives, j, n))
  }

  ghost function WonBy(cands: seq<Candidate>, natives: Natives, i: nat): (won: set<string>)
    requires i < |cands|
    ensures forall m :: m in won <==> Wins(cands, natives, i, m)
  {
    set m | m in ModelIds(cands[i].models) && Wins(cands, natives, i, m)
  }

  // The first model of each id that is kept, in their order
  function Firsts(models: seq<Model>, kept: set<string>): (r: seq<Model>)
    ensures ModelIds(r) == ModelIds(models) * kept
    ensures forall i, j :: 0 <= i < j < |r| ==> ModelId(r[i]) != ModelId(r[j])
  {
    if models == [] then []
    else
      var init, last := models[..|models| - 1], models[|models| - 1];
      assert models == init + [last];
      assert ModelIds(models) == ModelIds(init) + {ModelId(last)};
      var before := Firsts(init, kept);
      if ModelId(last) in kept && ModelId(last) !in ModelIds(before) then
        assert forall k | 0 <= k < |before| :: ModelId(before[k]) in ModelIds(before);
        assert ModelIds(before + [last]) == ModelIds(before) + {ModelId(last)};
        before + [last]
      else before
  }

  ghost function Chosen(cands: seq<Candidate>, natives: Natives, i: nat): seq<Model>
    requires i < |cands|
  {
    Firsts(cands[i].models, WonBy(cands, natives, i))
  }

  function SelectedFor(selected: map<string, seq<Model>>, pluginId: string): seq<Model> {
    if pluginId in selected then selected[pluginId] else []
  }

  // The models of a list that are free to claim
  ghost function Free(models: seq<Model>, claimed: set<string>, natives: Natives): set<string> {
    set m | m in ModelIds(models) && m != "" && m !in claimed && !natives.model(m)
  }

  // The inner loop: the models of one record that are not claimed yet
  method ClaimModels(models: seq<Model>, claimed: set<string>, natives: Natives)
    returns (nowClaimed: set<string>, picked: seq<Model>)
    ensures picked == Firsts(models, Free(models, claimed, natives))
    ensures nowClaimed == claimed + ModelIds(picked)
  {
    nowClaimed, picked := claimed, [];
    ghost var free := Free(models, claimed, natives);
    for i := 0 to |models|
      invariant picked == Firsts(models[..i], free)
      invariant nowClaimed == claimed + ModelIds(picked)
    {
      assert models[..i + 1][..i] == models[..i];
      var id := ModelId(models[i]);
      assert models[i] in models;
      if id != "" && id !in nowClaimed && !natives.model(id) {
        assert ModelIds(picked + [models[i]]) == ModelIds(picked) + {id};
        nowClaimed := nowClaimed + {id};
        picked := picked + [models[i]];
      }
    }
    assert models[..|models|] == models;
  }

  // Some record before the i-th has won model m.
  ghost predicate WonBefore(cands: seq<Candidate>, natives: Natives, i: nat, m: string)
    requires i <= |cands|
  {
    exists j: nat :: j < i && Wins(cands, natives, j, m)
  }

  // Some record before the i-th has won a model for provider p.
  ghost predicate TakenBefore(cands: seq<Candidate>, natives: Natives, i: nat, p: string)
    requires i <= |cands|
  {
    exists j: nat :: j < i && cands[j].first == Some(p) && WonBy(cands, natives, j) != {}
  }

  lemma WinsIff(cands: seq<Candidate>, natives: Natives, i: nat, m: string)
    requires i < |cands|
    ensures Wins(cands, natives, i, m) <==>
      Offers(natives, cands[i], m) && !WonBefore(cands, natives, i, m) && !TakenBefore(cands, natives, i, cands[i].first.value)
  {
    forall j: nat | j < i ensures WonBy(cands, natives, j) == {} <==> forall n: string :: !Wins(cands, natives, j, n) {
      NothingWon(cands, natives, j);
    }
  }

  lemma NothingWon(cands: seq<Candidate>, natives: Natives, j: nat)
    requires j < |cands|
    ensures WonBy(cands, natives, j) == {} <==> forall n: string :: !Wins(cands, natives, j, n)
  {
    var won := WonBy(cands, natives, j);
    if won == {} {
      forall n: string ensures !Wins(cands, natives, j, n) {
        assert n !in won;
      }
    } else {
      var n :| n in won;
      assert Wins(cands, natives, j, n);
    }
  }

  // What the first loop has done after i records
  ghost predicate Claimed(cands: seq<Candidate>, natives: Natives, i: nat, claimed: set<string>, owners: map<string, string>)
    requires i <= |cands|
  {
    (forall m: string :: m in claimed <==> WonBefore(cands, natives, i, m)) &&
    (forall p: string :: p in owners <==> TakenBefore(cands, natives, i, p)) &&
    (forall p: string :: p in owners ==> exists j: nat :: j < i && owners[p] == cands[j].pluginId)
  }

  ghost function AllChosen(cands: seq<Candidate>, natives: Natives): seq<seq<Model>> {
    seq(|cands|, i requires 0 <= i < |cands| => Chosen(cands, natives, i))
  }

  ghost predicate SelectedAs(cands: seq<Candidate>, chosen: seq<seq<Model>>, i: nat, selected: map<string, seq<Model>>)
    requires i <= |cands| == |chosen|
  {
    (forall j: nat :: j < i ==> SelectedFor(selected, cands[j].pluginId) == chosen[j]) &&
    (forall j: nat :: i <= j < |cands| ==> cands[j].pluginId !in selected)
  }

  ghost predicate Selections(cands: seq<Candidate>, natives: Natives, i: nat, selected: map<string, seq<Model>>)
    requires i <= |cands|
  {
    SelectedAs(cands, AllChosen(cands, natives), i, selected)
  }

  lemma WonNext(cands: seq<Candidate>, natives: Natives, i: nat, m: string)
    requires i < |cands|
    ensures WonBefore(cands, natives, i + 1, m) <==> WonBefore(cands, natives, i, m) || m in WonBy(cands, natives, i)
  {
  }

  lemma TakenNext(cands: seq<Candidate>, natives: Natives, i: nat, p: string)
    requires i < |cands|
    ensures TakenBefore(cands, natives, i + 1, p) <==>
      TakenBefore(cands, natives, i, p) || (cands[i].first == Some(p) && WonBy(cands, natives, i) != {})
  {
  }

  lemma ClaimedNext(cands: seq<Candidate>, natives: Natives, i: nat, claimed: set<string>, owners: map<string, string>)
    requires i < |cands| && Claimed(cands, natives, i, claimed, owners)
    ensures WonBy(cands, natives, i) == {} ==> Claimed(cands, natives, i + 1, claimed, owners)
    ensures WonBy(cands, natives, i) != {} && cands[i].first.Some? ==>
      Claimed(cands, natives, i + 1, claimed + WonBy(cands, natives, i), owners[cands[i].first.value := cands[i].pluginId])
  {
    forall m: string
      ensures WonBefore(cands, natives, i + 1, m) <==> WonBefore(cands, natives, i, m) || m in WonBy(cands, natives, i)
    {
      WonNext(cands, natives, i, m);
    }
    forall p: string
      ensures TakenBefore(cands, natives, i + 1, p) <==>
        TakenBefore(cands, natives, i, p) || (cands[i].first == Some(p) && WonBy(cands, natives, i) != {})
    {
      TakenNext(cands, natives, i, p);
    }
  }

  lemma SelectNext(cands: seq<Candidate>, chosen: seq<seq<Model>>, i: nat, selected: map<string, seq<Model>>)
    requires i < |cands| == |chosen| && SelectedAs(cands, chosen, i, selected) && DistinctPlugins(cands)
    ensures chosen[i] == [] ==> SelectedAs(cands, chosen, i + 1, selected)
    ensures SelectedAs(cands, chosen, i + 1, selected[cands[i].pluginId := chosen[i]])
  {
  }

  lemma SelectionsNext(cands: seq<Candidate>, natives: Natives, i: nat, selected: map<string, seq<Model>>)
    requires i < |cands| && Selections(cands, natives, i, selected) && DistinctPlugins(cands)
    ensures Chosen(cands, natives, i) == [] ==> Selections(cands, natives, i + 1, selected)
    ensures Selections(cands, natives, i + 1, selected[cands[i].pluginId := Chosen(cands, natives, i)])
  {
    assert AllChosen(cands, natives)[i] == Chosen(cands, natives, i);
    SelectNext(cands, AllChosen(cands, natives), i, selected);
  }

  lemma NoneChosen(cands: seq<Candidate>, natives: Natives, i: nat)
    requires i < |cands|
    ensures Chosen(cands, natives, i) == [] <==> WonBy(cands, natives, i) == {}
    ensures ModelIds(Chosen(cands, natives, i)) == WonBy(cands, natives, i)
  {
    var chosen := Chosen(cands, natives, i);
    forall m | m in WonBy(cands, natives, i) ensures m in ModelIds(cands[i].models) {
      assert Offers(natives, cands[i], m);
    }
    assert ModelIds(chosen) == ModelIds(cands[i].models) * WonBy(cands, natives, i);
    if chosen != [] {
      assert ModelId(chosen[0]) in ModelIds(chosen);
    } else {
      assert ModelIds(chosen) == {};
    }
  }

  // The models of a record whose provider is free, and that no earlier record has won, are those it wins.
  lemma FreeIsWon(cands: seq<Candidate>, natives: Natives, i: nat, claimed: set<string>, owners: map<string, string>)
    requires i < |cands| && Claimed(cands, natives, i, claimed, owners)
    ensures cands[i].first.Some? && !natives.provider(cands[i].first.value) && cands[i].first.value !in owners ==>
      Free(cands[i].models, claimed, natives) == WonBy(cands, natives, i)
    ensures (cands[i].first.None? || natives.provider(cands[i].first.value) || cands[i].models == [] ||
             cands[i].first.value in owners) ==> WonBy(cands, natives, i) == {}
  {
    forall m: string ensures m in WonBy(cands, natives, i) <==>
      Offers(natives, cands[i], m) && m !in claimed && cands[i].first.value !in owners
    {
      WinsIff(cands, natives, i, m);
    }
  }

  // The variables of the first loop: the models and the providers claimed, what each record is to get, and the
  // models listed per provider
  datatype Claims =
    Claims(models: set<string>, owners: map<string, string>, selected: map<string, seq<Model>>, listed: map<string, seq<Model>>)

  predicate Skipped(natives: Natives, c: Candidate, owners: map<string, string>) {
    c.first.None? || natives.provider(c.first.value) || |c.models| == 0 ||
    (c.first.value in owners && owners[c.first.value] != c.pluginId)
  }

  ghost function Turn(natives: Natives, c: Candidate, s: Claims): Claims {
    if c.first.Some? && natives.provider(c.first.value) then
      s.(listed := WithModels(s.listed, c.first.value, c.models))
    else if Skipped(natives, c, s.owners) then s
    else Pick(c, Firsts(c.models, Free(c.models, s.models, natives)), s)
  }

  function Pick(c: Candidate, picked: seq<Model>, s: Claims): Claims
    requires c.first.Some?
  {
    if picked == [] then s
    else
      s.(models := s.models + ModelIds(picked),
         owners := s.owners[c.first.value := c.pluginId],
         selected := s.selected[c.pluginId := picked])
  }

  ghost predicate UpTo(cands: seq<Candidate>, natives: Natives, i: nat, s: Claims)
    requires i <= |cands|
  {
    Claimed(cands, natives, i, s.models, s.owners) && Selections(cands, natives, i, s.selected)
  }

  lemma SkipKeeps(cands: seq<Candidate>, natives: Natives, i: nat, s: Claims, listed: map<string, seq<Model>>)
    requires i < |cands| && DistinctPlugins(cands) && UpTo(cands, natives, i, s)
    requires WonBy(cands, natives, i) == {}
    ensures UpTo(cands, natives, i + 1, s.(listed := listed))
  {
    ClaimedNext(cands, natives, i, s.models, s.owners);
    NoneChosen(cands, natives, i);
    SelectionsNext(cands, natives, i, s.selected);
  }

  lemma PickKeeps(cands: seq<Candidate>, natives: Natives, i: nat, s: Claims)
    requires i < |cands| && DistinctPlugins(cands) && UpTo(cands, natives, i, s)
    requires cands[i].first.Some? && WonBy(cands, natives, i) != {}
    ensures UpTo(cands, natives, i + 1, Pick(cands[i], Chosen(cands, natives, i), s))
  {
    ClaimedNext(cands, natives, i, s.models, s.owners);
    NoneChosen(cands, natives, i);
    SelectionsNext(cands, natives, i, s.selected);
  }

  lemma TurnKeeps(cands: seq<Candidate>, natives: Natives, i: nat, s: Claims)
    requires i < |cands| && DistinctPlugins(cands) && UpTo(cands, natives, i, s)
    ensures UpTo(cands, natives, i + 1, Turn(natives, cands[i], s))
  {
    var c := cands[i];
    FreeIsWon(cands, natives, i, s.models, s.owners);
    NoneChosen(cands, natives, i);
    if WonBy(cands, natives, i) == {} {
      SkipKeeps(cands, natives, i, s, s.listed);
      SkipKeeps(cands, natives, i, s, Turn(natives, c, s).listed);
    } else {
      PickKeeps(cands, natives, i, s);
    }
  }

  lemma TurnLists(natives: Natives, c: Candidate, s: Claims)
    requires NoneTwice(s.listed)
    ensures NoneTwice(Turn(natives, c, s).listed)
  {
    if c.first.Some? {
      AppendKeeps(s.listed, c.first.value, c.models);
    }
  }

  method TakeTurn(natives: Natives, c: Candidate, s: Claims) returns (r: Claims)
    ensures r == Turn(natives, c, s)
  {
    r := s;
    if c.first.None? {
      return;
    }
    if natives.provider(c.first.value) {
      var listed := AppendModelsForProvider(s.listed, c.first.value, c.models);
      r := s.(listed := listed);
      return;
    }
    if |c.models| == 0 {
      return;
    }
    var provider := c.first.value;
    if provider in s.owners && s.owners[provider] != c.pluginId {
      return;
    }
    var nowClaimed, picked := ClaimModels(c.models, s.models, natives);
    if |picked| > 0 {
      r := s.(models := nowClaimed, owners := s.owners[provider := c.pluginId], selected := s.selected[c.pluginId := picked]);
    }
  }

  // What the first loop lists: all models of the records whose provider has a native executor
  function NativeEntries(cands: seq<Candidate>, natives: Natives, n: nat): seq<Entry>
    requires n <= |cands|
  {
    if n == 0 then []
    else
      var c := cands[n - 1];
      NativeEntries(cands, natives, n - 1) +
      if c.first.Some? && natives.provider(c.first.value) then [Entry(c.first.value, c.models)] else []
  }

  lemma ListedOne(out: map<string, seq<Model>>, entries: seq<Entry>, e: Entry)
    ensures Listed(out, entries + [e]) == WithModels(Listed(out, entries), e.provider, e.models)
  {
    assert (entries + [e])[..|entries|] == entries;
  }

  lemma NativeListed(cands: seq<Candidate>, natives: Natives, i: nat, out: map<string, seq<Model>>, s: Claims)
    requires i < |cands| && s.listed == Listed(out, NativeEntries(cands, natives, i))
    ensures Turn(natives, cands[i], s).listed == Listed(out, NativeEntries(cands, natives, i + 1))
  {
    var entries, c := NativeEntries(cands, natives, i), cands[i];
    if c.first.Some? && natives.provider(c.first.value) {
      ListedOne(out, entries, Entry(c.first.value, c.models));
    } else {
      assert entries + [] == entries;
    }
  }

  // The first loop: which models each record is to be registered for
  method SelectModels(cands: seq<Candidate>, natives: Natives, before: map<string, seq<Model>>)
    returns (selected: map<string, seq<Model>>, listed: map<string, seq<Model>>)
    requires DistinctPlugins(cands) && NoneTwice(before)
    ensures Selections(cands, natives, |cands|, selected)
    ensures NoneTwice(listed) && listed == Listed(before, NativeEntries(cands, natives, |cands|))
  {
    var claims := Claims({}, map[], map[], before);
    for i := 0 to |cands|
      invariant UpTo(cands, natives, i, claims)
      invariant NoneTwice(claims.listed) && claims.listed == Listed(before, NativeEntries(cands, natives, i))
    {
      NativeListed(cands, natives, i, before, claims);
      TurnKeeps(cands, natives, i, claims);
      TurnLists(natives, cands[i], claims);
      claims := TakeTurn(natives, cands[i], claims);
    }
    selected, listed := claims.selected, claims.listed;
  }

  // ---------- who serves a provider ----------

  // The second loop leaves a record aside that has no provider, or that has models but won none of them.
  predicate Considered(c: Candidate, chosen: seq<Model>) {
    c.second.Some? && (c.models == [] || chosen != [])
  }

  // A record serves its provider when no native executor does, and no earlier record was considered for it.
  predicate Serves(cands: seq<Candidate>, natives: Natives, chosen: seq<seq<Model>>, i: nat)
    requires i < |cands| == |chosen|
  {
    Considered(cands[i], chosen[i]) && !natives.provider(cands[i].second.value) &&
    forall j: nat :: j < i && Considered(cands[j], chosen[j]) ==> cands[j].second != cands[i].second
  }

  function ClientId(pluginId: string, provider: string): string {
    "plugin:" + pluginId + ":" + provider + ":executor"
  }

  // The adapters of the first n records, and the model clients registered along with them
  function Adapters(cands: seq<Candidate>, natives: Natives, chosen: seq<seq<Model>>, n: nat): seq<Adapter>
    requires n <= |cands| == |chosen|
  {
    if n == 0 then []
    else if Serves(cands, natives, chosen, n - 1) then
      Adapters(cands, natives, chosen, n - 1) + [Adapter(cands[n - 1].second.value, cands[n - 1].pluginId)]
    else Adapters(cands, natives, chosen, n - 1)
  }

  function Clients(cands: seq<Candidate>, natives: Natives, chosen: seq<seq<Model>>, n: nat): seq<ModelClient>
    requires n <= |cands| == |chosen|
  {
    if n == 0 then []
    else if Serves(cands, natives, chosen, n - 1) && chosen[n - 1] != [] then
      Clients(cands, natives, chosen, n - 1) + [ClientOf(cands[n - 1], chosen[n - 1])]
    else Clients(cands, natives, chosen, n - 1)
  }

  function ClientOf(c: Candidate, chosen: seq<Model>): ModelClient
    requires c.second.Some?
  {
    ModelClient(ClientId(c.pluginId, c.second.value), c.second.value, chosen)
  }

  function ProvidersOf(adapters: seq<Adapter>): set<string> {
    set a | a in adapters :: a.provider
  }

  function IdsOf(clients: seq<ModelClient>): set<string> {
    set c | c in clients :: c.id
  }

  // Some record before the n-th was considered for provider p.
  predicate ConsideredBefore(cands: seq<Candidate>, chosen: seq<seq<Model>>, n: nat, p: string)
    requires n <= |cands| == |chosen|
  {
    exists j: nat :: j < n && Considered(cands[j], chosen[j]) && cands[j].second == Some(p)
  }

  lemma ConsideredMore(cands: seq<Candidate>, natives: Natives, chosen: seq<seq<Model>>, n: nat)
    requires n < |cands| == |chosen|
    ensures forall p: string :: ConsideredBefore(cands, chosen, n + 1, p) <==>
      ConsideredBefore(cands, chosen, n, p) || (Considered(cands[n], chosen[n]) && cands[n].second == Some(p))
    ensures Serves(cands, natives, chosen, n) <==>
      Considered(cands[n], chosen[n]) && !natives.provider(cands[n].second.value) &&
      !ConsideredBefore(cands, chosen, n, cands[n].second.value)
  {
    forall p: string ensures ConsideredBefore(cands, chosen, n + 1, p) <==>
      ConsideredBefore(cands, chosen, n, p) || (Considered(cands[n], chosen[n]) && cands[n].second == Some(p))
    {
      if ConsideredBefore(cands, chosen, n, p) {
        var j: nat :| j < n && Considered(cands[j], chosen[j]) && cands[j].second == Some(p);
        assert j < n + 1;
      }
    }
  }

  // The models of a registered client are listed under its provider.
  predicate AllListed(listed: map<string, seq<Model>>, clients: seq<ModelClient>) {
    forall c :: c in clients ==> Lists(listed, c.provider, ModelIds(c.models) - {""})
  }

  lemma ListMore(listed: map<string, seq<Model>>, clients: seq<ModelClient>, pluginId: string, provider: string, models: seq<Model>)
    requires NoneTwice(listed) && AllListed(listed, clients) && Normal(provider) != ""
    ensures var r := WithModels(listed, provider, models);
      NoneTwice(r) && AllListed(r, clients) && AllListed(r, clients + [ModelClient(ClientId(pluginId, provider), provider, models)])
  {
    AppendKeeps(listed, provider, models);
  }

  // What the second loop lists: for each record that serves its provider, the models chosen for it
  function ServedEntries(cands: seq<Candidate>, natives: Natives, chosen: seq<seq<Model>>, n: nat): seq<Entry>
    requires n <= |cands| == |chosen|
  {
    if n == 0 then []
    else
      ServedEntries(cands, natives, chosen, n - 1) +
      if Serves(cands, natives, chosen, n - 1) then [Entry(cands[n - 1].second.value, chosen[n - 1])] else []
  }

  lemma ServedMore(cands: seq<Candidate>, natives: Natives, chosen: seq<seq<Model>>, n: nat, out: map<string, seq<Model>>)
    requires n < |cands| == |chosen|
    ensures Listed(out, ServedEntries(cands, natives, chosen, n + 1)) ==
      if Serves(cands, natives, chosen, n) then
        WithModels(Listed(out, ServedEntries(cands, natives, chosen, n)), cands[n].second.value, chosen[n])
      else Listed(out, ServedEntries(cands, natives, chosen, n))
  {
    var entries := ServedEntries(cands, natives, chosen, n);
    if Serves(cands, natives, chosen, n) {
      ListedOne(out, entries, Entry(cands[n].second.value, chosen[n]));
    } else {
      assert entries + [] == entries;
    }
  }

  // The variables of the second loop; seen are the providers that a record was considered for
  datatype Assigned =
    Assigned(adapters: seq<Adapter>, clients: seq<ModelClient>, providers: set<string>, ids: set<string>,
             listed: map<string, seq<Model>>, seen: set<string>)

  function AssignTurn(natives: Natives, c: Candidate, models: seq<Model>, s: Assigned): Assigned {
    if !Considered(c, models) || c.second.value in s.seen then s
    else if natives.provider(c.second.value) then s.(seen := s.seen + {c.second.value})
    else Serve(c, models, s.(seen := s.seen + {c.second.value}))
  }

  function Serve(c: Candidate, models: seq<Model>, s: Assigned): Assigned
    requires c.second.Some?
  {
    var provider := c.second.value;
    var served := s.(adapters := s.adapters + [Adapter(provider, c.pluginId)], providers := s.providers + {provider},
                     listed := WithModels(s.listed, provider, models));
    if models == [] then served
    else served.(clients := s.clients + [ClientOf(c, models)], ids := s.ids + {ClientId(c.pluginId, provider)})
  }

  method TakeAssignTurn(natives: Natives, c: Candidate, models: seq<Model>, s: Assigned) returns (r: Assigned)
    ensures r == AssignTurn(natives, c, models, s)
  {
    r := s;
    if c.second.None? || (|c.models| > 0 && |models| == 0) || c.second.value in s.seen {
      return;
    }
    var provider := c.second.value;
    r := r.(seen := s.seen + {provider});
    if natives.provider(provider) {
      return;
    }
    var listed := AppendModelsForProvider(s.listed, provider, models);
    r := r.(adapters := s.adapters + [Adapter(provider, c.pluginId)], providers := s.providers + {provider}, listed := listed);
    if |models| > 0 {
      r := r.(clients := s.clients + [ModelClient(ClientId(c.pluginId, provider), provider, models)],
              ids := s.ids + {ClientId(c.pluginId, provider)});
    }
  }

  // What the second loop has done after i records
  ghost predicate AssignedUpTo(cands: seq<Candidate>, natives: Natives, chosen: seq<seq<Model>>, i: nat, s: Assigned)
    requires i <= |cands| == |chosen|
  {
    s.adapters == Adapters(cands, natives, chosen, i) && s.providers == ProvidersOf(s.adapters) &&
    s.clients == Clients(cands, natives, chosen, i) && s.ids == IdsOf(s.clients) &&
    forall p: string :: p in s.seen <==> ConsideredBefore(cands, chosen, i, p)
  }

  lemma ServeKeeps(cands: seq<Candidate>, natives: Natives, chosen: seq<seq<Model>>, i: nat, s: Assigned)
    requires i < |cands| == |chosen| && Serves(cands, natives, chosen, i)
    requires s.adapters == Adapters(cands, natives, chosen, i) && s.providers == ProvidersOf(s.adapters)
    requires s.clients == Clients(cands, natives, chosen, i) && s.ids == IdsOf(s.clients)
    ensures var r := Serve(cands[i], chosen[i], s);
      r.adapters == Adapters(cands, natives, chosen, i + 1) && r.providers == ProvidersOf(r.adapters) &&
      r.clients == Clients(cands, natives, chosen, i + 1) && r.ids == IdsOf(r.clients) && r.seen == s.seen
  {
  }

  lemma AssignKeeps(cands: seq<Candidate>, natives: Natives, chosen: seq<seq<Model>>, i: nat, s: Assigned)
    requires i < |cands| == |chosen| && AssignedUpTo(cands, natives, chosen, i, s)
    ensures AssignedUpTo(cands, natives, chosen, i + 1, AssignTurn(natives, cands[i], chosen[i], s))
  {
    ConsideredMore(cands, natives, chosen, i);
    if Serves(cands, natives, chosen, i) {
      ServeKeeps(cands, natives, chosen, i, s.(seen := s.seen + {cands[i].second.value}));
    }
  }

  lemma AssignLists(cands: seq<Candidate>, natives: Natives, chosen: seq<seq<Model>>, i: nat, s: Assigned, out: map<string, seq<Model>>)
    requires i < |cands| == |chosen| && ProvidersNormal(cands)
    requires AssignedUpTo(cands, natives, chosen, i, s) && s.listed == Listed(out, ServedEntries(cands, natives, chosen, i))
    requires NoneTwice(s.listed) && AllListed(s.listed, s.clients)
    ensures var r := AssignTurn(natives, cands[i], chosen[i], s);
      r.listed == Listed(out, ServedEntries(cands, natives, chosen, i + 1)) && NoneTwice(r.listed) && AllListed(r.listed, r.clients)
  {
    var c := cands[i];
    ConsideredMore(cands, natives, chosen, i);
    ServedMore(cands, natives, chosen, i, out);
    if Serves(cands, natives, chosen, i) {
      assert c in cands;
      ListMore(s.listed, s.clients, c.pluginId, c.second.value, chosen[i]);
    }
  }

  // The second loop
  method AssignProviders(cands: seq<Candidate>, natives: Natives, selected: map<string, seq<Model>>,
                         ghost chosen: seq<seq<Model>>, before: map<string, seq<Model>>)
    returns (s: Assigned)
    requires |chosen| == |cands| && SelectedAs(cands, chosen, |cands|, selected) && NoneTwice(before)
    requires ProvidersNormal(cands)
    ensures AssignedUpTo(cands, natives, chosen, |cands|, s)
    ensures NoneTwice(s.listed) && s.listed == Listed(before, ServedEntries(cands, natives, chosen, |cands|))
    ensures AllListed(s.listed, s.clients)
  {
    s := Assigned([], [], {}, {}, before, {});
    for i := 0 to |cands|
      invariant AssignedUpTo(cands, natives, chosen, i, s)
      invariant NoneTwice(s.listed) && AllListed(s.listed, s.clients)
      invariant s.listed == Listed(before, ServedEntries(cands, natives, chosen, i))
    {
      AssignKeeps(cands, natives, chosen, i, s);
      AssignLists(cands, natives, chosen, i, s, before);
      s := TakeAssignTurn(natives, cands[i], SelectedFor(selected, cands[i].pluginId), s);
    }
  }

  // ---------- what the arbitration gives ----------

  // No model is won twice.
  lemma WonOnce(cands: seq<Candidate>, natives: Natives, i: nat, j: nat, m: string)
    requires i < |cands| && j < |cands|
    requires Wins(cands, natives, i, m) && Wins(cands, natives, j, m)
    ensures i == j
  {
  }

  // The first eligible record wins: an offered model is won by that record or an earlier one, unless the
  // provider of the record was already taken by an earlier winner.
  lemma OfferedIsWon(cands: seq<Candidate>, natives: Natives, i: nat, m: string)
    requires i < |cands| && Offers(natives, cands[i], m)
    ensures TakenBefore(cands, natives, i, cands[i].first.value) || WonBefore(cands, natives, i + 1, m)
  {
    WinsIff(cands, natives, i, m);
    WonNext(cands, natives, i, m);
  }

  // Adapter a is that of a record, before the n-th, that serves its provider.
  ghost predicate AdapterOfOne(cands: seq<Candidate>, natives: Natives, chosen: seq<seq<Model>>, n: nat, a: Adapter)
    requires n <= |cands| == |chosen|
  {
    exists i: nat :: i < n && Serves(cands, natives, chosen, i) && a == Adapter(cands[i].second.value, cands[i].pluginId)
  }

  ghost predicate ClientOfOne(cands: seq<Candidate>, natives: Natives, chosen: seq<seq<Model>>, n: nat, c: ModelClient)
    requires n <= |cands| == |chosen|
  {
    exists i: nat :: i < n && Serves(cands, natives, chosen, i) && chosen[i] != [] && c == ClientOf(cands[i], chosen[i])
  }

  lemma AdapterOfOneMore(cands: seq<Candidate>, natives: Natives, chosen: seq<seq<Model>>, n: nat, a: Adapter)
    requires n < |cands| == |chosen|
    ensures AdapterOfOne(cands, natives, chosen, n + 1, a) <==>
      AdapterOfOne(cands, natives, chosen, n, a) ||
      (Serves(cands, natives, chosen, n) && a == Adapter(cands[n].second.value, cands[n].pluginId))
  {
    if AdapterOfOne(cands, natives, chosen, n, a) {
      var i: nat :| i < n && Serves(cands, natives, chosen, i) && a == Adapter(cands[i].second.value, cands[i].pluginId);
      assert i < n + 1;
    }
  }

  lemma ClientOfOneMore(cands: seq<Candidate>, natives: Natives, chosen: seq<seq<Model>>, n: nat, c: ModelClient)
    requires n < |cands| == |chosen|
    ensures ClientOfOne(cands, natives, chosen, n + 1, c) <==>
      ClientOfOne(cands, natives, chosen, n, c) ||
      (Serves(cands, natives, chosen, n) && chosen[n] != [] && c == ClientOf(cands[n], chosen[n]))
  {
    if ClientOfOne(cands, natives, chosen, n, c) {
      var i: nat :| i < n && Serves(cands, natives, chosen, i) && chosen[i] != [] && c == ClientOf(cands[i], chosen[i]);
      assert i < n + 1;
    }
  }

  predicate OnePerProvider(adapters: seq<Adapter>) {
    forall k, l :: 0 <= k < l < |adapters| ==> adapters[k].provider != adapters[l].provider
  }

  predicate DisjointModels(clients: seq<ModelClient>) {
    forall k, l :: 0 <= k < l < |clients| ==> ModelIds(clients[k].models) !! ModelIds(clients[l].models)
  }

  // A provider has one adapter at most, none when its executor is native, and always of a plugin that serves it.
  lemma {:induction false} AdaptersSound(cands: seq<Candidate>, natives: Natives, chosen: seq<seq<Model>>, n: nat)
    requires n <= |cands| == |chosen|
    ensures forall a :: a in Adapters(cands, natives, chosen, n) <==> AdapterOfOne(cands, natives, chosen, n, a)
    ensures forall a :: a in Adapters(cands, natives, chosen, n) ==> !natives.provider(a.provider)
    ensures OnePerProvider(Adapters(cands, natives, chosen, n))
  {
    if n > 0 {
      AdaptersSound(cands, natives, chosen, n - 1);
      forall a ensures a in Adapters(cands, natives, chosen, n) <==> AdapterOfOne(cands, natives, chosen, n, a) {
        AdapterOfOneMore(cands, natives, chosen, n - 1, a);
      }
      var before := Adapters(cands, natives, chosen, n - 1);
      if Serves(cands, natives, chosen, n - 1) {
        forall k | 0 <= k < |before| ensures before[k].provider != cands[n - 1].second.value {
          assert before[k] in before;
          assert AdapterOfOne(cands, natives, chosen, n - 1, before[k]);
        }
        assert Adapters(cands, natives, chosen, n) == before + [Adapter(cands[n - 1].second.value, cands[n - 1].pluginId)];
      } else {
        assert Adapters(cands, natives, chosen, n) == before;
      }
    }
  }

  lemma {:induction false} ClientsAre(cands: seq<Candidate>, natives: Natives, chosen: seq<seq<Model>>, n: nat)
    requires n <= |cands| == |chosen|
    ensures forall c :: c in Clients(cands, natives, chosen, n) <==> ClientOfOne(cands, natives, chosen, n, c)
  {
    if n > 0 {
      ClientsAre(cands, natives, chosen, n - 1);
      forall c ensures c in Clients(cands, natives, chosen, n) <==> ClientOfOne(cands, natives, chosen, n, c) {
        ClientOfOneMore(cands, natives, chosen, n - 1, c);
      }
    }
  }

  // No model is in two of the model clients.
  lemma {:induction false} ClientsDisjoint(cands: seq<Candidate>, natives: Natives, n: nat)
    requires n <= |cands|
    ensures DisjointModels(Clients(cands, natives, AllChosen(cands, natives), n))
  {
    if n > 0 {
      ClientsDisjoint(cands, natives, n - 1);
      var chosen := AllChosen(cands, natives);
      ClientsAre(cands, natives, chosen, n - 1);
      var before := Clients(cands, natives, chosen, n - 1);
      forall k | 0 <= k < |before| ensures ModelIds(before[k].models) !! ModelIds(chosen[n - 1]) {
        assert before[k] in before;
        assert ClientOfOne(cands, natives, chosen, n - 1, before[k]);
        var i: nat :| i < n - 1 && Serves(cands, natives, chosen, i) && before[k].models == chosen[i];
        ChosenDisjoint(cands, natives, i, n - 1);
      }
      if Serves(cands, natives, chosen, n - 1) && chosen[n - 1] != [] {
        var last := ClientOf(cands[n - 1], chosen[n - 1]);
        assert Clients(cands, natives, chosen, n) == before + [last];
      } else {
        assert Clients(cands, natives, chosen, n) == before;
      }
    }
  }

  lemma ChosenDisjoint(cands: seq<Candidate>, natives: Natives, i: nat, j: nat)
    requires i < j < |cands|
    ensures ModelIds(Chosen(cands, natives, i)) !! ModelIds(Chosen(cands, natives, j))
  {
    NoneChosen(cands, natives, i);
    NoneChosen(cands, natives, j);
    forall m | m in WonBy(cands, natives, i) && m in WonBy(cands, natives, j) ensures false {
      WonOnce(cands, natives, i, j, m);
    }
  }

  lemma ChosenByOne(cands: seq<Candidate>, natives: Natives, i: nat, j: nat)
    requires i < |cands| && j < |cands|
    requires Chosen(cands, natives, i) == Chosen(cands, natives, j) != []
    ensures i == j
  {
    assert ModelId(Chosen(cands, natives, i)[0]) in ModelIds(Chosen(cands, natives, i));
    if i < j {
      ChosenDisjoint(cands, natives, i, j);
    } else if j < i {
      ChosenDisjoint(cands, natives, j, i);
    }
  }

  // For every ordered list of records, no model is twice in a model client, and the provider of each client is
  // served by an adapter of the same plugin.
  lemma ClientsServed(cands: seq<Candidate>, natives: Natives, c: ModelClient)
    requires c in Clients(cands, natives, AllChosen(cands, natives), |cands|)
    ensures Unrepeated(c.models) && c.models != []
    ensures exists a :: a in Adapters(cands, natives, AllChosen(cands, natives), |cands|) &&
              a.provider == c.provider && c.id == ClientId(a.pluginId, a.provider)
  {
    var chosen := AllChosen(cands, natives);
    ClientsAre(cands, natives, chosen, |cands|);
    AdaptersSound(cands, natives, chosen, |cands|);
    var i: nat :| i < |cands| && Serves(cands, natives, chosen, i) && chosen[i] != [] && c == ClientOf(cands[i], chosen[i]);
    var a := Adapter(cands[i].second.value, cands[i].pluginId);
    assert AdapterOfOne(cands, natives, chosen, |cands|, a);
  }

  // The models that a record won are registered if and only if the record serves its provider.
  lemma RegisteredIffServes(cands: seq<Candidate>, natives: Natives, i: nat)
    requires i < |cands| && AllChosen(cands, natives)[i] != []
    ensures Serves(cands, natives, AllChosen(cands, natives), i) <==>
      exists c :: c in Clients(cands, natives, AllChosen(cands, natives), |cands|) && c.models == AllChosen(cands, natives)[i]
  {
    var chosen := AllChosen(cands, natives);
    ClientsAre(cands, natives, chosen, |cands|);
    if Serves(cands, natives, chosen, i) {
      assert ClientOfOne(cands, natives, chosen, |cands|, ClientOf(cands[i], chosen[i]));
    }
    forall c | c in Clients(cands, natives, chosen, |cands|) && c.models == chosen[i]
      ensures Serves(cands, natives, chosen, i)
    {
      var j: nat :| j < |cands| && Serves(cands, natives, chosen, j) && c.models == chosen[j];
      ChosenByOne(cands, natives, i, j);
    }
  }

  // Not every model won is registered: a record without models can take the provider before the winner.
  lemma WonButNotRegistered(m: Model)
    requires ModelId(m) != ""
    ensures var cands := [Candidate("a", Some("p"), Some("p"), []), Candidate("b", Some("p"), Some("p"), [m])];
      var natives := Natives(_ => false, _ => false);
      Wins(cands, natives, 1, ModelId(m)) && Clients(cands, natives, AllChosen(cands, natives), 2) == []
  {
    var cands := [Candidate("a", Some("p"), Some("p"), []), Candidate("b", Some("p"), Some("p"), [m])];
    var natives := Natives(_ => false, _ => false);
    assert m in cands[1].models;
    assert forall n: string :: !Wins(cands, natives, 0, n);
    NoneChosen(cands, natives, 0);
    NothingWon(cands, natives, 0);
    var chosen := AllChosen(cands, natives);
    assert chosen[0] == [] && Considered(cands[0], chosen[0]);
    assert !Serves(cands, natives, chosen, 1);
    assert Clients(cands, natives, chosen, 1) == [];
  }
}
