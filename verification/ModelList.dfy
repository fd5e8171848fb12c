/**
 Merging search results: one entry per repository, with what every duplicate
 contributed.
 */
module ModelList {
  import opened Options

  datatype GgufFile = GgufFile(filename: string, details: string)

  datatype Variant = Variant(backend: string, id: string, details: string)

  datatype Model = Model(repo: string, downloads: nat, files: seq<GgufFile>, variants: seq<Variant>, details: string)

  function FileKey(f: GgufFile): string {
    f.filename
  }

  function VariantKey(v: Variant): (string, string) {
    (v.backend, v.id)
  }

  // ----- lists with keys -----

  function First<T, K(==)>(items: seq<T>, key: T -> K, k: K): Option<T> {
    if items == [] then None
    else
      var n := |items| - 1;
      if First(items[..n], key, k).Some? then First(items[..n], key, k)
      else if key(items[n]) == k then Some(items[n])
      else None
  }

  // The items of more whose key is new are added at the end.
  function Extended<T, K(==)>(items: seq<T>, more: seq<T>, key: T -> K): seq<T>
    decreases |more|
  {
    if more == [] then items
    else
      var n := |more| - 1;
      var before := Extended(items, more[..n], key);
      if First(before, key, key(more[n])).Some? then before else before + [more[n]]
  }

  function Keys<T, K(==)>(items: seq<T>, key: T -> K): set<K> {
    set i | 0 <= i < |items| :: key(items[i])
  }

  lemma KeysAppended<T, K>(items: seq<T>, item: T, key: T -> K)
    ensures Keys(items + [item], key) == Keys(items, key) + {key(item)}
  {
    var all := items + [item];
    forall k | k in Keys(items, key) + {key(item)} ensures k in Keys(all, key) {
      if k == key(item) {
        assert all[|items|] == item;
      } else {
        var i :| 0 <= i < |items| && key(items[i]) == k;
        assert all[i] == items[i];
      }
    }
  }

  lemma {:induction false} FirstIsKey<T, K>(items: seq<T>, key: T -> K, k: K)
    ensures First(items, key, k).Some? <==> k in Keys(items, key)
    ensures First(items, key, k).Some? ==> First(items, key, k).value in items && key(First(items, key, k).value) == k
  {
    if items != [] {
      var n := |items| - 1;
      FirstIsKey(items[..n], key, k);
      assert items == items[..n] + [items[n]];
      KeysAppended(items[..n], items[n], key);
    }
  }

  lemma {:induction false} FirstOfConcat<T, K>(a: seq<T>, b: seq<T>, key: T -> K, k: K)
    ensures First(a + b, key, k) == if First(a, key, k).Some? then First(a, key, k) else First(b, key, k)
    decreases |b|
  {
    if b == [] {
      assert a + b == a;
    } else {
      assert (a + b)[..|a + b| - 1] == a + b[..|b| - 1];
      FirstOfConcat(a, b[..|b| - 1], key, k);
    }
  }

  lemma {:induction false} FirstOfExtended<T, K>(items: seq<T>, more: seq<T>, key: T -> K, k: K)
    ensures First(Extended(items, more, key), key, k) == First(items + more, key, k)
    decreases |more|
  {
    FirstOfConcat(items, more, key, k);
    if more != [] {
      var n := |more| - 1;
      FirstOfExtended(items, more[..n], key, k);
      FirstOfConcat(items, more[..n], key, k);
      var before := Extended(items, more[..n], key);
      assert (before + [more[n]])[..|before|] == before;
    }
  }

  method Extend<T, K(==)>(items: seq<T>, more: seq<T>, key: T -> K) returns (all: seq<T>)
    ensures all == Extended(items, more, key)
  {
    all := items;
    var keys := set i | 0 <= i < |items| :: key(items[i]);
    for i := 0 to |more|
      invariant all == Extended(items, more[..i], key) && keys == Keys(all, key)
    {
      assert more[..i + 1][..i] == more[..i];
      FirstIsKey(all, key, key(more[i]));
      if key(more[i]) !in keys {
        KeysAppended(all, more[i], key);
        keys := keys + {key(more[i])};
        all := all + [more[i]];
      }
    }
    assert more[..|more|] == more;
  }

  // ----- merging models -----

  function Max(a: nat, b: nat): nat {
    if a < b then b else a
  }

  function Merged(existing: Model, duplicate: Model): Model {
    existing.(downloads := Max(existing.downloads, duplicate.downloads),
              files := Extended(existing.files, duplicate.files, FileKey),
              variants := Extended(existing.variants, duplicate.variants, VariantKey))
  }

  method MergeModelInfo(existing: Model, duplicate: Model) returns (merged: Model)
    ensures merged == Merged(existing, duplicate)
  {
    var files := Extend(existing.files, duplicate.files, FileKey);
    var variants := Extend(existing.variants, duplicate.variants, VariantKey);
    merged := existing.(downloads := Max(existing.downloads, duplicate.downloads),
                        files := files, variants := variants);
  }

  function FindRepo(models: seq<Model>, repo: string): (i: Option<nat>)
    ensures i.Some? ==> i.value < |models| && models[i.value].repo == repo
    ensures i.None? ==> forall m :: m in models ==> m.repo != repo
  {
    if models == [] then None
    else
      var n := |models| - 1;
      var earlier := FindRepo(models[..n], repo);
      if earlier.Some? then earlier else if models[n].repo == repo then Some(n) else None
  }

  function Added(merged: seq<Model>, model: Model): seq<Model> {
    var i := FindRepo(merged, model.repo);
    if i.Some? then merged[i.value := Merged(merged[i.value], model)] else merged + [model]
  }

  function Deduped(models: seq<Model>): seq<Model> {
    if models == [] then [] else Added(Deduped(models[..|models| - 1]), models[|models| - 1])
  }

  method DedupeModels(models: seq<Model>) returns (merged: seq<Model>)
    ensures merged == Deduped(models)
  {
    merged := [];
    for i := 0 to |models|
      invariant merged == Deduped(models[..i])
    {
      assert models[..i + 1][..i] == models[..i];
      var at := FindRepo(merged, models[i].repo);
      if at.Some? {
        var m := MergeModelInfo(merged[at.value], models[i]);
        merged := merged[at.value := m];
      } else {
        merged := merged + [models[i]];
      }
    }
    assert models[..|models|] == models;
  }

  // ----- one entry per repository, in order of first occurrence -----

  function Repos(models: seq<Model>): (repos: seq<string>)
    ensures |repos| == |models|
    ensures forall i :: 0 <= i < |models| ==> repos[i] == models[i].repo
  {
    if models == [] then [] else Repos(models[..|models| - 1]) + [models[|models| - 1].repo]
  }

  function FirstOccurrences(names: seq<string>): seq<string> {
    if names == [] then []
    else
      var n := |names| - 1;
      FirstOccurrences(names[..n]) + if names[n] in names[..n] then [] else [names[n]]
  }

  lemma {:induction false} FirstOccurrencesDistinct(names: seq<string>)
    ensures forall i, j :: 0 <= i < j < |FirstOccurrences(names)| ==>
              FirstOccurrences(names)[i] != FirstOccurrences(names)[j]
    ensures forall n :: n in FirstOccurrences(names) <==> n in names
  {
    if names != [] {
      var init := names[..|names| - 1];
      FirstOccurrencesDistinct(init);
      assert names == init + [names[|names| - 1]];
    }
  }

  lemma ReposAdded(merged: seq<Model>, model: Model)
    ensures Repos(Added(merged, model))
         == if model.repo in Repos(merged) then Repos(merged) else Repos(merged) + [model.repo]
  {
  }

  /** The merged list names each repository once, in the order they first came. */
  lemma {:induction false} ReposInOrder(models: seq<Model>)
    ensures Repos(Deduped(models)) == FirstOccurrences(Repos(models))
  {
    if models != [] {
      var init, model := models[..|models| - 1], models[|models| - 1];
      ReposInOrder(init);
      ReposAdded(Deduped(init), model);
      FirstOccurrencesDistinct(Repos(init));
      assert Repos(models)[..|init|] == Repos(init);
    }
  }

  // ----- what a merged entry holds -----

  function Entry(models: seq<Model>, repo: string): Option<Model> {
    var i := FindRepo(models, repo);
    if i.Some? then Some(models[i.value]) else None
  }

  function MostDownloads(models: seq<Model>, repo: string): nat {
    if models == [] then 0
    else
      var n := |models| - 1;
      var rest := MostDownloads(models[..n], repo);
      if models[n].repo == repo then Max(rest, models[n].downloads) else rest
  }

  function AllFiles(models: seq<Model>, repo: string): seq<GgufFile> {
    if models == [] then []
    else
      var n := |models| - 1;
      AllFiles(models[..n], repo) + if models[n].repo == repo then models[n].files else []
  }

  function AllVariants(models: seq<Model>, repo: string): seq<Variant> {
    if models == [] then []
    else
      var n := |models| - 1;
      AllVariants(models[..n], repo) + if models[n].repo == repo then models[n].variants else []
  }

  lemma {:induction false} FindAfterUpdate(models: seq<Model>, i: nat, m: Model, repo: string)
    requires i < |models| && m.repo == models[i].repo
    ensures FindRepo(models[i := m], repo) == FindRepo(models, repo)
    decreases |models|
  {
    var n := |models| - 1;
    if i == n {
      assert models[i := m][..n] == models[..n];
    } else {
      assert models[i := m][..n] == models[..n][i := m];
      FindAfterUpdate(models[..n], i, m, repo);
    }
  }

  lemma EntryAdded(merged: seq<Model>, model: Model, repo: string)
    ensures Entry(Added(merged, model), repo)
         == if model.repo != repo then Entry(merged, repo)
            else if Entry(merged, repo).Some? then Some(Merged(Entry(merged, repo).value, model))
            else Some(model)
  {
    var i := FindRepo(merged, model.repo);
    if i.Some? {
      FindAfterUpdate(merged, i.value, Merged(merged[i.value], model), repo);
    } else {
      assert (merged + [model])[..|merged|] == merged;
    }
  }

  ghost predicate Holds(entry: Option<Model>, models: seq<Model>, repo: string) {
    && (entry.Some? <==> repo in Repos(models))
    && (entry.None? ==>
          AllFiles(models, repo) == [] && AllVariants(models, repo) == [] && MostDownloads(models, repo) == 0)
    && (entry.Some? ==>
          && entry.value.downloads == MostDownloads(models, repo)
          && (forall name :: First(entry.value.files, FileKey, name) == First(AllFiles(models, repo), FileKey, name))
          && (forall k ::
                First(entry.value.variants, VariantKey, k) == First(AllVariants(models, repo), VariantKey, k)))
  }

  lemma ExtendedFirsts<T, K(!new)>(items: seq<T>, all: seq<T>, more: seq<T>, key: T -> K)
    requires forall k :: First(items, key, k) == First(all, key, k)
    ensures forall k :: First(Extended(items, more, key), key, k) == First(all + more, key, k)
  {
    forall k ensures First(Extended(items, more, key), key, k) == First(all + more, key, k) {
      FirstOfExtended(items, more, key, k);
      FirstOfConcat(items, more, key, k);
      FirstOfConcat(all, more, key, k);
    }
  }

  /** The entry of a repository has the most downloads any of its results gave, and
      for every filename and every variant key the first one any of them listed:
      nothing is lost and nothing is made up. */
  lemma {:induction false} EntryHoldsAll(models: seq<Model>, repo: string)
    ensures Holds(Entry(Deduped(models), repo), models, repo)
  {
    if models != [] {
      var n := |models| - 1;
      var init, model := models[..n], models[n];
      EntryHoldsAll(init, repo);
      EntryAdded(Deduped(init), model, repo);
      assert Repos(models) == Repos(init) + [model.repo];
      var entry := Entry(Deduped(init), repo);
      if model.repo == repo {
        assert AllFiles(models, repo) == AllFiles(init, repo) + model.files;
        assert AllVariants(models, repo) == AllVariants(init, repo) + model.variants;
        if entry.Some? {
          ExtendedFirsts(entry.value.files, AllFiles(init, repo), model.files, FileKey);
          ExtendedFirsts(entry.value.variants, AllVariants(init, repo), model.variants, VariantKey);
        } else {
          assert AllFiles(models, repo) == model.files && AllVariants(models, repo) == model.variants;
        }
      } else {
        assert AllFiles(models, repo) == AllFiles(init, repo);
        assert AllVariants(models, repo) == AllVariants(init, repo);
      }
    }
  }

  /** In particular the filenames and variant keys are those of all results. */
  lemma EntryKeys(models: seq<Model>, repo: string)
    requires Entry(Deduped(models), repo).Some?
    ensures var m := Entry(Deduped(models), repo).value;
            && Keys(m.files, FileKey) == Keys(AllFiles(models, repo), FileKey)
            && Keys(m.variants, VariantKey) == Keys(AllVariants(models, repo), VariantKey)
  {
    EntryHoldsAll(models, repo);
    var m := Entry(Deduped(models), repo).value;
    forall name ensures name in Keys(m.files, FileKey) <==> name in Keys(AllFiles(models, repo), FileKey) {
      FirstIsKey(m.files, FileKey, name);
      FirstIsKey(AllFiles(models, repo), FileKey, name);
    }
    forall k ensures k in Keys(m.variants, VariantKey) <==> k in Keys(AllVariants(models, repo), VariantKey) {
      FirstIsKey(m.variants, VariantKey, k);
      FirstIsKey(AllVariants(models, repo), VariantKey, k);
    }
  }

  // ----- merging again -----

  lemma {:induction false} DistinctStays(models: seq<Model>)
    requires forall i, j :: 0 <= i < j < |models| ==> models[i].repo != models[j].repo
    ensures Deduped(models) == models
  {
    if models != [] {
      var n := |models| - 1;
      DistinctStays(models[..n]);
      assert models == models[..n] + [models[n]];
    }
  }

  /** A merged list is left as it is. */
  lemma DedupeIsIdempotent(models: seq<Model>)
    ensures Deduped(Deduped(models)) == Deduped(models)
  {
    var merged := Deduped(models);
    ReposInOrder(models);
    FirstOccurrencesDistinct(Repos(models));
    forall i, j | 0 <= i < j < |merged| ensures merged[i].repo != merged[j].repo {
      assert Repos(merged)[i] != Repos(merged)[j];
    }
    DistinctStays(merged);
  }
}
