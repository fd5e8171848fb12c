/**
 Choosing the files of a quantization: a single file if there is one, otherwise a
 complete set of shards in order.
 */
module ShardSets {
  import opened Options
  import opened ShardNames

  datatype Outcome =
    | Files(names: seq<string>)
    | NoMatch
    | NoTotal(name: string)
    | Incomplete(found: nat, expected: nat)
    | WrongTotal(name: string)
    | NotContiguous(name: string, expected: nat)

  // The numbers in a name.
  datatype Label = Label(index: Option<nat>, total: Option<nat>)

  function LabelOf(name: string): Label {
    Label(ParseShardIndex(name), ParseShardTotal(name))
  }

  predicate IsShard(name: string) {
    ParseShardIndex(name).Some?
  }

  // ----- sorting by name -----

  function Insert(name: string, sorted: seq<string>): seq<string> {
    if sorted == [] || Leq(name, sorted[0]) then [name] + sorted
    else [sorted[0]] + Insert(name, sorted[1..])
  }

  function Sorted(names: seq<string>): seq<string> {
    if names == [] then [] else Insert(names[0], Sorted(names[1..]))
  }

  ghost predicate IsSorted(names: seq<string>) {
    forall i, j :: 0 <= i <= j < |names| ==> Leq(names[i], names[j])
  }

  lemma {:induction false} InsertSorts(name: string, sorted: seq<string>)
    requires IsSorted(sorted)
    ensures IsSorted(Insert(name, sorted))
    ensures multiset(Insert(name, sorted)) == multiset([name] + sorted)
  {
    if sorted == [] || Leq(name, sorted[0]) {
      LeqTotal(name, name);
      forall j | 0 <= j < |sorted| ensures Leq(name, sorted[j]) {
        LeqTransitive(name, sorted[0], sorted[j]);
      }
    } else {
      var rest := Insert(name, sorted[1..]);
      InsertSorts(name, sorted[1..]);
      LeqTotal(name, sorted[0]);
      assert [name] + sorted == [name] + [sorted[0]] + sorted[1..] by { assert sorted == [sorted[0]] + sorted[1..]; }
      forall j | 0 <= j < |rest| ensures Leq(sorted[0], rest[j]) {
        assert rest[j] in multiset(rest);
        if rest[j] != name {
          assert rest[j] in sorted[1..];
        }
      }
    }
  }

  lemma {:induction false} SortedSorts(names: seq<string>)
    ensures IsSorted(Sorted(names)) && multiset(Sorted(names)) == multiset(names) && |Sorted(names)| == |names|
  {
    if names != [] {
      SortedSorts(names[1..]);
      InsertSorts(names[0], Sorted(names[1..]));
      assert names == [names[0]] + names[1..];
      assert |multiset(Sorted(names))| == |multiset(names)|;
    }
  }

  lemma TailElements(a: seq<string>)
    requires a != []
    ensures a == [a[0]] + a[1..] && multiset(a[1..]) == multiset(a) - multiset{a[0]}
  {
  }

  lemma {:induction false} SortedIsUnique(a: seq<string>, b: seq<string>)
    requires IsSorted(a) && IsSorted(b) && multiset(a) == multiset(b)
    ensures a == b
  {
    assert |multiset(a)| == |multiset(b)|;
    if a != [] {
      assert a[0] in multiset(b) && b[0] in multiset(a);
      LeqAntisymmetric(a[0], b[0]);
      TailElements(a);
      TailElements(b);
      SortedIsUnique(a[1..], b[1..]);
    }
  }

  // ----- the check -----

  function Labels(names: seq<string>): (labels: seq<Label>)
    ensures |labels| == |names|
  {
    if names == [] then [] else Labels(names[..|names| - 1]) + [LabelOf(names[|names| - 1])]
  }

  lemma {:induction false} LabelAt(names: seq<string>, i: nat)
    requires i < |names|
    ensures Labels(names)[i] == LabelOf(names[i])
  {
    if i < |names| - 1 {
      LabelAt(names[..|names| - 1], i);
    }
  }

  // The first label that does not fit its place.
  function Misfit(labels: seq<Label>, total: nat, i: nat): (at: Option<nat>)
    requires i <= |labels|
    ensures at.Some? ==> i <= at.value < |labels|
    decreases |labels| - i
  {
    if i == |labels| then None
    else if labels[i] == Label(Some(i + 1), Some(total)) then Misfit(labels, total, i + 1)
    else Some(i)
  }

  function Check(shards: seq<string>, labels: seq<Label>): Outcome
    requires shards != [] && |labels| == |shards|
  {
    if labels[0].total.None? then NoTotal(shards[0])
    else if |shards| != labels[0].total.value then Incomplete(|shards|, labels[0].total.value)
    else
      match Misfit(labels, |shards|, 0)
      case None => Files(shards)
      case Some(i) =>
        if labels[i].total != Some(|shards|) then WrongTotal(shards[i]) else NotContiguous(shards[i], i + 1)
  }

  function Where(names: seq<string>, keep: string -> bool): seq<string> {
    if names == [] then []
    else Where(names[..|names| - 1], keep) + if keep(names[|names| - 1]) then [names[|names| - 1]] else []
  }

  function Singles(names: seq<string>): seq<string> {
    Where(names, n => !IsShard(n))
  }

  function Shards(names: seq<string>): seq<string> {
    Where(names, IsShard)
  }

  lemma {:induction false} WhereAll(names: seq<string>, keep: string -> bool)
    ensures (forall n :: n in names ==> keep(n)) ==> Where(names, keep) == names
    ensures (forall n :: n in names ==> !keep(n)) ==> Where(names, keep) == []
  {
    if names != [] {
      WhereAll(names[..|names| - 1], keep);
      assert names == names[..|names| - 1] + [names[|names| - 1]];
    }
  }

  lemma {:induction false} WhereNone(names: seq<string>, keep: string -> bool, n: string)
    requires Where(names, keep) == [] && n in names
    ensures !keep(n)
  {
    if names[|names| - 1] != n {
      WhereNone(names[..|names| - 1], keep, n);
    }
  }

  lemma NoSingles(names: seq<string>)
    requires Singles(names) == []
    ensures Shards(names) == names
  {
    forall n | n in names ensures IsShard(n) {
      WhereNone(names, n => !IsShard(n), n);
    }
    WhereAll(names, IsShard);
  }

  // The files a listing resolves to.
  function Resolved(matching: seq<string>): Outcome {
    if matching == [] then NoMatch
    else if Singles(matching) != [] then Files([Singles(matching)[0]])
    else
      assert Sorted(matching) != [] by { SortedSorts(matching); }
      Check(Sorted(matching), Labels(Sorted(matching)))
  }

  method Resolve(matching: seq<string>) returns (outcome: Outcome)
    ensures outcome == Resolved(matching)
  {
    if matching == [] {
      return NoMatch;
    }
    var singles: seq<string>, shards: seq<string> := [], [];
    for i := 0 to |matching|
      invariant singles == Singles(matching[..i]) && shards == Shards(matching[..i])
    {
      assert matching[..i + 1][..i] == matching[..i];
      if IsShard(matching[i]) {
        shards := shards + [matching[i]];
      } else {
        singles := singles + [matching[i]];
      }
    }
    assert matching[..|matching|] == matching;
    if singles != [] {
      return Files([singles[0]]);
    }
    NoSingles(matching);
    SortedSorts(shards);
    shards := Sorted(shards);
    outcome := ValidateShards(shards);
  }

  method ReadLabel(shards: seq<string>, i: nat) returns (found: Label)
    requires i < |shards|
    ensures found == Labels(shards)[i]
  {
    found := Label(ParseShardIndex(shards[i]), ParseShardTotal(shards[i]));
    LabelAt(shards, i);
  }

  method ValidateShards(shards: seq<string>) returns (outcome: Outcome)
    requires shards != []
    ensures outcome == Check(shards, Labels(shards))
  {
    var first := ReadLabel(shards, 0);
    var expected := first.total;
    if expected.None? {
      return NoTotal(shards[0]);
    }
    if |shards| != expected.value {
      return Incomplete(|shards|, expected.value);
    }
    ghost var labels := Labels(shards);
    for i := 0 to |shards|
      invariant Misfit(labels, |shards|, 0) == Misfit(labels, |shards|, i)
    {
      var found := ReadLabel(shards, i);
      if found.total != expected {
        return WrongTotal(shards[i]);
      }
      if found.index != Some(i + 1) {
        return NotContiguous(shards[i], i + 1);
      }
    }
    return Files(shards);
  }

  // ----- what is accepted -----

  // The labels of a complete set, in order.
  ghost predicate InOrder(labels: seq<Label>) {
    forall k :: 0 <= k < |labels| ==> labels[k] == Label(Some(k + 1), Some(|labels|))
  }

  lemma {:induction false} MisfitIsFirst(labels: seq<Label>, total: nat, i: nat)
    requires i <= |labels|
    ensures Misfit(labels, total, i).None? <==>
            forall k :: i <= k < |labels| ==> labels[k] == Label(Some(k + 1), Some(total))
    decreases |labels| - i
  {
    if i < |labels| {
      MisfitIsFirst(labels, total, i + 1);
    }
  }

  lemma CheckAccepts(shards: seq<string>, labels: seq<Label>)
    requires shards != [] && |labels| == |shards|
    ensures Check(shards, labels).Files? <==> InOrder(labels)
    ensures Check(shards, labels).Files? ==> Check(shards, labels) == Files(shards)
  {
    MisfitIsFirst(labels, |shards|, 0);
  }

  lemma {:induction false} LabelsConcat(a: seq<string>, b: seq<string>)
    ensures Labels(a + b) == Labels(a) + Labels(b)
    decreases |b|
  {
    if b == [] {
      assert a + b == a;
    } else {
      assert (a + b)[..|a + b| - 1] == a + b[..|b| - 1];
      LabelsConcat(a, b[..|b| - 1]);
    }
  }

  lemma {:induction false} LabelsInserted(name: string, sorted: seq<string>)
    ensures multiset(Labels(Insert(name, sorted))) == multiset(Labels([name])) + multiset(Labels(sorted))
  {
    if sorted == [] || Leq(name, sorted[0]) {
      LabelsConcat([name], sorted);
    } else {
      LabelsInserted(name, sorted[1..]);
      LabelsConcat([sorted[0]], Insert(name, sorted[1..]));
      LabelsConcat([sorted[0]], sorted[1..]);
      assert sorted == [sorted[0]] + sorted[1..];
    }
  }

  lemma {:induction false} LabelsSorted(names: seq<string>)
    ensures multiset(Labels(Sorted(names))) == multiset(Labels(names))
  {
    if names != [] {
      LabelsInserted(names[0], Sorted(names[1..]));
      LabelsSorted(names[1..]);
      LabelsConcat([names[0]], names[1..]);
      assert names == [names[0]] + names[1..];
    }
  }

  lemma {:induction false} CountInOrder(labels: seq<Label>, n: nat, i: nat)
    requires InOrder(labels) && n <= |labels|
    ensures multiset(labels[..n])[Label(Some(i), Some(|labels|))] == if 1 <= i <= n then 1 else 0
  {
    if n > 0 {
      CountInOrder(labels, n - 1, i);
      assert labels[..n] == labels[..n - 1] + [labels[n - 1]];
    }
  }

  lemma CountPermuted(labels: seq<Label>, listed: seq<Label>, i: nat)
    requires InOrder(labels) && multiset(listed) == multiset(labels) && 1 <= i <= |labels|
    ensures multiset(listed)[Label(Some(i), Some(|labels|))] == 1
  {
    CountInOrder(labels, |labels|, i);
    assert labels[..|labels|] == labels;
  }

  lemma AcceptedInOrder(matching: seq<string>)
    requires matching != []
    ensures Singles(matching) == [] && Resolved(matching).Files? ==>
              Resolved(matching) == Files(Sorted(matching)) && InOrder(Labels(Sorted(matching)))
  {
    SortedSorts(matching);
    CheckAccepts(Sorted(matching), Labels(Sorted(matching)));
  }

  /** A set of shards that is accepted has every index from 1 to its size exactly
      once, and comes back in that order. */
  lemma AcceptedSetIsComplete(matching: seq<string>, i: nat)
    requires 1 <= i <= |matching|
    ensures Singles(matching) == [] && Resolved(matching).Files? ==>
              && multiset(Labels(matching))[Label(Some(i), Some(|matching|))] == 1
              && InOrder(Labels(Resolved(matching).names))
              && multiset(Resolved(matching).names) == multiset(matching)
  {
    AcceptedInOrder(matching);
    if Singles(matching) == [] && Resolved(matching).Files? {
      SortedSorts(matching);
      LabelsSorted(matching);
      CountPermuted(Labels(Sorted(matching)), Labels(matching), i);
    }
  }

  // Shards 1 to n of a set of total.
  function SetNames(prefix: string, n: nat, total: nat): (names: seq<string>)
    ensures |names| == n
    ensures forall k :: 0 <= k < n ==> names[k] == ShardName(prefix, k + 1, total)
  {
    if n == 0 then [] else SetNames(prefix, n - 1, total) + [ShardName(prefix, n, total)]
  }

  ghost predicate Lists(matching: seq<string>, prefix: string, total: nat) {
    multiset(matching) == multiset(SetNames(prefix, total, total))
  }

  lemma ListedName(matching: seq<string>, prefix: string, total: nat, name: string) returns (i: nat)
    requires Lists(matching, prefix, total) && name in matching
    ensures 1 <= i <= total && name == ShardName(prefix, i, total)
  {
    assert name in multiset(SetNames(prefix, total, total));
    var k :| 0 <= k < total && SetNames(prefix, total, total)[k] == name;
    i := k + 1;
  }

  lemma ListedAreShards(matching: seq<string>, prefix: string, total: nat)
    requires Lists(matching, prefix, total) && total < 0x1_0000_0000
    ensures Singles(matching) == [] && |matching| == total
  {
    assert |multiset(matching)| == |multiset(SetNames(prefix, total, total))|;
    forall name | name in matching ensures IsShard(name) {
      var i := ListedName(matching, prefix, total, name);
      ParseUndoesPrint(prefix, i, total);
    }
    WhereAll(matching, n => !IsShard(n));
  }

  lemma SmallSetsAreSorted(prefix: string, total: nat)
    requires total <= 99999
    ensures IsSorted(SetNames(prefix, total, total))
  {
    var names := SetNames(prefix, total, total);
    forall i, j | 0 <= i <= j < total ensures Leq(names[i], names[j]) {
      NamesAreOrdered(prefix, i + 1, j + 1, total);
    }
  }

  lemma SetLabel(names: seq<string>, prefix: string, total: nat, k: nat)
    requires k < |names| && names[k] == ShardName(prefix, k + 1, total)
    requires k + 1 < 0x1_0000_0000 && total < 0x1_0000_0000
    ensures Labels(names)[k] == Label(Some(k + 1), Some(total))
  {
    LabelAt(names, k);
    ParseUndoesPrint(prefix, k + 1, total);
  }

  lemma SetIsInOrder(prefix: string, total: nat)
    requires total < 0x1_0000_0000
    ensures InOrder(Labels(SetNames(prefix, total, total)))
  {
    var names := SetNames(prefix, total, total);
    var labels := Labels(names);
    forall k | 0 <= k < total ensures labels[k] == Label(Some(k + 1), Some(total)) {
      SetLabel(names, prefix, total, k);
    }
  }

  // In a list that is in order, position k holds shard k + 1.
  lemma PlaceOfShard(shards: seq<string>, prefix: string, total: nat, k: nat)
    requires Lists(shards, prefix, total) && |shards| == total && InOrder(Labels(shards)) && k < total
    ensures shards[k] == ShardName(prefix, k + 1, total)
  {
    var i := ListedName(shards, prefix, total, shards[k]);
    LabelAt(shards, k);
    ParseUndoesPrint(prefix, i, total);
  }

  lemma LargeSetsAreNotInOrder(shards: seq<string>, prefix: string, total: nat)
    requires Lists(shards, prefix, total) && |shards| == total > 99999 && IsSorted(shards)
    ensures !InOrder(Labels(shards))
  {
    if InOrder(Labels(shards)) {
      PlaceOfShard(shards, prefix, total, 10000);
      PlaceOfShard(shards, prefix, total, 99999);
      SixDigitsComeFirst(prefix, total);
    }
  }

  /** A complete set of shards, listed in any order, is accepted exactly when its
      indices have five digits, and then comes back as shards 1 to the last. */
  lemma CompleteSetIsAccepted(matching: seq<string>, prefix: string, total: nat)
    requires Lists(matching, prefix, total) && 0 < total < 0x1_0000_0000
    ensures Resolved(matching).Files? <==> total <= 99999
    ensures total <= 99999 ==> Resolved(matching) == Files(SetNames(prefix, total, total))
  {
    ListedAreShards(matching, prefix, total);
    SortedSorts(matching);
    CheckAccepts(Sorted(matching), Labels(Sorted(matching)));
    if total <= 99999 {
      SmallSetsAreSorted(prefix, total);
      SetIsInOrder(prefix, total);
      SortedIsUnique(Sorted(matching), SetNames(prefix, total, total));
    } else {
      LargeSetsAreNotInOrder(Sorted(matching), prefix, total);
    }
  }
}
