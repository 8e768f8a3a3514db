/**
 The search index lifecycle: versioned indices behind one alias, rebuilt from the catalog and
 switched over atomically.

 Every Elasticsearch call takes its outcome from a script: it works, it raises, or the process
 dies at it, and in the last two cases the cluster may or may not have applied it.
 */
module SearchReindex {
  import opened Prelude

  /** A catalog item and the document made of it. */
  datatype Item = Item(id: nat, doc: nat)

  /** Versioned indices by number, the versions the alias names, and whether a concrete index has the alias's name. */
  datatype Cluster = Cluster(indices: map<nat, map<nat, nat>>, alias: set<nat>, legacy: bool)

  datatype Outcome = Works | Raises | Dies

  /** `applied` matters when the call does not work; `rejected` are the positions a bulk request refuses. */
  datatype Answer = Answer(outcome: Outcome, applied: bool, rejected: set<nat>)

  datatype End<+T> = Returned(value: T) | Raised | Died

  datatype ReindexResult = ReindexResult(count: nat, index: nat, switched: bool)

  datatype Name = TheAlias | Versioned(version: nat) | OtherName

  /** One lifecycle operation. */
  datatype Call =
    | Ensure
    | Reindex(catalog: seq<Item>)
    | Delete(name: Name)

  function Created(es: Cluster, version: nat): Cluster {
    es.(indices := es.indices[version := map[]])
  }

  /** Deleting an index takes it out of the alias too. */
  function Deleted(es: Cluster, version: nat): Cluster {
    es.(indices := es.indices - {version}, alias := es.alias - {version})
  }

  function Aliased(es: Cluster, add: nat, remove: set<nat>): Cluster {
    es.(alias := es.alias - remove + {add})
  }

  /** The cluster with other documents in one index. */
  function WithDocs(es: Cluster, version: nat, docs: map<nat, nat>): Cluster {
    es.(indices := es.indices[version := docs])
  }

  lemma WithDocsTwice(es: Cluster, version: nat, first: map<nat, nat>, second: map<nat, nat>)
    ensures WithDocs(WithDocs(es, version, first), version, second) == WithDocs(es, version, second)
  {
  }

  lemma WithOwnDocs(es: Cluster, version: nat)
    requires version in es.indices
    ensures WithDocs(es, version, es.indices[version]) == es
  {
  }

  // ---- Bulk loads -------------------------------------------------------------------

  /** The documents after the first n operations of a bulk request, some of them rejected. */
  function Load(docs: map<nat, nat>, ops: seq<Item>, rejected: set<nat>, n: nat): map<nat, nat>
    requires n <= |ops|
  {
    if n == 0 then docs
    else
      var before := Load(docs, ops, rejected, n - 1);
      if n - 1 in rejected then before else before[ops[n - 1].id := ops[n - 1].doc]
  }

  /** Every item of the catalog has its document. */
  ghost predicate Holds(docs: map<nat, nat>, items: seq<Item>) {
    forall i :: 0 <= i < |items| ==> items[i].id in docs
  }

  /** Every document is that of its item. */
  ghost predicate Agrees(docs: map<nat, nat>, items: seq<Item>) {
    forall i :: 0 <= i < |items| && items[i].id in docs ==> docs[items[i].id] == items[i].doc
  }

  ghost predicate Unique(items: seq<Item>) {
    forall i, j :: 0 <= i < j < |items| ==> items[i].id != items[j].id
  }

  /** Some item has this id. */
  ghost predicate HasId(items: seq<Item>, id: nat) {
    exists i :: 0 <= i < |items| && items[i].id == id
  }

  /** No documents but those of the items. */
  ghost predicate Only(docs: map<nat, nat>, items: seq<Item>) {
    forall id :: id in docs ==> HasId(items, id)
  }

  lemma {:induction false} LoadsOnly(docs: map<nat, nat>, ops: seq<Item>, rejected: set<nat>, n: nat, items: seq<Item>)
    requires n <= |ops| && Only(docs, items) && forall k :: 0 <= k < |ops| ==> ops[k] in items
    ensures Only(Load(docs, ops, rejected, n), items)
  {
    if n > 0 {
      LoadsOnly(docs, ops, rejected, n - 1, items);
      var j :| 0 <= j < |items| && items[j] == ops[n - 1];
      assert HasId(items, ops[n - 1].id);
    }
  }

  lemma {:induction false} LoadAdds(docs: map<nat, nat>, ops: seq<Item>, rejected: set<nat>, n: nat)
    requires n <= |ops|
    ensures docs.Keys <= Load(docs, ops, rejected, n).Keys
    ensures forall i :: 0 <= i < n && i !in rejected ==> ops[i].id in Load(docs, ops, rejected, n)
  {
    if n > 0 {
      LoadAdds(docs, ops, rejected, n - 1);
    }
  }

  lemma {:induction false} LoadAgrees(docs: map<nat, nat>, ops: seq<Item>, rejected: set<nat>, n: nat, items: seq<Item>)
    requires n <= |ops| && Unique(items) && Agrees(docs, items) && forall k :: 0 <= k < |ops| ==> ops[k] in items
    ensures Agrees(Load(docs, ops, rejected, n), items)
  {
    if n > 0 {
      LoadAgrees(docs, ops, rejected, n - 1, items);
      var j :| 0 <= j < |items| && items[j] == ops[n - 1];
    }
  }

  lemma FirstPass(before: map<nat, nat>, after: map<nat, nat>, items: seq<Item>, rejected: set<nat>)
    requires after == before || after == Load(before, items, rejected, |items|)
    ensures after == Load(before, items, rejected, |items|) ==>
              forall i :: 0 <= i < |items| && i !in rejected ==> items[i].id in after
    ensures Unique(items) && Agrees(before, items) ==> Agrees(after, items)
    ensures Only(before, items) ==> Only(after, items)
  {
    LoadAdds(before, items, rejected, |items|);
    if Only(before, items) {
      LoadsOnly(before, items, rejected, |items|, items);
    }
    if Unique(items) && Agrees(before, items) {
      LoadAgrees(before, items, rejected, |items|, items);
    }
  }

  lemma SecondPass(before: map<nat, nat>, after: map<nat, nat>, items: seq<Item>, retry: seq<Item>, rejected: set<nat>)
    requires after == before || after == Load(before, retry, rejected, |retry|)
    requires forall j :: 0 <= j < |retry| ==> retry[j] in items
    ensures before.Keys <= after.Keys
    ensures after == Load(before, retry, rejected, |retry|) ==>
              forall j :: 0 <= j < |retry| && j !in rejected ==> retry[j].id in after
    ensures Unique(items) && Agrees(before, items) ==> Agrees(after, items)
    ensures Only(before, items) ==> Only(after, items)
  {
    LoadAdds(before, retry, rejected, |retry|);
    if Only(before, items) {
      LoadsOnly(before, retry, rejected, |retry|, items);
    }
    if Unique(items) && Agrees(before, items) {
      LoadAgrees(before, retry, rejected, |retry|, items);
    }
  }

  /** The documents are a catalog: every item, with unique ids its own document, and nothing else. */
  ghost predicate Loaded(docs: map<nat, nat>, catalog: seq<Item>) {
    Holds(docs, catalog) && Only(docs, catalog) && (Unique(catalog) ==> Agrees(docs, catalog))
  }

  /** The alias is unset, or names exactly one index, which exists. */
  ghost predicate Live(es: Cluster) {
    es.alias != {} ==> exists v :: es.alias == {v} && v in es.indices && v >= 1 && !es.legacy
  }

  /** Everything but one index is as it was. */
  ghost predicate SameButFor(before: Cluster, after: Cluster, version: nat) {
    && after.legacy == before.legacy && after.alias == before.alias
    && (forall v :: v != version ==> (v in after.indices <==> v in before.indices))
    && (forall v :: v != version && v in before.indices ==> after.indices[v] == before.indices[v])
  }

  /** Nothing has been loaded into the first index: it is empty, or as it was before. */
  ghost predicate FirstUntouched(before: Cluster, after: Cluster) {
    1 in after.indices ==> after.indices[1] == map[] || (1 in before.indices && after.indices[1] == before.indices[1])
  }

  /**
   What the alias names is what it named before, untouched; or the first index of an install that had
   no alias, into which nothing was loaded; or an index that holds one of these catalogs completely.
   */
  ghost predicate Justified(before: Cluster, after: Cluster, catalogs: seq<seq<Item>>) {
    && (after.alias == {} ==> before.alias == {} && FirstUntouched(before, after))
    && (forall v :: v in after.alias && v in after.indices ==>
          || (v in before.alias && v in before.indices && after.indices[v] == before.indices[v])
          || (before.alias == {} && v == 1 && FirstUntouched(before, after))
          || HoldsOneOf(after.indices[v], catalogs))
  }

  ghost predicate HoldsOneOf(docs: map<nat, nat>, catalogs: seq<seq<Item>>) {
    exists c :: c in catalogs && c != [] && Loaded(docs, c)
  }

  lemma JustifiedOn(a: Cluster, b: Cluster, c: Cluster, first: seq<seq<Item>>, second: seq<seq<Item>>)
    requires Justified(a, b, first) && Justified(b, c, second)
    ensures Justified(a, c, first + second)
  {
    forall docs ensures HoldsOneOf(docs, first) || HoldsOneOf(docs, second) ==> HoldsOneOf(docs, first + second) {
      if HoldsOneOf(docs, first) {
        var x :| x in first && x != [] && Loaded(docs, x);
        assert x in first + second;
      } else if HoldsOneOf(docs, second) {
        var x :| x in second && x != [] && Loaded(docs, x);
        assert x in first + second;
      }
    }
  }

  /** What happens to an index behind the scenes leaves the live one alone. */
  lemma BehindTheScenes(before: Cluster, after: Cluster, version: nat)
    requires Live(before) && before.alias != {} && version !in before.alias && SameButFor(before, after, version)
    ensures Live(after) && Moves(before, after) && Justified(before, after, [])
  {
    var v :| before.alias == {v} && v in before.indices && v >= 1;
    assert v in after.indices && after.indices[v] == before.indices[v];
  }

  lemma LiveAt(es: Cluster, v: nat)
    requires es.alias == {v} && v in es.indices && v >= 1 && !es.legacy
    ensures Live(es)
  {
  }

  /** The three states a switch goes through, or stops in. */
  lemma SwitchIsSafe(before: Cluster, after: Cluster, current: nat, version: nat, catalog: seq<Item>)
    requires Live(before) && before.alias == {current} && current < version
    requires version in before.indices && catalog != [] && Loaded(before.indices[version], catalog)
    requires after in {before, Aliased(before, version, {current}), Deleted(Aliased(before, version, {current}), current)}
    ensures Live(after) && Moves(before, after) && Justified(before, after, [catalog])
    ensures version in after.indices && after.indices[version] == before.indices[version]
    ensures after != before ==> after.alias == {version}
  {
    if after != before {
      assert after.alias == {version};
      LiveAt(after, version);
      assert catalog in [catalog];
    }
  }

  /** How the alias may move: once set it stays set and never goes back, and its index is not touched while it keeps the alias. */
  ghost predicate Moves(before: Cluster, after: Cluster) {
    forall v :: v in before.alias ==>
      && after.alias != {}
      && (forall w :: w in after.alias ==> w >= v)
      && (v in after.alias && v in before.indices ==> v in after.indices && after.indices[v] == before.indices[v])
  }

  lemma MovesOn(a: Cluster, b: Cluster, c: Cluster)
    requires Moves(a, b) && Moves(b, c) && forall v :: v in b.alias ==> v in b.indices
    ensures Moves(a, c)
  {
    forall v | v in a.alias
      ensures c.alias != {} && (forall w :: w in c.alias ==> w >= v)
      ensures v in c.alias && v in a.indices ==> v in c.indices && c.indices[v] == a.indices[v]
    {
      var u :| u in b.alias;
    }
  }

  /** Every answer is a success. */
  predicate AllWork(script: seq<Answer>) {
    forall a <- script :: a.outcome == Works && a.rejected == {}
  }

  /** The cluster carries out every call, even one that it then seems to have refused. */
  predicate Obeyed(script: seq<Answer>) {
    forall a <- script :: a.outcome == Works || (a.outcome == Raises && a.applied)
  }

  /** `rest` is what is left of a script after at most n calls. */
  predicate Left(script: seq<Answer>, rest: seq<Answer>, n: nat) {
    |rest| <= |script| <= |rest| + n && (AllWork(script) ==> AllWork(rest)) && (Obeyed(script) ==> Obeyed(rest))
  }

  /** Some operation with this id was rejected. */
  ghost predicate Rejected(ops: seq<Item>, rejected: set<nat>, id: nat) {
    exists i :: 0 <= i < |ops| && i in rejected && ops[i].id == id
  }

  class SearchService {
    var es: Cluster
    var script: seq<Answer>

    ghost predicate Valid()
      reads this`es
    {
      Live(es)
    }

    constructor (es: Cluster)
      requires Live(es)
      ensures Valid() && this.es == es
    {
      this.es, script := es, [];
    }

    method Ask() returns (a: Answer)
      modifies this`script
      ensures Left(old(script), script, 1)
      ensures old(script) != [] ==> a == old(script)[0] && script == old(script)[1..]
      ensures old(script) != [] && AllWork(old(script)) ==> a.outcome == Works && a.rejected == {}
      ensures old(script) != [] && Obeyed(old(script)) ==> a.outcome != Dies
    {
      if script == [] {
        return Answer(Dies, false, {});
      }
      a, script := script[0], script[1..];
    }

    /** A call that changes the cluster to `after`, if the cluster can do it. */
    method Write(after: Cluster, possible: bool) returns (k: Outcome)
      modifies this`script, this`es
      ensures k == Works ==> possible && es == after
      ensures es == old(es) || (possible && es == after)
      ensures Left(old(script), script, 1)
      ensures possible && old(script) != [] && AllWork(old(script)) ==> k == Works
      ensures possible && old(script) != [] && Obeyed(old(script)) ==> k != Dies && es == after
      ensures possible && old(script) != [] && old(script)[0].outcome == Works ==> k == Works
    {
      var a := Ask();
      k := a.outcome;
      if possible && (k == Works || a.applied) {
        es := after;
      }
      if !possible && k == Works {
        k := Raises;
      }
    }

    /** The index behind the alias. */
    method AliasTarget() returns (r: End<Option<nat>>)
      requires Valid()
      modifies this`script
      ensures r.Returned? ==> (r.value.None? <==> es.alias == {})
      ensures r.Returned? && r.value.Some? ==> es.alias == {r.value.value}
      ensures Left(old(script), script, 1)
      ensures old(script) != [] && AllWork(old(script)) ==> r.Returned?
    {
      var a := Ask();
      match a.outcome {
        case Works =>
          if es.alias == {} {
            return Returned(None);
          }
          var v :| v in es.alias;
          r := Returned(Some(v));
        case Raises =>
          r := Raised;
        case Dies =>
          r := Died;
      }
    }

    /** Find the live index, or make the first one. */
    method EnsureIndex() returns (r: End<nat>)
      requires Valid()
      modifies this`script, this`es
      ensures Valid() && Moves(old(es), es) && Justified(old(es), es, [])
      ensures old(es).alias != {} ==> es == old(es)
      ensures r.Returned? ==> es.alias == {r.value}
      ensures r.Returned? && old(es).alias == {} ==>
                && r.value == 1 && 1 in es.indices
                && es.indices[1] == if 1 in old(es).indices then old(es).indices[1] else map[]
      ensures old(es).legacy && old(es).alias == {} ==> !r.Returned? && es == old(es)
      ensures Left(old(script), script, 6)
      ensures |old(script)| >= 6 && AllWork(old(script)) && !(old(es).legacy && old(es).alias == {}) ==> r.Returned?
    {
      var current := AliasTarget();
      match current {
        case Returned(target) =>
          if target.Some? {
            return Returned(target.value);
          }
        case Raised =>
          return Raised;
        case Died =>
          return Died;
      }
      var a := Ask();
      if a.outcome != Works {
        return if a.outcome == Dies then Died else Raised;
      }
      if es.legacy {
        return Raised;
      }
      a := Ask();
      if a.outcome == Dies {
        return Died;
      }
      a := Ask();
      if a.outcome != Works {
        return if a.outcome == Dies then Died else Raised;
      }
      if 1 !in es.indices {
        var k := Write(Created(es, 1), true);
        if k != Works {
          return if k == Dies then Died else Raised;
        }
      }
      var k := Write(Aliased(es, 1, {}), true);
      assert es.alias == {} || es.alias == {1};
      r := if k == Works then Returned(1) else if k == Dies then Died else Raised;
    }

    /** One more than every version in sight; a listing that fails counts as empty. */
    method NextVersion(current: nat) returns (r: End<nat>)
      modifies this`script
      ensures r.Returned? ==> r.value > current
      ensures r.Returned? ==> r.value == current + 1 || (forall v :: v in es.indices ==> v < r.value)
      ensures r.Returned? ==> r.value - 1 == current || r.value - 1 in es.indices
      ensures Left(old(script), script, 1)
      ensures old(script) != [] && AllWork(old(script)) ==> r.Returned? && forall v :: v in es.indices ==> v < r.value
    {
      var a := Ask();
      match a.outcome {
        case Dies =>
          return Died;
        case Raises =>
          return Returned(current + 1);
        case Works =>
      }
      var top := current;
      var todo := es.indices.Keys;
      while todo != {}
        invariant top >= current && todo <= es.indices.Keys
        invariant forall v :: v in es.indices && v !in todo ==> v <= top
        invariant top == current || top in es.indices
        decreases |todo|
      {
        var v :| v in todo;
        todo := todo - {v};
        top := Max(top, v);
      }
      r := Returned(top + 1);
    }

    /** Send one bulk request. */
    method Bulk(version: nat, ops: seq<Item>) returns (k: Outcome, rejected: set<nat>)
      requires version in es.indices
      modifies this`script, this`es
      ensures version in es.indices && es == WithDocs(old(es), version, es.indices[version])
      ensures es.indices[version] == Load(old(es).indices[version], ops, rejected, |ops|)
              || (k != Works && es.indices[version] == old(es).indices[version])
      ensures Left(old(script), script, 1)
      ensures old(script) != [] ==>
                k == old(script)[0].outcome && rejected == old(script)[0].rejected && script == old(script)[1..]
    {
      WithOwnDocs(es, version);
      var a := Ask();
      k, rejected := a.outcome, a.rejected;
      if k == Works || a.applied {
        es := WithDocs(es, version, Load(es.indices[version], ops, rejected, |ops|));
      }
    }

    /** The ids that a bulk response reports as failed, in the order of the request. */
    method CollectBulkFailures(ops: seq<Item>, rejected: set<nat>) returns (failed: seq<nat>)
      ensures forall i :: 0 <= i < |ops| && i in rejected ==> ops[i].id in failed
      ensures forall id :: id in failed ==> Rejected(ops, rejected, id)
      ensures rejected == {} ==> failed == []
    {
      failed := [];
      for n := 0 to |ops|
        invariant forall i :: 0 <= i < n && i in rejected ==> ops[i].id in failed
        invariant forall id :: id in failed ==> Rejected(ops, rejected, id)
        invariant rejected == {} ==> failed == []
      {
        if n in rejected {
          assert Rejected(ops, rejected, ops[n].id);
          failed := failed + [ops[n].id];
        }
      }
    }

    /** The items behind the failed ids. */
    method RetryItems(items: seq<Item>, failed: seq<nat>) returns (retry: seq<Item>)
      requires forall id :: id in failed ==> exists i :: 0 <= i < |items| && items[i].id == id
      ensures |retry| == |failed|
      ensures forall j :: 0 <= j < |retry| ==> retry[j] in items && retry[j].id == failed[j]
    {
      retry := [];
      for n := 0 to |failed|
        invariant |retry| == n
        invariant forall j :: 0 <= j < n ==> retry[j] in items && retry[j].id == failed[j]
      {
        assert failed[n] in failed;
        var orig := FirstWithId(items, failed[n]);
        retry := retry + [orig];
      }
    }

    /** The first item with an id. */
    method FirstWithId(items: seq<Item>, id: nat) returns (item: Item)
      requires exists i :: 0 <= i < |items| && items[i].id == id
      ensures item in items && item.id == id
    {
      var n := 0;
      while items[n].id != id
        invariant 0 <= n < |items|
        invariant forall i :: 0 <= i < n ==> items[i].id != id
        decreases |items| - n
      {
        n := n + 1;
      }
      item := items[n];
    }

    /** The one retry pass: true when nothing is rejected again. */
    method RetryFailed(version: nat, items: seq<Item>, failed: seq<nat>) returns (r: End<bool>)
      requires version in es.indices
      requires forall id :: id in failed ==> exists i :: 0 <= i < |items| && items[i].id == id
      modifies this`script, this`es
      ensures version in es.indices && es == WithDocs(old(es), version, es.indices[version])
      ensures old(es).indices[version].Keys <= es.indices[version].Keys
      ensures r.Returned? ==> r.value && forall id :: id in failed ==> id in es.indices[version]
      ensures Unique(items) && Agrees(old(es).indices[version], items) ==> Agrees(es.indices[version], items)
      ensures Only(old(es).indices[version], items) ==> Only(es.indices[version], items)
      ensures Left(old(script), script, 1)
      ensures old(script) != [] && old(script)[0].outcome == Works && old(script)[0].rejected == {} ==> r.Returned?
      ensures old(script) != [] && Obeyed(old(script)) ==> !r.Died?
    {
      var retry := RetryItems(items, failed);
      var k, rejected := Bulk(version, retry);
      SecondPass(old(es).indices[version], es.indices[version], items, retry, rejected);
      if k != Works {
        return if k == Dies then Died else Raised;
      }
      var again := CollectBulkFailures(retry, rejected);
      if again != [] {
        return Raised;
      }
      forall id | id in failed ensures id in es.indices[version] {
        var j :| 0 <= j < |failed| && failed[j] == id;
        assert retry[j].id == id;
      }
      r := Returned(true);
    }

    /** Load the whole catalog into one index, retrying the rejected items once. */
    method BulkIndex(version: nat, items: seq<Item>) returns (r: End<bool>)
      requires version in es.indices
      modifies this`script, this`es
      ensures version in es.indices && es == WithDocs(old(es), version, es.indices[version])
      ensures r.Returned? ==> r.value && Holds(es.indices[version], items)
      ensures Unique(items) && Agrees(old(es).indices[version], items) ==> Agrees(es.indices[version], items)
      ensures Only(old(es).indices[version], items) ==> Only(es.indices[version], items)
      ensures Left(old(script), script, 2)
      // One rejected pass is forgiven.
      ensures |old(script)| >= 2 && old(script)[0].outcome == Works
              && old(script)[1].outcome == Works && old(script)[1].rejected == {} ==>
                r.Returned?
      ensures |old(script)| >= 2 && Obeyed(old(script)) ==> !r.Died?
    {
      var k, rejected := Bulk(version, items);
      ghost var between := es.indices[version];
      FirstPass(old(es).indices[version], between, items, rejected);
      if k != Works {
        return if k == Dies then Died else Raised;
      }
      var failed := CollectBulkFailures(items, rejected);
      if failed == [] {
        return Returned(true);
      }
      r := RetryFailed(version, items, failed);
      WithDocsTwice(old(es), version, between, es.indices[version]);
    }

    /** Fill a new index: fetch the catalog, load it, refresh. */
    method Fill(version: nat, catalog: seq<Item>) returns (r: End<bool>)
      requires version in es.indices
      modifies this`script, this`es
      ensures version in es.indices && es == WithDocs(old(es), version, es.indices[version])
      ensures r.Returned? ==> r.value && Holds(es.indices[version], catalog)
      ensures Unique(catalog) && Agrees(old(es).indices[version], catalog) ==> Agrees(es.indices[version], catalog)
      ensures Only(old(es).indices[version], catalog) ==> Only(es.indices[version], catalog)
      ensures Left(old(script), script, 4)
      ensures |old(script)| >= 4 && AllWork(old(script)) ==> r.Returned?
      ensures |old(script)| >= 4 && Obeyed(old(script)) ==> !r.Died?
    {
      WithOwnDocs(es, version);
      var a := Ask();
      if a.outcome != Works {
        return if a.outcome == Dies then Died else Raised;
      }
      if catalog != [] {
        r := BulkIndex(version, catalog);
        if !r.Returned? {
          return;
        }
      }
      a := Ask();
      r := if a.outcome == Works then Returned(true) else if a.outcome == Dies then Died else Raised;
    }

    /** Point the alias at the new index and drop the old one; an ambiguous switch keeps both. */
    method SwitchOver(current: nat, version: nat, catalog: seq<Item>) returns (r: End<ReindexResult>)
      requires Valid() && es.alias == {current} && current < version && version in es.indices
      requires catalog != [] && Loaded(es.indices[version], catalog)
      modifies this`script, this`es
      ensures Valid() && Moves(old(es), es) && Justified(old(es), es, [catalog])
      ensures version in es.indices && es.indices[version] == old(es).indices[version]
      ensures r.Returned? ==> es.alias == {version} && r.value == ReindexResult(|catalog|, version, true)
      ensures |old(script)| >= 2 && AllWork(old(script)) ==> r.Returned? && current !in es.indices
    {
      var k := Write(Aliased(es, version, {current}), true);
      SwitchIsSafe(old(es), es, current, version, catalog);
      if k != Works {
        return if k == Dies then Died else Raised;
      }
      k := Write(Deleted(es, current), current in es.indices);
      SwitchIsSafe(old(es), es, current, version, catalog);
      r := if k == Dies then Died else Returned(ReindexResult(|catalog|, version, true));
    }

    /** Create the new index and fill it; unless it returns true, it has tried to remove it again. */
    method BuildIndex(current: nat, version: nat, catalog: seq<Item>) returns (r: End<bool>)
      requires Valid() && es.alias == {current} && current < version
      modifies this`script, this`es
      ensures Valid() && Moves(old(es), es) && Justified(old(es), es, []) && es.alias == {current}
      ensures r.Returned? ==> (r.value <==> catalog != [])
      ensures SameButFor(old(es), es, version)
      ensures r == Returned(true) ==> version in es.indices && Loaded(es.indices[version], catalog)
      ensures Left(old(script), script, 6)
      ensures |old(script)| >= 6 && AllWork(old(script)) && version !in old(es).indices ==>
                r.Returned? && (catalog == [] ==> version !in es.indices)
      // An index that was created and not filled is gone again, if the cluster does as it is told.
      ensures |old(script)| >= 6 && Obeyed(old(script)) && old(script)[0].outcome == Works && version !in old(es).indices
              && r != Returned(true) ==>
                version !in es.indices
    {
      var k := Write(Created(es, version), version !in es.indices);
      BehindTheScenes(old(es), es, version);
      if k != Works {
        return if k == Dies then Died else Raised;
      }
      r := Fill(version, catalog);
      BehindTheScenes(old(es), es, version);
      if r.Raised? || (r.Returned? && catalog == []) {
        k := Write(Deleted(es, version), true);
        BehindTheScenes(old(es), es, version);
        r := if k == Dies then Died else if r.Raised? then Raised else Returned(false);
      }
    }

    /** Build a new index from the catalog and switch the alias over. */
    method ReindexCatalog(catalog: seq<Item>) returns (r: End<ReindexResult>)
      requires Valid()
      modifies this`script, this`es
      // However it ends, the alias names one index, and a newly named one holds the whole catalog.
      ensures Valid() && Moves(old(es), es) && Justified(old(es), es, [catalog])
      ensures r.Returned? ==> es.alias == {r.value.index} && r.value.index in es.indices && r.value.count == |catalog|
      ensures r.Returned? ==> (r.value.switched <==> catalog != [])
      ensures r.Returned? && r.value.switched ==> r.value.index !in old(es).alias && Loaded(es.indices[r.value.index], catalog)
      // When every call works it returns, and the index it replaced is gone.
      ensures |old(script)| >= 15 && AllWork(old(script)) && !(old(es).legacy && old(es).alias == {}) ==>
                r.Returned? && (catalog != [] ==> forall v :: v in old(es).alias ==> v !in es.indices)
    {
      var live := EnsureIndex();
      JustifiedOn(old(es), es, es, [], [catalog]);
      assert [] + [catalog] == [catalog];
      if !live.Returned? {
        return if live.Died? then Died else Raised;
      }
      ghost var ensured := es;
      var current := live.value;
      var next := NextVersion(current);
      if !next.Returned? {
        return if next.Died? then Died else Raised;
      }
      var built := BuildIndex(current, next.value, catalog);
      ghost var filled := es;
      MovesOn(old(es), ensured, filled);
      JustifiedOn(old(es), ensured, filled, [], []);
      JustifiedOn(old(es), filled, filled, [], [catalog]);
      match built {
        case Died =>
          return Died;
        case Raised =>
          return Raised;
        case Returned(ready) =>
          if !ready {
            return Returned(ReindexResult(0, current, false));
          }
      }
      r := SwitchOver(current, next.value, catalog);
      MovesOn(old(es), filled, es);
      JustifiedOn(old(es), filled, es, [], [catalog]);
    }

    /** Delete an index by name, but never the live one. */
    method DeleteIndex(name: Name) returns (r: End<bool>)
      requires Valid()
      modifies this`script, this`es
      ensures Valid() && Moves(old(es), es) && Justified(old(es), es, []) && es.alias == old(es).alias
      ensures r.Returned? ==> name.Versioned? && name.version !in es.alias && es == Deleted(old(es), name.version)
      ensures r.Returned? ==> name.version !in es.indices && SameButFor(old(es), es, name.version)
      ensures !name.Versioned? || name.version in old(es).alias ==> es == old(es) && !r.Returned?
      ensures |old(script)| >= 2 && AllWork(old(script)) && name.Versioned? && name.version !in old(es).alias ==> r.Returned?
    {
      if name.TheAlias? {
        return Raised;
      }
      var current := AliasTarget();
      if !current.Returned? {
        return if current.Died? then Died else Raised;
      }
      if current.value.Some? && name == Versioned(current.value.value) {
        return Raised;
      }
      if !name.Versioned? {
        return Raised;
      }
      var k := Write(Deleted(es, name.version), true);
      r := if k == Works then Returned(true) else if k == Dies then Died else Raised;
    }

    /** Any number of operations, each with whatever its calls meet. */
    method Run(calls: seq<(Call, seq<Answer>)>)
      requires Valid()
      modifies this`script, this`es
      ensures Valid() && Moves(old(es), es) && Justified(old(es), es, Catalogs(calls))
      decreases |calls|
    {
      if calls != [] {
        script := calls[0].1;
        match calls[0].0 {
          case Ensure =>
            var end := EnsureIndex();
          case Reindex(catalog) =>
            var end := ReindexCatalog(catalog);
          case Delete(name) =>
            var end := DeleteIndex(name);
        }
        ghost var between := es;
        Run(calls[1..]);
        MovesOn(old(es), between, es);
        JustifiedOn(old(es), between, es, CatalogOf(calls[0].0), Catalogs(calls[1..]));
      }
    }
  }

  /** The catalog of an operation, if it has one. */
  function CatalogOf(call: Call): seq<seq<Item>> {
    if call.Reindex? then [call.catalog] else []
  }

  /** The catalogs that a run of operations was given. */
  function Catalogs(calls: seq<(Call, seq<Answer>)>): seq<seq<Item>> {
    if calls == [] then [] else CatalogOf(calls[0].0) + Catalogs(calls[1..])
  }
}
