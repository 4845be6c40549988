/**
 The order of the merged members. The GraphQL specification (section 7.2.2) asks for the
 order of the query; the gateway gives the order of its plans.
 */
module GatewayOrder {
  import opened Sequences
  import opened GraphQl
  import opened Gateway
  import opened GatewayPlans
  import opened GatewayMeaning

  function HasRank<T>(rank: T -> nat, n: nat): T -> bool {
    (x: T) => rank(x) == n
  }

  /** The elements of ranks 0 to n - 1, rank by rank, each rank in its original order. */
  function Buckets<T>(rank: T -> nat, s: seq<T>, n: nat): seq<T> {
    if n == 0 then [] else Buckets(rank, s, n - 1) + Filter(HasRank(rank, n - 1), s)
  }

  ghost predicate Sorted<T>(rank: T -> nat, s: seq<T>) {
    forall i, j :: 0 <= i < j < |s| ==> rank(s[i]) <= rank(s[j])
  }

  lemma BucketAppend<T>(rank: T -> nat, s: seq<T>, x: T, n: nat)
    requires forall y :: y in s ==> rank(y) <= rank(x)
    ensures rank(x) == n ==> Filter(HasRank(rank, n), s + [x]) == Filter(HasRank(rank, n), s) + [x]
    ensures rank(x) > n ==> Filter(HasRank(rank, n), s + [x]) == Filter(HasRank(rank, n), s)
    ensures rank(x) < n ==> Filter(HasRank(rank, n), s + [x]) == Filter(HasRank(rank, n), s) == []
  {
    FilterAppend(HasRank(rank, n), s, x);
    if rank(x) < n {
      FilterNone(HasRank(rank, n), s);
    }
  }

  lemma {:induction false} BucketsBelow<T>(rank: T -> nat, s: seq<T>, x: T, n: nat)
    requires (forall y :: y in s ==> rank(y) <= rank(x)) && n <= rank(x)
    ensures Buckets(rank, s + [x], n) == Buckets(rank, s, n)
  {
    hide Filter, HasRank;
    if n == 0 {
    } else {
      BucketsBelow(rank, s, x, n - 1);
      BucketAppend(rank, s, x, n - 1);
    }
  }

  lemma {:induction false} BucketsAbove<T>(rank: T -> nat, s: seq<T>, x: T, n: nat)
    requires (forall y :: y in s ==> rank(y) <= rank(x)) && rank(x) < n
    ensures Buckets(rank, s + [x], n) == Buckets(rank, s, n) + [x]
  {
    hide Filter, HasRank;
    BucketAppend(rank, s, x, n - 1);
    var lower, last := Buckets(rank, s, n - 1), Filter(HasRank(rank, n - 1), s);
    if rank(x) == n - 1 {
      BucketsBelow(rank, s, x, n - 1);
      Associative(lower, last, [x]);
    } else {
      BucketsAbove(rank, s, x, n - 1);
      assert lower + last == lower;
      assert Buckets(rank, s + [x], n) == Buckets(rank, s + [x], n - 1) + [];
    }
  }

  lemma {:induction false} SortedIsItsBuckets<T>(rank: T -> nat, s: seq<T>, n: nat)
    requires Sorted(rank, s) && forall x :: x in s ==> rank(x) < n
    ensures Buckets(rank, s, n) == s
  {
    if s == [] {
      BucketsOfNothing(rank, s, n);
    } else {
      var front, x := s[..|s| - 1], s[|s| - 1];
      assert s == front + [x];
      SortedIsItsBuckets(rank, front, n);
      forall y | y in front ensures rank(y) <= rank(x) {
        var i :| 0 <= i < |front| && front[i] == y;
        assert s[i] == y && s[|s| - 1] == x;
      }
      BucketsAbove(rank, front, x, n);
    }
  }

  lemma {:induction false} BucketsOfNothing<T>(rank: T -> nat, s: seq<T>, n: nat)
    requires s == []
    ensures Buckets(rank, s, n) == []
  {
    if n == 0 {
    } else {
      BucketsOfNothing(rank, s, n - 1);
    }
  }

  lemma {:induction false} BucketsAreSorted<T>(rank: T -> nat, s: seq<T>, n: nat)
    ensures Sorted(rank, Buckets(rank, s, n))
    ensures forall x :: x in Buckets(rank, s, n) ==> rank(x) < n
  {
    if n == 0 {
    } else {
      BucketsAreSorted(rank, s, n - 1);
      var lower, last := Buckets(rank, s, n - 1), Filter(HasRank(rank, n - 1), s);
      forall x | x in last ensures rank(x) == n - 1 {
        FilterMembers(HasRank(rank, n - 1), s, x);
      }
      forall i, j | 0 <= i < j < |lower + last| ensures rank((lower + last)[i]) <= rank((lower + last)[j]) {
        assert i < |lower| ==> (lower + last)[i] == lower[i] && lower[i] in lower;
        assert i >= |lower| ==> (lower + last)[i] == last[i - |lower|] && last[i - |lower|] in last;
        assert j < |lower| ==> (lower + last)[j] == lower[j] && lower[j] in lower;
        assert j >= |lower| ==> (lower + last)[j] == last[j - |lower|] && last[j - |lower|] in last;
      }
    }
  }

  function IndexIn(order: seq<string>, o: string): (i: nat)
    ensures i <= |order|
    ensures o in order ==> i < |order| && order[i] == o
    ensures o !in order ==> i == |order|
  {
    if order == [] then 0
    else if order[0] == o then 0
    else
      assert order == [order[0]] + order[1..];
      1 + IndexIn(order[1..], o)
  }

  /** The place of a response key's owner among the plans. */
  function PlanRank(owners: map<string, string>, fields: seq<Field>): string -> nat {
    (key: string) =>
      var owner := KeyOwner(owners, fields, key);
      if owner.Some? then IndexIn(OwnersOf(owners, fields), owner.value) else |OwnersOf(owners, fields)|
  }

  function OwnedKey(owners: map<string, string>, fields: seq<Field>, o: string): string -> bool {
    (key: string) => KeyOwner(owners, fields, key) == Some(o)
  }

  lemma {:induction false} FilterSame<T>(p: T -> bool, q: T -> bool, s: seq<T>)
    requires forall x :: x in s ==> p(x) == q(x)
    ensures Filter(p, s) == Filter(q, s)
  {
    if s == [] {
    } else {
      FilterSame(p, q, s[..|s| - 1]);
      assert s[|s| - 1] in s;
    }
  }

  /** The keys asked of an owner are the query's keys it owns, in the query's order. */
  lemma {:induction false} SharedKeys(owners: map<string, string>, all: seq<Field>, fields: seq<Field>, o: string)
    requires KeysHaveOneOwner(owners, all) && forall f :: f in fields ==> f in all
    ensures ResponseKeys(Share(owners, fields, o)) == Filter(OwnedKey(owners, all, o), ResponseKeys(fields))
  {
    if fields == [] {
      assert Share(owners, fields, o) == [] && ResponseKeys([]) == [];
    } else {
      var front, f := fields[..|fields| - 1], fields[|fields| - 1];
      assert fields == front + [f] && f in fields;
      SharedKeys(owners, all, front, o);
      SharedKeysStep(owners, all, front, f, o);
    }
  }

  lemma SharedKeysStep(owners: map<string, string>, all: seq<Field>, front: seq<Field>, f: Field, o: string)
    requires KeysHaveOneOwner(owners, all) && f in all
    requires ResponseKeys(Share(owners, front, o)) == Filter(OwnedKey(owners, all, o), ResponseKeys(front))
    ensures ResponseKeys(Share(owners, front + [f], o)) == Filter(OwnedKey(owners, all, o), ResponseKeys(front + [f]))
  {
    ShareAppend(owners, front, f, o);
    ResponseKeysAppend(front, f);
    ResponseKeysAppend(Share(owners, front, o), f);
    if Included(f) {
      FilterAppend(OwnedKey(owners, all, o), ResponseKeys(front), ResponseKey(f));
      OwnerOfIncluded(owners, all, f);
    }
  }

  lemma OwnerOfIncluded(owners: map<string, string>, fields: seq<Field>, f: Field)
    requires KeysHaveOneOwner(owners, fields) && f in fields && Included(f)
    ensures KeyOwner(owners, fields, ResponseKey(f)) == Some(owners[f.name])
  {
    var own := Filter(WithKey(ResponseKey(f)), fields);
    FilterMembers(WithKey(ResponseKey(f)), fields, f);
    FilterMembers(WithKey(ResponseKey(f)), fields, own[0]);
  }

  /** A part lists its own keys of the query, in the query's order. */
  lemma PartKeys<N>(fed: Federation<N>, fields: seq<Field>, o: string)
    requires KeysHaveOneOwner(fed.owners, fields)
    ensures MemberKeys(Part(fed, fields, o))
         == Filter(OwnedKey(fed.owners, fields, o), MemberKeys(Reference(fed, fields)))
  {
    ExecutedMembers(fed.resolvers(o), Share(fed.owners, fields, o), fed.roots(o), "");
    ExecutedMembers(Compose(fed), fields, Query, "");
    SharedKeys(fed.owners, fields, fields, o);
    DistinctFilter(OwnedKey(fed.owners, fields, o), ResponseKeys(fields));
  }

  ghost predicate NewKeys(members: Members, more: Members) {
    UniqueKeys(more) && forall i, j :: 0 <= i < |members| && 0 <= j < |more| ==> members[i].0 != more[j].0
  }

  lemma {:induction false} PutAllNewKeys(members: Members, more: Members)
    requires NewKeys(members, more)
    ensures PutAll(members, more) == members + more
  {
    if more == [] {
      assert members + more == members;
    } else {
      var front, last := more[..|more| - 1], more[|more| - 1];
      PutAllNewKeys(members, front);
      forall i | 0 <= i < |members + front| ensures MemberKeys(members + front)[i] != last.0 {
      }
      assert members + front + [last] == members + more;
    }
  }

  lemma KeysUnique<N>(r: Resolver<N>, fields: seq<Field>, node: N)
    ensures UniqueKeys(Execute(r, fields, node))
  {
    ExecutedMembers(r, fields, node, "");
    DistinctElements(ResponseKeys(fields));
    var members := Execute(r, fields, node);
    forall i, j | 0 <= i < j < |members| ensures members[i].0 != members[j].0 {
      assert MemberKeys(members)[i] != MemberKeys(members)[j];
    }
  }

  /** The keys of one plan's part are the query's keys of its rank. */
  lemma PartKeysByRank<N>(fed: Federation<N>, fields: seq<Field>, n: nat)
    requires KeysHaveOneOwner(fed.owners, fields) && n < |OwnersOf(fed.owners, fields)|
    ensures var part := Part(fed, fields, OwnersOf(fed.owners, fields)[n]);
      && UniqueKeys(part)
      && MemberKeys(part) == Filter(HasRank(PlanRank(fed.owners, fields), n), MemberKeys(Reference(fed, fields)))
  {
    var o := OwnersOf(fed.owners, fields)[n];
    PartKeys(fed, fields, o);
    RankIsOwner(fed.owners, fields, MemberKeys(Reference(fed, fields)), n);
    KeysUnique(fed.resolvers(o), Share(fed.owners, fields, o), fed.roots(o));
  }

  lemma NextBucket(rank: string -> nat, keys: seq<string>, n: nat, merged: Members, part: Members)
    requires MemberKeys(merged) == Buckets(rank, keys, n)
    requires MemberKeys(part) == Filter(HasRank(rank, n), keys) && UniqueKeys(part)
    ensures MemberKeys(PutAll(merged, part)) == Buckets(rank, keys, n + 1)
  {
    BucketsAreSorted(rank, keys, n);
    forall i, j | 0 <= i < |merged| && 0 <= j < |part| ensures merged[i].0 != part[j].0 {
      assert MemberKeys(merged)[i] == merged[i].0 && MemberKeys(merged)[i] in MemberKeys(merged);
      assert MemberKeys(part)[j] == part[j].0 && MemberKeys(part)[j] in MemberKeys(part);
      FilterMembers(HasRank(rank, n), keys, part[j].0);
    }
    PutAllNewKeys(merged, part);
    assert MemberKeys(merged + part) == MemberKeys(merged) + MemberKeys(part);
  }

  lemma MergedNext(results: seq<SubgraphResult>, n: nat)
    requires n < |results|
    ensures MergedData(results[..n + 1]) == PutAll(MergedData(results[..n]), results[n].data)
  {
    assert results[..n + 1][..n] == results[..n];
  }

  lemma ResultIsItsPart<N>(fed: Federation<N>, fields: seq<Field>, results: seq<SubgraphResult>, n: nat)
    requires PartResults(fed, fields, OwnersOf(fed.owners, fields), {}, results) && n < |results|
    ensures n < |OwnersOf(fed.owners, fields)|
    ensures results[n].data == Part(fed, fields, OwnersOf(fed.owners, fields)[n])
  {
    hide Part, OwnersOf;
  }

  /** Results that carry the keys of one rank each are merged rank by rank. */
  lemma {:induction false} MergedByRank(rank: string -> nat, keys: seq<string>, results: seq<SubgraphResult>, n: nat)
    requires n <= |results|
    requires forall i :: 0 <= i < n ==>
      MemberKeys(results[i].data) == Filter(HasRank(rank, i), keys) && UniqueKeys(results[i].data)
    ensures MemberKeys(MergedData(results[..n])) == Buckets(rank, keys, n)
  {
    hide UniqueKeys, HasRank, Filter, PutAll;
    if n == 0 {
      assert results[..0] == [] && MergedData([]) == [];
    } else {
      MergedByRank(rank, keys, results, n - 1);
      NextBucket(rank, keys, n - 1, MergedData(results[..n - 1]), results[n - 1].data);
      MergedNext(results, n - 1);
    }
  }

  /** The first n plans' keys come rank by rank. */
  lemma MergedKeysAreBuckets<N>(fed: Federation<N>, fields: seq<Field>, results: seq<SubgraphResult>, n: nat)
    requires KeysHaveOneOwner(fed.owners, fields) && n <= |results|
    requires PartResults(fed, fields, OwnersOf(fed.owners, fields), {}, results)
    ensures MemberKeys(MergedData(results[..n]))
         == Buckets(PlanRank(fed.owners, fields), MemberKeys(Reference(fed, fields)), n)
  {
    hide *;
    var rank, keys := PlanRank(fed.owners, fields), MemberKeys(Reference(fed, fields));
    forall i | 0 <= i < n
      ensures MemberKeys(results[i].data) == Filter(HasRank(rank, i), keys) && UniqueKeys(results[i].data)
    {
      ResultIsItsPart(fed, fields, results, i);
      PartKeysByRank(fed, fields, i);
    }
    MergedByRank(rank, keys, results, n);
  }

  lemma RankIsOwner(owners: map<string, string>, fields: seq<Field>, keys: seq<string>, n: nat)
    requires n < |OwnersOf(owners, fields)|
    ensures Filter(HasRank(PlanRank(owners, fields), n), keys)
        == Filter(OwnedKey(owners, fields, OwnersOf(owners, fields)[n]), keys)
  {
    var order := OwnersOf(owners, fields);
    DistinctElements(FlatMap(OwnerName(owners), fields));
    forall key | key in keys
      ensures HasRank(PlanRank(owners, fields), n)(key) == OwnedKey(owners, fields, order[n])(key)
    {
      var owner := KeyOwner(owners, fields, key);
      if owner.Some? && owner.value == order[n] {
        assert IndexIn(order, owner.value) == n;
      }
    }
    FilterSame(HasRank(PlanRank(owners, fields), n), OwnedKey(owners, fields, order[n]), keys);
  }

  lemma SameMembers(a: Members, b: Members)
    requires UniqueKeys(a) && UniqueKeys(b) && MemberKeys(a) == MemberKeys(b) && AsMap(a) == AsMap(b)
    ensures a == b
  {
    assert |a| == |MemberKeys(a)| == |b|;
    forall i | 0 <= i < |a| ensures a[i] == b[i] {
      assert MemberKeys(a)[i] == a[i].0 && MemberKeys(b)[i] == b[i].0;
      MapAt(a, i);
      MapAt(b, i);
    }
  }

  /** Members that are a query's result rearranged plan by plan are that result exactly when it was sorted. */
  lemma RearrangedEqualsExactly(rank: string -> nat, merged: Members, reference: Members, n: nat)
    requires UniqueKeys(merged) && UniqueKeys(reference) && AsMap(merged) == AsMap(reference)
    requires MemberKeys(merged) == Buckets(rank, MemberKeys(reference), n)
    requires forall key :: key in MemberKeys(reference) ==> rank(key) < n
    ensures merged == reference <==> Sorted(rank, MemberKeys(reference))
  {
    BucketsAreSorted(rank, MemberKeys(reference), n);
    if Sorted(rank, MemberKeys(reference)) {
      SortedIsItsBuckets(rank, MemberKeys(reference), n);
      SameMembers(merged, reference);
    }
  }

  /**
   The reply's data equals the query's result member by member, order included, exactly when
   no response key comes after one whose owner's plan comes later.
   */
  lemma OrderKeptExactly<N>(fed: Federation<N>, props: Properties, document: Document, call: SubgraphPlan -> Outcome)
    requires Handled(fed, props, document, call)
    requires KeysHaveOneOwner(fed.owners, RootFields(document))
    requires forall p :: p in PlanOf(props, document).plans ==> !Fails(call(p))
    ensures var fields := RootFields(document);
      DataIn(Handle(props, document, call)) == Reference(fed, fields)
      <==> Sorted(PlanRank(fed.owners, fields), Distinct(ResponseKeys(fields)))
  {
    var fields, plans := RootFields(document), PlanOf(props, document).plans;
    var results, order, rank := Sequential(plans, call), OwnersOf(fed.owners, fields), PlanRank(fed.owners, fields);
    var merged, reference := MergedData(results), Reference(fed, fields);
    FailureIsolation(fed, props, document, call);
    ReplyOfPlans(props, document, call);
    NothingFailed(fed, fields, plans, call);
    ResultsAreParts(fed, props, document, call);
    MergedKeysAreBuckets(fed, fields, results, |results|);
    assert results[..|results|] == results;
    ExecutedMembers(Compose(fed), fields, Query, "");
    KeysUnique(Compose(fed), fields, Query);
    MergedUnion(results);
    forall key | key in MemberKeys(reference) ensures rank(key) < |order| {
      RankBound(fed, fields, key);
    }
    RearrangedEqualsExactly(rank, merged, reference, |order|);
  }

  lemma RankBound<N>(fed: Federation<N>, fields: seq<Field>, key: string)
    requires KeysHaveOneOwner(fed.owners, fields) && key in MemberKeys(Reference(fed, fields))
    ensures PlanRank(fed.owners, fields)(key) < |OwnersOf(fed.owners, fields)|
  {
    MapKeys(Reference(fed, fields), key);
    PartMeansReference(fed, fields, "", key);
    OwnerIsListed(fed.owners, fields, key);
  }

  /** Three included fields under different keys, the first and the last of one owner, the second of another. */
  ghost predicate Interrupted(props: Properties, f: Field, g: Field, h: Field) {
    && Included(f) && Included(g) && Included(h)
    && ResponseKey(f) != ResponseKey(g) && ResponseKey(g) != ResponseKey(h) && ResponseKey(f) != ResponseKey(h)
    && f.name in props.fieldOwners && g.name in props.fieldOwners && h.name in props.fieldOwners
    && props.fieldOwners[f.name] == props.fieldOwners[h.name] != props.fieldOwners[g.name]
    && props.fieldOwners[f.name] in props.subgraphs && props.fieldOwners[g.name] in props.subgraphs
  }

  lemma InterruptedOwners(props: Properties, f: Field, g: Field, h: Field)
    requires Interrupted(props, f, g, h)
    ensures OwnersOf(props.fieldOwners, [f, g, h]) == [props.fieldOwners[f.name], props.fieldOwners[g.name]]
  {
    TwoOwners(props.fieldOwners, f, g);
    OwnersOfAppend(props.fieldOwners, [f, g], h);
    assert [f, g] + [h] == [f, g, h];
  }

  lemma InterruptedPlanned(props: Properties, f: Field, g: Field, h: Field)
    requires Interrupted(props, f, g, h)
    ensures PlanOf(props, Parsed([Operation([Plain(f), Plain(g), Plain(h)])])).Plans?
    ensures RootFields(Parsed([Operation([Plain(f), Plain(g), Plain(h)])])) == [f, g, h]
  {
    assert AsSelections([f, g, h]) == [Plain(f), Plain(g), Plain(h)];
    FieldsOfSelections([f, g, h]);
    PlanOfFields(props, [f, g, h]);
    InterruptedOwners(props, f, g, h);
    PlansExactly(props, [f, g, h], OwnersOf(props.fieldOwners, [f, g, h]));
  }

  lemma InterruptedKeys(props: Properties, f: Field, g: Field, h: Field)
    requires Interrupted(props, f, g, h)
    ensures Distinct(ResponseKeys([f, g, h])) == [ResponseKey(f), ResponseKey(g), ResponseKey(h)]
  {
    var none: seq<Field> := [];
    ResponseKeysAppend(none, f);
    ResponseKeysAppend([f], g);
    ResponseKeysAppend([f, g], h);
    assert none + [f] == [f] && [f] + [g] == [f, g] && [f, g] + [h] == [f, g, h];
    assert ResponseKeys([f, g, h]) == [ResponseKey(f), ResponseKey(g), ResponseKey(h)];
    DistinctUnchanged([ResponseKey(f), ResponseKey(g), ResponseKey(h)]);
  }

  lemma RankOfField(owners: map<string, string>, fields: seq<Field>, f: Field, n: nat)
    requires KeysHaveOneOwner(owners, fields) && f in fields && Included(f)
    requires n < |OwnersOf(owners, fields)| && OwnersOf(owners, fields)[n] == owners[f.name]
    ensures PlanRank(owners, fields)(ResponseKey(f)) == n
  {
    OwnerOfIncluded(owners, fields, f);
    DistinctElements(FlatMap(OwnerName(owners), fields));
    assert IndexIn(OwnersOf(owners, fields), owners[f.name]) == n;
  }

  lemma InterruptedRanks(props: Properties, f: Field, g: Field, h: Field)
    requires Interrupted(props, f, g, h)
    ensures KeysHaveOneOwner(props.fieldOwners, [f, g, h])
    ensures !Sorted(PlanRank(props.fieldOwners, [f, g, h]), [ResponseKey(f), ResponseKey(g), ResponseKey(h)])
  {
    hide PlanRank, OwnersOf;
    var rank, keys := PlanRank(props.fieldOwners, [f, g, h]), [ResponseKey(f), ResponseKey(g), ResponseKey(h)];
    InterruptedOwners(props, f, g, h);
    RankOfField(props.fieldOwners, [f, g, h], g, 1);
    RankOfField(props.fieldOwners, [f, g, h], h, 0);
    assert rank(keys[1]) > rank(keys[2]);
  }

  /** Such a query is planned and, with every subgraph answering, its members come back in another order. */
  lemma InterruptedLosesOrder<N>(fed: Federation<N>, props: Properties, f: Field, g: Field, h: Field)
    requires Interrupted(props, f, g, h) && fed.owners == props.fieldOwners
    ensures var document := Parsed([Operation([Plain(f), Plain(g), Plain(h)])]);
      && PlanOf(props, document).Plans?
      && DataIn(Handle(props, document, Answering(fed))) != Reference(fed, [f, g, h])
  {
    InterruptedPlanned(props, f, g, h);
    InterruptedKeys(props, f, g, h);
    InterruptedRanks(props, f, g, h);
    OrderKeptExactly(fed, props, Parsed([Operation([Plain(f), Plain(g), Plain(h)])]), Answering(fed));
  }
}
