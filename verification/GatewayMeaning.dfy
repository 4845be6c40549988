/** Splitting a query, executing the parts on their subgraphs and merging keeps its meaning. */
module GatewayMeaning {
  import opened Sequences
  import opened GraphQl
  import opened Gateway
  import opened GatewayPlans

  /** Which subgraph owns a root field, and how each subgraph resolves fields from its own root. */
  datatype Federation<!N> = Federation(
    owners: map<string, string>, resolvers: string -> Resolver<N>, roots: string -> N)

  /** An object of the combined schema: its query root, or some subgraph's object. */
  datatype Composite<N> = Query | In(subgraph: string, node: N)

  function Tagged<N>(subgraph: string, value: Resolved<N>): Resolved<Composite<N>> {
    match value
    case Missing => Missing
    case Leaf(text) => Leaf(text)
    case Entity(node) => Entity(In(subgraph, node))
    case Many(items) => Many(TaggedAll(subgraph, items))
  }

  function TaggedAll<N>(subgraph: string, values: seq<Resolved<N>>): (r: seq<Resolved<Composite<N>>>)
    ensures |r| == |values|
  {
    if values == [] then []
    else TaggedAll(subgraph, values[..|values| - 1]) + [Tagged(subgraph, values[|values| - 1])]
  }

  /** The resolver of the combined schema: the query root asks the field's owner, other objects their own subgraph. */
  function Compose<N>(fed: Federation<N>): Resolver<Composite<N>> {
    (parent: Composite<N>, name: string, arguments: Arguments) =>
      match parent
      case In(subgraph, node) => Tagged(subgraph, fed.resolvers(subgraph)(node, name, arguments))
      case Query =>
        if name in fed.owners
        then var o := fed.owners[name]; Tagged(o, fed.resolvers(o)(fed.roots(o), name, arguments))
        else Missing
  }

  /** What the original query means: one execution over the combined schema. */
  function Reference<N>(fed: Federation<N>, fields: seq<Field>): Members {
    Execute(Compose(fed), fields, Query)
  }

  /** What one subgraph answers for its share of the query. */
  function Part<N>(fed: Federation<N>, fields: seq<Field>, owner: string): Members {
    Execute(fed.resolvers(owner), Share(fed.owners, fields, owner), fed.roots(owner))
  }

  /** Below the query root the combined schema behaves as the subgraph alone. */
  lemma {:induction false} SubgraphSimulates<N>(fed: Federation<N>, o: string, fields: seq<Field>, node: N)
    ensures Execute(Compose(fed), fields, In(o, node)) == Execute(fed.resolvers(o), fields, node)
    decreases Weights(fields), 2, 0
  {
    CollectedWeight(fields);
    GroupsSimulate(fed, o, CollectFields(fields), node);
  }

  lemma {:induction false} GroupsSimulate<N>(fed: Federation<N>, o: string, groups: seq<Group>, node: N)
    requires forall g :: g in groups ==> g.fields != []
    ensures ExecuteGroups(Compose(fed), groups, In(o, node)) == ExecuteGroups(fed.resolvers(o), groups, node)
    decreases GroupsWeight(groups), 1, |groups|
  {
    if groups == [] {
    } else {
      var g := groups[|groups| - 1];
      GroupsSimulate(fed, o, groups[..|groups| - 1], node);
      MergedWeight(g.fields);
      CompletionSimulates(fed, o, fed.resolvers(o)(node, g.fields[0].name, g.fields[0].arguments), Merged(g.fields));
    }
  }

  lemma {:induction false} CompletionSimulates<N>(fed: Federation<N>, o: string, value: Resolved<N>, fields: seq<Field>)
    ensures Complete(Compose(fed), Tagged(o, value), fields) == Complete(fed.resolvers(o), value, fields)
    decreases Weights(fields), 3, value
  {
    match value
    case Entity(node) => SubgraphSimulates(fed, o, fields, node);
    case Many(items) => CompletionsSimulate(fed, o, items, fields);
    case _ =>
  }

  lemma {:induction false} CompletionsSimulate<N>(fed: Federation<N>, o: string, values: seq<Resolved<N>>,
      fields: seq<Field>)
    ensures CompleteAll(Compose(fed), TaggedAll(o, values), fields) == CompleteAll(fed.resolvers(o), values, fields)
    decreases Weights(fields), 3, values
  {
    if values == [] {
    } else {
      CompletionsSimulate(fed, o, values[..|values| - 1], fields);
      CompletionSimulates(fed, o, values[|values| - 1], fields);
    }
  }

  /** At the query root a group of fields whose first is owned by o means what it means on o. */
  lemma RootFieldSimulates<N>(fed: Federation<N>, o: string, fields: seq<Field>)
    requires fields != [] && fields[0].name in fed.owners && fed.owners[fields[0].name] == o
    ensures ExecuteField(Compose(fed), fields, Query) == ExecuteField(fed.resolvers(o), fields, fed.roots(o))
  {
    CompletionSimulates(fed, o, fed.resolvers(o)(fed.roots(o), fields[0].name, fields[0].arguments), Merged(fields));
  }

  /** Fields with one response key name the same field (section 5.3.2 of the GraphQL specification). */
  ghost predicate Mergeable(fields: seq<Field>) {
    forall f, g :: f in fields && g in fields && ResponseKey(f) == ResponseKey(g) ==> f.name == g.name
  }

  /** Included fields with one response key have one owner. */
  ghost predicate KeysHaveOneOwner(owners: map<string, string>, fields: seq<Field>) {
    && AllOwned(owners, fields)
    && forall f, g :: f in fields && g in fields && Included(f) && Included(g) && ResponseKey(f) == ResponseKey(g)
         ==> owners[f.name] == owners[g.name]
  }

  lemma {:induction false} FiltersCommute(p: Field -> bool, q: Field -> bool, fields: seq<Field>)
    ensures Filter(p, Filter(q, fields)) == Filter(q, Filter(p, fields))
  {
    if fields == [] {
    } else {
      var front, f := fields[..|fields| - 1], fields[|fields| - 1];
      FiltersCommute(p, q, front);
      FilterAppend(p, Filter(q, front), f);
      FilterAppend(q, Filter(p, front), f);
    }
  }

  /** A key's fields all fall into its owner's share, and none into any other. */
  lemma KeyFallsToOwner(owners: map<string, string>, fields: seq<Field>, key: string, o: string)
    requires KeysHaveOneOwner(owners, fields)
    ensures var own, shared := Filter(WithKey(key), fields), Filter(WithKey(key), Share(owners, fields, o));
      && (forall f :: f in own ==> f.name in owners)
      && shared == if own != [] && owners[own[0].name] == o then own else []
  {
    var own := Filter(WithKey(key), fields);
    FiltersCommute(WithKey(key), OwnedBy(owners, o), fields);
    forall f | f in own ensures f in fields && WithKey(key)(f) && f.name in owners {
      FilterMembers(WithKey(key), fields, f);
    }
    if own != [] {
      assert own[0] in own;
      if owners[own[0].name] == o {
        FilterAll(OwnedBy(owners, o), own);
      } else {
        FilterNone(OwnedBy(owners, o), own);
      }
    } else {
      FilterNone(OwnedBy(owners, o), own);
    }
  }

  /** The owner of the first included field with a response key. */
  function KeyOwner(owners: map<string, string>, fields: seq<Field>, key: string): Option<string> {
    var own := Filter(WithKey(key), fields);
    if own != [] && own[0].name in owners then Some(owners[own[0].name]) else None
  }

  /** A part carries a key exactly when it is the owner's part, and then with the query's meaning. */
  lemma PartMeansReference<N>(fed: Federation<N>, fields: seq<Field>, o: string, key: string)
    requires KeysHaveOneOwner(fed.owners, fields)
    ensures key in AsMap(Reference(fed, fields)) <==> KeyOwner(fed.owners, fields, key).Some?
    ensures key in AsMap(Part(fed, fields, o)) <==> KeyOwner(fed.owners, fields, key) == Some(o)
    ensures key in AsMap(Part(fed, fields, o))
        ==> AsMap(Part(fed, fields, o))[key] == AsMap(Reference(fed, fields))[key]
  {
    var own := Filter(WithKey(key), fields);
    KeyFallsToOwner(fed.owners, fields, key, o);
    ExecutedMembers(Compose(fed), fields, Query, key);
    ExecutedMembers(fed.resolvers(o), Share(fed.owners, fields, o), fed.roots(o), key);
    if own != [] {
      assert own[0] in own;
      if fed.owners[own[0].name] == o {
        RootFieldSimulates(fed, o, own);
      }
    }
  }

  ghost predicate UniqueKeys(members: Members) {
    forall i, j :: 0 <= i < j < |members| ==> members[i].0 != members[j].0
  }

  lemma {:induction false} MapAt(members: Members, i: nat)
    requires UniqueKeys(members) && i < |members|
    ensures members[i].0 in AsMap(members) && AsMap(members)[members[i].0] == members[i].1
  {
    if i < |members| - 1 {
      MapAt(members[..|members| - 1], i);
    }
  }

  lemma PutMeaning(members: Members, key: string, value: Json)
    requires UniqueKeys(members)
    ensures UniqueKeys(Put(members, key, value))
    ensures AsMap(Put(members, key, value)) == AsMap(members)[key := value]
  {
    var put := Put(members, key, value);
    if key in MemberKeys(members) {
      var at := IndexOf(members, key);
      assert MemberKeys(put) == MemberKeys(members);
      forall k ensures k in AsMap(put) <==> k in AsMap(members)[key := value] {
        MapKeys(members, k);
        MapKeys(put, k);
      }
      forall k | k in AsMap(put) ensures AsMap(put)[k] == AsMap(members)[key := value][k] {
        MapKeys(put, k);
        var i :| 0 <= i < |put| && MemberKeys(put)[i] == k;
        MapAt(put, i);
        MapAt(members, i);
      }
    } else {
      assert put[..|members|] == members;
      forall i | 0 <= i < |members| ensures members[i].0 != key {
        assert MemberKeys(members)[i] == members[i].0;
      }
    }
  }

  lemma UnionUpdate(a: map<string, Json>, b: map<string, Json>, key: string, value: Json)
    ensures (a + b)[key := value] == a + b[key := value]
  {
  }

  lemma {:induction false} PutAllMeaning(members: Members, more: Members)
    requires UniqueKeys(members)
    ensures UniqueKeys(PutAll(members, more))
    ensures AsMap(PutAll(members, more)) == AsMap(members) + AsMap(more)
  {
    if more == [] {
    } else {
      var front, last := more[..|more| - 1], more[|more| - 1];
      PutAllMeaning(members, front);
      PutMeaning(PutAll(members, front), last.0, last.1);
      UnionUpdate(AsMap(members), AsMap(front), last.0, last.1);
    }
  }

  /** The merged data is the union of the results' data, later results winning. */
  lemma {:induction false} MergedUnion(results: seq<SubgraphResult>)
    ensures UniqueKeys(MergedData(results))
    ensures AsMap(MergedData(results))
         == if results == [] then map[]
            else AsMap(MergedData(results[..|results| - 1])) + AsMap(results[|results| - 1].data)
  {
    if results == [] {
    } else {
      MergedUnion(results[..|results| - 1]);
      PutAllMeaning(MergedData(results[..|results| - 1]), results[|results| - 1].data);
    }
  }

  /** A call that brings back no data: an exception, no body, or a body without "data". */
  predicate Fails(outcome: Outcome) {
    !outcome.Body? || outcome.data.None?
  }

  /** A subgraph either fails or answers its plan's execution, with or without errors. */
  ghost predicate Faithful<N>(fed: Federation<N>, plan: SubgraphPlan, outcome: Outcome) {
    || Fails(outcome)
    || outcome.data == Some(Execute(fed.resolvers(plan.subgraph), plan.fields, fed.roots(plan.subgraph)))
  }

  /** Subgraphs that all answer their plans without errors. */
  function Answering<N>(fed: Federation<N>): SubgraphPlan -> Outcome {
    (p: SubgraphPlan) => Body(Some(Execute(fed.resolvers(p.subgraph), p.fields, fed.roots(p.subgraph))), None)
  }

  /** One result per owner: that owner's part, or nothing where its call failed. */
  ghost predicate PartResults<N>(fed: Federation<N>, fields: seq<Field>, order: seq<string>, failed: set<string>,
      results: seq<SubgraphResult>)
  {
    && |results| == |order|
    && forall i :: 0 <= i < |order| ==>
         results[i].data == if order[i] in failed then [] else Part(fed, fields, order[i])
  }

  /** After merging, a key is present exactly when its owner is listed and did not fail, with the query's meaning. */
  lemma {:induction false} MergedParts<N>(
      fed: Federation<N>, fields: seq<Field>, order: seq<string>, failed: set<string>, results: seq<SubgraphResult>,
      key: string)
    requires KeysHaveOneOwner(fed.owners, fields) && PartResults(fed, fields, order, failed, results)
    ensures var owner, merged := KeyOwner(fed.owners, fields, key), AsMap(MergedData(results));
      && (key in merged <==> owner.Some? && owner.value in order && owner.value !in failed)
      && (key in merged ==> key in AsMap(Reference(fed, fields)) && merged[key] == AsMap(Reference(fed, fields))[key])
    decreases |order|
  {
    MergedUnion(results);
    if order == [] {
    } else {
      var n := |order| - 1;
      MergedParts(fed, fields, order[..n], failed, results[..n], key);
      PartMeansReference(fed, fields, order[n], key);
      var owner := KeyOwner(fed.owners, fields, key);
      if owner.Some? {
        LastOrEarlier(order, owner.value);
      }
    }
  }

  lemma LastOrEarlier(order: seq<string>, owner: string)
    requires order != []
    ensures owner in order <==> owner in order[..|order| - 1] || owner == order[|order| - 1]
  {
    assert order == order[..|order| - 1] + [order[|order| - 1]];
  }

  /** The merged data is the query's meaning without the response keys of the failed subgraphs. */
  lemma MergedIsRestriction<N>(fed: Federation<N>, fields: seq<Field>, failed: set<string>,
      results: seq<SubgraphResult>)
    requires KeysHaveOneOwner(fed.owners, fields)
    requires PartResults(fed, fields, OwnersOf(fed.owners, fields), failed, results)
    ensures AsMap(MergedData(results)) == Surviving(fed, fields, failed)
  {
    var order := OwnersOf(fed.owners, fields);
    var merged, surviving := AsMap(MergedData(results)), Surviving(fed, fields, failed);
    forall key ensures key in merged <==> key in surviving
               ensures key in merged ==> merged[key] == surviving[key]
    {
      MergedParts(fed, fields, order, failed, results, key);
      PartMeansReference(fed, fields, "", key);
      OwnerIsListed(fed.owners, fields, key);
      forall o
        ensures key in ResponseKeys(Share(fed.owners, fields, o)) <==> KeyOwner(fed.owners, fields, key) == Some(o)
      {
        KeyFallsToOwner(fed.owners, fields, key, o);
        KeyPresence(Share(fed.owners, fields, o), key);
      }
    }
  }

  /** The query's meaning without the response keys that failed subgraphs were asked for. */
  ghost function Surviving<N>(fed: Federation<N>, fields: seq<Field>, failed: set<string>): map<string, Json> {
    var meaning := AsMap(Reference(fed, fields));
    map key | key in meaning && (forall o :: o in failed ==> key !in ResponseKeys(Share(fed.owners, fields, o)))
      :: meaning[key]
  }

  lemma OwnerIsListed(owners: map<string, string>, fields: seq<Field>, key: string)
    ensures var owner := KeyOwner(owners, fields, key); owner.Some? ==> owner.value in OwnersOf(owners, fields)
  {
    var own := Filter(WithKey(key), fields);
    if own != [] && own[0].name in owners {
      var o := owners[own[0].name];
      FilterMembers(WithKey(key), fields, own[0]);
      FilterMembers(OwnedBy(owners, o), fields, own[0]);
      OwnersPresent(owners, fields, o);
      assert own[0] in Share(owners, fields, o);
    }
  }

  /** The request plans, and each of its calls fails or answers its plan's execution. */
  ghost predicate Handled<N>(fed: Federation<N>, props: Properties, document: Document, call: SubgraphPlan -> Outcome) {
    && fed.owners == props.fieldOwners
    && PlanOf(props, document).Plans?
    && forall p :: p in PlanOf(props, document).plans ==> Faithful(fed, p, call(p))
  }

  /** The root fields of the request's operation. */
  function RootFields(document: Document): seq<Field> {
    match document
    case Unparsable(_) => []
    case Parsed(definitions) =>
      match FirstOperation(definitions)
      case None => []
      case Some(selections) => FieldsOf(selections)
  }

  lemma MergeableKeysHaveOneOwner(props: Properties, document: Document)
    requires PlanOf(props, document).Plans? && Mergeable(RootFields(document))
    ensures KeysHaveOneOwner(props.fieldOwners, RootFields(document))
  {
    ErrorFree(props, FirstOperation(document.definitions).value);
  }

  ghost function FailedSubgraphs(plans: seq<SubgraphPlan>, call: SubgraphPlan -> Outcome): set<string> {
    set p | p in plans && Fails(call(p)) :: p.subgraph
  }

  lemma FailureIsByOwner(order: seq<string>, plans: seq<SubgraphPlan>, call: SubgraphPlan -> Outcome, i: nat)
    requires |plans| == |order| && forall k :: 0 <= k < |order| ==> plans[k].subgraph == order[k]
    requires forall a, b :: 0 <= a < b < |order| ==> order[a] != order[b]
    requires i < |order|
    ensures order[i] in FailedSubgraphs(plans, call) <==> Fails(call(plans[i]))
  {
    assert plans[i] in plans;
    if p :| p in plans && Fails(call(p)) && p.subgraph == order[i] {
      var k :| 0 <= k < |plans| && plans[k] == p;
      assert order[k] == order[i];
    }
  }

  lemma ResultIsPart<N>(fed: Federation<N>, fields: seq<Field>, plan: SubgraphPlan, outcome: Outcome)
    requires Faithful(fed, plan, outcome) && plan.fields == Share(fed.owners, fields, plan.subgraph)
    ensures ResultOf(plan, outcome).data == if Fails(outcome) then [] else Part(fed, fields, plan.subgraph)
  {
  }

  lemma ResultsAreParts<N>(fed: Federation<N>, props: Properties, document: Document, call: SubgraphPlan -> Outcome)
    requires Handled(fed, props, document, call)
    ensures var plans, fields := PlanOf(props, document).plans, RootFields(document);
      PartResults(fed, fields, OwnersOf(fed.owners, fields), FailedSubgraphs(plans, call), Sequential(plans, call))
  {
    StablePartition(props, document);
    var plans, fields := PlanOf(props, document).plans, RootFields(document);
    var order, failed := OwnersOf(fed.owners, fields), FailedSubgraphs(plans, call);
    DistinctElements(FlatMap(OwnerName(fed.owners), fields));
    forall i | 0 <= i < |order|
      ensures Sequential(plans, call)[i].data == if order[i] in failed then [] else Part(fed, fields, order[i])
    {
      assert plans[i] in plans;
      FailureIsByOwner(order, plans, call, i);
      ResultIsPart(fed, fields, plans[i], call(plans[i]));
    }
  }

  /** The errors of all calls in plan order. */
  function ErrorsInOrder(plans: seq<SubgraphPlan>, call: SubgraphPlan -> Outcome): seq<Json> {
    if plans == [] then []
    else
      var p := plans[|plans| - 1];
      ErrorsInOrder(plans[..|plans| - 1], call) + ResultOf(p, call(p)).errors
  }

  lemma {:induction false} ErrorsConcatenated(plans: seq<SubgraphPlan>, call: SubgraphPlan -> Outcome)
    ensures FlatMap(ErrorsOf, Sequential(plans, call)) == ErrorsInOrder(plans, call)
  {
    if plans != [] {
      var front, p := plans[..|plans| - 1], plans[|plans| - 1];
      ErrorsConcatenated(front, call);
      SequentialAppend(front, p, call);
      assert plans == front + [p];
      FlatMapAppend(ErrorsOf, Sequential(front, call), ResultOf(p, call(p)));
    } else {
      assert Sequential(plans, call) == [];
    }
  }

  lemma SequentialAppend(front: seq<SubgraphPlan>, p: SubgraphPlan, call: SubgraphPlan -> Outcome)
    ensures Sequential(front + [p], call) == Sequential(front, call) + [ResultOf(p, call(p))]
  {
  }

  /** A body whose "errors" are absent or empty. */
  predicate Quiet(outcome: Outcome) {
    outcome.Body? && (outcome.errors.None? || outcome.errors.value == [])
  }

  lemma {:induction false} QuietCallsLeaveNoErrors(plans: seq<SubgraphPlan>, call: SubgraphPlan -> Outcome)
    ensures ErrorsInOrder(plans, call) == [] <==> forall p :: p in plans ==> Quiet(call(p))
  {
    if plans == [] {
    } else {
      var front, p := plans[..|plans| - 1], plans[|plans| - 1];
      QuietCallsLeaveNoErrors(front, call);
      assert plans == front + [p];
    }
  }

  /**
   With any set of subgraphs failing, the reply's "data" is an object with the query's data
   without the failed subgraphs' response keys; "errors" is there exactly when some call threw,
   had no body or brought errors, and then lists all calls' errors in plan order.
   */
  lemma FailureIsolation<N>(fed: Federation<N>, props: Properties, document: Document, call: SubgraphPlan -> Outcome)
    requires Handled(fed, props, document, call)
    requires KeysHaveOneOwner(fed.owners, RootFields(document))
    ensures var plans, reply := PlanOf(props, document).plans, Handle(props, document, call);
      var body := AsMap(reply.body);
      && reply.status == 200
      && MemberKeys(reply.body) == ["data"] + (if "errors" in body then ["errors"] else [])
      && "data" in body && body["data"].Object? && body["data"].members == DataIn(reply)
      && AsMap(body["data"].members) == Surviving(fed, RootFields(document), FailedSubgraphs(plans, call))
      && ("errors" in body <==> exists p :: p in plans && !Quiet(call(p)))
      && ("errors" in body ==> body["errors"] == Array(ErrorsInOrder(plans, call)))
  {
    hide Handled, Execute, MergedData, Sequential, PlanOf, Surviving, FlatMap, Handle, PartResults;
    HandledIsPlanned(fed, props, document, call);
    var plans := PlanOf(props, document).plans;
    ReplyOfPlans(props, document, call);
    ResultsAreParts(fed, props, document, call);
    ErrorsConcatenated(plans, call);
    QuietCallsLeaveNoErrors(plans, call);
    MergedIsRestriction(fed, RootFields(document), FailedSubgraphs(plans, call), Sequential(plans, call));
  }

  lemma HandledIsPlanned<N>(fed: Federation<N>, props: Properties, document: Document, call: SubgraphPlan -> Outcome)
    requires Handled(fed, props, document, call)
    ensures PlanOf(props, document).Plans? && fed.owners == props.fieldOwners
  {
  }

  lemma NothingFailed<N>(fed: Federation<N>, fields: seq<Field>, plans: seq<SubgraphPlan>,
      call: SubgraphPlan -> Outcome)
    requires forall p :: p in plans ==> !Fails(call(p))
    ensures FailedSubgraphs(plans, call) == {}
    ensures Surviving(fed, fields, FailedSubgraphs(plans, call)) == AsMap(Reference(fed, fields))
  {
    assert FailedSubgraphs(plans, call) == {};
  }

  /**
   Split and merge preserves meaning: when every subgraph answers without errors, the reply's
   data is, as a map, the result of executing the original selection set on the combined schema.
   */
  lemma SplitAndMergePreservesMeaning<N>(fed: Federation<N>, props: Properties, document: Document,
      call: SubgraphPlan -> Outcome)
    requires Handled(fed, props, document, call)
    requires KeysHaveOneOwner(fed.owners, RootFields(document))
    requires forall p :: p in PlanOf(props, document).plans ==> !Fails(call(p)) && Quiet(call(p))
    ensures var data := DataIn(Handle(props, document, call));
      && Handle(props, document, call) == HttpReply(200, [("data", Object(data))])
      && AsMap(data) == AsMap(Reference(fed, RootFields(document)))
  {
    FailureIsolation(fed, props, document, call);
    ReplyOfPlans(props, document, call);
    var plans := PlanOf(props, document).plans;
    QuietCallsLeaveNoErrors(plans, call);
    NothingFailed(fed, RootFields(document), plans, call);
  }
}
