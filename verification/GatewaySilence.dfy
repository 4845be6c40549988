/** When a reply says nothing of the data it lost: a body without "data" need not bring an error. */
module GatewaySilence {
  import opened Sequences
  import opened GraphQl
  import opened Gateway
  import opened GatewayPlans
  import opened GatewayMeaning

  /** A call that brings no data for a plan that asks for some. */
  predicate Loses(plan: SubgraphPlan, outcome: Outcome) {
    Fails(outcome) && ResponseKeys(plan.fields) != []
  }

  lemma PlanIsShare(props: Properties, document: Document, p: SubgraphPlan)
    requires PlanOf(props, document).Plans? && p in PlanOf(props, document).plans
    ensures p.fields == Share(props.fieldOwners, RootFields(document), p.subgraph)
  {
    StablePartition(props, document);
  }

  lemma LostKey<N>(fed: Federation<N>, props: Properties, document: Document, call: SubgraphPlan -> Outcome,
      p: SubgraphPlan)
    requires Handled(fed, props, document, call) && KeysHaveOneOwner(fed.owners, RootFields(document))
    requires p in PlanOf(props, document).plans && Loses(p, call(p))
    ensures var fields := RootFields(document);
      AsMap(Reference(fed, fields)) != Surviving(fed, fields, FailedSubgraphs(PlanOf(props, document).plans, call))
  {
    var fields, key := RootFields(document), ResponseKeys(p.fields)[0];
    PlanIsShare(props, document, p);
    KeyPresence(p.fields, key);
    KeyFallsToOwner(fed.owners, fields, key, p.subgraph);
    PartMeansReference(fed, fields, p.subgraph, key);
    assert p.subgraph in FailedSubgraphs(PlanOf(props, document).plans, call);
    assert key in AsMap(Reference(fed, fields));
  }

  lemma NothingLost<N>(fed: Federation<N>, props: Properties, document: Document, call: SubgraphPlan -> Outcome)
    requires Handled(fed, props, document, call)
    requires forall p :: p in PlanOf(props, document).plans ==> !Loses(p, call(p))
    ensures var fields := RootFields(document);
      AsMap(Reference(fed, fields)) == Surviving(fed, fields, FailedSubgraphs(PlanOf(props, document).plans, call))
  {
    var fields, failed := RootFields(document), FailedSubgraphs(PlanOf(props, document).plans, call);
    forall o | o in failed ensures ResponseKeys(Share(fed.owners, fields, o)) == [] {
      var p :| p in PlanOf(props, document).plans && Fails(call(p)) && p.subgraph == o;
      PlanIsShare(props, document, p);
    }
  }

  /** The reply lacks some of the query's data exactly when a failed plan asked for a response key. */
  lemma LossExactly<N>(fed: Federation<N>, props: Properties, document: Document, call: SubgraphPlan -> Outcome)
    requires Handled(fed, props, document, call) && KeysHaveOneOwner(fed.owners, RootFields(document))
    ensures var plans := PlanOf(props, document).plans;
      AsMap(DataIn(Handle(props, document, call))) != AsMap(Reference(fed, RootFields(document)))
      <==> exists p :: p in plans && Loses(p, call(p))
  {
    FailureIsolation(fed, props, document, call);
    if p :| p in PlanOf(props, document).plans && Loses(p, call(p)) {
      LostKey(fed, props, document, call, p);
    } else {
      NothingLost(fed, props, document, call);
    }
  }

  ghost predicate LosesSilently<N>(fed: Federation<N>, props: Properties, document: Document,
      call: SubgraphPlan -> Outcome)
    requires PlanOf(props, document).Plans?
  {
    && "errors" !in AsMap(Handle(props, document, call).body)
    && AsMap(DataIn(Handle(props, document, call))) != AsMap(Reference(fed, RootFields(document)))
  }

  /**
   A reply without "errors" lacks some of the query's data exactly when every call brought a
   body without errors and one of them, asked for a response key, brought no data.
   */
  lemma SilentLossExactly<N>(fed: Federation<N>, props: Properties, document: Document, call: SubgraphPlan -> Outcome)
    requires Handled(fed, props, document, call) && KeysHaveOneOwner(fed.owners, RootFields(document))
    ensures var plans := PlanOf(props, document).plans;
      LosesSilently(fed, props, document, call)
      <==> (forall p :: p in plans ==> Quiet(call(p))) && exists p :: p in plans && Loses(p, call(p))
  {
    FailureIsolation(fed, props, document, call);
    LossExactly(fed, props, document, call);
  }

  /** Calls answered with an empty JSON object. */
  function EmptyObjects(): SubgraphPlan -> Outcome {
    (p: SubgraphPlan) => Body(None, None)
  }

  /** One field, its owner answering with an empty object: status 200, no errors, and the field is missing. */
  lemma EmptyObjectLosesSilently<N>(fed: Federation<N>, props: Properties, f: Field)
    requires fed.owners == props.fieldOwners && Included(f)
    requires f.name in props.fieldOwners && props.fieldOwners[f.name] in props.subgraphs
    ensures var document := Parsed([Operation([Plain(f)])]);
      && PlanOf(props, document).Plans?
      && Handle(props, document, EmptyObjects()) == HttpReply(200, [("data", Object([]))])
      && ResponseKey(f) in AsMap(Reference(fed, [f]))
      && LosesSilently(fed, props, document, EmptyObjects())
  {
    var document, o := Parsed([Operation([Plain(f)])]), props.fieldOwners[f.name];
    assert AsSelections([f]) == [Plain(f)];
    PlanOfOneShare(props, [f], o);
    FieldsOfSelections([f]);
    var plans := PlanOf(props, document).plans;
    var results := Sequential(plans, EmptyObjects());
    assert results == [SubgraphResult(o, [], [])];
    assert results[..0] == [];
    assert MergedData(results) == [];
    assert FlatMap(ErrorsOf, results) == FlatMap(ErrorsOf, results[..0]) + results[0].errors;
    FilterAll(WithKey(ResponseKey(f)), [f]);
    ExecutedMembers(Compose(fed), [f], Query, ResponseKey(f));
    assert MemberKeys(Handle(props, document, EmptyObjects()).body) == ["data"];
  }
}
