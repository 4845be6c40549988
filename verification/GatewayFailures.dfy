/**
 What failing subgraphs can do to the keys that the reply still carries: with one owner per
 response key nothing, and otherwise a key can carry another owner's value.
 */
module GatewayFailures {
  import opened Sequences
  import opened GraphQl
  import opened Gateway
  import opened GatewayPlans
  import opened GatewayMeaning
  import opened GatewayExactness

  /** Every key of the reply carries the value the whole query gives it. */
  ghost predicate Truthful<N>(fed: Federation<N>, props: Properties, document: Document, call: SubgraphPlan -> Outcome)
    requires PlanOf(props, document).Plans?
  {
    var merged := AsMap(DataIn(Handle(props, document, call)));
    var meaning := AsMap(Reference(fed, RootFields(document)));
    forall key :: key in merged ==> key in meaning && merged[key] == meaning[key]
  }

  /** Whichever subgraphs fail, and whatever the others resolve. */
  ghost predicate AlwaysTruthful<N(!new)>(props: Properties, document: Document, node: N)
    requires PlanOf(props, document).Plans?
  {
    forall fed: Federation<N>, call :: Handled(fed, props, document, call) ==> Truthful(fed, props, document, call)
  }

  /** Calls in which one subgraph alone answers. */
  function OnlyUp<N>(fed: Federation<N>, o: string): SubgraphPlan -> Outcome {
    (p: SubgraphPlan) =>
      if p.subgraph == o then Body(Some(Execute(fed.resolvers(o), p.fields, fed.roots(o))), None) else Threw("down")
  }

  lemma OnlyUpFailures<N>(fed: Federation<N>, props: Properties, document: Document, o: string)
    requires PlanOf(props, document).Plans?
    ensures var failed := FailedSubgraphs(PlanOf(props, document).plans, OnlyUp(fed, o));
      && o !in failed
      && forall other :: other in OwnersOf(props.fieldOwners, RootFields(document)) && other != o ==> other in failed
  {
    var plans, call := PlanOf(props, document).plans, OnlyUp(fed, o);
    forall p | p in plans && Fails(call(p)) ensures p.subgraph != o {
    }
    forall other | other in OwnersOf(props.fieldOwners, RootFields(document)) && other != o
      ensures other in FailedSubgraphs(plans, call)
    {
      var p := PlanOfOwner(props, document, other);
      assert Fails(call(p));
    }
  }

  lemma PlanOfOwner(props: Properties, document: Document, o: string) returns (p: SubgraphPlan)
    requires PlanOf(props, document).Plans? && o in OwnersOf(props.fieldOwners, RootFields(document))
    ensures p in PlanOf(props, document).plans && p.subgraph == o
  {
    StablePartition(props, document);
    var order := OwnersOf(props.fieldOwners, RootFields(document));
    var i :| 0 <= i < |order| && order[i] == o;
    p := PlanOf(props, document).plans[i];
  }

  /** With one owner per response key failures only take keys away. */
  lemma OneOwnerTruthful<N>(fed: Federation<N>, props: Properties, document: Document, call: SubgraphPlan -> Outcome)
    requires Handled(fed, props, document, call) && KeysHaveOneOwner(fed.owners, RootFields(document))
    ensures Truthful(fed, props, document, call)
  {
    FailureIsolation(fed, props, document, call);
  }

  lemma AskedOwner(owners: map<string, string>, fields: seq<Field>, f: Field)
    requires f in fields && Included(f) && f.name in owners
    ensures Asked(owners, fields, ResponseKey(f), owners[f.name]) != []
    ensures owners[f.name] in OwnersOf(owners, fields)
    ensures Filter(WithKey(ResponseKey(f)), fields) != []
  {
    var o := owners[f.name];
    FilterMembers(OwnedBy(owners, o), fields, f);
    FilterMembers(WithKey(ResponseKey(f)), Share(owners, fields, o), f);
    FilterMembers(WithKey(ResponseKey(f)), fields, f);
    OwnersPresent(owners, fields, o);
  }

  /** When only one owner of a key is up, the key carries its answer. */
  lemma OnlyAnswer<N>(fed: Federation<N>, fields: seq<Field>, order: seq<string>, failed: set<string>,
      results: seq<SubgraphResult>, key: string, o: string)
    requires PartResults(fed, fields, order, failed, results)
    requires o in order && o !in failed && forall other :: other in order && other != o ==> other in failed
    requires Asked(fed.owners, fields, key, o) != []
    ensures var merged := AsMap(MergedData(results));
      key in merged
      && merged[key] == ExecuteField(fed.resolvers(o), Asked(fed.owners, fields, key, o), fed.roots(o))
  {
    hide Asked, ExecuteField, PartResults, Filter, Answerer, AsMap, MergedData;
    MergedAnswer(fed, fields, order, failed, results, key);
    var up := Filter(Up(failed), order);
    FilterMembers(Up(failed), order, o);
    AnswererListed(fed.owners, fields, key, up);
    var answerer := Answerer(fed.owners, fields, key, up);
    if answerer.None? {
      NobodyAsked(fed.owners, fields, key, up);
    } else {
      FilterMembers(Up(failed), order, answerer.value);
    }
  }

  lemma OnlyUpHandled<N>(fed: Federation<N>, props: Properties, document: Document, o: string)
    requires fed.owners == props.fieldOwners && PlanOf(props, document).Plans?
    ensures Handled(fed, props, document, OnlyUp(fed, o))
  {
    hide PlanOf, Execute;
  }

  /** When only a field's owner is up, its response key carries the owner's answer. */
  lemma OnlyUpAnswer<N>(fed: Federation<N>, props: Properties, document: Document, f: Field)
    requires fed.owners == props.fieldOwners && PlanOf(props, document).Plans?
    requires f in RootFields(document) && Included(f) && f.name in props.fieldOwners
    ensures var o, key := props.fieldOwners[f.name], ResponseKey(f);
      var asked := Asked(fed.owners, RootFields(document), key, o);
      var merged := AsMap(DataIn(Handle(props, document, OnlyUp(fed, o))));
      asked != [] && key in merged && merged[key] == ExecuteField(fed.resolvers(o), asked, fed.roots(o))
  {
    hide *;
    var fields, plans, o := RootFields(document), PlanOf(props, document).plans, props.fieldOwners[f.name];
    var call := OnlyUp(fed, o);
    AskedOwner(fed.owners, fields, f);
    OnlyUpFailures(fed, props, document, o);
    OnlyUpHandled(fed, props, document, o);
    ResultsAreParts(fed, props, document, call);
    ReplyOfPlans(props, document, call);
    OnlyAnswer(fed, fields, OwnersOf(fed.owners, fields), FailedSubgraphs(plans, call), Sequential(plans, call),
               ResponseKey(f), o);
  }

  /** A field whose owner is not the owner of its key's first field can mislead. */
  lemma OtherOwnerMisleads<N(!new)>(props: Properties, document: Document, f: Field, node: N)
    requires PlanOf(props, document).Plans? && AllOwned(props.fieldOwners, RootFields(document))
    requires f in RootFields(document) && Included(f)
    requires KeyOwner(props.fieldOwners, RootFields(document), ResponseKey(f)) != Some(props.fieldOwners[f.name])
    ensures !AlwaysTruthful(props, document, node)
  {
    hide PlanOf, KeyOwner, RootFields, Execute, ExecuteField, Asked, DataIn, Handle, Filter;
    var owners, fields, o := props.fieldOwners, RootFields(document), props.fieldOwners[f.name];
    var fed := EchoFederation(owners, node);
    AskedOwner(owners, fields, f);
    OnlyUpAnswer(fed, props, document, f);
    EchoDiffers(owners, fields, ResponseKey(f), o, node);
    OnlyUpHandled(fed, props, document, o);
    assert !Truthful(fed, props, document, OnlyUp(fed, o));
  }

  /** An echo of another owner is not what the query means. */
  lemma EchoDiffers<N>(owners: map<string, string>, fields: seq<Field>, key: string, o: string, node: N)
    requires AllOwned(owners, fields) && Asked(owners, fields, key, o) != []
    requires Filter(WithKey(key), fields) != [] && KeyOwner(owners, fields, key) != Some(o)
    ensures var meaning := AsMap(Reference(EchoFederation(owners, node), fields));
      key in meaning ==> meaning[key] != ExecuteField(Echo(o, node), Asked(owners, fields, key, o), node)
  {
    var fed, own := EchoFederation(owners, node), Filter(WithKey(key), fields);
    AskedFirst(owners, fields, key);
    ExecutedMembers(Compose(fed), fields, Query, key);
    RootFieldSimulates(fed, owners[own[0].name], own);
    if ExecuteField(Echo(owners[own[0].name], node), own, node)
       == ExecuteField(Echo(o, node), Asked(owners, fields, key, o), node) {
      EchoesApart(owners[own[0].name], own, o, Asked(owners, fields, key, o), node);
    }
  }

  /** A key of two owners has a field whose owner is not that of the key's first field. */
  lemma SecondOwner(owners: map<string, string>, fields: seq<Field>) returns (f: Field)
    requires AllOwned(owners, fields) && !KeysHaveOneOwner(owners, fields)
    ensures f in fields && Included(f) && KeyOwner(owners, fields, ResponseKey(f)) != Some(owners[f.name])
  {
    var g, h :| g in fields && h in fields && Included(g) && Included(h) && ResponseKey(g) == ResponseKey(h)
      && owners[g.name] != owners[h.name];
    f := if KeyOwner(owners, fields, ResponseKey(g)) == Some(owners[g.name]) then h else g;
  }

  /**
   A planned query's merged keys carry the query's values whichever subgraphs fail and whatever
   the others resolve exactly when its included fields with one response key have one owner.
   */
  lemma TruthfulExactly<N(!new)>(props: Properties, document: Document, node: N)
    requires PlanOf(props, document).Plans?
    ensures AlwaysTruthful(props, document, node) <==> KeysHaveOneOwner(props.fieldOwners, RootFields(document))
  {
    ErrorFree(props, FirstOperation(document.definitions).value);
    if KeysHaveOneOwner(props.fieldOwners, RootFields(document)) {
      forall fed: Federation<N>, call | Handled(fed, props, document, call)
        ensures Truthful(fed, props, document, call)
      {
        OneOwnerTruthful(fed, props, document, call);
      }
    } else {
      var f := SecondOwner(props.fieldOwners, RootFields(document));
      OtherOwnerMisleads(props, document, f, node);
    }
  }

  /** Two fields of different owners under one key: some failure makes the reply carry the wrong value. */
  lemma SharedKeyMisleads<N(!new)>(props: Properties, f: Field, g: Field, node: N)
    requires Clashing(props, f, g)
    ensures var document := Parsed([Operation([Plain(f), Plain(g)])]);
      PlanOf(props, document).Plans? && !AlwaysTruthful(props, document, node)
  {
    ClashPlanned(props, f, g);
    assert f in [f, g] && g in [f, g];
    TruthfulExactly(props, Parsed([Operation([Plain(f), Plain(g)])]), node);
  }
}
