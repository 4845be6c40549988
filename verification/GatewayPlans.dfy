/** Planning as a stable partition of the selection by owner. */
module GatewayPlans {
  import opened Sequences
  import opened GraphQl
  import opened Gateway

  ghost predicate AllOwned(owners: map<string, string>, fields: seq<Field>) {
    forall f :: f in fields ==> f.name in owners
  }

  /** A selection without a planning error is a list of plain fields with known owners. */
  lemma {:induction false} ErrorFree(props: Properties, selections: seq<Selection>)
    ensures FirstError(props, selections).None?
       <==> (forall s :: s in selections ==> s.Plain? && s.field.name in props.fieldOwners)
    ensures FirstError(props, selections).None? ==> AllOwned(props.fieldOwners, FieldsOf(selections))
  {
    if selections == [] {
    } else {
      ErrorFree(props, selections[1..]);
      FlatMapFirst(PlainField, selections);
      assert selections == [selections[0]] + selections[1..];
    }
  }

  /** One plan per owner in the given order, or a rejection naming the first owner without a URL. */
  lemma {:induction false} PlansExactly(props: Properties, fields: seq<Field>, owners: seq<string>)
    ensures var r := PlansFor(props, fields, owners);
      match r
      case Plans(plans) =>
        |plans| == |owners| && forall i :: 0 <= i < |owners| ==>
          owners[i] in props.subgraphs && plans[i] == PlanFor(props, fields, owners[i])
      case Rejected(e) =>
        exists i :: 0 <= i < |owners| && owners[i] !in props.subgraphs && e == NoUrl(owners[i])
          && forall k :: 0 <= k < i ==> owners[k] in props.subgraphs
  {
    if owners == [] {
    } else {
      PlansExactly(props, fields, owners[..|owners| - 1]);
    }
  }

  function FieldsIn(p: SubgraphPlan): seq<Field> {
    p.fields
  }

  lemma {:induction false} OwnersPresent(owners: map<string, string>, fields: seq<Field>, o: string)
    ensures o in OwnersOf(owners, fields) <==> Share(owners, fields, o) != []
  {
    if fields == [] {
    } else {
      var front, f := fields[..|fields| - 1], fields[|fields| - 1];
      assert fields == front + [f];
      OwnersPresent(owners, front, o);
      if f.name in owners {
        OwnersOfAppend(owners, front, f);
        ShareAppend(owners, front, f, o);
      } else {
        FilterAppend(OwnedBy(owners, o), front, f);
        FlatMapAppend(OwnerName(owners), front, f);
        assert FlatMap(OwnerName(owners), fields) == FlatMap(OwnerName(owners), front);
      }
    }
  }

  lemma TwoOwners(owners: map<string, string>, f: Field, g: Field)
    requires f.name in owners && g.name in owners && owners[f.name] != owners[g.name]
    ensures OwnersOf(owners, [f, g]) == [owners[f.name], owners[g.name]]
    ensures Share(owners, [f, g], owners[g.name]) == [g]
  {
    var none: seq<Field> := [];
    assert none + [f] == [f] && [f] + [g] == [f, g];
    OwnersOfAppend(owners, none, f);
    OwnersOfAppend(owners, [f], g);
    ShareAppend(owners, none, f, owners[g.name]);
    ShareAppend(owners, [f], g, owners[g.name]);
  }

  /** The shares of the listed owners, one after the other. */
  function Shares(owners: map<string, string>, fields: seq<Field>, order: seq<string>): seq<Field> {
    if order == [] then [] else Shares(owners, fields, order[..|order| - 1]) + Share(owners, fields, order[|order| - 1])
  }

  /** Every field is in the share of its owner and of no other. */
  lemma {:induction false} SharesMultiplicity(owners: map<string, string>, fields: seq<Field>,
      order: seq<string>, f: Field)
    requires forall i, j :: 0 <= i < j < |order| ==> order[i] != order[j]
    ensures multiset(Shares(owners, fields, order))[f]
         == if f.name in owners && owners[f.name] in order then multiset(fields)[f] else 0
  {
    if order == [] {
    } else {
      var front, o := order[..|order| - 1], order[|order| - 1];
      SharesMultiplicity(owners, fields, front, f);
      FilterMultiplicity(OwnedBy(owners, o), fields, f);
      assert order == front + [o];
    }
  }

  lemma {:induction false} PlansAreShares(props: Properties, fields: seq<Field>, order: seq<string>,
      plans: seq<SubgraphPlan>)
    requires PlansFor(props, fields, order) == Plans(plans)
    ensures FlatMap(FieldsIn, plans) == Shares(props.fieldOwners, fields, order)
  {
    if order == [] {
    } else {
      var front := plans[..|plans| - 1];
      assert plans == front + [plans[|plans| - 1]];
      PlansAreShares(props, fields, order[..|order| - 1], front);
    }
  }

  lemma SharesCover(owners: map<string, string>, fields: seq<Field>)
    requires AllOwned(owners, fields)
    ensures multiset(Shares(owners, fields, OwnersOf(owners, fields))) == multiset(fields)
  {
    var order := OwnersOf(owners, fields);
    DistinctElements(FlatMap(OwnerName(owners), fields));
    forall f: Field ensures multiset(Shares(owners, fields, order))[f] == multiset(fields)[f] {
      SharesMultiplicity(owners, fields, order, f);
      if f in fields {
        OwnersPresent(owners, fields, owners[f.name]);
        FilterMembers(OwnedBy(owners, owners[f.name]), fields, f);
        assert f in Share(owners, fields, owners[f.name]);
      }
    }
    SameMultiplicities(multiset(Shares(owners, fields, order)), multiset(fields));
  }

  function AsSelections(fields: seq<Field>): (s: seq<Selection>)
    ensures |s| == |fields|
  {
    seq(|fields|, i requires 0 <= i < |fields| => Plain(fields[i]))
  }

  lemma {:induction false} FieldsOfSelections(fields: seq<Field>)
    ensures FieldsOf(AsSelections(fields)) == fields
  {
    if fields == [] {
    } else {
      var front := fields[..|fields| - 1];
      FieldsOfSelections(front);
      assert AsSelections(fields)[..|fields| - 1] == AsSelections(front);
    }
  }

  lemma {:induction false} SoleOwner(owners: map<string, string>, fields: seq<Field>, o: string)
    requires fields != [] && forall f :: f in fields ==> f.name in owners && owners[f.name] == o
    ensures OwnersOf(owners, fields) == [o]
  {
    var front, f := fields[..|fields| - 1], fields[|fields| - 1];
    assert fields == front + [f];
    OwnersOfAppend(owners, front, f);
    if front != [] {
      SoleOwner(owners, front, o);
    } else {
      assert OwnersOf(owners, front) == [];
    }
  }

  /**
   A successful plan is a stable partition: owners in order of first occurrence, each with a
   non-empty share in the original order, together exactly the original fields.
   */
  lemma StablePartition(props: Properties, document: Document)
    requires PlanOf(props, document).Plans?
    ensures var plans, fields := PlanOf(props, document).plans, FieldsOf(FirstOperation(document.definitions).value);
      var order := OwnersOf(props.fieldOwners, fields);
      && |plans| == |order|
      && (forall i :: 0 <= i < |plans| ==>
            plans[i].subgraph == order[i] && plans[i].fields == Share(props.fieldOwners, fields, order[i])
                && plans[i].fields != [])
      && multiset(FlatMap(FieldsIn, plans)) == multiset(fields)
  {
    var selections := FirstOperation(document.definitions).value;
    var fields := FieldsOf(selections);
    var order := OwnersOf(props.fieldOwners, fields);
    ErrorFree(props, selections);
    PlansExactly(props, fields, order);
    PlansAreShares(props, fields, order, PlanOf(props, document).plans);
    SharesCover(props.fieldOwners, fields);
    forall i | 0 <= i < |order| ensures Share(props.fieldOwners, fields, order[i]) != [] {
      OwnersPresent(props.fieldOwners, fields, order[i]);
    }
  }

  lemma PlanOfFields(props: Properties, fields: seq<Field>)
    requires AllOwned(props.fieldOwners, fields)
    ensures PlanOf(props, Parsed([Operation(AsSelections(fields))]))
         == PlansFor(props, fields, OwnersOf(props.fieldOwners, fields))
  {
    var selections := AsSelections(fields);
    forall s | s in selections ensures s.Plain? && s.field.name in props.fieldOwners {
      var i :| 0 <= i < |selections| && selections[i] == s;
      assert fields[i] in fields;
    }
    FieldsOfSelections(fields);
    ErrorFree(props, selections);
    assert FirstOperation([Operation(selections)]) == Some(selections);
  }

  lemma PlansForOneOwner(props: Properties, fields: seq<Field>, o: string)
    requires o in props.subgraphs && Share(props.fieldOwners, fields, o) == fields
    ensures PlansFor(props, fields, [o]) == Plans([SubgraphPlan(o, props.subgraphs[o], fields)])
  {
    assert [o][..0] == [];
    assert PlansFor(props, fields, [o][..0]) == Plans([]);
  }

  lemma PlanOfOneShare(props: Properties, fields: seq<Field>, o: string)
    requires fields != [] && o in props.subgraphs
    requires forall f :: f in fields ==> f.name in props.fieldOwners && props.fieldOwners[f.name] == o
    ensures PlanOf(props, Parsed([Operation(AsSelections(fields))]))
         == Plans([SubgraphPlan(o, props.subgraphs[o], fields)])
  {
    PlanOfFields(props, fields);
    SoleOwner(props.fieldOwners, fields, o);
    FilterAll(OwnedBy(props.fieldOwners, o), fields);
    PlansForOneOwner(props, fields, o);
  }

  /** Planning one plan's own fields again gives that plan alone. */
  lemma ReplanningIsIdempotent(props: Properties, document: Document, i: nat)
    requires PlanOf(props, document).Plans? && i < |PlanOf(props, document).plans|
    ensures var p := PlanOf(props, document).plans[i];
      PlanOf(props, Parsed([Operation(AsSelections(p.fields))])) == Plans([p])
  {
    StablePartition(props, document);
    var fields := FieldsOf(FirstOperation(document.definitions).value);
    var p := PlanOf(props, document).plans[i];
    forall f | f in p.fields ensures f.name in props.fieldOwners && props.fieldOwners[f.name] == p.subgraph {
      FilterMembers(OwnedBy(props.fieldOwners, p.subgraph), fields, f);
    }
    PlansExactly(props, fields, OwnersOf(props.fieldOwners, fields));
    PlanOfOneShare(props, p.fields, p.subgraph);
  }

  /** The planned operation is the document's first one, whatever else the document defines. */
  lemma {:induction false} FirstOperationExactly(definitions: seq<Definition>)
    ensures match FirstOperation(definitions)
      case None => forall d :: d in definitions ==> !d.Operation?
      case Some(selections) =>
        exists i :: 0 <= i < |definitions| && definitions[i] == Operation(selections)
          && forall k :: 0 <= k < i ==> !definitions[k].Operation?
  {
    if definitions == [] {
    } else {
      FirstOperationExactly(definitions[1..]);
      assert definitions == [definitions[0]] + definitions[1..];
      if !definitions[0].Operation? && FirstOperation(definitions[1..]).Some? {
        var later := definitions[1..];
        var i :| 0 <= i < |later| && later[i] == Operation(FirstOperation(later).value)
          && forall k :: 0 <= k < i ==> !later[k].Operation?;
        assert definitions[i + 1] == later[i];
        forall k | 0 <= k < i + 1 ensures !definitions[k].Operation? {
          if k > 0 {
            assert definitions[k] == later[k - 1];
          }
        }
      }
    }
  }

  lemma {:induction false} OwnersListed(owners: map<string, string>, fields: seq<Field>)
    requires AllOwned(owners, fields)
    ensures var names := FlatMap(OwnerName(owners), fields);
      |names| == |fields| && forall k :: 0 <= k < |fields| ==> names[k] == owners[fields[k].name]
  {
    if fields == [] {
    } else {
      OwnersListed(owners, fields[..|fields| - 1]);
      assert fields[|fields| - 1] in fields;
    }
  }

  /** A plan asks a configured owner, at its URL, for exactly the fields that are its own. */
  lemma PlanContents(props: Properties, document: Document, i: nat)
    requires PlanOf(props, document).Plans? && i < |PlanOf(props, document).plans|
    ensures var p, fields := PlanOf(props, document).plans[i], FieldsOf(FirstOperation(document.definitions).value);
      && p.subgraph in props.subgraphs && p.url == props.subgraphs[p.subgraph]
      && p.fields != []
      && p.fields
         == Filter((f: Field) => f.name in props.fieldOwners && props.fieldOwners[f.name] == p.subgraph, fields)
  {
    var fields := FieldsOf(FirstOperation(document.definitions).value);
    var p := PlanOf(props, document).plans[i];
    ErrorFree(props, FirstOperation(document.definitions).value);
    StablePartition(props, document);
    PlansExactly(props, fields, OwnersOf(props.fieldOwners, fields));
    SameFilter(OwnedBy(props.fieldOwners, p.subgraph),
               (f: Field) => f.name in props.fieldOwners && props.fieldOwners[f.name] == p.subgraph, fields);
  }

  lemma {:induction false} SameFilter(p: Field -> bool, q: Field -> bool, fields: seq<Field>)
    requires forall f :: p(f) == q(f)
    ensures Filter(p, fields) == Filter(q, fields)
  {
    if fields == [] {
    } else {
      SameFilter(p, q, fields[..|fields| - 1]);
    }
  }

  lemma OwnersByFirstOccurrence(owners: map<string, string>, fields: seq<Field>, i: nat, j: nat) returns (k: nat)
    requires AllOwned(owners, fields) && i < j < |OwnersOf(owners, fields)|
    ensures k < |fields| && fields[k].name in owners && owners[fields[k].name] == OwnersOf(owners, fields)[i]
    ensures forall l :: 0 <= l <= k ==>
      fields[l].name in owners && owners[fields[l].name] != OwnersOf(owners, fields)[j]
  {
    hide Distinct, FlatMap;
    OwnersListed(owners, fields);
    k := DistinctOrder(FlatMap(OwnerName(owners), fields), i, j);
    forall l | 0 <= l <= k ensures fields[l].name in owners {
      assert fields[l] in fields;
    }
  }

  /** Plans come in the order in which their owners' first fields stand in the query. */
  lemma PlansByFirstOccurrence(props: Properties, document: Document, i: nat, j: nat) returns (k: nat)
    requires PlanOf(props, document).Plans? && i < j < |PlanOf(props, document).plans|
    ensures var plans, fields := PlanOf(props, document).plans, FieldsOf(FirstOperation(document.definitions).value);
      && k < |fields| && fields[k].name in props.fieldOwners && props.fieldOwners[fields[k].name] == plans[i].subgraph
      && forall l :: 0 <= l <= k ==>
           fields[l].name in props.fieldOwners && props.fieldOwners[fields[l].name] != plans[j].subgraph
  {
    hide AllOwned, OwnersOf, FieldsOf, Share, PlansFor;
    PlannedFields(props, document);
    StablePartition(props, document);
    k := OwnersByFirstOccurrence(props.fieldOwners, FieldsOf(FirstOperation(document.definitions).value), i, j);
  }

  lemma PlannedFields(props: Properties, document: Document)
    requires PlanOf(props, document).Plans?
    ensures document.Parsed? && FirstOperation(document.definitions).Some?
    ensures AllOwned(props.fieldOwners, FieldsOf(FirstOperation(document.definitions).value))
  {
    hide AllOwned, PlansFor, FieldsOf;
    ErrorFree(props, FirstOperation(document.definitions).value);
  }
}
