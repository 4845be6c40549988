/**
 Exactly which queries keep their meaning through the gateway, whatever the subgraphs resolve.
 The planner does not check that fields with one response key can be merged, so two owners may
 be asked for the same key.
 */
module GatewayExactness {
  import opened Sequences
  import opened GraphQl
  import opened Gateway
  import opened GatewayPlans
  import opened GatewayMeaning

  predicate SameField(f: Field, g: Field) {
    f.name == g.name && f.arguments == g.arguments
  }

  lemma {:induction false} GroupWeight(groups: seq<Group>, i: nat)
    requires i < |groups| && groups[i].fields != []
    ensures Weights(Merged(groups[i].fields)) < GroupsWeight(groups)
  {
    if i == |groups| - 1 {
      MergedWeight(groups[i].fields);
    } else {
      GroupWeight(groups[..|groups| - 1], i);
    }
  }

  /** Two selection sets that collect the same keys in the same order from the same fields, all the way down. */
  predicate Alike(a: seq<Field>, b: seq<Field>)
    decreases Weights(a)
  {
    var groups, groups' := CollectFields(a), CollectFields(b);
    CollectedWeight(a);
    CollectedWeight(b);
    && |groups| == |groups'|
    && forall i :: 0 <= i < |groups| ==>
         && groups[i].key == groups'[i].key
         && SameField(groups[i].fields[0], groups'[i].fields[0])
         && (GroupWeight(groups, i); Alike(Merged(groups[i].fields), Merged(groups'[i].fields)))
  }

  lemma {:induction false} AlikeItself(fields: seq<Field>)
    ensures Alike(fields, fields)
    decreases Weights(fields)
  {
    var groups := CollectFields(fields);
    CollectedWeight(fields);
    forall i | 0 <= i < |groups| ensures Alike(Merged(groups[i].fields), Merged(groups[i].fields)) {
      GroupWeight(groups, i);
      AlikeItself(Merged(groups[i].fields));
    }
  }

  lemma {:induction false} ExecutedGroup<N>(r: Resolver<N>, groups: seq<Group>, node: N, i: nat)
    requires forall g :: g in groups ==> g.fields != []
    requires i < |groups|
    ensures |ExecuteGroups(r, groups, node)| == |groups|
    ensures ExecuteGroups(r, groups, node)[i] == (groups[i].key, ExecuteField(r, groups[i].fields, node))
  {
    var n := |groups| - 1;
    if i < n {
      ExecutedGroup(r, groups[..n], node, i);
    } else if n > 0 {
      ExecutedGroup(r, groups[..n], node, 0);
    }
  }

  /** No resolver tells alike selection sets apart. */
  lemma {:induction false} AlikeExecutes<N>(r: Resolver<N>, a: seq<Field>, b: seq<Field>, node: N)
    requires Alike(a, b)
    ensures Execute(r, a, node) == Execute(r, b, node)
    decreases Weights(a), 2
  {
    var groups, groups' := CollectFields(a), CollectFields(b);
    CollectedWeight(a);
    CollectedWeight(b);
    forall i | 0 <= i < |groups|
      ensures ExecuteField(r, groups[i].fields, node) == ExecuteField(r, groups'[i].fields, node)
    {
      GroupWeight(groups, i);
      var f := groups[i].fields[0];
      AlikeCompletes(r, r(node, f.name, f.arguments), Merged(groups[i].fields), Merged(groups'[i].fields));
    }
    SameGroupsExecute(r, groups, groups', node);
  }

  lemma {:induction false} SameGroupsExecute<N>(r: Resolver<N>, groups: seq<Group>, groups': seq<Group>, node: N)
    requires |groups| == |groups'|
    requires forall i :: 0 <= i < |groups| ==>
      && groups[i].key == groups'[i].key && groups[i].fields != [] && groups'[i].fields != []
      && ExecuteField(r, groups[i].fields, node) == ExecuteField(r, groups'[i].fields, node)
    ensures ExecuteGroups(r, groups, node) == ExecuteGroups(r, groups', node)
  {
    if groups == [] {
    } else {
      SameGroupsExecute(r, groups[..|groups| - 1], groups'[..|groups| - 1], node);
    }
  }

  lemma {:induction false} AlikeCompletes<N>(r: Resolver<N>, value: Resolved<N>, a: seq<Field>, b: seq<Field>)
    requires Alike(a, b)
    ensures Complete(r, value, a) == Complete(r, value, b)
    decreases Weights(a), 3, value
  {
    match value
    case Entity(node) => AlikeExecutes(r, a, b, node);
    case Many(items) => AlikeCompletesAll(r, items, a, b);
    case _ =>
  }

  lemma {:induction false} AlikeCompletesAll<N>(r: Resolver<N>, values: seq<Resolved<N>>, a: seq<Field>, b: seq<Field>)
    requires Alike(a, b)
    ensures CompleteAll(r, values, a) == CompleteAll(r, values, b)
    decreases Weights(a), 3, values
  {
    if values == [] {
    } else {
      AlikeCompletesAll(r, values[..|values| - 1], a, b);
      AlikeCompletes(r, values[|values| - 1], a, b);
    }
  }

  function Pair<N>(first: Resolved<N>, second: Resolved<N>): Resolved<N> {
    Many([first, second])
  }

  /** The arguments one after the other, in an order that depends on them alone. */
  ghost function Spoken<N>(arguments: Arguments): Resolved<N> {
    if arguments == map[] then Missing
    else
      var name :| name in arguments;
      Pair(Pair(Leaf(name), Leaf(arguments[name])), Spoken(arguments - {name}))
  }

  /** A subgraph that answers every field with its own name, the field, its arguments and one fixed object. */
  ghost function Echo<N>(subgraph: string, fixed: N): Resolver<N> {
    (node: N, name: string, arguments: Arguments) =>
      Pair(Leaf(subgraph), Pair(Leaf(name), Pair(Spoken(arguments), Entity(fixed))))
  }

  lemma PairCompletes<N>(r: Resolver<N>, first: Resolved<N>, second: Resolved<N>, fields: seq<Field>)
    ensures Complete(r, Pair(first, second), fields)
         == Array([Complete(r, first, fields), Complete(r, second, fields)])
  {
    var values := [first, second];
    assert values[..1] == [first] && [first][..0] == [];
    assert CompleteAll(r, [first], fields) == [Complete(r, first, fields)];
    assert CompleteAll(r, values, fields) == CompleteAll(r, [first], fields) + [Complete(r, second, fields)];
  }

  lemma SpokenFirst<N>(r: Resolver<N>, x: Arguments, fields: seq<Field>) returns (name: string)
    requires x != map[]
    ensures name in x
    ensures Complete(r, Spoken(x), fields)
         == Array([Array([Scalar(name), Scalar(x[name])]), Complete(r, Spoken(x - {name}), fields)])
  {
    name :| name in x && Spoken<N>(x) == Pair(Pair(Leaf(name), Leaf(x[name])), Spoken(x - {name}));
    PairCompletes(r, Pair(Leaf(name), Leaf(x[name])), Spoken(x - {name}), fields);
    PairCompletes(r, Leaf(name), Leaf(x[name]), fields);
  }

  lemma SpokenNone<N>(r: Resolver<N>, fields: seq<Field>)
    ensures Complete(r, Spoken(map[]), fields) == Null
  {
  }

  lemma EntryRestored(x: Arguments, name: string)
    requires name in x
    ensures |x - {name}| < |x|
    ensures x == (x - {name})[name := x[name]]
  {
    assert x.Keys == (x - {name}).Keys + {name};
    assert |(x - {name}).Keys| == |x - {name}| && |x.Keys| == |x|;
  }

  lemma {:induction false} SpokenApart<N>(r: Resolver<N>, x: Arguments, y: Arguments, a: seq<Field>, b: seq<Field>)
    requires Complete(r, Spoken(x), a) == Complete(r, Spoken(y), b)
    ensures x == y
    decreases |x|
  {
    hide *;
    SpokenNone(r, a);
    SpokenNone(r, b);
    if x != map[] && y != map[] {
      var name := SpokenFirst(r, x, a);
      var other := SpokenFirst(r, y, b);
      EntryRestored(x, name);
      EntryRestored(y, other);
      SpokenApart(r, x - {name}, y - {name}, a, b);
    } else if x != map[] {
      var name := SpokenFirst(r, x, a);
    } else if y != map[] {
      var other := SpokenFirst(r, y, b);
    }
  }

  /** What an echoing subgraph answers for one response key. */
  lemma EchoedField<N>(o: string, fixed: N, fields: seq<Field>)
    requires fields != []
    ensures ExecuteField(Echo(o, fixed), fields, fixed)
         == Array([Scalar(o), Array([Scalar(fields[0].name),
              Array([Complete(Echo(o, fixed), Spoken(fields[0].arguments), Merged(fields)),
                     Object(Execute(Echo(o, fixed), Merged(fields), fixed))])])])
  {
    var f, under := fields[0], Merged(fields);
    var inner := Pair(Spoken(f.arguments), Entity(fixed));
    PairCompletes(Echo(o, fixed), Spoken(f.arguments), Entity(fixed), under);
    PairCompletes(Echo(o, fixed), Leaf(f.name), inner, under);
    PairCompletes(Echo(o, fixed), Leaf(o), Pair(Leaf(f.name), inner), under);
  }

  /** Equal echoes come from the same subgraph, field and arguments, with selections that echo alike. */
  lemma EchoesApart<N>(o: string, a: seq<Field>, o': string, b: seq<Field>, fixed: N)
    requires a != [] && b != []
    requires ExecuteField(Echo(o, fixed), a, fixed) == ExecuteField(Echo(o', fixed), b, fixed)
    ensures o == o' && SameField(a[0], b[0])
    ensures Execute(Echo(o, fixed), Merged(a), fixed) == Execute(Echo(o, fixed), Merged(b), fixed)
  {
    EchoedField(o, fixed, a);
    EchoedField(o', fixed, b);
    SpokenApart(Echo(o, fixed), a[0].arguments, b[0].arguments, Merged(a), Merged(b));
  }

  /** An echoing subgraph tells all other selection sets apart. */
  lemma {:induction false} EchoTellsApart<N>(o: string, a: seq<Field>, b: seq<Field>, fixed: N)
    requires Execute(Echo(o, fixed), a, fixed) == Execute(Echo(o, fixed), b, fixed)
    ensures Alike(a, b)
    decreases Weights(a)
  {
    var groups, groups' := CollectFields(a), CollectFields(b);
    CollectedWeight(a);
    CollectedWeight(b);
    if groups == [] {
    } else {
      ExecutedGroup(Echo(o, fixed), groups, fixed, 0);
    }
    if groups' == [] {
    } else {
      ExecutedGroup(Echo(o, fixed), groups', fixed, 0);
    }
    forall i | 0 <= i < |groups|
      ensures groups[i].key == groups'[i].key && SameField(groups[i].fields[0], groups'[i].fields[0])
      ensures Alike(Merged(groups[i].fields), Merged(groups'[i].fields))
    {
      ExecutedGroup(Echo(o, fixed), groups, fixed, i);
      ExecutedGroup(Echo(o, fixed), groups', fixed, i);
      EchoesApart(o, groups[i].fields, o, groups'[i].fields, fixed);
      GroupWeight(groups, i);
      EchoTellsApart(o, Merged(groups[i].fields), Merged(groups'[i].fields), fixed);
    }
  }

  ghost predicate SameToAll<N(!new)>(a: seq<Field>, b: seq<Field>, node: N) {
    forall r: Resolver<N> :: Execute(r, a, node) == Execute(r, b, node)
  }

  /** Selection sets mean the same to every resolver, on any object of any type, exactly when they are alike. */
  lemma AlikeExactly<N(!new)>(a: seq<Field>, b: seq<Field>, node: N)
    ensures Alike(a, b) <==> SameToAll(a, b, node)
  {
    if Alike(a, b) {
      forall r: Resolver<N> ensures Execute(r, a, node) == Execute(r, b, node) {
        AlikeExecutes(r, a, b, node);
      }
    }
    if SameToAll(a, b, node) {
      EchoTellsApart("", a, b, node);
    }
  }

  /** The fields of one response key that one owner is asked for. */
  function Asked(owners: map<string, string>, fields: seq<Field>, key: string, o: string): seq<Field> {
    Filter(WithKey(key), Share(owners, fields, o))
  }

  /** The last of the listed owners that is asked for a response key: the one whose answer is kept. */
  function Answerer(owners: map<string, string>, fields: seq<Field>, key: string, order: seq<string>): Option<string> {
    if order == [] then None
    else if Asked(owners, fields, key, order[|order| - 1]) != [] then Some(order[|order| - 1])
    else Answerer(owners, fields, key, order[..|order| - 1])
  }

  function Up(failed: set<string>): string -> bool {
    (o: string) => o !in failed
  }

  lemma AnswererAppend(owners: map<string, string>, fields: seq<Field>, key: string, order: seq<string>, o: string)
    ensures Answerer(owners, fields, key, order + [o])
         == if Asked(owners, fields, key, o) != [] then Some(o) else Answerer(owners, fields, key, order)
  {
    hide Asked;
    assert (order + [o])[..|order|] == order;
  }

  /** A part carries exactly the keys its owner is asked for. */
  lemma PartAnswer<N>(fed: Federation<N>, fields: seq<Field>, o: string, key: string)
    ensures var asked, part := Asked(fed.owners, fields, key, o), AsMap(Part(fed, fields, o));
      && (key in part <==> asked != [])
      && (asked != [] ==> part[key] == ExecuteField(fed.resolvers(o), asked, fed.roots(o)))
  {
    hide Execute, ExecuteField, Filter, AsMap;
    ExecutedMembers(fed.resolvers(o), Share(fed.owners, fields, o), fed.roots(o), key);
  }

  lemma EarlierResults<N>(fed: Federation<N>, fields: seq<Field>, order: seq<string>, failed: set<string>,
      results: seq<SubgraphResult>)
    requires PartResults(fed, fields, order, failed, results) && order != []
    ensures |results| == |order|
    ensures PartResults(fed, fields, order[..|order| - 1], failed, results[..|order| - 1])
    ensures var o := order[|order| - 1];
      results[|results| - 1].data == if o in failed then [] else Part(fed, fields, o)
  {
    hide Part;
  }

  lemma {:induction false} AnswererListed(owners: map<string, string>, fields: seq<Field>, key: string,
      order: seq<string>)
    ensures var answerer := Answerer(owners, fields, key, order);
      answerer.Some? ==> answerer.value in order && Asked(owners, fields, key, answerer.value) != []
  {
    hide Asked;
    if order == [] {
    } else {
      AnswererListed(owners, fields, key, order[..|order| - 1]);
      assert order == order[..|order| - 1] + [order[|order| - 1]];
    }
  }

  /** Data that carry a response key exactly when it has an answerer, and then with the answerer's answer. */
  ghost predicate Answers<N>(fed: Federation<N>, fields: seq<Field>, key: string, answerer: Option<string>,
      data: map<string, Json>)
  {
    && (key in data <==> answerer.Some?)
    && (answerer.Some? ==>
          var o := answerer.value;
          var asked := Asked(fed.owners, fields, key, o);
          asked != [] && data[key] == ExecuteField(fed.resolvers(o), asked, fed.roots(o)))
  }

  lemma PartAdded<N>(fed: Federation<N>, fields: seq<Field>, key: string, answerer: Option<string>,
      data: map<string, Json>, o: string)
    requires Answers(fed, fields, key, answerer, data)
    ensures Answers(fed, fields, key, if Asked(fed.owners, fields, key, o) != [] then Some(o) else answerer,
                    data + AsMap(Part(fed, fields, o)))
  {
    hide Asked, ExecuteField, Part, AsMap;
    PartAnswer(fed, fields, o, key);
  }

  lemma FailedLeavesUp(failed: set<string>, o: string)
    ensures Up(failed)(o) <==> o !in failed
  {
  }

  lemma NothingAdded(data: map<string, Json>)
    ensures data + AsMap([]) == data
  {
  }

  lemma NoResultsNoAnswer<N>(fed: Federation<N>, fields: seq<Field>, order: seq<string>, failed: set<string>,
      results: seq<SubgraphResult>, key: string)
    requires PartResults(fed, fields, order, failed, results) && order == []
    ensures Answers(fed, fields, key, Answerer(fed.owners, fields, key, Filter(Up(failed), order)),
                    AsMap(MergedData(results)))
  {
    hide Asked, ExecuteField, Part;
    assert Filter(Up(failed), order) == [] && results == [];
  }

  /** Merging keeps, for each response key, its answerer's part among the owners that did not fail. */
  lemma {:induction false} MergedAnswer<N>(fed: Federation<N>, fields: seq<Field>, order: seq<string>,
      failed: set<string>, results: seq<SubgraphResult>, key: string)
    requires PartResults(fed, fields, order, failed, results)
    ensures Answers(fed, fields, key, Answerer(fed.owners, fields, key, Filter(Up(failed), order)),
                    AsMap(MergedData(results)))
    decreases |order|
  {
    hide *;
    if order == [] {
      NoResultsNoAnswer(fed, fields, order, failed, results, key);
    } else {
      MergedUnion(results);
      EarlierResults(fed, fields, order, failed, results);
      var front, o, earlier := order[..|order| - 1], order[|order| - 1], results[..|order| - 1];
      MergedAnswer(fed, fields, front, failed, earlier, key);
      var up := Filter(Up(failed), front);
      assert order == front + [o];
      FilterAppend(Up(failed), front, o);
      FailedLeavesUp(failed, o);
      if o in failed {
        NothingAdded(AsMap(MergedData(earlier)));
      } else {
        AnswererAppend(fed.owners, fields, key, up, o);
        PartAdded(fed, fields, key, Answerer(fed.owners, fields, key, up), AsMap(MergedData(earlier)), o);
      }
    }
  }

  /** When nobody failed the answerer is the last of all owners asked. */
  lemma AllUp(order: seq<string>)
    ensures Filter(Up({}), order) == order
  {
    FilterAll(Up({}), order);
  }

  /**
   A response key is safe when the owner of its first field is the one whose answer is kept,
   and is asked for a selection alike to the whole one.
   */
  predicate KeySafe(owners: map<string, string>, fields: seq<Field>, key: string) {
    var own := Filter(WithKey(key), fields);
    own != [] && own[0].name in owners ==>
      var o := owners[own[0].name];
      && Answerer(owners, fields, key, OwnersOf(owners, fields)) == Some(o)
      && Alike(Merged(own), Merged(Asked(owners, fields, key, o)))
  }

  predicate Safe(owners: map<string, string>, fields: seq<Field>) {
    forall key :: key in ResponseKeys(fields) ==> KeySafe(owners, fields, key)
  }

  lemma AskedFirst(owners: map<string, string>, fields: seq<Field>, key: string)
    requires AllOwned(owners, fields)
    ensures var own := Filter(WithKey(key), fields);
      own != [] ==>
        && own[0].name in owners
        && var asked := Asked(owners, fields, key, owners[own[0].name]); asked != [] && asked[0] == own[0]
  {
    var own := Filter(WithKey(key), fields);
    if own != [] {
      FilterMembers(WithKey(key), fields, own[0]);
      var o := owners[own[0].name];
      FiltersCommute(WithKey(key), OwnedBy(owners, o), fields);
      FilterKeepsFirst(OwnedBy(owners, o), own);
    }
  }

  lemma {:induction false} FilterKeepsFirst<T>(p: T -> bool, s: seq<T>)
    requires s != [] && p(s[0])
    ensures Filter(p, s) != [] && Filter(p, s)[0] == s[0]
  {
    if |s| > 1 {
      FilterKeepsFirst(p, s[..|s| - 1]);
    } else {
      assert Filter(p, s[..0]) == [];
    }
  }

  /** On a safe key the kept answer is the query's. */
  lemma SafeKeyKept<N>(fed: Federation<N>, fields: seq<Field>, key: string)
    requires AllOwned(fed.owners, fields) && KeySafe(fed.owners, fields, key)
    ensures var own := Filter(WithKey(key), fields);
      own != [] ==>
        && own[0].name in fed.owners
        && var o := fed.owners[own[0].name];
           && Asked(fed.owners, fields, key, o) != []
           && ExecuteField(Compose(fed), own, Query)
              == ExecuteField(fed.resolvers(o), Asked(fed.owners, fields, key, o), fed.roots(o))
  {
    var own := Filter(WithKey(key), fields);
    AskedFirst(fed.owners, fields, key);
    if own != [] {
      var o := fed.owners[own[0].name];
      RootFieldSimulates(fed, o, own);
      AlikeCompletes(fed.resolvers(o), fed.resolvers(o)(fed.roots(o), own[0].name, own[0].arguments),
                     Merged(own), Merged(Asked(fed.owners, fields, key, o)));
    }
  }

  /** A key that is not asked of any owner is not in the query. */
  lemma {:induction false} NobodyAsked(owners: map<string, string>, fields: seq<Field>, key: string, order: seq<string>)
    requires Answerer(owners, fields, key, order).None?
    ensures forall o :: o in order ==> Asked(owners, fields, key, o) == []
  {
    if order == [] {
    } else {
      NobodyAsked(owners, fields, key, order[..|order| - 1]);
      assert order == order[..|order| - 1] + [order[|order| - 1]];
    }
  }

  /** Exactly the query's keys have an answerer. */
  lemma KeysAnswered(owners: map<string, string>, fields: seq<Field>, key: string)
    requires AllOwned(owners, fields)
    ensures Answerer(owners, fields, key, OwnersOf(owners, fields)).Some? <==> Filter(WithKey(key), fields) != []
  {
    var own, order := Filter(WithKey(key), fields), OwnersOf(owners, fields);
    AskedFirst(owners, fields, key);
    OwnerIsListed(owners, fields, key);
    if Answerer(owners, fields, key, order).None? {
      NobodyAsked(owners, fields, key, order);
    } else {
      AnswererListed(owners, fields, key, order);
      var o := Answerer(owners, fields, key, order).value;
      FiltersCommute(WithKey(key), OwnedBy(owners, o), fields);
    }
  }

  /** Over safe keys the merged parts are the query's meaning on every federation. */
  lemma SafeKeepsMeaning<N>(fed: Federation<N>, fields: seq<Field>, results: seq<SubgraphResult>)
    requires AllOwned(fed.owners, fields) && Safe(fed.owners, fields)
    requires PartResults(fed, fields, OwnersOf(fed.owners, fields), {}, results)
    ensures AsMap(MergedData(results)) == AsMap(Reference(fed, fields))
  {
    var order := OwnersOf(fed.owners, fields);
    var merged, meaning := AsMap(MergedData(results)), AsMap(Reference(fed, fields));
    forall key ensures key in merged <==> key in meaning
               ensures key in merged ==> merged[key] == meaning[key]
    {
      AllUp(order);
      MergedAnswer(fed, fields, order, {}, results, key);
      KeysAnswered(fed.owners, fields, key);
      ExecutedMembers(Compose(fed), fields, Query, key);
      KeyPresence(fields, key);
      if key in meaning {
        SafeKeyKept(fed, fields, key);
      }
    }
  }

  ghost function EchoFederation<N>(owners: map<string, string>, fixed: N): Federation<N> {
    Federation(owners, (o: string) => Echo(o, fixed), (o: string) => fixed)
  }

  /** When the echoing subgraphs' answers keep the meaning of a key, the key is safe. */
  lemma KeptKeyIsSafe<N>(owners: map<string, string>, fields: seq<Field>, results: seq<SubgraphResult>, key: string,
      fixed: N)
    requires AllOwned(owners, fields)
    requires PartResults(EchoFederation(owners, fixed), fields, OwnersOf(owners, fields), {}, results)
    requires AsMap(MergedData(results)) == AsMap(Reference(EchoFederation(owners, fixed), fields))
    ensures KeySafe(owners, fields, key)
  {
    var fed, own := EchoFederation(owners, fixed), Filter(WithKey(key), fields);
    if own != [] {
      AskedFirst(owners, fields, key);
      var o := owners[own[0].name];
      AllUp(OwnersOf(owners, fields));
      MergedAnswer(fed, fields, OwnersOf(owners, fields), {}, results, key);
      KeysAnswered(owners, fields, key);
      ExecutedMembers(Compose(fed), fields, Query, key);
      RootFieldSimulates(fed, o, own);
      var answerer := Answerer(owners, fields, key, OwnersOf(owners, fields)).value;
      var asked := Asked(owners, fields, key, answerer);
      EchoesApart(o, own, answerer, asked, fixed);
      EchoTellsApart(o, Merged(own), Merged(asked), fixed);
    }
  }

  ghost predicate Answered<N>(fed: Federation<N>, props: Properties, document: Document, call: SubgraphPlan -> Outcome)
  {
    && Handled(fed, props, document, call)
    && forall p :: p in PlanOf(props, document).plans ==> !Fails(call(p))
  }

  lemma AnsweredParts<N>(fed: Federation<N>, props: Properties, document: Document, call: SubgraphPlan -> Outcome)
    requires Answered(fed, props, document, call)
    ensures AllOwned(fed.owners, RootFields(document))
    ensures PartResults(fed, RootFields(document), OwnersOf(fed.owners, RootFields(document)), {},
                        Sequential(PlanOf(props, document).plans, call))
  {
    ErrorFree(props, FirstOperation(document.definitions).value);
    ResultsAreParts(fed, props, document, call);
    assert FailedSubgraphs(PlanOf(props, document).plans, call) == {};
  }

  ghost predicate KeepsMeaning<N>(fed: Federation<N>, props: Properties, document: Document,
      call: SubgraphPlan -> Outcome)
    requires PlanOf(props, document).Plans?
  {
    AsMap(DataIn(Handle(props, document, call))) == AsMap(Reference(fed, RootFields(document)))
  }

  /** Over safe keys the handler's data is the query's meaning on every federation. */
  lemma SafeAnswersKeepMeaning<N>(fed: Federation<N>, props: Properties, document: Document,
      call: SubgraphPlan -> Outcome)
    requires Answered(fed, props, document, call) && Safe(props.fieldOwners, RootFields(document))
    ensures KeepsMeaning(fed, props, document, call)
  {
    AnsweredParts(fed, props, document, call);
    ReplyOfPlans(props, document, call);
    SafeKeepsMeaning(fed, RootFields(document), Sequential(PlanOf(props, document).plans, call));
  }

  ghost predicate AlwaysKeepsMeaning<N(!new)>(props: Properties, document: Document, node: N)
    requires PlanOf(props, document).Plans?
  {
    forall fed: Federation<N>, call :: Answered(fed, props, document, call) ==> KeepsMeaning(fed, props, document, call)
  }

  /**
   A planned query keeps its meaning whatever its subgraphs resolve, over any type of objects,
   exactly when each of its response keys is safe.
   */
  lemma MeaningKeptExactly<N(!new)>(props: Properties, document: Document, node: N)
    requires PlanOf(props, document).Plans?
    ensures Safe(props.fieldOwners, RootFields(document)) <==> AlwaysKeepsMeaning(props, document, node)
  {
    var fields := RootFields(document);
    if Safe(props.fieldOwners, fields) {
      forall fed: Federation<N>, call | Answered(fed, props, document, call)
        ensures KeepsMeaning(fed, props, document, call)
      {
        SafeAnswersKeepMeaning(fed, props, document, call);
      }
    }
    if AlwaysKeepsMeaning(props, document, node) {
      var fed := EchoFederation(props.fieldOwners, node);
      var call := Answering(fed);
      AnsweredParts(fed, props, document, call);
      ReplyOfPlans(props, document, call);
      assert KeepsMeaning(fed, props, document, call);
      forall key ensures KeySafe(props.fieldOwners, fields, key) {
        KeptKeyIsSafe(props.fieldOwners, fields, Sequential(PlanOf(props, document).plans, call), key, node);
      }
    }
  }

  /** Queries whose response keys have one owner each are safe. */
  lemma OneOwnerIsSafe(owners: map<string, string>, fields: seq<Field>)
    requires KeysHaveOneOwner(owners, fields)
    ensures Safe(owners, fields)
  {
    forall key ensures KeySafe(owners, fields, key) {
      var own, order := Filter(WithKey(key), fields), OwnersOf(owners, fields);
      if own != [] {
        KeysAnswered(owners, fields, key);
        AnswererListed(owners, fields, key, order);
        KeyFallsToOwner(owners, fields, key, Answerer(owners, fields, key, order).value);
        AlikeItself(Merged(own));
      }
    }
  }

  /** Two included fields of different owners, both with URLs, under one response key. */
  predicate Clashing(props: Properties, f: Field, g: Field) {
    && Included(f) && Included(g) && ResponseKey(f) == ResponseKey(g)
    && f.name in props.fieldOwners && g.name in props.fieldOwners
    && props.fieldOwners[f.name] != props.fieldOwners[g.name]
    && props.fieldOwners[f.name] in props.subgraphs && props.fieldOwners[g.name] in props.subgraphs
  }

  lemma ClashPlanned(props: Properties, f: Field, g: Field)
    requires Clashing(props, f, g)
    ensures PlanOf(props, Parsed([Operation([Plain(f), Plain(g)])])).Plans?
    ensures RootFields(Parsed([Operation([Plain(f), Plain(g)])])) == [f, g]
  {
    FieldsOfSelections([f, g]);
    assert AsSelections([f, g]) == [Plain(f), Plain(g)];
    PlanOfFields(props, [f, g]);
    TwoOwners(props.fieldOwners, f, g);
    PlansExactly(props, [f, g], OwnersOf(props.fieldOwners, [f, g]));
  }

  lemma ClashUnsafe(props: Properties, f: Field, g: Field)
    requires Clashing(props, f, g)
    ensures !Safe(props.fieldOwners, [f, g])
  {
    var key := ResponseKey(f);
    TwoOwners(props.fieldOwners, f, g);
    FilterAll(WithKey(key), [f, g]);
    FilterAll(WithKey(key), [g]);
    KeyPresence([f, g], key);
    assert !KeySafe(props.fieldOwners, [f, g], key);
  }

  /** Two fields of different owners under one key: the query means the first, the reply may carry the last. */
  lemma SharedKeyLosesMeaning<N(!new)>(props: Properties, f: Field, g: Field, node: N)
    requires Clashing(props, f, g)
    ensures var document := Parsed([Operation([Plain(f), Plain(g)])]);
      && PlanOf(props, document).Plans?
      && exists fed: Federation<N>, call ::
           Answered(fed, props, document, call) && !KeepsMeaning(fed, props, document, call)
  {
    ClashPlanned(props, f, g);
    ClashUnsafe(props, f, g);
    MeaningKeptExactly(props, Parsed([Operation([Plain(f), Plain(g)])]), node);
  }
}
