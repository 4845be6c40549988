/** The GraphQL gateway: planning by field owner, subgraph calls, merging, and the request handler. */
module Gateway {
  import opened Sequences
  import opened GraphQl

  datatype Selection = Plain(field: Field) | Fragment(text: string)

  datatype Definition = Operation(selections: seq<Selection>) | OtherDefinition

  datatype Properties = Properties(subgraphs: map<string, string>, fieldOwners: map<string, string>)

  /** The sub-query travels as its fields; printing and re-parsing them is not modelled. */
  datatype SubgraphPlan = SubgraphPlan(subgraph: string, url: string, fields: seq<Field>)

  datatype PlanError =
    | SyntaxError(text: string)
    | NoOperation
    | NotPlain(text: string)
    | NoOwner(field: string)
    | NoUrl(subgraph: string)

  datatype Planned = Plans(plans: seq<SubgraphPlan>) | Rejected(error: PlanError)

  /** What parsing a query text gives. */
  datatype Document = Parsed(definitions: seq<Definition>) | Unparsable(text: string)

  function OwnerName(owners: map<string, string>): Field -> seq<string> {
    (f: Field) => if f.name in owners then [owners[f.name]] else []
  }

  function OwnedBy(owners: map<string, string>, owner: string): Field -> bool {
    (f: Field) => f.name in owners && owners[f.name] == owner
  }

  /** The fields one owner is asked for. */
  function Share(owners: map<string, string>, fields: seq<Field>, owner: string): seq<Field> {
    Filter(OwnedBy(owners, owner), fields)
  }

  /** The owners of a selection's fields, in order of first occurrence. */
  function OwnersOf(owners: map<string, string>, fields: seq<Field>): seq<string> {
    Distinct(FlatMap(OwnerName(owners), fields))
  }

  function PlainField(s: Selection): seq<Field> {
    if s.Plain? then [s.field] else []
  }

  function FieldsOf(selections: seq<Selection>): seq<Field> {
    FlatMap(PlainField, selections)
  }

  function FirstOperation(definitions: seq<Definition>): Option<seq<Selection>> {
    if definitions == [] then None
    else if definitions[0].Operation? then Some(definitions[0].selections)
    else FirstOperation(definitions[1..])
  }

  function SelectionError(props: Properties, s: Selection): Option<PlanError> {
    match s
    case Fragment(text) => Some(NotPlain(text))
    case Plain(f) => if f.name in props.fieldOwners then None else Some(NoOwner(f.name))
  }

  /** The error of the first selection that has one. */
  function FirstError(props: Properties, selections: seq<Selection>): Option<PlanError> {
    if selections == [] then None
    else
      match SelectionError(props, selections[0])
      case Some(e) => Some(e)
      case None => FirstError(props, selections[1..])
  }

  function PlanFor(props: Properties, fields: seq<Field>, owner: string): SubgraphPlan
    requires owner in props.subgraphs
  {
    SubgraphPlan(owner, props.subgraphs[owner], Share(props.fieldOwners, fields, owner))
  }

  /** One plan per owner, or the first owner without a URL. */
  function PlansFor(props: Properties, fields: seq<Field>, owners: seq<string>): Planned {
    if owners == [] then Plans([])
    else
      var last := owners[|owners| - 1];
      match PlansFor(props, fields, owners[..|owners| - 1])
      case Rejected(e) => Rejected(e)
      case Plans(plans) =>
        if last in props.subgraphs then Plans(plans + [PlanFor(props, fields, last)]) else Rejected(NoUrl(last))
  }

  /** What planning a document amounts to. */
  function PlanOf(props: Properties, document: Document): Planned {
    match document
    case Unparsable(text) => Rejected(SyntaxError(text))
    case Parsed(definitions) =>
      match FirstOperation(definitions)
      case None => Rejected(NoOperation)
      case Some(selections) =>
        match FirstError(props, selections)
        case Some(e) => Rejected(e)
        case None =>
          var fields := FieldsOf(selections);
          PlansFor(props, fields, OwnersOf(props.fieldOwners, fields))
  }

  lemma {:induction false} FirstErrorConcat(props: Properties, a: seq<Selection>, b: seq<Selection>)
    ensures FirstError(props, a + b)
         == if FirstError(props, a).Some? then FirstError(props, a) else FirstError(props, b)
  {
    if a == [] {
      assert a + b == b;
    } else {
      assert (a + b)[1..] == a[1..] + b;
      FirstErrorConcat(props, a[1..], b);
    }
  }

  /** After selections without an error the next one decides. */
  lemma FirstErrorAt(props: Properties, selections: seq<Selection>, i: nat)
    requires i < |selections| && FirstError(props, selections[..i]).None?
    ensures FirstError(props, selections[..i + 1]) == SelectionError(props, selections[i])
    ensures SelectionError(props, selections[i]).Some?
        ==> FirstError(props, selections) == SelectionError(props, selections[i])
  {
    FirstErrorConcat(props, selections[..i], [selections[i]]);
    assert selections[..i + 1] == selections[..i] + [selections[i]];
    FirstErrorConcat(props, selections[..i + 1], selections[i + 1..]);
    assert selections == selections[..i + 1] + selections[i + 1..];
  }

  /** The planner's first loop: fills an insertion-ordered map of lists, or meets a bad selection. */
  method GroupByOwner(props: Properties, selections: seq<Selection>)
    returns (error: Option<PlanError>, order: seq<string>, groups: map<string, seq<Field>>)
    ensures error == FirstError(props, selections)
    ensures error.None? ==> GroupedSoFar(props.fieldOwners, FieldsOf(selections), order, groups)
  {
    order, groups := [], map[];
    GroupingStart(props.fieldOwners, selections);
    for i := 0 to |selections|
      invariant FirstError(props, selections[..i]).None?
      invariant GroupedSoFar(props.fieldOwners, FieldsOf(selections[..i]), order, groups)
    {
      FirstErrorAt(props, selections, i);
      error := SelectionError(props, selections[i]);
      if error.Some? {
        return;
      }
      var f := selections[i].field;
      var subgraph := props.fieldOwners[f.name];
      FieldsStep(selections, i);
      GroupingStep(props.fieldOwners, FieldsOf(selections[..i]), f, order, groups);
      if subgraph !in groups {
        order := order + [subgraph];
      }
      groups := AddTo(groups, subgraph, f);
    }
    assert selections[..|selections|] == selections;
    error := None;
  }

  /** The planner's second loop: one plan per entry, or the first owner without a URL. */
  method BuildPlans(props: Properties, ghost fields: seq<Field>, order: seq<string>,
      groups: map<string, seq<Field>>)
    returns (r: Planned)
    requires GroupedSoFar(props.fieldOwners, fields, order, groups)
    ensures r == PlansFor(props, fields, order)
  {
    var plans: seq<SubgraphPlan> := [];
    for i := 0 to |order|
      invariant PlansFor(props, fields, order[..i]) == Plans(plans)
    {
      assert order[..i + 1][..i] == order[..i];
      var subgraph := order[i];
      if subgraph !in props.subgraphs {
        PlansFail(props, fields, order, i + 1);
        return Rejected(NoUrl(subgraph));
      }
      plans := plans + [SubgraphPlan(subgraph, props.subgraphs[subgraph], groups[subgraph])];
    }
    assert order[..|order|] == order;
    r := Plans(plans);
  }

  /** QueryPlanner.plan */
  method Plan(props: Properties, document: Document) returns (r: Planned)
    ensures r == PlanOf(props, document)
  {
    if document.Unparsable? {
      return Rejected(SyntaxError(document.text));
    }
    var operation := FirstOperation(document.definitions);
    if operation.None? {
      return Rejected(NoOperation);
    }
    var error, order, groups := GroupByOwner(props, operation.value);
    if error.Some? {
      return Rejected(error.value);
    }
    r := BuildPlans(props, FieldsOf(operation.value), order, groups);
  }

  /** The insertion-ordered map after some fields: owners in order, each with its own fields. */
  ghost predicate GroupedSoFar(owners: map<string, string>, fields: seq<Field>, order: seq<string>,
      groups: map<string, seq<Field>>)
  {
    && order == OwnersOf(owners, fields)
    && (forall o :: o in groups <==> o in order)
    && (forall o :: o in groups ==> groups[o] == Share(owners, fields, o))
    && (forall o :: o !in groups ==> Share(owners, fields, o) == [])
  }

  /** computeIfAbsent followed by add. */
  function AddTo(groups: map<string, seq<Field>>, owner: string, f: Field): map<string, seq<Field>> {
    groups[owner := (if owner in groups then groups[owner] else []) + [f]]
  }

  lemma OwnersOfAppend(owners: map<string, string>, fields: seq<Field>, f: Field)
    requires f.name in owners
    ensures var order, o := OwnersOf(owners, fields), owners[f.name];
      OwnersOf(owners, fields + [f]) == if o in order then order else order + [o]
  {
    FlatMapAppend(OwnerName(owners), fields, f);
    DistinctAppend(FlatMap(OwnerName(owners), fields), owners[f.name]);
  }

  lemma ShareAppend(owners: map<string, string>, fields: seq<Field>, f: Field, o: string)
    requires f.name in owners
    ensures Share(owners, fields + [f], o) == Share(owners, fields, o) + if o == owners[f.name] then [f] else []
  {
    FilterAppend(OwnedBy(owners, o), fields, f);
  }

  lemma GroupingStep(owners: map<string, string>, fields: seq<Field>, f: Field, order: seq<string>,
      groups: map<string, seq<Field>>)
    requires GroupedSoFar(owners, fields, order, groups) && f.name in owners
    ensures var o := owners[f.name];
      GroupedSoFar(owners, fields + [f], if o in groups then order else order + [o], AddTo(groups, o, f))
  {
    hide Share, OwnersOf;
    OwnersOfAppend(owners, fields, f);
    var more := AddTo(groups, owners[f.name], f);
    forall o ensures o in more ==> more[o] == Share(owners, fields + [f], o)
             ensures o !in more ==> Share(owners, fields + [f], o) == []
    {
      ShareAppend(owners, fields, f, o);
    }
  }

  lemma GroupingStart(owners: map<string, string>, selections: seq<Selection>)
    ensures GroupedSoFar(owners, FieldsOf(selections[..0]), [], map[])
  {
    assert selections[..0] == [] && FieldsOf([]) == [];
  }

  lemma FieldsStep(selections: seq<Selection>, i: nat)
    requires i < |selections| && selections[i].Plain?
    ensures FieldsOf(selections[..i + 1]) == FieldsOf(selections[..i]) + [selections[i].field]
  {
    FlatMapAppend(PlainField, selections[..i], selections[i]);
    assert selections[..i + 1] == selections[..i] + [selections[i]];
  }

  lemma {:induction false} PlansFail(props: Properties, fields: seq<Field>, owners: seq<string>, n: nat)
    requires n <= |owners| && PlansFor(props, fields, owners[..n]).Rejected?
    ensures PlansFor(props, fields, owners) == PlansFor(props, fields, owners[..n])
  {
    if n < |owners| {
      assert owners[..|owners| - 1][..n] == owners[..n];
      PlansFail(props, fields, owners[..|owners| - 1], n);
    } else {
      assert owners[..n] == owners;
    }
  }

  /** How one call to a subgraph can end: with an exception, no body, or a JSON object. */
  datatype Outcome = Threw(message: string) | EmptyBody | Body(data: Option<Members>, errors: Option<seq<Json>>)

  datatype SubgraphResult = SubgraphResult(subgraph: string, data: Members, errors: seq<Json>)

  function ErrorMessage(text: string): Json {
    Object([("message", Scalar(text))])
  }

  function Failed(subgraph: string, message: string): SubgraphResult {
    SubgraphResult(subgraph, [], [ErrorMessage("Call to " + subgraph + " failed: " + message)])
  }

  /** SubgraphClient.execute */
  function ResultOf(plan: SubgraphPlan, outcome: Outcome): SubgraphResult {
    match outcome
    case Threw(message) => Failed(plan.subgraph, message)
    case EmptyBody => Failed(plan.subgraph, "empty response body")
    case Body(data, errors) =>
      SubgraphResult(plan.subgraph, if data.Some? then data.value else [], if errors.Some? then errors.value else [])
  }

  /** Where a key stands in an insertion-ordered map. */
  function IndexOf(members: Members, key: string): (i: nat)
    requires key in MemberKeys(members)
    ensures i < |members| && members[i].0 == key
  {
    if members[0].0 == key then 0
    else
      assert MemberKeys(members) == [members[0].0] + MemberKeys(members[1..]);
      1 + IndexOf(members[1..], key)
  }

  /** Replaces a key's value in place or adds the key at the end. */
  function Put(members: Members, key: string, value: Json): Members {
    if key in MemberKeys(members) then members[IndexOf(members, key) := (key, value)] else members + [(key, value)]
  }

  function PutAll(members: Members, more: Members): Members {
    if more == [] then members
    else Put(PutAll(members, more[..|more| - 1]), more[|more| - 1].0, more[|more| - 1].1)
  }

  function MergedData(results: seq<SubgraphResult>): Members {
    if results == [] then [] else PutAll(MergedData(results[..|results| - 1]), results[|results| - 1].data)
  }

  function ErrorsOf(r: SubgraphResult): seq<Json> {
    r.errors
  }

  function Response(data: Members, errors: seq<Json>): Members {
    [("data", Object(data))] + if errors == [] then [] else [("errors", Array(errors))]
  }

  method Merge(results: seq<SubgraphResult>) returns (response: Members)
    ensures response == Response(MergedData(results), FlatMap(ErrorsOf, results))
  {
    var combinedData: Members, combinedErrors: seq<Json> := [], [];
    for i := 0 to |results|
      invariant combinedData == MergedData(results[..i])
      invariant combinedErrors == FlatMap(ErrorsOf, results[..i])
    {
      assert results[..i + 1][..i] == results[..i];
      combinedData := PutAll(combinedData, results[i].data);
      combinedErrors := combinedErrors + results[i].errors;
    }
    assert results[..|results|] == results;
    response := [("data", Object(combinedData))];
    if combinedErrors != [] {
      response := response + [("errors", Array(combinedErrors))];
    }
  }

  function Message(error: PlanError): string {
    match error
    case SyntaxError(text) => text
    case NoOperation => "No operation found in the submitted query"
    case NotPlain(text) => "This teaching gateway only supports plain top-level fields, not fragments: " + text
    case NoOwner(field) =>
      "No subgraph is configured to own field \"" + field + "\" (check graphvault.field-owners in application.yml)"
    case NoUrl(subgraph) => "No URL configured for subgraph \"" + subgraph + "\""
  }

  datatype HttpReply = HttpReply(status: nat, body: Members)

  /** The results of calling the plans one after another. */
  function Sequential(plans: seq<SubgraphPlan>, call: SubgraphPlan -> Outcome): seq<SubgraphResult> {
    seq(|plans|, i requires 0 <= i < |plans| => ResultOf(plans[i], call(plans[i])))
  }

  /** GatewayController.handle */
  function Handle(props: Properties, document: Document, call: SubgraphPlan -> Outcome): HttpReply {
    match PlanOf(props, document)
    case Rejected(error) => HttpReply(400, [("errors", Array([ErrorMessage(Message(error))]))])
    case Plans(plans) =>
      var results := Sequential(plans, call);
      HttpReply(200, Response(MergedData(results), FlatMap(ErrorsOf, results)))
  }

  /** The members of a reply's "data" object, read off the JSON body. */
  function DataIn(reply: HttpReply): Members {
    var body := AsMap(reply.body);
    if "data" in body && body["data"].Object? then body["data"].members else []
  }

  /** The body of a planned request: "data" with the merged data, then "errors" if there are any. */
  lemma ReplyOfPlans(props: Properties, document: Document, call: SubgraphPlan -> Outcome)
    requires PlanOf(props, document).Plans?
    ensures var results := Sequential(PlanOf(props, document).plans, call);
      var reply, errors := Handle(props, document, call), FlatMap(ErrorsOf, results);
      var body := AsMap(reply.body);
      && reply.status == 200
      && MemberKeys(reply.body) == ["data"] + (if errors == [] then [] else ["errors"])
      && "data" in body && body["data"] == Object(MergedData(results)) && DataIn(reply) == MergedData(results)
      && ("errors" in body <==> errors != [])
      && (errors != [] ==> body["errors"] == Array(errors))
  {
    hide PlanOf, MergedData, Sequential, FlatMap;
    var results := Sequential(PlanOf(props, document).plans, call);
    BodyOf(MergedData(results), FlatMap(ErrorsOf, results));
  }

  lemma BodyOf(data: Members, errors: seq<Json>)
    ensures var body := Response(data, errors);
      && MemberKeys(body) == ["data"] + (if errors == [] then [] else ["errors"])
      && AsMap(body) == if errors == [] then map["data" := Object(data)]
                        else map["data" := Object(data), "errors" := Array(errors)]
  {
    var body := Response(data, errors);
    assert body[..0] == [];
    assert AsMap(body[..1]) == map["data" := Object(data)];
  }
}
