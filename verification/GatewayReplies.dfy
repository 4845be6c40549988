/** What the gateway answers when it cannot plan, and where each call's errors end up when it can. */
module GatewayReplies {
  import opened Sequences
  import opened GraphQl
  import opened Gateway
  import opened GatewayPlans
  import opened GatewayMeaning

  /** A reply that carries nothing but one error message. */
  predicate Refuses(reply: HttpReply, message: string) {
    reply == HttpReply(400, [("errors", Array([Object([("message", Scalar(message))])]))])
  }

  /** The status is 400 exactly when planning fails, and then, and only then, there is no "data". */
  lemma StatusExactly(props: Properties, document: Document, call: SubgraphPlan -> Outcome)
    ensures var reply := Handle(props, document, call);
      var body := AsMap(reply.body);
      && (reply.status == 400 <==> PlanOf(props, document).Rejected?)
      && (reply.status == 200 <==> PlanOf(props, document).Plans?)
      && ("data" in body <==> PlanOf(props, document).Plans?)
      && (PlanOf(props, document).Rejected? ==> exists message :: Refuses(reply, message))
  {
    if PlanOf(props, document).Plans? {
      ReplyOfPlans(props, document, call);
    } else {
      var reply := Handle(props, document, call);
      assert reply.body[..0] == [];
      assert Refuses(reply, Message(PlanOf(props, document).error));
    }
  }

  /** A document that does not parse, or holds no operation, is refused. */
  lemma NothingToPlan(props: Properties, document: Document, call: SubgraphPlan -> Outcome)
    ensures document.Unparsable? ==> Refuses(Handle(props, document, call), document.text)
    ensures document.Parsed? && (forall d :: d in document.definitions ==> !d.Operation?) ==>
      Refuses(Handle(props, document, call), "No operation found in the submitted query")
  {
    if document.Parsed? {
      FirstOperationExactly(document.definitions);
    }
  }

  ghost predicate PlainAndOwned(props: Properties, selections: seq<Selection>) {
    forall s :: s in selections ==> s.Plain? && s.field.name in props.fieldOwners
  }

  lemma BadSelectionRejected(props: Properties, document: Document, i: nat)
    requires document.Parsed? && FirstOperation(document.definitions).Some?
    requires i < |FirstOperation(document.definitions).value|
    requires PlainAndOwned(props, FirstOperation(document.definitions).value[..i])
    ensures match FirstOperation(document.definitions).value[i]
      case Fragment(text) => PlanOf(props, document) == Rejected(NotPlain(text))
      case Plain(f) => f.name !in props.fieldOwners ==> PlanOf(props, document) == Rejected(NoOwner(f.name))
  {
    hide FieldsOf, OwnersOf, PlansFor;
    var selections := FirstOperation(document.definitions).value;
    ErrorFree(props, selections[..i]);
    FirstErrorAt(props, selections, i);
  }

  /** The first selection that is not a plain field, or has no owner, is the one that is reported. */
  lemma BadSelectionRefused(props: Properties, document: Document, call: SubgraphPlan -> Outcome, i: nat)
    requires document.Parsed? && FirstOperation(document.definitions).Some?
    requires i < |FirstOperation(document.definitions).value|
    requires PlainAndOwned(props, FirstOperation(document.definitions).value[..i])
    ensures var bad, reply := FirstOperation(document.definitions).value[i], Handle(props, document, call);
      match bad
      case Fragment(text) =>
        Refuses(reply, "This teaching gateway only supports plain top-level fields, not fragments: " + text)
      case Plain(f) =>
        f.name !in props.fieldOwners ==>
          Refuses(reply, "No subgraph is configured to own field \"" + f.name
                         + "\" (check graphvault.field-owners in application.yml)")
  {
    hide PlanOf, FirstOperation;
    BadSelectionRejected(props, document, i);
  }

  /** Otherwise the first owner, by its first field, that has no URL is reported. */
  lemma MissingUrlRefused(props: Properties, document: Document, call: SubgraphPlan -> Outcome, i: nat)
    requires document.Parsed? && FirstOperation(document.definitions).Some?
    requires PlainAndOwned(props, FirstOperation(document.definitions).value)
    requires var order := OwnersOf(props.fieldOwners, FieldsOf(FirstOperation(document.definitions).value));
      i < |order| && order[i] !in props.subgraphs && forall k :: 0 <= k < i ==> order[k] in props.subgraphs
    ensures var order := OwnersOf(props.fieldOwners, FieldsOf(FirstOperation(document.definitions).value));
      Refuses(Handle(props, document, call), "No URL configured for subgraph \"" + order[i] + "\"")
  {
    var fields := FieldsOf(FirstOperation(document.definitions).value);
    ErrorFree(props, FirstOperation(document.definitions).value);
    PlansExactly(props, fields, OwnersOf(props.fieldOwners, fields));
  }

  /** What one call adds to the reply, by how it ended. */
  lemma CallContributes(plan: SubgraphPlan, reason: string, data: Option<Members>, errors: Option<seq<Json>>)
    ensures ResultOf(plan, Threw(reason))
         == SubgraphResult(plan.subgraph, [],
              [Object([("message", Scalar("Call to " + plan.subgraph + " failed: " + reason))])])
    ensures ResultOf(plan, EmptyBody)
         == SubgraphResult(plan.subgraph, [],
              [Object([("message", Scalar("Call to " + plan.subgraph + " failed: " + "empty response body"))])])
    ensures var result := ResultOf(plan, Body(data, errors));
      && result.subgraph == plan.subgraph
      && (data.Some? ==> result.data == data.value) && (data.None? ==> result.data == [])
      && (errors.Some? ==> result.errors == errors.value) && (errors.None? ==> result.errors == [])
  {
  }

  /** The errors of plan i's call stand in the reply together and in their order, after those of earlier plans. */
  lemma {:induction false} ErrorsInPlace(plans: seq<SubgraphPlan>, call: SubgraphPlan -> Outcome, i: nat)
    returns (later: seq<Json>)
    requires i < |plans|
    ensures ErrorsInOrder(plans, call)
         == ErrorsInOrder(plans[..i], call) + ResultOf(plans[i], call(plans[i])).errors + later
  {
    hide ResultOf;
    var n := |plans| - 1;
    if i == n {
      later := [];
      var earlier, own := ErrorsInOrder(plans[..i], call), ResultOf(plans[i], call(plans[i])).errors;
      assert earlier + own + [] == earlier + own;
    } else {
      var before := ErrorsInPlace(plans[..n], call, i);
      assert plans[..n][..i] == plans[..i];
      var own, last := ResultOf(plans[i], call(plans[i])).errors, ResultOf(plans[n], call(plans[n])).errors;
      later := before + last;
      Associative(ErrorsInOrder(plans[..i], call) + own, before, last);
    }
  }

  /** A body's own errors all appear in the reply, one after the other. */
  lemma BodyErrorsAppear(props: Properties, document: Document, call: SubgraphPlan -> Outcome, i: nat)
    returns (earlier: seq<Json>, later: seq<Json>)
    requires PlanOf(props, document).Plans? && i < |PlanOf(props, document).plans|
    requires var outcome := call(PlanOf(props, document).plans[i]);
      outcome.Body? && outcome.errors.Some? && outcome.errors.value != []
    ensures var errors := call(PlanOf(props, document).plans[i]).errors.value;
      var body := AsMap(Handle(props, document, call).body);
      "errors" in body && body["errors"] == Array(earlier + errors + later)
  {
    hide PlanOf, MergedData, Handle;
    var plans := PlanOf(props, document).plans;
    CallContributes(plans[i], "", call(plans[i]).data, call(plans[i]).errors);
    earlier := ErrorsInOrder(plans[..i], call);
    later := ErrorsInPlace(plans, call, i);
    ErrorsConcatenated(plans, call);
    ReplyOfPlans(props, document, call);
  }
}
