/** The handler's concurrent calls: every future is started first, then joined in plan order. */
module GatewayFanOut {
  import opened Sequences
  import opened Gateway

  /** The futures' results so far and the results joined so far. */
  datatype FanOut = FanOut(futures: seq<Option<SubgraphResult>>, joined: seq<SubgraphResult>)

  /** A call finishes, in any order; the handler's thread takes the next future once it is done. */
  datatype Move = Finish(i: nat) | Join

  function Submitted(plans: seq<SubgraphPlan>): FanOut {
    FanOut(seq(|plans|, i => None), [])
  }

  predicate CanMove(s: FanOut, m: Move) {
    match m
    case Finish(i) => i < |s.futures| && s.futures[i].None?
    case Join => |s.joined| < |s.futures| && s.futures[|s.joined|].Some?
  }

  function Moved(plans: seq<SubgraphPlan>, call: SubgraphPlan -> Outcome, s: FanOut, m: Move): FanOut
    requires |s.futures| == |plans| && CanMove(s, m)
  {
    match m
    case Finish(i) => s.(futures := s.futures[i := Some(ResultOf(plans[i], call(plans[i])))])
    case Join => s.(joined := s.joined + [s.futures[|s.joined|].value])
  }

  /** The moves can be made one after the other. */
  predicate Schedule(plans: seq<SubgraphPlan>, call: SubgraphPlan -> Outcome, s: FanOut, moves: seq<Move>)
    requires |s.futures| == |plans|
    decreases |moves|
  {
    moves == [] || (CanMove(s, moves[0]) && Schedule(plans, call, Moved(plans, call, s, moves[0]), moves[1..]))
  }

  function Ended(plans: seq<SubgraphPlan>, call: SubgraphPlan -> Outcome, s: FanOut, moves: seq<Move>): (t: FanOut)
    requires |s.futures| == |plans| && Schedule(plans, call, s, moves)
    ensures |t.futures| == |plans|
    decreases |moves|
  {
    if moves == [] then s else Ended(plans, call, Moved(plans, call, s, moves[0]), moves[1..])
  }

  function Unfinished(f: Option<SubgraphResult>): nat {
    if f.None? then 1 else 0
  }

  /** Calls still running and results still to join. */
  function Remaining(s: FanOut): int {
    Total(Unfinished, s.futures) + |s.futures| - |s.joined|
  }

  /** A finished future holds its own plan's result, and what is joined is a prefix in plan order. */
  ghost predicate InPlanOrder(plans: seq<SubgraphPlan>, call: SubgraphPlan -> Outcome, s: FanOut) {
    && |s.futures| == |plans|
    && (forall i :: 0 <= i < |plans| && s.futures[i].Some? ==> s.futures[i].value == Sequential(plans, call)[i])
    && s.joined <= Sequential(plans, call)
    && (forall i :: 0 <= i < |s.joined| ==> s.futures[i].Some?)
  }

  lemma MoveKeepsOrder(plans: seq<SubgraphPlan>, call: SubgraphPlan -> Outcome, s: FanOut, m: Move)
    requires InPlanOrder(plans, call, s) && CanMove(s, m)
    ensures InPlanOrder(plans, call, Moved(plans, call, s, m))
    ensures Remaining(Moved(plans, call, s, m)) == Remaining(s) - 1
  {
    if m.Finish? {
      TotalUpdate(Unfinished, s.futures, m.i, Some(ResultOf(plans[m.i], call(plans[m.i]))));
    }
  }

  lemma {:induction false} ScheduleKeepsOrder(plans: seq<SubgraphPlan>, call: SubgraphPlan -> Outcome, s: FanOut,
      moves: seq<Move>)
    requires InPlanOrder(plans, call, s) && Schedule(plans, call, s, moves)
    ensures InPlanOrder(plans, call, Ended(plans, call, s, moves))
    ensures Remaining(Ended(plans, call, s, moves)) == Remaining(s) - |moves|
    decreases |moves|
  {
    if moves == [] {
    } else {
      MoveKeepsOrder(plans, call, s, moves[0]);
      ScheduleKeepsOrder(plans, call, Moved(plans, call, s, moves[0]), moves[1..]);
    }
  }

  lemma SubmittedInOrder(plans: seq<SubgraphPlan>, call: SubgraphPlan -> Outcome)
    ensures InPlanOrder(plans, call, Submitted(plans)) && Remaining(Submitted(plans)) == 2 * |plans|
  {
    AllUnfinished(Submitted(plans).futures);
  }

  lemma {:induction false} AllUnfinished(futures: seq<Option<SubgraphResult>>)
    requires forall f :: f in futures ==> f.None?
    ensures Total(Unfinished, futures) == |futures|
  {
    if futures == [] {
    } else {
      AllUnfinished(futures[..|futures| - 1]);
    }
  }

  /**
   In whatever order the calls complete: a schedule that has not joined everything can go on,
   and one that has took two moves per plan and joined what sequential calls would give.
   */
  lemma FanOutConfluence(plans: seq<SubgraphPlan>, call: SubgraphPlan -> Outcome, moves: seq<Move>)
    requires Schedule(plans, call, Submitted(plans), moves)
    ensures var t := Ended(plans, call, Submitted(plans), moves);
      && |moves| <= 2 * |plans|
      && ((exists m :: CanMove(t, m)) <==> |t.joined| < |plans|)
      && (|t.joined| == |plans| ==> t.joined == Sequential(plans, call) && |moves| == 2 * |plans|)
  {
    SubmittedInOrder(plans, call);
    ScheduleKeepsOrder(plans, call, Submitted(plans), moves);
    var t := Ended(plans, call, Submitted(plans), moves);
    TotalZero(Unfinished, t.futures);
    if |t.joined| < |plans| {
      assert CanMove(t, Join) || CanMove(t, Finish(|t.joined|));
    }
  }

  /** So the concurrent handler replies what calling the plans one after another would. */
  lemma ConcurrentReply(props: Properties, document: Document,
      call: SubgraphPlan -> Outcome, moves: seq<Move>)
    requires PlanOf(props, document).Plans?
    requires Schedule(PlanOf(props, document).plans, call, Submitted(PlanOf(props, document).plans), moves)
    requires |moves| == 2 * |PlanOf(props, document).plans|
    ensures var plans := PlanOf(props, document).plans;
      var joined := Ended(plans, call, Submitted(plans), moves).joined;
      HttpReply(200, Response(MergedData(joined), FlatMap(ErrorsOf, joined))) == Handle(props, document, call)
  {
    var plans := PlanOf(props, document).plans;
    SubmittedInOrder(plans, call);
    ScheduleKeepsOrder(plans, call, Submitted(plans), moves);
    FanOutConfluence(plans, call, moves);
  }
}
