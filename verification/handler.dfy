/** `lambda_handler`: billing, formatting, credentials and sending, in that
    order, stopping at the first stage that fails. The run is a small state
    machine whose phases record what has been produced so far and which
    stages have been entered; it sees each stage only through its outcome,
    and `ServicesOf` wires in the stage functions of the other modules. */
module Handler {
  import opened Optional
  import opened Calendar
  import opened CostExplorer
  import opened MessageFormatting
  import opened LineNotification

  datatype Stage = Billing | Formatting | Tokens | Sending

  const Stages: seq<Stage> := [Billing, Formatting, Tokens, Sending]

  function StageIndex(s: Stage): (i: nat)
    ensures i < |Stages| && Stages[i] == s
  {
    match s
    case Billing => 0
    case Formatting => 1
    case Tokens => 2
    case Sending => 3
  }

  /** The body reported when a stage yields nothing. */
  function FailureBody(s: Stage): string {
    match s
    case Billing => "Failed to get billing information"
    case Formatting => "Failed to format message"
    case Tokens => "Failed to get LINE tokens"
    case Sending => "Failed to post to LINE"
  }

  const SuccessBody := "Successfully sent cost notification"

  /** Everything the handler consults: the clock's date, the configured
      metric, the three outside services, and the exceptions that escape to
      the handler while it is at a stage (with their text). */
  datatype Env = Env(
    today: Date,
    metric: string,
    costExplorer: CeQuery -> CeResponse,
    table: map<string, Item>,
    line: PushRequest -> LineReply,
    raised: map<Stage, string>)

  /** What each stage yields, as the handler sees it. */
  datatype Services = Services(
    billing: Option<BillingInfo>,
    format: BillingInfo -> Option<string>,
    tokens: Option<Credentials>,
    send: (string, Credentials) -> Option<LineReply>,
    raised: map<Stage, string>)

  function ServicesOf(env: Env): Services
    requires Valid(env.today)
  {
    Services(
      FetchAwsBillingInfo(env.today, env.metric, env.costExplorer),
      FormatBillingMessage,
      LineTokens(env.table),
      (message, tokens) => SendLineNotification(message, tokens, env.line),
      env.raised)
  }

  datatype Phase =
    | Start
    | Billed(info: BillingInfo)
    | Formatted(message: string)
    | Tokened(message: string, tokens: Credentials)
    | Sent
    | Failed(stage: Stage, body: string)
  {
    predicate Terminal() {
      Sent? || Failed?
    }
  }

  /** A phase together with the stages entered so far, in order. */
  datatype Run = Run(phase: Phase, entered: seq<Stage>)

  datatype Response = Response(statusCode: int, body: string)

  /** Enter `stage`: an escaping exception turns into its own failure,
      otherwise the stage's outcome stands. */
  function Enter(svc: Services, run: Run, stage: Stage, outcome: Option<Phase>): Run {
    var phase :=
      if stage in svc.raised then Failed(stage, "Error: " + svc.raised[stage])
      else if outcome.None? then Failed(stage, FailureBody(stage))
      else outcome.value;
    Run(phase, run.entered + [stage])
  }

  /** One transition: the next stage after the current phase is entered;
      terminal phases stay put. */
  function Step(svc: Services, run: Run): Run {
    match run.phase
    case Start =>
      Enter(svc, run, Billing,
        if svc.billing.Some? then Some(Billed(svc.billing.value)) else None)
    case Billed(info) =>
      var message := svc.format(info);
      Enter(svc, run, Formatting,
        if message.Some? then Some(Formatted(message.value)) else None)
    case Formatted(message) =>
      Enter(svc, run, Tokens,
        if svc.tokens.Some? then Some(Tokened(message, svc.tokens.value)) else None)
    case Tokened(message, tokens) =>
      Enter(svc, run, Sending,
        if svc.send(message, tokens).Some? then Some(Sent) else None)
    case Sent => run
    case Failed(_, _) => run
  }

  function Drive(svc: Services, run: Run, steps: nat): Run
    decreases steps
  {
    if steps == 0 then run else Drive(svc, Step(svc, run), steps - 1)
  }

  /** The whole invocation: four steps from `Start`, one per stage. */
  function Pipeline(svc: Services): Run {
    Drive(svc, Run(Start, []), |Stages|)
  }

  function Respond(phase: Phase): Response {
    match phase
    case Failed(_, body) => Response(500, body)
    case _ => Response(200, SuccessBody)
  }

  /** The reply to a run of the stages: 200 with the success text once
      the message is sent, otherwise 500 with the failing stage's body. */
  function HandlerReply(svc: Services): (r: Response)
    ensures r.statusCode == 200 || r.statusCode == 500
    ensures r.statusCode == 200 <==> Pipeline(svc).phase == Sent
    ensures r.statusCode == 200 ==> r.body == SuccessBody
    ensures r.statusCode == 500 ==> Pipeline(svc).phase.Failed? && r.body == Pipeline(svc).phase.body
  {
    PipelineKeeps(svc);
    Respond(Pipeline(svc).phase)
  }

  /** `lambda_handler` itself: the stages of this program, run and
      answered. It reports success exactly when every stage does, and it
      answers as the straight-line handler does. */
  function LambdaHandler(env: Env): (r: Response)
    requires Valid(env.today)
    ensures r.statusCode == 200 <==> AllStagesSucceed(ServicesOf(env))
    ensures r == HandlerScript(ServicesOf(env))
  {
    SucceedsIffAllStagesSucceed(ServicesOf(env));
    PipelineMatchesScript(ServicesOf(env));
    HandlerReply(ServicesOf(env))
  }

  /** With this program's stages: on 0001-01-01 there is no window, so the
      billing stage yields nothing and the reply is the billing failure;
      and a reply of 200 means Cost Explorer answered with a record, the
      record formats, and both settings items exist. */
  lemma LambdaHandlerStages(env: Env)
    requires Valid(env.today)
    ensures env.today == Date(MinYear, 1, 1) && Billing !in env.raised ==>
            LambdaHandler(env) == Response(500, "Failed to get billing information")
    ensures LambdaHandler(env).statusCode == 200 ==>
            var info := FetchAwsBillingInfo(env.today, env.metric, env.costExplorer);
            && info.Some?
            && FormatBillingMessage(info.value).Some?
            && LineTokens(env.table).Some?
  {
    var svc := ServicesOf(env);
    if env.today == Date(MinYear, 1, 1) && Billing !in env.raised {
      assert svc.billing.None?;
      BillingFailureStopsPipeline(svc);
    }
  }

  /** The four stages one after the other, each yielding a value, with no
      exception escaping anywhere. */
  predicate AllStagesSucceed(svc: Services) {
    && svc.raised == map[]
    && svc.billing.Some?
    && svc.format(svc.billing.value).Some?
    && svc.tokens.Some?
    && svc.send(svc.format(svc.billing.value).value, svc.tokens.value).Some?
  }

  // ---------------------------------------------------------------------
  // Invariants of a run.

  /** How many stages a phase accounts for. */
  function Rank(phase: Phase): nat {
    match phase
    case Start => 0
    case Billed(_) => 1
    case Formatted(_) => 2
    case Tokened(_, _) => 3
    case Sent => 4
    case Failed(s, _) => StageIndex(s) + 1
  }

  /** The stages entered are the first ones of the fixed order, as many as
      the phase accounts for; a failed run has entered its failing stage
      last. */
  predicate OrderKept(run: Run) {
    Rank(run.phase) <= |Stages| && run.entered == Stages[..Rank(run.phase)]
  }

  /** A failure's body is its stage's message or the escaped exception's. */
  predicate BodyKept(svc: Services, run: Run) {
    run.phase.Failed? ==>
      || run.phase.body == FailureBody(run.phase.stage)
      || (run.phase.stage in svc.raised && run.phase.body == "Error: " + svc.raised[run.phase.stage])
  }

  /** No stage entered so far raised without the run having failed there. */
  predicate RaisesKept(svc: Services, run: Run) {
    forall i :: 0 <= i < |run.entered| && run.entered[i] in svc.raised ==>
      run.phase == Failed(run.entered[i], "Error: " + svc.raised[run.entered[i]])
  }

  predicate Kept(svc: Services, run: Run) {
    OrderKept(run) && BodyKept(svc, run) && RaisesKept(svc, run)
  }

  lemma StepKeeps(svc: Services, run: Run)
    requires Kept(svc, run)
    ensures Kept(svc, Step(svc, run))
    ensures run.phase.Terminal() ==> Step(svc, run) == run
    ensures !run.phase.Terminal() ==> |Step(svc, run).entered| == |run.entered| + 1
  {
    if !run.phase.Terminal() {
      var next := Step(svc, run);
      var stage := Stages[Rank(run.phase)];
      assert next.entered == run.entered + [stage];
      assert Stages[..Rank(run.phase) + 1] == Stages[..Rank(run.phase)] + [stage];
      assert RaisesKept(svc, next) by {
        forall i | 0 <= i < |next.entered| && next.entered[i] in svc.raised
          ensures next.phase == Failed(next.entered[i], "Error: " + svc.raised[next.entered[i]])
        {
          if i < |run.entered| {
            assert false;
          }
        }
      }
    }
  }

  /** Driving keeps the invariants; each step either has ended the run or
      entered one more stage. */
  lemma {:induction false} DriveKeeps(svc: Services, run: Run, steps: nat)
    requires Kept(svc, run)
    ensures Kept(svc, Drive(svc, run, steps))
    ensures run.phase.Terminal() ==> Drive(svc, run, steps) == run
    ensures Drive(svc, run, steps).phase.Terminal()
            || |Drive(svc, run, steps).entered| == |run.entered| + steps
    decreases steps
  {
    if steps > 0 {
      StepKeeps(svc, run);
      DriveKeeps(svc, Step(svc, run), steps - 1);
    }
  }

  /** Four steps always reach a terminal phase, with the invariants kept. */
  lemma PipelineKeeps(svc: Services)
    ensures Kept(svc, Pipeline(svc))
    ensures Pipeline(svc).phase.Terminal()
  {
    DriveKeeps(svc, Run(Start, []), |Stages|);
  }

  /** The run of a pipeline, one step at a time. */
  lemma PipelineUnrolled(svc: Services)
    ensures var r1 := Step(svc, Run(Start, []));
            var r2 := Step(svc, r1);
            var r3 := Step(svc, r2);
            Pipeline(svc) == Step(svc, r3)
  {
    var r0 := Run(Start, []);
    var r1 := Step(svc, r0);
    var r2 := Step(svc, r1);
    var r3 := Step(svc, r2);
    var r4 := Step(svc, r3);
    calc {
      Pipeline(svc);
      Drive(svc, r0, 4);
      Drive(svc, r1, 3);
      Drive(svc, r2, 2);
      Drive(svc, r3, 1);
      Drive(svc, r4, 0);
    }
  }

  /** Success (status 200) exactly when every stage succeeds, and then all
      four stages were entered in order. */
  lemma SucceedsIffAllStagesSucceed(svc: Services)
    ensures HandlerReply(svc).statusCode == 200 <==> AllStagesSucceed(svc)
    ensures HandlerReply(svc).statusCode == 200 ==> Pipeline(svc).entered == Stages
  {
    PipelineKeeps(svc);
    PipelineUnrolled(svc);
    var r1 := Step(svc, Run(Start, []));
    var r2 := Step(svc, r1);
    var r3 := Step(svc, r2);
    var r4 := Step(svc, r3);
    if r4.phase == Sent {
      assert r3.phase.Tokened?;
      assert r2.phase.Formatted?;
      assert r1.phase.Billed?;
      forall st: Stage ensures st !in svc.raised {
        assert r4.entered[StageIndex(st)] == st;
      }
      assert svc.raised == map[];
    }
  }

  /** Short circuit: the stages entered are always an initial run of the
      fixed order, and a failing stage is the last one entered; its body is
      that stage's message, or "Error: " and the text of the exception that
      escaped there. */
  lemma ShortCircuit(svc: Services)
    ensures var run := Pipeline(svc);
            && 1 <= |run.entered| <= |Stages|
            && run.entered == Stages[..|run.entered|]
    ensures var run := Pipeline(svc);
            run.phase.Failed? ==>
              && run.entered == Stages[..StageIndex(run.phase.stage) + 1]
              && (|| run.phase.body == FailureBody(run.phase.stage)
                  || (run.phase.stage in svc.raised
                      && run.phase.body == "Error: " + svc.raised[run.phase.stage]))
  {
    PipelineKeeps(svc);
  }

  /** When the billing stage yields nothing, no later stage is entered and
      the reply is 500 with the billing message. */
  lemma BillingFailureStopsPipeline(svc: Services)
    requires Billing !in svc.raised && svc.billing.None?
    ensures Pipeline(svc).entered == [Billing]
    ensures HandlerReply(svc) == Response(500, "Failed to get billing information")
  {
    PipelineUnrolled(svc);
    var r1 := Step(svc, Run(Start, []));
    assert r1 == Run(Failed(Billing, FailureBody(Billing)), [Billing]);
  }

  /** An exception escaping at a stage the run reaches decides the reply:
      500 with "Error: " and its text, and nothing after that stage runs. */
  lemma ExceptionStopsPipeline(svc: Services, s: Stage)
    requires s in svc.raised && s in Pipeline(svc).entered
    ensures Pipeline(svc).phase == Failed(s, "Error: " + svc.raised[s])
    ensures Pipeline(svc).entered == Stages[..StageIndex(s) + 1]
    ensures HandlerReply(svc) == Response(500, "Error: " + svc.raised[s])
  {
    PipelineKeeps(svc);
    var run := Pipeline(svc);
    var i :| 0 <= i < |run.entered| && run.entered[i] == s;
  }

  /** The handler as `lambda_handler` is written: each stage's result checked in
      turn, returning at the first exception or empty result. */
  function HandlerScript(svc: Services): Response {
    if Billing in svc.raised then Response(500, "Error: " + svc.raised[Billing])
    else if svc.billing.None? then Response(500, FailureBody(Billing))
    else
      var message := svc.format(svc.billing.value);
      if Formatting in svc.raised then Response(500, "Error: " + svc.raised[Formatting])
      else if message.None? then Response(500, FailureBody(Formatting))
      else if Tokens in svc.raised then Response(500, "Error: " + svc.raised[Tokens])
      else if svc.tokens.None? then Response(500, FailureBody(Tokens))
      else if Sending in svc.raised then Response(500, "Error: " + svc.raised[Sending])
      else if svc.send(message.value, svc.tokens.value).None? then Response(500, FailureBody(Sending))
      else Response(200, SuccessBody)
  }

  /** The state machine answers exactly as the straight-line handler does,
      on every combination of stage outcomes and exceptions. */
  lemma PipelineMatchesScript(svc: Services)
    ensures HandlerReply(svc) == HandlerScript(svc)
  {
    PipelineUnrolled(svc);
  }
}
