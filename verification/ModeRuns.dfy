/** What every sequence of mode switches and stops keeps, whatever fails in between. */
module ModeRuns {
  import opened Foundation
  import opened ModePlanning
  import opened ModeManager

  datatype Op = SwitchTo(mode: WorkMode, outcomes: Outcomes) | Stop

  function Step(m: Manager, op: Op): Manager {
    match op
    case SwitchTo(mode, o) => SwitchStep(m, mode, o).1
    case Stop => ManagerStopStep(m)
  }

  function Run(m: Manager, ops: seq<Op>): Manager {
    if ops == [] then m else Step(Run(m, ops[..|ops| - 1]), ops[|ops| - 1])
  }

  /** The result of the last operation after the others, if it was a switch. */
  function LastResult(m: Manager, ops: seq<Op>): Option<Result<Unit>>
    requires ops != []
  {
    match ops[|ops| - 1]
    case SwitchTo(mode, o) => Some(SwitchStep(Run(m, ops[..|ops| - 1]), mode, o).0)
    case Stop => None
  }

  /** The modes whose switch succeeded, in order. */
  function Succeeded(m: Manager, ops: seq<Op>): seq<WorkMode> {
    if ops == [] then []
    else
      var r := LastResult(m, ops);
      Succeeded(m, ops[..|ops| - 1]) + if r.Some? && r.value.Ok? then [ops[|ops| - 1].mode] else []
  }

  /** The errors of the switches that failed, in order. */
  function Errors(m: Manager, ops: seq<Op>): seq<ErrorCode> {
    if ops == [] then []
    else
      var r := LastResult(m, ops);
      Errors(m, ops[..|ops| - 1]) + if r.Some? && r.value.Err? then [r.value.code] else []
  }

  /** A manager right after init, around any fusion engine. */
  function Started(config: ModeConfig, context: Context, engine: Engine): Manager {
    Manager(true, false, Unknown, Unknown, Idle, 0, 0, None, Some(config), Executor(true, context, engine, None, []))
  }

  function FromEnd(modes: seq<WorkMode>, back: nat): WorkMode {
    if |modes| > back then modes[|modes| - 1 - back] else Unknown
  }

  /** Modes and counters are the history of outcomes, and nobody ever finds a switch in progress. */
  predicate Recorded(m: Manager, succeeded: seq<WorkMode>, errors: seq<ErrorCode>) {
    && m.initialized && !m.switching && m.executor.initialized
    && m.currentMode == FromEnd(succeeded, 0) && m.previousMode == FromEnd(succeeded, 1)
    && m.switchCount == |succeeded| && m.errorCount == |errors|
    && (m.lastError.Some? ==> errors != [] && m.lastError == Some(errors[|errors| - 1]))
  }

  lemma StepRecorded(m: Manager, op: Op, succeeded: seq<WorkMode>, errors: seq<ErrorCode>)
    requires Recorded(m, succeeded, errors)
    ensures op.Stop? ==> Recorded(Step(m, op), succeeded, errors)
    ensures op.SwitchTo? ==>
              var r := SwitchStep(m, op.mode, op.outcomes).0;
              if r.Ok? then Recorded(Step(m, op), succeeded + [op.mode], errors)
              else Recorded(Step(m, op), succeeded, errors + [r.code])
  {
    hide BuildPlan, ExecuteStep, StopStep;
    if op.Stop? {
      StopKeepsContext(m.executor);
    } else {
      var plan := BuildPlan(m.planner, op.mode);
      if plan.Ok? {
        ExecuteKeepsContext(m.executor, plan.value, op.outcomes);
        var (r, e) := ExecuteStep(m.executor, plan.value, op.outcomes);
        if r.Ok? {
          DoneRecorded(m.(executor := e), op.mode, succeeded, errors);
        } else {
          ErrorRecorded(m.(executor := e), r.code, succeeded, errors);
        }
        hide Recorded;
      } else {
        ErrorRecorded(m, plan.code, succeeded, errors);
        hide Recorded;
      }
    }
  }

  lemma DoneRecorded(m: Manager, mode: WorkMode, succeeded: seq<WorkMode>, errors: seq<ErrorCode>)
    requires Recorded(m, succeeded, errors)
    ensures Recorded(MarkDone(m, mode), succeeded + [mode], errors)
  {
  }

  lemma ErrorRecorded(m: Manager, code: ErrorCode, succeeded: seq<WorkMode>, errors: seq<ErrorCode>)
    requires Recorded(m, succeeded, errors)
    ensures Recorded(MarkError(m, code), succeeded, errors + [code])
  {
  }

  lemma {:induction false} RunRecorded(config: ModeConfig, context: Context, engine: Engine, ops: seq<Op>)
    ensures var m := Started(config, context, engine);
            Recorded(Run(m, ops), Succeeded(m, ops), Errors(m, ops))
  {
    if ops != [] {
      var m, front := Started(config, context, engine), ops[..|ops| - 1];
      RunRecorded(config, context, engine, front);
      hide Recorded, Step, SwitchStep;
      StepRecorded(Run(m, front), ops[|ops| - 1], Succeeded(m, front), Errors(m, front));
      assert Succeeded(m, front) + [] == Succeeded(m, front) && Errors(m, front) + [] == Errors(m, front);
    }
  }

  lemma StopKeepsContext(e: Executor)
    ensures StopStep(e).initialized == e.initialized && StopStep(e).context == e.context
  {
  }

  lemma ExecuteKeepsContext(e: Executor, plan: Plan, o: Outcomes)
    ensures var e' := ExecuteStep(e, plan, o).1; e'.initialized == e.initialized && e'.context == e.context
  {
    hide RegisterDefaultsStep, SetModeStep, ValidateContext;
  }

  // ---------------------------------------------------------------- the running pipeline belongs to the current mode

  predicate EngineSetFor(e: Engine, mode: WorkMode) {
    IsFusionMode(mode) ==> e.initialized && e.currentMode == FusionModeFor(mode) && e.currentMode in e.algorithms
  }

  /** A pipeline that exists was built from the plan of the current mode, and for a fusion mode the engine is set to
      that mode's algorithm. */
  predicate PipelineMatches(m: Manager) {
    m.executor.pipeline.Some? ==>
      && BuildPlan(m.planner, m.currentMode).Ok?
      && m.executor.pipeline.value == BuildPlan(m.planner, m.currentMode).value
      && EngineSetFor(m.executor.engine, m.currentMode)
  }

  /** After an executed plan there is a pipeline exactly if it succeeded, and then it is the plan's; a plan refused
      at once leaves everything as it was. */
  lemma ExecuteOutcome(e: Executor, plan: Plan, o: Outcomes)
    requires plan.requireFusion == IsFusionMode(plan.targetMode) && plan.fusionMode == FusionModeFor(plan.targetMode)
    ensures var (r, e') := ExecuteStep(e, plan, o);
            && ((e' == e && r.Err?) || e'.pipeline == if r.Ok? then Some(plan) else None)
            && (r.Ok? ==> EngineSetFor(e'.engine, plan.targetMode))
  {
    hide RegisterDefaultsStep, ValidateContext, BuildPlan;
  }

  lemma StepKeepsMatch(m: Manager, op: Op)
    requires PipelineMatches(m)
    ensures PipelineMatches(Step(m, op)) && Step(m, op).planner == m.planner
  {
    if op.SwitchTo? {
      var plan := BuildPlan(m.planner, op.mode);
      if plan.Ok? {
        PlanSound(m.planner, op.mode);
        assert plan.value.fusionMode == FusionModeFor(op.mode) && plan.value.requireFusion == IsFusionMode(op.mode);
        ExecuteOutcome(m.executor, plan.value, op.outcomes);
      }
      hide BuildPlan, ExecuteStep, EngineSetFor;
    }
  }

  lemma {:induction false} RunKeepsMatch(config: ModeConfig, context: Context, engine: Engine, ops: seq<Op>)
    ensures PipelineMatches(Run(Started(config, context, engine), ops))
  {
    if ops != [] {
      RunKeepsMatch(config, context, engine, ops[..|ops| - 1]);
      StepKeepsMatch(Run(Started(config, context, engine), ops[..|ops| - 1]), ops[|ops| - 1]);
      hide PipelineMatches, Step;
    }
  }

  // ---------------------------------------------------------------- the order of commands

  /** What is known to have happened since the last stop. */
  datatype Phase = Down | Opened | Built | Up

  /** Nothing but a stop may follow a running pipeline; a pipeline starts only right after it was built, and is built
      only right after the cameras were opened. None marks a violation. */
  function Next(phase: Phase, command: Command): Option<Phase> {
    match command
    case StopPipeline => if phase == Up then Some(Down) else None
    case PrepareFusion => if phase == Up then None else Some(Down)
    case SetFusion(_) => if phase == Up then None else Some(Down)
    case SwitchSensor(_) => if phase == Up then None else Some(Down)
    case WaitStable(_) => if phase == Up then None else Some(Down)
    case OpenCameras => if phase == Up then None else Some(Opened)
    case BuildPipeline(_) => if phase == Opened then Some(Built) else None
    case StartPipeline(running) => if phase == Built then Some(if running then Up else Down) else None
  }

  function Track(commands: seq<Command>): Option<Phase> {
    if commands == [] then Some(Down)
    else
      var before := Track(commands[..|commands| - 1]);
      if before.None? then None else Next(before.value, commands[|commands| - 1])
  }

  /** The commands were in order so far, and a pipeline exists exactly while one runs. */
  predicate Ordered(e: Executor) {
    Track(e.commands).Some? && (Track(e.commands).value == Up <==> e.pipeline.Some?)
  }

  lemma TrackSend(e: Executor, command: Command)
    requires Track(e.commands).Some?
    ensures Track(Send(e, command).commands) == Next(Track(e.commands).value, command)
  {
    assert (e.commands + [command])[..|e.commands|] == e.commands;
  }

  lemma StopOrdered(e: Executor)
    requires Ordered(e)
    ensures Ordered(StopStep(e)) && StopStep(e).pipeline.None?
  {
    if e.pipeline.Some? { TrackSend(e, StopPipeline); }
  }

  /** While nothing runs, commands to the fusion engine and the sensor are in order. */
  lemma QuietOrdered(e: Executor, command: Command)
    requires Ordered(e) && e.pipeline.None?
    requires command.PrepareFusion? || command.SetFusion? || command.SwitchSensor? || command.WaitStable?
    ensures Ordered(Send(e, command)) && Send(e, command).pipeline.None?
  {
    TrackSend(e, command);
    hide Track;
  }

  lemma EngineDoesNotMatter(e: Executor, engine: Engine)
    ensures Ordered(e.(engine := engine)) == Ordered(e)
  {
  }

  lemma PrepareOrdered(e: Executor, plan: Plan, o: Outcomes)
    requires Ordered(e) && e.pipeline.None?
    ensures var e' := PrepareFusionStep(e, plan, o).1; Ordered(e') && e'.pipeline.None?
  {
    hide Ordered, RegisterDefaultsStep, SetModeStep;
    var e1 := e;
    if plan.requireFusion && !e.engine.initialized {
      var (r, engine) := RegisterDefaultsStep(e.engine.(initialized := true), o);
      QuietOrdered(e, PrepareFusion);
      EngineDoesNotMatter(Send(e, PrepareFusion), engine);
      e1 := Send(e, PrepareFusion).(engine := engine);
    }
    QuietOrdered(e1, SetFusion(plan.fusionMode));
    EngineDoesNotMatter(Send(e1, SetFusion(plan.fusionMode)), SetModeStep(e1.engine, plan.fusionMode).1);
  }

  lemma SensorOrdered(e: Executor, plan: Plan, o: Outcomes)
    requires Ordered(e) && e.pipeline.None?
    ensures var e' := SwitchSensorStep(e, plan, o).1; Ordered(e') && e'.pipeline.None?
  {
    QuietOrdered(e, SwitchSensor(plan.compositeOutput));
    QuietOrdered(Send(e, SwitchSensor(plan.compositeOutput)), WaitStable(plan.stableWaitMs));
    hide Ordered;
  }

  lemma OpenTracked(e: Executor)
    requires Ordered(e) && e.pipeline.None?
    ensures Track(Send(e, OpenCameras).commands) == Some(Opened)
  {
    TrackSend(e, OpenCameras);
    hide Track;
  }

  lemma BuildTracked(e: Executor, config: PipelineConfig)
    requires Track(e.commands) == Some(Opened)
    ensures Track(Send(e, BuildPipeline(config)).commands) == Some(Built)
  {
    TrackSend(e, BuildPipeline(config));
    hide Track;
  }

  lemma StartTracked(e: Executor, running: bool)
    requires Track(e.commands) == Some(Built)
    ensures Track(Send(e, StartPipeline(running)).commands) == Some(if running then Up else Down)
  {
    TrackSend(e, StartPipeline(running));
    hide Track;
  }

  lemma StartOrdered(e: Executor, plan: Plan, o: Outcomes)
    requires Ordered(e) && e.pipeline.None?
    ensures Ordered(StartPipelineStep(e, plan, o).1)
  {
    hide Track;
    var e1 := Send(e, OpenCameras);
    var e2 := Send(e1, BuildPipeline(plan.pipeline));
    OpenTracked(e);
    BuildTracked(e1, plan.pipeline);
    StartTracked(e2, true);
    StartTracked(e2, false);
    assert e1.pipeline.None? && e2.pipeline.None?;
  }

  lemma ExecuteOrdered(e: Executor, plan: Plan, o: Outcomes)
    requires Ordered(e)
    ensures Ordered(ExecuteStep(e, plan, o).1)
  {
    StopOrdered(e);
    var e1 := PrepareFusionStep(StopStep(e), plan, o).1;
    PrepareOrdered(StopStep(e), plan, o);
    SensorOrdered(e1, plan, o);
    StartOrdered(SwitchSensorStep(e1, plan, o).1, plan, o);
    hide Ordered, StopStep, PrepareFusionStep, SwitchSensorStep, StartPipelineStep, ValidateContext;
  }

  /** In every run the old pipeline is stopped before the sensor or the fusion engine is touched and before the new
      one starts, and never do two pipelines run. */
  lemma {:induction false} RunOrdered(config: ModeConfig, context: Context, engine: Engine, ops: seq<Op>)
    ensures Ordered(Run(Started(config, context, engine), ops).executor)
  {
    if ops != [] {
      var before := Run(Started(config, context, engine), ops[..|ops| - 1]);
      RunOrdered(config, context, engine, ops[..|ops| - 1]);
      StopOrdered(before.executor);
      match ops[|ops| - 1] {
        case Stop =>
        case SwitchTo(mode, o) =>
          var plan := BuildPlan(before.planner, mode);
          if plan.Ok? { ExecuteOrdered(before.executor, plan.value, o); }
      }
      hide Ordered, ExecuteStep, StopStep, BuildPlan;
    }
  }

  function StopCommands(e: Executor): seq<Command> { if e.pipeline.Some? then [StopPipeline] else [] }

  function FusionCommands(e: Executor, plan: Plan): seq<Command> {
    (if plan.requireFusion && !e.engine.initialized then [PrepareFusion] else [])
    + (if plan.requireFusion then [SetFusion(plan.fusionMode)] else [])
  }

  function SensorCommandsOf(plan: Plan, o: Outcomes): seq<Command> {
    if plan.requireSensorSwitch && !o.skipSensor
    then [SwitchSensor(plan.compositeOutput), WaitStable(plan.stableWaitMs)]
    else []
  }

  function StartCommands(plan: Plan): seq<Command> {
    [OpenCameras, BuildPipeline(plan.pipeline), StartPipeline(true)]
  }

  lemma FusionPrepared(e: Executor, plan: Plan, o: Outcomes)
    requires PrepareFusionStep(e, plan, o).0.Ok?
    ensures PrepareFusionStep(e, plan, o).1.commands == e.commands + FusionCommands(e, plan)
  {
    hide RegisterDefaultsStep, SetModeStep;
  }

  lemma SensorSwitched(e: Executor, plan: Plan, o: Outcomes)
    requires SwitchSensorStep(e, plan, o).0.Ok?
    ensures SwitchSensorStep(e, plan, o).1.commands == e.commands + SensorCommandsOf(plan, o)
  {
  }

  lemma PipelineStarted(e: Executor, plan: Plan, o: Outcomes)
    requires StartPipelineStep(e, plan, o).0.Ok?
    ensures StartPipelineStep(e, plan, o).1.commands == e.commands + StartCommands(plan)
  {
  }

  /** The commands of a successful switch are exactly these, in this order, with the settings of its plan. */
  lemma SuccessfulSwitchCommands(m: Manager, mode: WorkMode, o: Outcomes)
    requires SwitchStep(m, mode, o).0.Ok?
    ensures var plan, e := BuildPlan(m.planner, mode).value, m.executor;
            SwitchStep(m, mode, o).1.executor.commands ==
            e.commands + StopCommands(e) + FusionCommands(e, plan) + SensorCommandsOf(plan, o) + StartCommands(plan)
  {
    var plan, e := BuildPlan(m.planner, mode).value, m.executor;
    var e0 := StopStep(e);
    var e1 := PrepareFusionStep(e0, plan, o).1;
    var e2 := SwitchSensorStep(e1, plan, o).1;
    assert e0.commands == e.commands + StopCommands(e) && e0.engine == e.engine;
    hide BuildPlan, PrepareFusionStep, SwitchSensorStep, StartPipelineStep, ValidateContext, StopCommands,
      SensorCommandsOf, StartCommands, StopStep;
    FusionPrepared(e0, plan, o);
    SensorSwitched(e1, plan, o);
    PipelineStarted(e2, plan, o);
  }

  // ---------------------------------------------------------------- the sensor was set for the running pipeline

  predicate EndsWith(all: seq<Command>, end: seq<Command>) {
    |end| <= |all| && all[|all| - |end|..] == end
  }

  /** The last switch that succeeded. */
  function LastSwitch(m: Manager, ops: seq<Op>): Option<Op> {
    if ops == [] then None
    else
      var r := LastResult(m, ops);
      if r.Some? && r.value.Ok? then Some(ops[|ops| - 1]) else LastSwitch(m, ops[..|ops| - 1])
  }

  /** While a pipeline exists, it is that of the last successful switch, and nothing was sent out since that switch
      set the sensor to the output of the pipeline's plan (unless told to leave it alone) and started it. */
  predicate SensorMatches(m: Manager, last: Option<Op>) {
    m.executor.pipeline.Some? ==>
      && last.Some? && last.value.SwitchTo? && last.value.mode == m.currentMode
      && var plan := m.executor.pipeline.value;
         plan.targetMode == m.currentMode
         && EndsWith(m.executor.commands, SensorCommandsOf(plan, last.value.outcomes) + StartCommands(plan))
  }

  lemma EndOfFour(a: seq<Command>, b: seq<Command>, c: seq<Command>, d: seq<Command>, e: seq<Command>)
    ensures EndsWith(a + b + c + d + e, d + e)
  {
  }

  lemma SwitchSetsSensor(m: Manager, mode: WorkMode, o: Outcomes)
    requires SwitchStep(m, mode, o).0.Ok?
    ensures SensorMatches(SwitchStep(m, mode, o).1, Some(SwitchTo(mode, o)))
  {
    var plan, e := BuildPlan(m.planner, mode).value, m.executor;
    SuccessfulSwitchCommands(m, mode, o);
    EndOfFour(e.commands, StopCommands(e), FusionCommands(e, plan), SensorCommandsOf(plan, o), StartCommands(plan));
    PlanSound(m.planner, mode);
    assert plan.requireFusion == IsFusionMode(mode) && plan.fusionMode == FusionModeFor(mode);
    ExecuteOutcome(e, plan, o);
    hide BuildPlan, ExecuteStep, EndsWith, StopCommands, FusionCommands, SensorCommandsOf, StartCommands;
  }

  lemma FailureKeepsSensor(m: Manager, mode: WorkMode, o: Outcomes, last: Option<Op>)
    requires SensorMatches(m, last) && SwitchStep(m, mode, o).0.Err?
    ensures SensorMatches(SwitchStep(m, mode, o).1, last)
  {
    var plan := BuildPlan(m.planner, mode);
    if m.initialized && !m.switching && plan.Ok? {
      ExecuteFailure(m.executor, plan.value, o);
    }
    hide BuildPlan, ExecuteStep, EndsWith;
  }

  lemma ExecuteFailure(e: Executor, plan: Plan, o: Outcomes)
    requires ExecuteStep(e, plan, o).0.Err?
    ensures ExecuteStep(e, plan, o).1 == e || ExecuteStep(e, plan, o).1.pipeline.None?
  {
    hide RegisterDefaultsStep, SetModeStep, ValidateContext;
  }

  lemma {:induction false} RunSetsSensor(config: ModeConfig, context: Context, engine: Engine, ops: seq<Op>)
    ensures var m := Started(config, context, engine); SensorMatches(Run(m, ops), LastSwitch(m, ops))
  {
    if ops != [] {
      var m, front := Started(config, context, engine), ops[..|ops| - 1];
      RunSetsSensor(config, context, engine, front);
      match ops[|ops| - 1] {
        case Stop =>
        case SwitchTo(mode, o) =>
          if SwitchStep(Run(m, front), mode, o).0.Ok? {
            SwitchSetsSensor(Run(m, front), mode, o);
          } else {
            FailureKeepsSensor(Run(m, front), mode, o, LastSwitch(m, front));
          }
      }
      hide SwitchStep;
    }
  }

  // ---------------------------------------------------------------- an initialised engine is never completed

  /** The engine is initialised but lacks an algorithm. The executor registers the algorithms only right after it has
      initialised the engine itself, so this is what it finds when somebody else did that. */
  predicate Lacks(m: Manager, fusion: FusionMode) {
    m.executor.engine.initialized && fusion !in m.executor.engine.algorithms
  }

  lemma StepKeepsLack(m: Manager, op: Op, fusion: FusionMode)
    requires Lacks(m, fusion)
    ensures Lacks(Step(m, op), fusion)
  {
    hide BuildPlan, ValidateContext, RegisterDefaultsStep;
  }

  lemma LackFails(m: Manager, mode: WorkMode, o: Outcomes)
    requires IsFusionMode(mode) && Lacks(m, FusionModeFor(mode))
    ensures SwitchStep(m, mode, o).0.Err?
  {
    hide ValidateContext, RegisterDefaultsStep, StartPipelineStep, SwitchSensorStep;
  }

  /** A missing algorithm is missing for good, and every later switch to its mode fails, whatever the outcomes. */
  lemma {:induction false} LackIsPermanent(m: Manager, ops: seq<Op>, mode: WorkMode, o: Outcomes)
    requires IsFusionMode(mode) && Lacks(m, FusionModeFor(mode))
    ensures Lacks(Run(m, ops), FusionModeFor(mode))
    ensures SwitchStep(Run(m, ops), mode, o).0.Err?
  {
    hide Lacks, Step, SwitchStep;
    if ops != [] {
      LackIsPermanent(m, ops[..|ops| - 1], mode, o);
      StepKeepsLack(Run(m, ops[..|ops| - 1]), ops[|ops| - 1], FusionModeFor(mode));
    }
    LackFails(Run(m, ops), mode, o);
  }

  // ---------------------------------------------------------------- what a switch comes to

  /** One outside call: the commands it sends and what it returns. */
  datatype Call = Call(commands: seq<Command>, outcome: Outcome)

  /** The calls a plan needs for the fusion engine: a fresh one is prepared with its three algorithms, one that was
      initialised before must already have the plan's. */
  function FusionCalls(engine: Engine, plan: Plan, o: Outcomes): seq<Call> {
    if !plan.requireFusion then []
    else if !engine.initialized then
      [Call([PrepareFusion], o.registerLowlight), Call([], o.registerThermal), Call([], o.registerComposite),
       Call([SetFusion(plan.fusionMode)], None)]
    else
      [Call([SetFusion(plan.fusionMode)], if plan.fusionMode in engine.algorithms then None else Some(Unsupported))]
  }

  function SensorCalls(plan: Plan, o: Outcomes): seq<Call> {
    if !plan.requireSensorSwitch || o.skipSensor then []
    else [Call([SwitchSensor(plan.compositeOutput)], o.setOutput), Call([WaitStable(plan.stableWaitMs)], o.waitStable)]
  }

  function StartCalls(plan: Plan, o: Outcomes): seq<Call> {
    [Call([OpenCameras], o.openCameras), Call([BuildPipeline(plan.pipeline)], o.buildPipeline),
     Call([StartPipeline(o.startPipeline.None?)], o.startPipeline)]
  }

  /** All calls of a switch, in order: fusion engine, sensor, pipeline. */
  function CallsOf(engine: Engine, plan: Plan, o: Outcomes): seq<Call> {
    FusionCalls(engine, plan, o) + SensorCalls(plan, o) + StartCalls(plan, o)
  }

  /** The error of the first call that fails. */
  function FirstFailure(calls: seq<Call>): Outcome {
    if calls == [] then None else if calls[0].outcome.Some? then calls[0].outcome else FirstFailure(calls[1..])
  }

  /** The commands up to and with the first call that fails. */
  function SentBy(calls: seq<Call>): seq<Command> {
    if calls == [] then []
    else calls[0].commands + if calls[0].outcome.Some? then [] else SentBy(calls[1..])
  }

  lemma {:induction false} CallsAppend(a: seq<Call>, b: seq<Call>)
    ensures FirstFailure(a + b) == if FirstFailure(a).Some? then FirstFailure(a) else FirstFailure(b)
    ensures SentBy(a + b) == SentBy(a) + if FirstFailure(a).Some? then [] else SentBy(b)
  {
    hide FirstFailure, SentBy;
    if a == [] {
      assert a + b == b;
      NoCalls(b);
    } else {
      CallsAppend(a[1..], b);
      assert a + b == [a[0]] + (a[1..] + b);
      CallsStep(a[0], a[1..] + b);
      CallsStep(a[0], a[1..]);
      assert [a[0]] + a[1..] == a;
      AppendAssociates(a[0].commands, SentBy(a[1..]), SentBy(b));
    }
  }

  lemma NoCalls(b: seq<Call>)
    ensures FirstFailure([]).None? && SentBy([]) + SentBy(b) == SentBy(b)
  {
  }

  lemma CallsStep(c: Call, rest: seq<Call>)
    ensures FirstFailure([c] + rest) == if c.outcome.Some? then c.outcome else FirstFailure(rest)
    ensures SentBy([c] + rest) == c.commands + if c.outcome.Some? then [] else SentBy(rest)
  {
    assert ([c] + rest)[1..] == rest;
  }

  lemma AppendAssociates(a: seq<Command>, b: seq<Command>, c: seq<Command>)
    ensures a + (b + c) == a + b + c && a + [] == a
  {
  }

  /** The result and the commands of a step are those of its calls. */
  predicate Made(calls: seq<Call>, e: Executor, r: Result<Unit>, e': Executor) {
    && r == (if FirstFailure(calls).Some? then Err(FirstFailure(calls).value) else Ok(Unit.Unit))
    && e'.commands == e.commands + SentBy(calls)
  }

  /** After calls that all succeeded further ones may be made; after a failure none is. */
  lemma MadeOn(a: seq<Call>, b: seq<Call>, e: Executor, e1: Executor, r: Result<Unit>, e2: Executor)
    requires Made(a, e, Ok(Unit.Unit), e1) && Made(b, e1, r, e2)
    ensures Made(a + b, e, r, e2)
  {
    hide FirstFailure, SentBy;
    CallsAppend(a, b);
    AppendAssociates(e.commands, SentBy(a), SentBy(b));
  }

  lemma MadeNoMore(a: seq<Call>, b: seq<Call>, e: Executor, r: Result<Unit>, e1: Executor)
    requires Made(a, e, r, e1) && r.Err?
    ensures Made(a + b, e, r, e1)
  {
    hide FirstFailure, SentBy;
    CallsAppend(a, b);
    AppendAssociates(e.commands, SentBy(a), []);
  }

  lemma OneCall(c: Call)
    ensures FirstFailure([c]) == c.outcome && SentBy([c]) == c.commands
  {
    assert [c][1..] == [];
  }

  lemma TwoCalls(c: Call, d: Call)
    ensures FirstFailure([c, d]) == if c.outcome.Some? then c.outcome else d.outcome
    ensures SentBy([c, d]) == c.commands + if c.outcome.Some? then [] else d.commands
  {
    OneCall(c);
    OneCall(d);
    CallsAppend([c], [d]);
    hide FirstFailure, SentBy;
    assert [c] + [d] == [c, d];
  }

  lemma ThreeCalls(c: Call, d: Call, e: Call)
    ensures FirstFailure([c, d, e]) ==
            if c.outcome.Some? then c.outcome else if d.outcome.Some? then d.outcome else e.outcome
    ensures SentBy([c, d, e]) ==
            c.commands + if c.outcome.Some? then []
                         else d.commands + if d.outcome.Some? then [] else e.commands
  {
    OneCall(c);
    TwoCalls(d, e);
    CallsAppend([c], [d, e]);
    hide FirstFailure, SentBy;
    assert [c] + [d, e] == [c, d, e];
  }

  lemma DefaultsRegistered(e: Engine, o: Outcomes)
    ensures var (r, e') := RegisterDefaultsStep(e.(initialized := true), o);
            && r == (if o.registerLowlight.Some? then Err(o.registerLowlight.value)
                     else if o.registerThermal.Some? then Err(o.registerThermal.value)
                     else if o.registerComposite.Some? then Err(o.registerComposite.value)
                     else Ok(Unit.Unit))
            && (r.Ok? ==> e'.initialized && e'.algorithms >= {VisibleLowlight, VisibleThermal, VisibleComposite})
  {
  }

  lemma FusionMade(e: Executor, plan: Plan, o: Outcomes)
    requires plan.requireFusion ==> plan.fusionMode != NoFusion
    ensures var (r, e') := PrepareFusionStep(e, plan, o);
            Made(FusionCalls(e.engine, plan, o), e, r, e')
  {
    var calls := FusionCalls(e.engine, plan, o);
    if plan.requireFusion && !e.engine.initialized {
      DefaultsRegistered(e.engine, o);
      ThreeCalls(calls[0], calls[1], calls[2]);
      OneCall(calls[3]);
      CallsAppend(calls[..3], calls[3..]);
      assert calls[..3] == [calls[0], calls[1], calls[2]] && calls[3..] == [calls[3]];
      assert calls == calls[..3] + calls[3..];
      hide RegisterDefaultsStep, FirstFailure, SentBy;
    } else if plan.requireFusion {
      OneCall(calls[0]);
    }
  }

  lemma SensorMade(e: Executor, plan: Plan, o: Outcomes)
    ensures var (r, e') := SwitchSensorStep(e, plan, o);
            Made(SensorCalls(plan, o), e, r, e') && e' == e.(commands := e'.commands)
  {
    var calls := SensorCalls(plan, o);
    if calls != [] { TwoCalls(calls[0], calls[1]); }
  }

  lemma StartMade(e: Executor, plan: Plan, o: Outcomes)
    requires e.pipeline.None?
    ensures var (r, e') := StartPipelineStep(e, plan, o);
            Made(StartCalls(plan, o), e, r, e') && e'.pipeline == if r.Ok? then Some(plan) else None
  {
    var calls := StartCalls(plan, o);
    ThreeCalls(calls[0], calls[1], calls[2]);
  }

  /** Which collaborator a plan misses in the context. */
  predicate Complete(c: Context, plan: Plan) {
    c.cameraManager && c.mainStream && (plan.requireSensorSwitch ==> c.controller)
    && (plan.requireFusion ==> c.fusionEngine)
  }

  lemma ExecuteMade(e: Executor, plan: Plan, o: Outcomes)
    requires e.initialized && Complete(e.context, plan)
    requires plan.requireFusion ==> plan.fusionMode != NoFusion
    ensures var (r, e') := ExecuteStep(e, plan, o);
            && Made([Call(StopCommands(e), None)] + CallsOf(e.engine, plan, o), e, r, e')
            && e'.pipeline == if r.Ok? then Some(plan) else None
  {
    var fusion, sensor, start := FusionCalls(e.engine, plan, o), SensorCalls(plan, o), StartCalls(plan, o);
    var stop := [Call(StopCommands(e), None)];
    var e0 := StopStep(e);
    var (r1, e1) := PrepareFusionStep(e0, plan, o);
    var (r2, e2) := SwitchSensorStep(e1, plan, o);
    var (r3, e3) := StartPipelineStep(e2, plan, o);
    StopMade(e);
    FusionMade(e0, plan, o);
    SensorMade(e1, plan, o);
    StartMade(e2, plan, o);
    hide *;
    AppendsCalls(stop, fusion, sensor, start);
    ExecuteUnfolds(e, plan, o);
    if r1.Err? {
      MadeOn(stop, fusion, e, e0, r1, e1);
      MadeNoMore(stop + fusion, sensor + start, e, r1, e1);
    } else if r2.Err? {
      MadeOn(fusion, sensor, e0, e1, r2, e2);
      MadeOn(stop, fusion + sensor, e, e0, r2, e2);
      MadeNoMore(stop + (fusion + sensor), start, e, r2, e2);
    } else {
      MadeOn(sensor, start, e1, e2, r3, e3);
      MadeOn(fusion, sensor + start, e0, e1, r3, e3);
      MadeOn(stop, fusion + (sensor + start), e, e0, r3, e3);
    }
  }

  lemma AppendsCalls(a: seq<Call>, b: seq<Call>, c: seq<Call>, d: seq<Call>)
    ensures a + b + (c + d) == a + (b + c + d) == a + (b + c) + d == a + (b + (c + d))
  {
  }

  lemma StopMade(e: Executor)
    ensures Made([Call(StopCommands(e), None)], e, Ok(Unit.Unit), StopStep(e))
    ensures StopStep(e).engine == e.engine && StopStep(e).pipeline.None?
  {
    OneCall(Call(StopCommands(e), None));
  }

  lemma OnlyOk(r: Result<Unit>)
    ensures r.Ok? ==> r == Ok(Unit.Unit)
  {
    if r.Ok? { assert r.value == Unit.Unit; }
  }

  /** The stages of an executed plan, one after the other up to the first failure. */
  lemma ExecuteUnfolds(e: Executor, plan: Plan, o: Outcomes)
    requires e.initialized && Complete(e.context, plan)
    ensures var (r1, e1) := PrepareFusionStep(StopStep(e), plan, o);
            var (r2, e2) := SwitchSensorStep(e1, plan, o);
            && ExecuteStep(e, plan, o) ==
               (if r1.Err? then (r1, e1) else if r2.Err? then (r2, e2) else StartPipelineStep(e2, plan, o))
            && CallsOf(e.engine, plan, o) ==
               FusionCalls(e.engine, plan, o) + SensorCalls(plan, o) + StartCalls(plan, o)
            && e1.pipeline.None? && e2.pipeline.None?
            && (r1.Ok? ==> r1 == Ok(Unit.Unit)) && (r2.Ok? ==> r2 == Ok(Unit.Unit))
  {
    var (r1, e1) := PrepareFusionStep(StopStep(e), plan, o);
    OnlyOk(r1);
    OnlyOk(SwitchSensorStep(e1, plan, o).0);
    hide RegisterDefaultsStep, SetModeStep, StartPipelineStep, FusionCalls, SensorCalls, StartCalls;
  }

  /** What a switch comes to, whatever the outside calls return. It succeeds exactly when all the calls its plan needs
      succeed; otherwise it returns the error of the first that fails, and nothing is sent after that. Either way the
      manager records just that. */
  lemma SwitchOutcome(m: Manager, mode: WorkMode, o: Outcomes)
    requires m.initialized && !m.switching && m.executor.initialized
    requires BuildPlan(m.planner, mode).Ok? && Complete(m.executor.context, BuildPlan(m.planner, mode).value)
    ensures var plan, e := BuildPlan(m.planner, mode).value, m.executor;
            var calls := CallsOf(e.engine, plan, o);
            var (r, m') := SwitchStep(m, mode, o);
            && (r.Ok? <==> forall k :: 0 <= k < |calls| ==> calls[k].outcome.None?)
            && (r.Err? ==> FirstFailure(calls) == Some(r.code))
            && m'.executor.commands == e.commands + StopCommands(e) + SentBy(calls)
            && m'.executor.pipeline == (if r.Ok? then Some(plan) else None)
            && m'.stage == (if r.Ok? then Stage.Running else Failed)
            && m'.lastError == (if r.Ok? then None else Some(r.code))
            && m'.currentMode == (if r.Ok? then mode else m.currentMode)
  {
    hide BuildPlan, ExecuteStep, CallsOf, FirstFailure, SentBy, StopCommands, Complete, PipelineFits;
    var plan, e := BuildPlan(m.planner, mode).value, m.executor;
    var calls := CallsOf(e.engine, plan, o);
    PlanSound(m.planner, mode);
    ExecuteMade(e, plan, o);
    OneCall(Call(StopCommands(e), None));
    CallsAppend([Call(StopCommands(e), None)], calls);
    AllSucceed(calls);
  }

  lemma {:induction false} AllSucceed(calls: seq<Call>)
    ensures FirstFailure(calls).None? <==> forall k :: 0 <= k < |calls| ==> calls[k].outcome.None?
  {
    if calls != [] {
      AllSucceed(calls[1..]);
      assert forall k :: 0 < k < |calls| ==> calls[k] == calls[1..][k - 1];
    }
  }

  /** A switch without a plan, or for which a collaborator is missing, is refused before anything is touched. */
  lemma SwitchRefused(m: Manager, mode: WorkMode, o: Outcomes)
    requires m.initialized && !m.switching && m.executor.initialized
    requires BuildPlan(m.planner, mode).Ok? ==> !Complete(m.executor.context, BuildPlan(m.planner, mode).value)
    ensures var (r, m') := SwitchStep(m, mode, o);
            && r == Err(if BuildPlan(m.planner, mode).Err? then BuildPlan(m.planner, mode).code else InvalidArgument)
            && m'.executor == m.executor && m'.currentMode == m.currentMode
            && m'.stage == Failed && m'.lastError == Some(r.code) && m'.errorCount == m.errorCount + 1
  {
    hide BuildPlan;
  }

  /** What preparing a fresh engine leaves behind: the algorithms in front of the first failed registration, of which
      the first is selected, or all three with the plan's selected. */
  lemma FreshEngineAfter(m: Manager, mode: WorkMode, o: Outcomes)
    requires m.initialized && !m.switching && m.executor.initialized
    requires BuildPlan(m.planner, mode).Ok? && Complete(m.executor.context, BuildPlan(m.planner, mode).value)
    requires IsFusionMode(mode) && m.executor.engine == Engine(false, {}, NoFusion)
    ensures SwitchStep(m, mode, o).1.executor.engine ==
            if o.registerLowlight.Some? then Engine(true, {}, NoFusion)
            else if o.registerThermal.Some? then Engine(true, {VisibleLowlight}, VisibleLowlight)
            else if o.registerComposite.Some? then Engine(true, {VisibleLowlight, VisibleThermal}, VisibleLowlight)
            else Engine(true, {VisibleLowlight, VisibleThermal, VisibleComposite}, FusionModeFor(mode))
  {
    var plan, e := BuildPlan(m.planner, mode).value, m.executor;
    PlanSound(m.planner, mode);
    assert plan.requireFusion && plan.fusionMode == FusionModeFor(mode);
    FreshPrepared(StopStep(e), plan, o);
    ExecuteUnfolds(e, plan, o);
    var (r1, e1) := PrepareFusionStep(StopStep(e), plan, o);
    StagesKeepEngine(e1, plan, o);
    hide BuildPlan, ExecuteStep, PrepareFusionStep, SwitchSensorStep, StartPipelineStep, Complete, CallsOf;
  }

  lemma FreshPrepared(e: Executor, plan: Plan, o: Outcomes)
    requires plan.requireFusion && plan.fusionMode != NoFusion && e.engine == Engine(false, {}, NoFusion)
    ensures PrepareFusionStep(e, plan, o).1.engine ==
            if o.registerLowlight.Some? then Engine(true, {}, NoFusion)
            else if o.registerThermal.Some? then Engine(true, {VisibleLowlight}, VisibleLowlight)
            else if o.registerComposite.Some? then Engine(true, {VisibleLowlight, VisibleThermal}, VisibleLowlight)
            else Engine(true, {VisibleLowlight, VisibleThermal, VisibleComposite}, plan.fusionMode)
  {
  }

  lemma StagesKeepEngine(e: Executor, plan: Plan, o: Outcomes)
    ensures SwitchSensorStep(e, plan, o).1.engine == e.engine
    ensures StartPipelineStep(SwitchSensorStep(e, plan, o).1, plan, o).1.engine == e.engine
  {
  }

  /** Stop stops what runs and goes idle; modes, counters and the engine stay, and no pipeline is left. */
  lemma StopOutcome(m: Manager)
    ensures var m' := ManagerStopStep(m);
            && m'.executor.commands == m.executor.commands + StopCommands(m.executor)
            && m'.executor == m.executor.(pipeline := None, commands := m'.executor.commands)
            && m' == m.(executor := m'.executor, stage := Idle, switching := false)
  {
  }

  const ALL_WELL := Outcomes(None, None, None, false, None, None, None, None, None)

  /** When every outside call succeeds, a switch with a plan and a complete context succeeds exactly unless the engine
      is initialised and lacks the mode's algorithm. */
  lemma SwitchSucceedsIff(m: Manager, mode: WorkMode)
    requires m.initialized && !m.switching && m.executor.initialized
    requires BuildPlan(m.planner, mode).Ok? && m.executor.context == Context(true, true, true, true)
    ensures SwitchStep(m, mode, ALL_WELL).0.Ok? <==> !(IsFusionMode(mode) && Lacks(m, FusionModeFor(mode)))
  {
  }

  /** An engine handed over initialised and empty: no fusion mode ever works, although every outside call succeeds. */
  lemma EmptyEngineNeverFuses(config: ModeConfig, context: Context, ops: seq<Op>, mode: WorkMode)
    requires IsFusionMode(mode) && BuildPlan(Some(config), mode).Ok? && context == Context(true, true, true, true)
    ensures var m := Started(config, context, Engine(true, {}, NoFusion));
            && SwitchStep(Run(m, ops), mode, ALL_WELL).0.Err?
            && SwitchStep(m, mode, ALL_WELL).0 == Err(Unsupported)
            && SwitchStep(Started(config, context, Engine(false, {}, NoFusion)), mode, ALL_WELL).0.Ok?
  {
    var m := Started(config, context, Engine(true, {}, NoFusion));
    LackIsPermanent(m, ops, mode, ALL_WELL);
    SwitchSucceedsIff(Started(config, context, Engine(false, {}, NoFusion)), mode);
    hide Run, StartPipelineStep, SwitchSensorStep, RegisterDefaultsStep;
  }
}
