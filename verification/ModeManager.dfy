/** Switching work modes (src/mode/ModeManager.cpp, ModeSwitchExecutor.cpp and the mode bookkeeping of
    src/algorithm/FusionEngine.cpp). Every call into hardware may fail in any way: its outcome is a parameter. The
    commands sent outside are kept in order, so that their order can be stated. */
module ModeManager {
  import opened Foundation
  import opened ModePlanning
  import Sensor = SensorCommands

  /** What an outside call returned: nothing, or an error. */
  type Outcome = Option<ErrorCode>

  /** The outcomes of one switch, and whether the environment asks to leave the sensor alone. */
  datatype Outcomes = Outcomes(
    registerLowlight: Outcome, registerThermal: Outcome, registerComposite: Outcome,
    skipSensor: bool, setOutput: Outcome, waitStable: Outcome,
    openCameras: Outcome, buildPipeline: Outcome, startPipeline: Outcome)

  datatype Command =
    | StopPipeline
    | PrepareFusion
    | SetFusion(fusion: FusionMode)
    | SwitchSensor(output: Sensor.OutputMode)
    | WaitStable(timeoutMs: nat)
    | OpenCameras
    | BuildPipeline(config: PipelineConfig)
    | StartPipeline(running: bool)

  /** Which collaborators the runtime context holds. */
  datatype Context = Context(cameraManager: bool, mainStream: bool, controller: bool, fusionEngine: bool)

  datatype Engine = Engine(initialized: bool, algorithms: set<FusionMode>, currentMode: FusionMode)

  /** The existing pipeline is kept as the plan it was built from. */
  datatype Executor = Executor(
    initialized: bool, context: Context, engine: Engine, pipeline: Option<Plan>, commands: seq<Command>)

  datatype Stage = Idle | Planning | StoppingPipeline | SwitchingCompositeSensor | StartingPipeline | Running | Failed

  datatype Manager = Manager(
    initialized: bool, switching: bool, currentMode: WorkMode, previousMode: WorkMode, stage: Stage,
    switchCount: nat, errorCount: nat, lastError: Option<ErrorCode>, planner: Option<ModeConfig>, executor: Executor)

  function ToResult(outcome: Outcome): Result<Unit> {
    if outcome.Some? then Err(outcome.value) else Ok(Unit.Unit)
  }

  // ---------------------------------------------------------------- the fusion engine

  function RegisterStep(e: Engine, mode: FusionMode, outcome: Outcome): (Result<Unit>, Engine) {
    if !e.initialized then (Err(NotInitialized), e)
    else if mode == NoFusion then (Err(InvalidArgument), e)
    else if outcome.Some? then (Err(outcome.value), e)
    else (Ok(Unit.Unit), Engine(true, e.algorithms + {mode}, if e.currentMode == NoFusion then mode else e.currentMode))
  }

  /** The three default algorithms one after the other, up to the first that fails. */
  function RegisterDefaultsStep(e: Engine, o: Outcomes): (Result<Unit>, Engine) {
    var (r1, e1) := RegisterStep(e, VisibleLowlight, o.registerLowlight);
    if r1.Err? then (r1, e1)
    else
      var (r2, e2) := RegisterStep(e1, VisibleThermal, o.registerThermal);
      if r2.Err? then (r2, e2) else RegisterStep(e2, VisibleComposite, o.registerComposite)
  }

  function SetModeStep(e: Engine, mode: FusionMode): (Result<Unit>, Engine) {
    if !e.initialized then (Err(NotInitialized), e)
    else if mode == NoFusion then (Err(InvalidArgument), e)
    else if mode !in e.algorithms then (Err(Unsupported), e)
    else (Ok(Unit.Unit), e.(currentMode := mode))
  }

  class FusionEngine {
    var initialized: bool
    var algorithms: set<FusionMode>
    var currentMode: FusionMode

    function View(): Engine
      reads this
    {
      Engine(initialized, algorithms, currentMode)
    }

    constructor ()
      ensures View() == Engine(false, {}, NoFusion)
    {
      initialized, algorithms, currentMode := false, {}, NoFusion;
    }

    method Init() returns (r: Result<Unit>)
      modifies this
      ensures r == if old(initialized) then Err(AlreadyInitialized) else Ok(Unit.Unit)
      ensures View() == old(View()).(initialized := true)
    {
      if initialized { return Err(AlreadyInitialized); }
      initialized := true;
      return Ok(Unit.Unit);
    }

    method Register(mode: FusionMode, outcome: Outcome) returns (r: Result<Unit>)
      modifies this
      ensures (r, View()) == RegisterStep(old(View()), mode, outcome)
    {
      if !initialized { return Err(NotInitialized); }
      if mode == NoFusion { return Err(InvalidArgument); }
      if outcome.Some? { return Err(outcome.value); }
      algorithms := algorithms + {mode};
      if currentMode == NoFusion { currentMode := mode; }
      return Ok(Unit.Unit);
    }

    method RegisterDefaultAlgorithms(o: Outcomes) returns (r: Result<Unit>)
      modifies this
      ensures (r, View()) == RegisterDefaultsStep(old(View()), o)
    {
      r := Register(VisibleLowlight, o.registerLowlight);
      if r.Err? { return; }
      r := Register(VisibleThermal, o.registerThermal);
      if r.Err? { return; }
      r := Register(VisibleComposite, o.registerComposite);
    }

    method SetMode(mode: FusionMode) returns (r: Result<Unit>)
      modifies this
      ensures (r, View()) == SetModeStep(old(View()), mode)
    {
      if !initialized { return Err(NotInitialized); }
      if mode == NoFusion { return Err(InvalidArgument); }
      if mode !in algorithms { return Err(Unsupported); }
      currentMode := mode;
      return Ok(Unit.Unit);
    }
  }

  // ---------------------------------------------------------------- the executor

  function Send(e: Executor, command: Command): Executor { e.(commands := e.commands + [command]) }

  function StopStep(e: Executor): Executor {
    if e.pipeline.None? then e else Send(e, StopPipeline).(pipeline := None)
  }

  function ValidateContext(c: Context, plan: Plan): Result<Unit> {
    if !c.cameraManager || !c.mainStream then Err(InvalidArgument)
    else if plan.requireSensorSwitch && !c.controller then Err(InvalidArgument)
    else if plan.requireFusion && !c.fusionEngine then Err(InvalidArgument)
    else Ok(Unit.Unit)
  }

  function PrepareFusionStep(e: Executor, plan: Plan, o: Outcomes): (Result<Unit>, Executor) {
    if !plan.requireFusion then (Ok(Unit.Unit), e)
    else
      var (prepared, e1) :=
        if e.engine.initialized then (Ok(Unit.Unit), e)
        else
          var (r, engine) := RegisterDefaultsStep(e.engine.(initialized := true), o);
          (r, Send(e, PrepareFusion).(engine := engine));
      if prepared.Err? then (prepared, e1)
      else
        var (r, engine) := SetModeStep(e1.engine, plan.fusionMode);
        (r, Send(e1, SetFusion(plan.fusionMode)).(engine := engine))
  }

  function SwitchSensorStep(e: Executor, plan: Plan, o: Outcomes): (Result<Unit>, Executor) {
    if !plan.requireSensorSwitch || o.skipSensor then (Ok(Unit.Unit), e)
    else
      var e1 := Send(e, SwitchSensor(plan.compositeOutput));
      if o.setOutput.Some? then (Err(o.setOutput.value), e1)
      else (ToResult(o.waitStable), Send(e1, WaitStable(plan.stableWaitMs)))
  }

  function StartPipelineStep(e: Executor, plan: Plan, o: Outcomes): (Result<Unit>, Executor) {
    var e1 := Send(e, OpenCameras);
    if o.openCameras.Some? then (Err(o.openCameras.value), e1)
    else
      var e2 := Send(e1, BuildPipeline(plan.pipeline));
      if o.buildPipeline.Some? then (Err(o.buildPipeline.value), e2)
      else if o.startPipeline.Some? then (Err(o.startPipeline.value), Send(e2, StartPipeline(false)).(pipeline := None))
      else (Ok(Unit.Unit), Send(e2, StartPipeline(true)).(pipeline := Some(plan)))
  }

  function ExecuteStep(e: Executor, plan: Plan, o: Outcomes): (Result<Unit>, Executor) {
    if !e.initialized then (Err(NotInitialized), e)
    else if ValidateContext(e.context, plan).Err? then (ValidateContext(e.context, plan), e)
    else
      var (fusion, e1) := PrepareFusionStep(StopStep(e), plan, o);
      if fusion.Err? then (fusion, e1)
      else
        var (sensor, e2) := SwitchSensorStep(e1, plan, o);
        if sensor.Err? then (sensor, e2) else StartPipelineStep(e2, plan, o)
  }

  class ModeSwitchExecutor {
    var initialized: bool
    var context: Context
    const engine: FusionEngine
    var pipeline: Option<Plan>
    ghost var commands: seq<Command>

    ghost function View(): Executor
      reads this, engine
    {
      Executor(initialized, context, engine.View(), pipeline, commands)
    }

    constructor (engine: FusionEngine)
      ensures this.engine == engine
      ensures View() == Executor(false, Context(false, false, false, false), engine.View(), None, [])
    {
      this.engine := engine;
      initialized, pipeline, context := false, None, Context(false, false, false, false);
      commands := [];
    }

    method Init(context: Context)
      modifies this
      ensures View() == old(View()).(initialized := true, context := context)
    {
      this.context := context;
      initialized := true;
    }

    method Stop()
      modifies this
      ensures View() == StopStep(old(View()))
    {
      if pipeline.Some? {
        commands := commands + [StopPipeline];
        pipeline := None;
      }
    }

    method PrepareFusion(plan: Plan, o: Outcomes) returns (r: Result<Unit>)
      modifies this`commands, engine
      ensures (r, View()) == PrepareFusionStep(old(View()), plan, o)
    {
      hide RegisterDefaultsStep, SetModeStep;
      if !plan.requireFusion { return Ok(Unit.Unit); }
      if !engine.initialized {
        r := engine.Init();
        commands := commands + [Command.PrepareFusion];
        r := engine.RegisterDefaultAlgorithms(o);
        if r.Err? { return; }
      }
      r := engine.SetMode(plan.fusionMode);
      commands := commands + [SetFusion(plan.fusionMode)];
    }

    method SwitchCompositeSensor(plan: Plan, o: Outcomes) returns (r: Result<Unit>)
      modifies this`commands
      ensures (r, View()) == SwitchSensorStep(old(View()), plan, o)
    {
      if !plan.requireSensorSwitch { return Ok(Unit.Unit); }
      if o.skipSensor { return Ok(Unit.Unit); }
      commands := commands + [SwitchSensor(plan.compositeOutput)];
      if o.setOutput.Some? { return Err(o.setOutput.value); }
      commands := commands + [WaitStable(plan.stableWaitMs)];
      return ToResult(o.waitStable);
    }

    method StartPipeline(plan: Plan, o: Outcomes) returns (r: Result<Unit>)
      modifies this
      ensures (r, View()) == StartPipelineStep(old(View()), plan, o)
    {
      commands := commands + [OpenCameras];
      if o.openCameras.Some? { return Err(o.openCameras.value); }
      commands := commands + [BuildPipeline(plan.pipeline)];
      if o.buildPipeline.Some? { return Err(o.buildPipeline.value); }
      pipeline := Some(plan);
      commands := commands + [Command.StartPipeline(o.startPipeline.None?)];
      if o.startPipeline.Some? {
        pipeline := None;
        return Err(o.startPipeline.value);
      }
      return Ok(Unit.Unit);
    }

    method Execute(plan: Plan, o: Outcomes) returns (r: Result<Unit>)
      modifies this, engine
      ensures (r, View()) == ExecuteStep(old(View()), plan, o)
    {
      hide PrepareFusionStep, SwitchSensorStep, StartPipelineStep, StopStep;
      if !initialized { return Err(NotInitialized); }
      r := ValidateContext(context, plan);
      if r.Err? { return; }
      Stop();
      r := PrepareFusion(plan, o);
      if r.Err? { return; }
      r := SwitchCompositeSensor(plan, o);
      if r.Err? { return; }
      r := StartPipeline(plan, o);
    }
  }

  // ---------------------------------------------------------------- the manager

  function MarkError(m: Manager, code: ErrorCode): Manager {
    m.(stage := Failed, lastError := Some(code), errorCount := m.errorCount + 1)
  }

  function MarkDone(m: Manager, mode: WorkMode): Manager {
    m.(stage := Running, previousMode := m.currentMode, currentMode := mode, switching := false, lastError := None,
       switchCount := m.switchCount + 1)
  }

  function SwitchStep(m: Manager, mode: WorkMode, o: Outcomes): (Result<Unit>, Manager) {
    if !m.initialized then (Err(NotInitialized), m)
    else if m.switching then (Err(Busy), m)
    else
      var plan := BuildPlan(m.planner, mode);
      if plan.Err? then (Err(plan.code), MarkError(m, plan.code))
      else
        var (r, executor) := ExecuteStep(m.executor, plan.value, o);
        if r.Err? then (r, MarkError(m.(executor := executor), r.code))
        else
          (r, MarkDone(m.(executor := executor), mode))
  }

  function ManagerStopStep(m: Manager): Manager {
    m.(executor := StopStep(m.executor), stage := Idle, switching := false)
  }

  class ModeManager {
    var initialized: bool
    var switching: bool
    var currentMode: WorkMode
    var previousMode: WorkMode
    var stage: Stage
    var switchCount: nat
    var errorCount: nat
    var lastError: Option<ErrorCode>
    var planner: Option<ModeConfig>
    const executor: ModeSwitchExecutor

    ghost function View(): Manager
      reads this, executor, executor.engine
    {
      Manager(initialized, switching, currentMode, previousMode, stage, switchCount, errorCount, lastError, planner,
              executor.View())
    }

    constructor (executor: ModeSwitchExecutor)
      ensures this.executor == executor
      ensures View() == Manager(false, false, Unknown, Unknown, Idle, 0, 0, None, None, executor.View())
    {
      this.executor := executor;
      initialized, switching, currentMode, previousMode := false, false, Unknown, Unknown;
      stage, switchCount, errorCount, lastError, planner := Idle, 0, 0, None, None;
    }

    method Init(config: ModeConfig, context: Context) returns (r: Result<Unit>)
      modifies this, executor
      ensures r == if old(initialized) then Err(AlreadyInitialized) else Ok(Unit.Unit)
      ensures old(initialized) ==> View() == old(View())
      ensures !old(initialized) ==>
                View() == Manager(true, false, Unknown, Unknown, Idle, 0, 0, None, Some(config),
                                  old(executor.View()).(initialized := true, context := context))
    {
      if initialized { return Err(AlreadyInitialized); }
      planner := Some(config);
      executor.Init(context);
      initialized, switching, currentMode, previousMode := true, false, Unknown, Unknown;
      stage, switchCount, errorCount, lastError := Idle, 0, 0, None;
      return Ok(Unit.Unit);
    }

    method SwitchTo(mode: WorkMode, o: Outcomes) returns (r: Result<Unit>)
      modifies this, executor, executor.engine
      ensures (r, View()) == SwitchStep(old(View()), mode, o)
    {
      hide ExecuteStep, BuildPlan;
      if !initialized { return Err(NotInitialized); }
      if switching { return Err(Busy); }
      switching := true;
      stage := Planning;
      var plan := BuildPlan(planner, mode);
      if plan.Err? {
        FailSwitch(plan.code);
        return Err(plan.code);
      }
      stage := StoppingPipeline;
      stage := SwitchingCompositeSensor;
      r := executor.Execute(plan.value, o);
      if r.Err? {
        FailSwitch(r.code);
        return;
      }
      FinishSwitch(mode);
    }

    method Stop()
      modifies this, executor
      ensures View() == ManagerStopStep(old(View()))
    {
      executor.Stop();
      stage := Idle;
      switching := false;
    }

    method FailSwitch(code: ErrorCode)
      modifies this`stage, this`lastError, this`errorCount, this`switching
      ensures View() == MarkError(old(View()), code).(switching := false)
    {
      stage := Failed;
      lastError := Some(code);
      errorCount := errorCount + 1;
      switching := false;
    }

    method FinishSwitch(mode: WorkMode)
      modifies this`stage, this`previousMode, this`currentMode, this`switching, this`lastError, this`switchCount
      ensures View() == MarkDone(old(View()), mode)
    {
      stage := Running;
      previousMode := currentMode;
      currentMode := mode;
      switching := false;
      lastError := None;
      switchCount := switchCount + 1;
    }
  }
}
