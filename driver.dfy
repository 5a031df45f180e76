/**
 * The control skeleton of main in src/ibpm.cc: exit on invalid parameters,
 * build the flow model, select the scheme, warm or cold start of the solver,
 * a zero (or loaded) initial State, registration of the output sinks whose
 * period is positive, then logger.init, one output, numSteps rounds of
 * advance-and-output, and cleanup.
 *
 * Collaborators are not looked into: each call is an Event appended to a trace, and the
 * results that steer the control flow (whether the checkpoint and the initial
 * condition load, whether the parameters are valid) are inputs.
 */
module Driver {
  import opened Scheme
  import opened Events

  /** The parsed command-line parameters main reads (numerical ones left out);
      outdir is the directory after a trailing slash has been ensured. */
  datatype Config = Config(
    name: string,
    geomFile: string,
    scheme: string,
    icFile: string,
    outdir: string,
    tecplotPeriod: int,
    restartPeriod: int,
    forcePeriod: int,
    numSteps: int,
    inputIsValid: bool,
    helpDesired: bool)

  /** What the collaborators answer: solver->load and x.load succeed or not. */
  datatype Env = Env(checkpointLoads: bool, initialConditionLoads: bool)

  /** Exit status of main and the calls it made, in order. */
  datatype Outcome = Outcome(status: int, trace: seq<Event>)

  function CheckpointPath(cfg: Config): string { cfg.outdir + cfg.name }

  function TecplotSink(cfg: Config): Sink
  {
    Tecplot(cfg.outdir + cfg.name + "%03d.plt", "Test run, step %03d")
  }

  function RestartSink(cfg: Config): Sink { Restart(cfg.outdir + cfg.name + "%03d.bin") }

  function ForceSink(cfg: Config): Sink { Force(cfg.outdir + cfg.name + ".force") }

  /** The position of each sink in main's fixed registration order. */
  function Rank(s: Sink): nat
  {
    match s
    case Tecplot(_, _) => 0
    case Restart(_) => 1
    case Force(_) => 2
  }

  /** The period main reads for each kind of sink. */
  function PeriodOf(cfg: Config, s: Sink): int
  {
    match s
    case Tecplot(_, _) => cfg.tecplotPeriod
    case Restart(_) => cfg.restartPeriod
    case Force(_) => cfg.forcePeriod
  }

  /** The sink of each kind main builds for this run. */
  function SinkOf(cfg: Config, s: Sink): Sink
  {
    match s
    case Tecplot(_, _) => TecplotSink(cfg)
    case Restart(_) => RestartSink(cfg)
    case Force(_) => ForceSink(cfg)
  }

  /** The sinks handed to the logger: those whose period is positive, in order. */
  function Registrations(cfg: Config): seq<Registration>
  {
    (if cfg.tecplotPeriod > 0 then [Registration(TecplotSink(cfg), cfg.tecplotPeriod)] else [])
    + (if cfg.restartPeriod > 0 then [Registration(RestartSink(cfg), cfg.restartPeriod)] else [])
    + (if cfg.forcePeriod > 0 then [Registration(ForceSink(cfg), cfg.forcePeriod)] else [])
  }

  /** Number of loop rounds: the loop over i = 1..numSteps runs max(numSteps, 0) times. */
  function StepCount(cfg: Config): nat
  {
    if cfg.numSteps > 0 then cfg.numSteps else 0
  }

  /** Where x's fields come from: the file when one is named and it loads, zero otherwise. */
  function InitialOrigin(cfg: Config, env: Env): Origin
  {
    if cfg.icFile != "" && env.initialConditionLoads then LoadedFrom(cfg.icFile) else ZeroField
  }

  function ModelSetup(cfg: Config): seq<Event>
  {
    [SetupGrid, ReadGeometry(cfg.geomFile), InitModel]
  }

  /** solver->load, and on failure solver->init and solver->save, all on the same path. */
  function SolverStart(cfg: Config, env: Env): seq<Event>
  {
    [LoadCheckpoint(CheckpointPath(cfg))]
    + (if env.checkpointLoads then [] else [InitSolver, SaveCheckpoint(CheckpointPath(cfg))])
  }

  function StateSetup(cfg: Config): seq<Event>
  {
    [ZeroState] + (if cfg.icFile != "" then [LoadInitialCondition(cfg.icFile)] else [])
  }

  /** Everything main does between the scheme selection and logger.init. */
  function Setup(cfg: Config, env: Env, k: SolverKind): seq<Event>
  {
    ModelSetup(cfg) + [NewSolver(k)] + SolverStart(cfg, env) + StateSetup(cfg)
    + AddOutputs(Registrations(cfg))
  }

  /** The first n rounds of the stepping loop: advance, then output the advanced state. */
  function Steps(o: Origin, n: nat): seq<Event>
  {
    if n == 0 then [] else Steps(o, n - 1) + [Advance, DoOutput(StateView(o, n))]
  }

  /** A run from the end of setup on: logger.init, the output of the initial State,
      the stepping loop, logger.cleanup and the release of the solver. */
  function Lifecycle(setup: seq<Event>, o: Origin, n: nat): seq<Event>
  {
    setup + [LoggerInit, DoOutput(StateView(o, 0))] + Steps(o, n) + [LoggerCleanup, DeleteSolver]
  }

  /** The trace of a run that selected scheme k. */
  function StartedTrace(cfg: Config, env: Env, k: SolverKind): seq<Event>
  {
    Lifecycle(Setup(cfg, env, k), InitialOrigin(cfg, env), StepCount(cfg))
  }

  /** Whether main gets past parameter checking and scheme selection. */
  predicate Starts(cfg: Config)
  {
    cfg.inputIsValid && !cfg.helpDesired && GetSolver(cfg.scheme).Some?
  }

  /** The behaviour of main, as a function of its parameters and its collaborators' answers. */
  function Run(cfg: Config, env: Env): Outcome
  {
    if !cfg.inputIsValid || cfg.helpDesired then Outcome(1, [])
    else match GetSolver(cfg.scheme)
      case None => Outcome(1, ModelSetup(cfg))
      case Some(k) =>
        Outcome(0, StartedTrace(cfg, env, k))
  }

  /** Lines 110-113: try to warm-start from the checkpoint; on failure cold-start and save. */
  method StartSolver(cfg: Config, env: Env) returns (events: seq<Event>)
    ensures events == SolverStart(cfg, env)
  {
    var path := cfg.outdir + cfg.name;
    events := [LoadCheckpoint(path)];
    if !env.checkpointLoads {
      events := events + [InitSolver];
      events := events + [SaveCheckpoint(path)];
    }
  }

  /** Lines 116-128: a zero State, replaced by the initial-condition file when one
      is named and loads; a failed load keeps the zero State and the run goes on. */
  method InitialState(cfg: Config, env: Env) returns (x: StateView, events: seq<Event>)
    ensures x == StateView(InitialOrigin(cfg, env), 0)
    ensures events == StateSetup(cfg)
  {
    x := StateView(ZeroField, 0);
    events := [ZeroState];
    if cfg.icFile != "" {
      events := events + [LoadInitialCondition(cfg.icFile)];
      if env.initialConditionLoads {
        x := StateView(LoadedFrom(cfg.icFile), 0);
      }
    }
  }

  /** Lines 131-148: build the three sinks and register with the logger, in order,
      those whose period is positive. */
  method RegisterOutputs(cfg: Config) returns (events: seq<Event>)
    ensures events == AddOutputs(Registrations(cfg))
  {
    var tecplot, restart, force := TecplotSink(cfg), RestartSink(cfg), ForceSink(cfg);
    events := [];
    ghost var registered: seq<Registration> := [];
    if cfg.tecplotPeriod > 0 {
      AddOutputsSnoc(registered, Registration(tecplot, cfg.tecplotPeriod));
      registered := registered + [Registration(tecplot, cfg.tecplotPeriod)];
      events := events + [AddOutput(Registration(tecplot, cfg.tecplotPeriod))];
    }
    if cfg.restartPeriod > 0 {
      AddOutputsSnoc(registered, Registration(restart, cfg.restartPeriod));
      registered := registered + [Registration(restart, cfg.restartPeriod)];
      events := events + [AddOutput(Registration(restart, cfg.restartPeriod))];
    }
    if cfg.forcePeriod > 0 {
      AddOutputsSnoc(registered, Registration(force, cfg.forcePeriod));
      registered := registered + [Registration(force, cfg.forcePeriod)];
      events := events + [AddOutput(Registration(force, cfg.forcePeriod))];
    }
    assert registered == Registrations(cfg);
  }

  /** Lines 154-163: for i = 1..numSteps, advance x in place and output it. */
  method Integrate(x0: StateView, numSteps: int) returns (x: StateView, events: seq<Event>)
    requires x0.advances == 0
    ensures x == StateView(x0.origin, if numSteps > 0 then numSteps else 0)
    ensures events == Steps(x0.origin, x.advances)
  {
    x := x0;
    events := [];
    var i := 1;
    while i <= numSteps
      invariant 1 <= i <= (if numSteps > 0 then numSteps else 0) + 1
      invariant x == StateView(x0.origin, i - 1)
      invariant events == Steps(x0.origin, i - 1)
    {
      x := x.(advances := x.advances + 1);
      events := events + [Advance];
      events := events + [DoOutput(x)];
      i := i + 1;
    }
  }

  /** main, step by step: each collaborator call appends its event to the trace,
      and the single State x is advanced in place by the stepping loop. */
  method Execute(cfg: Config, env: Env) returns (status: int, trace: seq<Event>)
    ensures Outcome(status, trace) == Run(cfg, env)
  {
    trace := [];
    if !cfg.inputIsValid || cfg.helpDesired {
      return 1, trace;
    }
    trace := trace + [SetupGrid, ReadGeometry(cfg.geomFile), InitModel];
    var solver := GetSolver(cfg.scheme);
    if solver.None? {
      return 1, trace;
    }
    var kind := solver.value;
    trace := trace + [NewSolver(kind)];
    var started := StartSolver(cfg, env);
    trace := trace + started;
    var x, initialized := InitialState(cfg, env);
    trace := trace + initialized;
    var registered := RegisterOutputs(cfg);
    trace := trace + registered;
    assert trace == Setup(cfg, env, kind);
    trace := trace + [LoggerInit, DoOutput(x)];
    var stepped;
    x, stepped := Integrate(x, cfg.numSteps);
    trace := trace + stepped;
    trace := trace + [LoggerCleanup, DeleteSolver];
    status := 0;
    assert trace == StartedTrace(cfg, env, kind);
  }
}
