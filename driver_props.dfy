/**
 * Properties of main's behaviour, stated over the spec function Driver.Run
 * that Driver.Execute is proved to compute.
 */
module DriverProperties {
  import opened Wrappers
  import opened Scheme
  import opened Events
  import opened Driver

  /** An event main issues before logger.init: none of the logger's calls, no step, no release. */
  predicate IsSetupEvent(e: Event)
  {
    !(e == LoggerInit || e.DoOutput? || e == Advance || e == LoggerCleanup || e == DeleteSolver)
  }

  /** Registration keeps the fixed order tecplot, restart, force; a sink is
      registered exactly when its period is positive, and with that period. */
  lemma RegistrationRule(cfg: Config)
    ensures var regs := Registrations(cfg);
            && (Registration(TecplotSink(cfg), cfg.tecplotPeriod) in regs <==> cfg.tecplotPeriod > 0)
            && (Registration(RestartSink(cfg), cfg.restartPeriod) in regs <==> cfg.restartPeriod > 0)
            && (Registration(ForceSink(cfg), cfg.forcePeriod) in regs <==> cfg.forcePeriod > 0)
            && (forall r :: r in regs ==>
                  r.sink == SinkOf(cfg, r.sink) && r.period == PeriodOf(cfg, r.sink) && r.period > 0)
            && (forall i, j :: 0 <= i < j < |regs| ==> Rank(regs[i].sink) < Rank(regs[j].sink))
  {
  }

  predicate SetupOnly(t: seq<Event>)
  {
    forall e :: e in t ==> IsSetupEvent(e)
  }

  lemma SetupOnlyConcat(a: seq<Event>, b: seq<Event>)
    requires SetupOnly(a) && SetupOnly(b)
    ensures SetupOnly(a + b)
  {
  }

  lemma SolverSetupOnly(cfg: Config, env: Env, k: SolverKind)
    ensures SetupOnly(ModelSetup(cfg) + [NewSolver(k)] + SolverStart(cfg, env))
  {
    var a, b, c := ModelSetup(cfg), [NewSolver(k)], SolverStart(cfg, env);
    assert SetupOnly(a) && SetupOnly(b) && SetupOnly(c);
    SetupOnlyConcat(a, b);
    SetupOnlyConcat(a + b, c);
  }

  /** Nothing main does before logger.init is a logger, step or release call. */
  lemma SetupEventsOnly(cfg: Config, env: Env, k: SolverKind)
    ensures forall e :: e in Setup(cfg, env, k) ==> IsSetupEvent(e)
  {
    var d, f := StateSetup(cfg), AddOutputs(Registrations(cfg));
    SolverSetupOnly(cfg, env, k);
    assert SetupOnly(d) && SetupOnly(f);
    SetupOnlyConcat(ModelSetup(cfg) + [NewSolver(k)] + SolverStart(cfg, env), d);
    SetupOnlyConcat(ModelSetup(cfg) + [NewSolver(k)] + SolverStart(cfg, env) + d, f);
  }

  /** The stepping loop's events alternate advance, output, and the output after
      the m-th advance shows a State advanced m times. */
  lemma {:induction false} StepsShape(o: Origin, n: nat)
    ensures |Steps(o, n)| == 2 * n
    ensures forall i :: 0 <= i < 2 * n ==>
      Steps(o, n)[i] == if i % 2 == 0 then Advance else DoOutput(StateView(o, i / 2 + 1))
  {
    if n > 0 {
      StepsShape(o, n - 1);
    }
  }

  /** The loop advances exactly n times and outputs the states after 1..n advances. */
  lemma {:induction false} StepsCounts(o: Origin, n: nat)
    ensures Count(Steps(o, n), Advance) == n
    ensures |Outputs(Steps(o, n))| == n
    ensures forall m :: 0 <= m < n ==> Outputs(Steps(o, n))[m] == StateView(o, m + 1)
  {
    if n > 0 {
      var round := [Advance, DoOutput(StateView(o, n))];
      StepsCounts(o, n - 1);
      CountConcat(Steps(o, n - 1), round, Advance);
      OutputsConcat(Steps(o, n - 1), round);
      assert round[1..] == [DoOutput(StateView(o, n))];
      assert Outputs(round) == [StateView(o, n)];
    }
  }

  lemma {:induction false} StepsEvents(o: Origin, n: nat)
    ensures forall e :: e in Steps(o, n) ==> e == Advance || (e.DoOutput? && e.x.origin == o)
  {
    if n > 0 {
      StepsEvents(o, n - 1);
    }
  }

  /** Where every part of a run sits in its trace, once setup is done. */
  lemma LifecycleLayout(s: seq<Event>, o: Origin, n: nat)
    requires forall e :: e in s ==> IsSetupEvent(e)
    ensures var t := Lifecycle(s, o, n);
            && |t| == |s| + 2 * n + 4
            && t[..|s|] == s
            && (forall i :: 0 <= i < |s| ==> IsSetupEvent(t[i]))
            && t[|s|] == LoggerInit
            && t[|s| + 1] == DoOutput(StateView(o, 0))
            && (forall i :: |s| + 2 <= i < |s| + 2 + 2 * n ==>
                  t[i] == if (i - |s|) % 2 == 0 then Advance else DoOutput(StateView(o, (i - |s|) / 2)))
            && t[|t| - 2] == LoggerCleanup
            && t[|t| - 1] == DeleteSolver
  {
    var t := Lifecycle(s, o, n);
    StepsShape(o, n);
    forall i | 0 <= i < |s|
      ensures IsSetupEvent(t[i])
    {
      assert t[i] == s[i];
    }
    forall i | |s| + 2 <= i < |s| + 2 + 2 * n
      ensures t[i] == if (i - |s|) % 2 == 0 then Advance else DoOutput(StateView(o, (i - |s|) / 2))
    {
      assert t[i] == Steps(o, n)[i - |s| - 2];
    }
  }

  /** The outputs of a run: the initial State, then the State after each advance. */
  lemma LifecycleOutputs(s: seq<Event>, o: Origin, n: nat)
    requires forall e :: e in s ==> IsSetupEvent(e)
    ensures |Outputs(Lifecycle(s, o, n))| == n + 1
    ensures forall m :: 0 <= m <= n ==> Outputs(Lifecycle(s, o, n))[m] == StateView(o, m)
  {
    var h := Steps(o, n);
    var xs := Outputs(Lifecycle(s, o, n));
    LifecycleOutputsSplit(s, o, n);
    StepsCounts(o, n);
    forall m | 0 < m <= n
      ensures xs[m] == StateView(o, m)
    {
      assert xs[m] == Outputs(h)[m - 1];
    }
  }

  lemma LifecycleOutputsSplit(s: seq<Event>, o: Origin, n: nat)
    requires forall e :: e in s ==> IsSetupEvent(e)
    ensures Outputs(Lifecycle(s, o, n)) == [StateView(o, 0)] + Outputs(Steps(o, n))
  {
    var g := [LoggerInit, DoOutput(StateView(o, 0))];
    var h := Steps(o, n);
    var j := [LoggerCleanup, DeleteSolver];
    assert Outputs(s + g) == [StateView(o, 0)] by {
      OutputsConcat(s, g);
      NoOutputs(s);
      assert g == [LoggerInit] + [DoOutput(StateView(o, 0))];
      OutputsConcat([LoggerInit], [DoOutput(StateView(o, 0))]);
    }
    assert Outputs(s + g + h) == Outputs(s + g) + Outputs(h) by {
      OutputsConcat(s + g, h);
    }
    assert Outputs(s + g + h + j) == Outputs(s + g + h) by {
      OutputsConcat(s + g + h, j);
      NoOutputs(j);
    }
  }

  /** The registrations of a run are those made during setup. */
  lemma LifecycleAddedOutputs(s: seq<Event>, o: Origin, n: nat)
    ensures AddedOutputs(Lifecycle(s, o, n)) == AddedOutputs(s)
  {
    var g := [LoggerInit, DoOutput(StateView(o, 0))];
    var h := Steps(o, n);
    var j := [LoggerCleanup, DeleteSolver];
    AddedOutputsConcat(s, g);
    AddedOutputsConcat(s + g, h);
    AddedOutputsConcat(s + g + h, j);
    StepsShape(o, n);
    NoAddedOutputs(g);
    NoAddedOutputs(h);
    NoAddedOutputs(j);
  }

  /** A run that gets past checking and selection is the started trace of its
      scheme, free of logger and step events during setup, and ends with 0. */
  lemma RunStarted(cfg: Config, env: Env)
    requires Starts(cfg)
    ensures Run(cfg, env).status == 0
    ensures Run(cfg, env).trace == StartedTrace(cfg, env, GetSolver(cfg.scheme).value)
  {
  }

  /** Invalid parameters or a help request: status 1 before any grid, model or solver is built. */
  lemma InvalidInputExits(cfg: Config, env: Env)
    requires !cfg.inputIsValid || cfg.helpDesired
    ensures Run(cfg, env).status == 1
    ensures Run(cfg, env).trace == []
  {
  }

  /** A name that lower-cases to no known scheme: status 1 after the model is
      built, with no solver, no output registered and no step taken. */
  lemma UnknownSchemeExits(cfg: Config, env: Env)
    requires cfg.inputIsValid && !cfg.helpDesired
    requires forall k :: Lowercase(cfg.scheme) != SchemeName(k)
    ensures Run(cfg, env).status == 1
    ensures Run(cfg, env).trace == [SetupGrid, ReadGeometry(cfg.geomFile), InitModel]
    ensures forall e :: e in Run(cfg, env).trace ==>
      !e.NewSolver? && !e.LoadCheckpoint? && !e.AddOutput? && !e.DoOutput? && e != Advance
  {
  }

  /** The scheme name "bogus" stops the run with status 1 and no step. */
  lemma BogusSchemeExits(cfg: Config, env: Env)
    requires cfg.inputIsValid && !cfg.helpDesired && cfg.scheme == "bogus"
    ensures Run(cfg, env).status == 1
    ensures Count(Run(cfg, env).trace, Advance) == 0
  {
    SelectionExamples();
  }

  /** Moving a prefix of the setup out of a lifecycle. */
  lemma LifecyclePrefix(p: seq<Event>, s: seq<Event>, o: Origin, n: nat)
    ensures Lifecycle(p + s, o, n) == p + Lifecycle(s, o, n)
  {
    var tail := [LoggerInit, DoOutput(StateView(o, 0))] + Steps(o, n) + [LoggerCleanup, DeleteSolver];
    assert Lifecycle(p + s, o, n) == (p + s) + tail;
    assert Lifecycle(s, o, n) == s + tail;
  }

  /** A setup event occurs in a lifecycle only within its setup part. */
  lemma LifecycleSetupMembers(s: seq<Event>, o: Origin, n: nat)
    ensures forall e :: e in Lifecycle(s, o, n) && IsSetupEvent(e) ==> e in s
  {
    StepsEvents(o, n);
  }

  /** The events of a started run after the solver's warm or cold start. */
  function AfterStart(cfg: Config, env: Env): seq<Event>
  {
    Lifecycle(StateSetup(cfg) + AddOutputs(Registrations(cfg)), InitialOrigin(cfg, env), StepCount(cfg))
  }

  /** The events of a started run after the solver is created. */
  function AfterSolver(cfg: Config, env: Env): seq<Event>
  {
    SolverStart(cfg, env) + AfterStart(cfg, env)
  }

  lemma StartedTraceSplit(cfg: Config, env: Env, k: SolverKind)
    ensures StartedTrace(cfg, env, k) == ModelSetup(cfg) + [NewSolver(k)] + SolverStart(cfg, env) + AfterStart(cfg, env)
    ensures StartedTrace(cfg, env, k) == ModelSetup(cfg) + [NewSolver(k)] + AfterSolver(cfg, env)
  {
    var pre := ModelSetup(cfg) + [NewSolver(k)] + SolverStart(cfg, env);
    var rest := StateSetup(cfg) + AddOutputs(Registrations(cfg));
    assert Setup(cfg, env, k) == pre + rest;
    LifecyclePrefix(pre, rest, InitialOrigin(cfg, env), StepCount(cfg));
  }

  lemma AfterSolverEvents(cfg: Config, env: Env)
    ensures forall e :: e in AfterSolver(cfg, env) ==> !e.NewSolver?
    ensures forall k :: NewSolver(k) !in ModelSetup(cfg) && NewSolver(k) !in AfterSolver(cfg, env)
  {
    AfterStartEvents(cfg, env);
  }

  lemma AfterStartEvents(cfg: Config, env: Env)
    ensures forall e :: e in AfterStart(cfg, env) ==>
      !e.LoadCheckpoint? && !e.SaveCheckpoint? && e != InitSolver && !e.NewSolver?
  {
    var rest := StateSetup(cfg) + AddOutputs(Registrations(cfg));
    LifecycleSetupMembers(rest, InitialOrigin(cfg, env), StepCount(cfg));
    assert forall e :: e in rest ==> e == ZeroState || e.LoadInitialCondition? || e.AddOutput?;
  }

  lemma AfterStartLacksSolverStart(cfg: Config, env: Env)
    ensures LoadCheckpoint(CheckpointPath(cfg)) !in AfterStart(cfg, env)
    ensures InitSolver !in AfterStart(cfg, env)
    ensures SaveCheckpoint(CheckpointPath(cfg)) !in AfterStart(cfg, env)
  {
    AfterStartEvents(cfg, env);
  }

  /** A started run creates exactly one solver, the one of the selected scheme. */
  lemma StartedSolverOnce(cfg: Config, env: Env, k: SolverKind)
    ensures Count(StartedTrace(cfg, env, k), NewSolver(k)) == 1
    ensures forall k' :: k' != k ==> NewSolver(k') !in StartedTrace(cfg, env, k)
  {
    StartedTraceSplit(cfg, env, k);
    AfterSolverEvents(cfg, env);
    assert StartedTrace(cfg, env, k) == ModelSetup(cfg) + [NewSolver(k)] + AfterSolver(cfg, env);
    CountOnce(ModelSetup(cfg), NewSolver(k), AfterSolver(cfg, env));
  }

  /** A run gets past selection when the name spells a scheme; it then creates
      exactly one solver, of that scheme, and ends with status 0. */
  lemma SelectedSchemeRuns(cfg: Config, env: Env, k: SolverKind)
    requires cfg.inputIsValid && !cfg.helpDesired
    requires Lowercase(cfg.scheme) == SchemeName(k)
    ensures Starts(cfg)
    ensures Run(cfg, env).status == 0
    ensures Count(Run(cfg, env).trace, NewSolver(k)) == 1
    ensures forall k' :: k' != k ==> NewSolver(k') !in Run(cfg, env).trace
  {
    RunStarted(cfg, env);
    StartedSolverOnce(cfg, env, k);
  }

  /** Every advance of a started run comes after setup, logger.init and the first output. */
  lemma StartedAdvanceAfterSetup(cfg: Config, env: Env, k: SolverKind)
    ensures var t := StartedTrace(cfg, env, k);
            && |Setup(cfg, env, k)| >= 6
            && forall i :: 0 <= i < |t| && t[i] == Advance ==> |Setup(cfg, env, k)| + 2 <= i
  {
    SetupEventsOnly(cfg, env, k);
    LifecycleLayout(Setup(cfg, env, k), InitialOrigin(cfg, env), StepCount(cfg));
  }

  /** The solver's own start: one load, then init and save on the same path when it fails. */
  lemma SolverStartCounts(cfg: Config, env: Env)
    ensures var path := CheckpointPath(cfg);
            var t := SolverStart(cfg, env);
            && Count(t, LoadCheckpoint(path)) == 1
            && Count(t, InitSolver) == (if env.checkpointLoads then 0 else 1)
            && Count(t, SaveCheckpoint(path)) == (if env.checkpointLoads then 0 else 1)
            && (forall p :: SaveCheckpoint(p) in t ==> p == path)
  {
    var path := CheckpointPath(cfg);
    var load, save := LoadCheckpoint(path), SaveCheckpoint(path);
    if env.checkpointLoads {
      assert SolverStart(cfg, env) == [load];
      CountOne(load, load);
      CountOne(load, InitSolver);
      CountOne(load, save);
    } else {
      assert SolverStart(cfg, env) == [load, InitSolver, save];
      CountThree(load, InitSolver, save, load);
      CountThree(load, InitSolver, save, InitSolver);
      CountThree(load, InitSolver, save, save);
    }
  }

  lemma BeforeStartLacksSolverStart(cfg: Config, k: SolverKind)
    ensures LoadCheckpoint(CheckpointPath(cfg)) !in ModelSetup(cfg) + [NewSolver(k)]
    ensures InitSolver !in ModelSetup(cfg) + [NewSolver(k)]
    ensures SaveCheckpoint(CheckpointPath(cfg)) !in ModelSetup(cfg) + [NewSolver(k)]
  {
  }

  lemma StartedSolverStartCounts(cfg: Config, env: Env, k: SolverKind)
    ensures var t := StartedTrace(cfg, env, k);
            var path := CheckpointPath(cfg);
            && Count(t, LoadCheckpoint(path)) == 1
            && Count(t, InitSolver) == (if env.checkpointLoads then 0 else 1)
            && Count(t, SaveCheckpoint(path)) == (if env.checkpointLoads then 0 else 1)
  {
    var path := CheckpointPath(cfg);
    var pre := ModelSetup(cfg) + [NewSolver(k)];
    var mid := SolverStart(cfg, env);
    var post := AfterStart(cfg, env);
    StartedTraceSplit(cfg, env, k);
    AfterStartLacksSolverStart(cfg, env);
    SolverStartCounts(cfg, env);
    BeforeStartLacksSolverStart(cfg, k);
    CountMiddle(pre, mid, post, LoadCheckpoint(path));
    CountMiddle(pre, mid, post, InitSolver);
    CountMiddle(pre, mid, post, SaveCheckpoint(path));
  }

  /** Every checkpoint save of a started run writes to outdir + name. */
  lemma StartedSavePath(cfg: Config, env: Env, k: SolverKind)
    ensures forall p :: SaveCheckpoint(p) in StartedTrace(cfg, env, k) ==> p == CheckpointPath(cfg)
  {
    StartedTraceSplit(cfg, env, k);
    AfterStartEvents(cfg, env);
    SolverStartCounts(cfg, env);
  }

  /** Every checkpoint load of a started run reads from outdir + name. */
  lemma StartedLoadPath(cfg: Config, env: Env, k: SolverKind)
    ensures forall p :: LoadCheckpoint(p) in StartedTrace(cfg, env, k) ==> p == CheckpointPath(cfg)
  {
    StartedTraceSplit(cfg, env, k);
    AfterStartEvents(cfg, env);
    assert forall p :: LoadCheckpoint(p) in SolverStart(cfg, env) ==> p == CheckpointPath(cfg);
  }

  /** The load comes right after solver creation, and init and save right after it. */
  lemma StartedSolverStartPositions(cfg: Config, env: Env, k: SolverKind)
    ensures var t := StartedTrace(cfg, env, k);
            var path := CheckpointPath(cfg);
            && |t| > 6
            && t[4] == LoadCheckpoint(path)
            && (!env.checkpointLoads ==> t[5] == InitSolver && t[6] == SaveCheckpoint(path))
  {
    var pre, mid, post := ModelSetup(cfg) + [NewSolver(k)], SolverStart(cfg, env), AfterStart(cfg, env);
    StartedTraceSplit(cfg, env, k);
    IndexMiddle(pre, mid, post, 0);
    if !env.checkpointLoads {
      IndexMiddle(pre, mid, post, 1);
      IndexMiddle(pre, mid, post, 2);
    }
    StartedAdvanceAfterSetup(cfg, env, k);
  }

  /** Warm or cold start: the checkpoint at outdir + name is loaded once; solver
      init and then save to that same path happen exactly when the load fails,
      and all of it happens before the first advance. */
  lemma ColdOrWarmStart(cfg: Config, env: Env)
    requires Starts(cfg)
    ensures var t := Run(cfg, env).trace;
            var path := CheckpointPath(cfg);
            && Count(t, LoadCheckpoint(path)) == 1
            && Count(t, InitSolver) == (if env.checkpointLoads then 0 else 1)
            && Count(t, SaveCheckpoint(path)) == (if env.checkpointLoads then 0 else 1)
            && (forall p :: SaveCheckpoint(p) in t ==> p == path)
            && (forall p :: LoadCheckpoint(p) in t ==> p == path)
            && t[4] == LoadCheckpoint(path)
            && (!env.checkpointLoads ==> t[5] == InitSolver && t[6] == SaveCheckpoint(path))
            && (forall i :: 0 <= i < |t| && t[i] == Advance ==> 6 < i)
  {
    RunStarted(cfg, env);
    var k := GetSolver(cfg.scheme).value;
    StartedSolverStartCounts(cfg, env, k);
    StartedSavePath(cfg, env, k);
    StartedLoadPath(cfg, env, k);
    StartedSolverStartPositions(cfg, env, k);
    StartedAdvanceAfterSetup(cfg, env, k);
  }

  /** advance runs exactly n times. */
  lemma LifecycleAdvanceCount(s: seq<Event>, o: Origin, n: nat)
    requires forall e :: e in s ==> IsSetupEvent(e)
    ensures Count(Lifecycle(s, o, n), Advance) == n
  {
    var g := [LoggerInit, DoOutput(StateView(o, 0))];
    StepsCounts(o, n);
    assert Advance !in s;
    CountMiddle(s + g, Steps(o, n), [LoggerCleanup, DeleteSolver], Advance);
  }

  /** logger.init, logger.cleanup and the release of the solver happen once each. */
  lemma LifecycleOnce(s: seq<Event>, o: Origin, n: nat)
    requires forall e :: e in s ==> IsSetupEvent(e)
    ensures var t := Lifecycle(s, o, n);
            && Count(t, LoggerInit) == 1
            && Count(t, LoggerCleanup) == 1
            && Count(t, DeleteSolver) == 1
  {
    LifecycleInitOnce(s, o, n);
    LifecycleEndOnce(s, o, n);
  }

  lemma LifecycleInitOnce(s: seq<Event>, o: Origin, n: nat)
    requires forall e :: e in s ==> IsSetupEvent(e)
    ensures Count(Lifecycle(s, o, n), LoggerInit) == 1
  {
    var rest := [DoOutput(StateView(o, 0))] + Steps(o, n) + [LoggerCleanup, DeleteSolver];
    StepsEvents(o, n);
    assert LoggerInit !in s;
    assert Lifecycle(s, o, n) == s + [LoggerInit] + rest;
    CountOnce(s, LoggerInit, rest);
  }

  lemma LifecycleEndOnce(s: seq<Event>, o: Origin, n: nat)
    requires forall e :: e in s ==> IsSetupEvent(e)
    ensures Count(Lifecycle(s, o, n), LoggerCleanup) == 1
    ensures Count(Lifecycle(s, o, n), DeleteSolver) == 1
  {
    var body := s + [LoggerInit, DoOutput(StateView(o, 0))] + Steps(o, n);
    StepsEvents(o, n);
    assert LoggerCleanup !in s && DeleteSolver !in s;
    assert LoggerCleanup !in body && DeleteSolver !in body;
    assert Lifecycle(s, o, n) == body + [LoggerCleanup] + [DeleteSolver];
    CountOnce(body, LoggerCleanup, [DeleteSolver]);
    assert Lifecycle(s, o, n) == (body + [LoggerCleanup]) + [DeleteSolver] + [];
    CountOnce(body + [LoggerCleanup], DeleteSolver, []);
  }

  /** Each advance comes after logger.init and the first output, and is
      immediately followed by the output of the State it produced. */
  lemma LifecycleAdvanceThenOutput(s: seq<Event>, o: Origin, n: nat)
    requires forall e :: e in s ==> IsSetupEvent(e)
    ensures var t := Lifecycle(s, o, n);
            forall i :: 0 <= i < |t| && t[i] == Advance ==>
              |s| + 1 < i && i + 1 < |t| && t[i + 1] == DoOutput(StateView(o, (i - |s|) / 2))
  {
    var t := Lifecycle(s, o, n);
    LifecycleLayout(s, o, n);
    forall i | 0 <= i < |t| && t[i] == Advance
      ensures |s| + 1 < i && i + 1 < |t| && t[i + 1] == DoOutput(StateView(o, (i - |s|) / 2))
    {
      assert i >= |s| + 2 && i < |s| + 2 + 2 * n;
      assert (i - |s|) % 2 == 0;
    }
  }

  /** Every output lies between logger.init and logger.cleanup, and the last one,
      showing the State after all n advances, comes right before the cleanup. */
  lemma LifecycleOutputsBracketed(s: seq<Event>, o: Origin, n: nat)
    requires forall e :: e in s ==> IsSetupEvent(e)
    ensures var t := Lifecycle(s, o, n);
            && t[|t| - 3] == DoOutput(StateView(o, n))
            && (forall i :: 0 <= i < |t| && t[i].DoOutput? ==> |s| < i < |t| - 2)
  {
    var t := Lifecycle(s, o, n);
    LifecycleLayout(s, o, n);
    if n > 0 {
      assert t[|t| - 3] == t[|s| + 2 * n + 1];
    }
  }

  /** Everything before the State is set up, and everything after it. */
  function BeforeState(cfg: Config, env: Env, k: SolverKind): seq<Event>
  {
    ModelSetup(cfg) + [NewSolver(k)] + SolverStart(cfg, env)
  }

  function AfterState(cfg: Config, env: Env): seq<Event>
  {
    Lifecycle(AddOutputs(Registrations(cfg)), InitialOrigin(cfg, env), StepCount(cfg))
  }

  lemma StartedTraceAroundState(cfg: Config, env: Env, k: SolverKind)
    ensures StartedTrace(cfg, env, k) == BeforeState(cfg, env, k) + StateSetup(cfg) + AfterState(cfg, env)
    ensures |BeforeState(cfg, env, k)| == |SolverStart(cfg, env)| + 4
  {
    var pre := BeforeState(cfg, env, k) + StateSetup(cfg);
    assert Setup(cfg, env, k) == pre + AddOutputs(Registrations(cfg));
    LifecyclePrefix(pre, AddOutputs(Registrations(cfg)), InitialOrigin(cfg, env), StepCount(cfg));
  }

  lemma BeforeStateEvents(cfg: Config, env: Env, k: SolverKind)
    ensures forall e :: e in BeforeState(cfg, env, k) ==> e != ZeroState && !e.LoadInitialCondition?
  {
  }

  lemma AfterStateEvents(cfg: Config, env: Env)
    ensures forall e :: e in AfterState(cfg, env) ==> e != ZeroState && !e.LoadInitialCondition?
  {
    LifecycleSetupMembers(AddOutputs(Registrations(cfg)), InitialOrigin(cfg, env), StepCount(cfg));
  }

  lemma AroundStateLacks(cfg: Config, env: Env, k: SolverKind)
    ensures ZeroState !in BeforeState(cfg, env, k) && ZeroState !in AfterState(cfg, env)
    ensures LoadInitialCondition(cfg.icFile) !in BeforeState(cfg, env, k)
    ensures LoadInitialCondition(cfg.icFile) !in AfterState(cfg, env)
  {
    BeforeStateEvents(cfg, env, k);
    AfterStateEvents(cfg, env);
  }

  /** The state set-up events: one zeroing, then one load when a file is named. */
  lemma StateSetupCounts(cfg: Config)
    ensures Count(StateSetup(cfg), ZeroState) == 1
    ensures Count(StateSetup(cfg), LoadInitialCondition(cfg.icFile)) == (if cfg.icFile != "" then 1 else 0)
  {
    CountOne(ZeroState, ZeroState);
    CountOne(ZeroState, LoadInitialCondition(cfg.icFile));
    if cfg.icFile != "" {
      CountOne(LoadInitialCondition(cfg.icFile), ZeroState);
      CountOne(LoadInitialCondition(cfg.icFile), LoadInitialCondition(cfg.icFile));
      CountConcat([ZeroState], [LoadInitialCondition(cfg.icFile)], ZeroState);
      CountConcat([ZeroState], [LoadInitialCondition(cfg.icFile)], LoadInitialCondition(cfg.icFile));
    } else {
      assert StateSetup(cfg) == [ZeroState];
    }
  }

  /** The State is zeroed once, and the initial condition is loaded once, from the
      named file, exactly when a file is named. */
  lemma StartedStateCounts(cfg: Config, env: Env, k: SolverKind)
    ensures var t := StartedTrace(cfg, env, k);
            && Count(t, ZeroState) == 1
            && Count(t, LoadInitialCondition(cfg.icFile)) == (if cfg.icFile != "" then 1 else 0)
  {
    var pre := BeforeState(cfg, env, k);
    var mid := StateSetup(cfg);
    var post := AfterState(cfg, env);
    StartedTraceAroundState(cfg, env, k);
    AroundStateLacks(cfg, env, k);
    CountMiddle(pre, mid, post, ZeroState);
    CountMiddle(pre, mid, post, LoadInitialCondition(cfg.icFile));
    StateSetupCounts(cfg);
  }

  /** Zeroing comes right after the solver's start, the load right after it, and
      no other file is ever loaded as initial condition. */
  lemma StartedStatePositions(cfg: Config, env: Env, k: SolverKind)
    ensures var t := StartedTrace(cfg, env, k);
            var at := |SolverStart(cfg, env)| + 4;
            && (forall f :: LoadInitialCondition(f) in t ==> f == cfg.icFile && f != "")
            && t[at] == ZeroState
            && (cfg.icFile != "" ==> t[at + 1] == LoadInitialCondition(cfg.icFile))
  {
    var t := StartedTrace(cfg, env, k);
    var pre := BeforeState(cfg, env, k);
    var mid := StateSetup(cfg);
    StartedTraceAroundState(cfg, env, k);
    BeforeStateEvents(cfg, env, k);
    AfterStateEvents(cfg, env);
    assert t[|pre|] == mid[0];
    assert cfg.icFile != "" ==> t[|pre| + 1] == mid[1];
  }

  lemma PreRegistrationEvents(cfg: Config, env: Env, k: SolverKind)
    ensures forall e :: e in ModelSetup(cfg) + [NewSolver(k)] + SolverStart(cfg, env) + StateSetup(cfg) ==> !e.AddOutput?
  {
  }

  /** The registrations of a started run are exactly Registrations(cfg), all made
      during setup. */
  lemma StartedRegistrations(cfg: Config, env: Env, k: SolverKind)
    ensures AddedOutputs(StartedTrace(cfg, env, k)) == Registrations(cfg)
  {
    var o, n := InitialOrigin(cfg, env), StepCount(cfg);
    var s := Setup(cfg, env, k);
    var pre := ModelSetup(cfg) + [NewSolver(k)] + SolverStart(cfg, env) + StateSetup(cfg);
    var adds := AddOutputs(Registrations(cfg));
    SetupEventsOnly(cfg, env, k);
    LifecycleAddedOutputs(s, o, n);
    AddedOutputsConcat(pre, adds);
    PreRegistrationEvents(cfg, env, k);
    NoAddedOutputs(pre);
    AddedOutputsOfAddOutputs(Registrations(cfg));
  }

  /** logger.init stands only right after setup, and every registration comes before it. */
  lemma LifecycleLoggerInitAt(s: seq<Event>, o: Origin, n: nat)
    requires forall e :: e in s ==> IsSetupEvent(e)
    ensures var t := Lifecycle(s, o, n);
            && (forall i :: 0 <= i < |t| && t[i] == LoggerInit ==> i == |s|)
            && (forall i :: 0 <= i < |t| && t[i].AddOutput? ==> i < |s|)
  {
    LifecycleLayout(s, o, n);
  }

  /** The stepping part of a lifecycle, in the terms the Run-level lemmas use. */
  lemma LifecycleStepping(s: seq<Event>, o: Origin, n: nat)
    requires forall e :: e in s ==> IsSetupEvent(e)
    ensures var t := Lifecycle(s, o, n);
            && Count(t, Advance) == n
            && |Outputs(t)| == n + 1
            && (forall m :: 0 <= m < |Outputs(t)| ==> Outputs(t)[m] == StateView(o, m))
            && (forall i :: 0 <= i < |t| && t[i] == Advance ==> i + 1 < |t| && t[i + 1].DoOutput?)
  {
    LifecycleAdvanceCount(s, o, n);
    LifecycleOutputs(s, o, n);
    LifecycleAdvanceThenOutput(s, o, n);
  }

  /** logger.init once, followed by the initial output and before every advance. */
  lemma LifecycleLoggerInit(s: seq<Event>, o: Origin, n: nat)
    requires forall e :: e in s ==> IsSetupEvent(e)
    ensures var t := Lifecycle(s, o, n);
            && Count(t, LoggerInit) == 1
            && (forall i :: 0 <= i < |t| && t[i] == LoggerInit ==> i + 1 < |t| && t[i + 1] == DoOutput(StateView(o, 0)))
            && (forall i, j :: 0 <= i < |t| && 0 <= j < |t| && t[i] == LoggerInit && t[j] == Advance ==> i + 1 < j)
  {
    LifecycleOnce(s, o, n);
    LifecycleLoggerInitAt(s, o, n);
    LifecycleAdvanceThenOutput(s, o, n);
    LifecycleLayout(s, o, n);
  }

  /** The stepping loop: advance runs max(numSteps, 0) times, doOutput once more;
      the outputs show the initial State and then the State after each advance,
      and each advance is immediately followed by an output. */
  lemma SteppingRule(cfg: Config, env: Env)
    requires Starts(cfg)
    ensures var t := Run(cfg, env).trace;
            var o := InitialOrigin(cfg, env);
            && Count(t, Advance) == StepCount(cfg)
            && |Outputs(t)| == StepCount(cfg) + 1
            && (forall m :: 0 <= m < |Outputs(t)| ==> Outputs(t)[m] == StateView(o, m))
            && (forall i :: 0 <= i < |t| && t[i] == Advance ==> i + 1 < |t| && t[i + 1].DoOutput?)
  {
    var k := GetSolver(cfg.scheme).value;
    SetupEventsOnly(cfg, env, k);
    LifecycleStepping(Setup(cfg, env, k), InitialOrigin(cfg, env), StepCount(cfg));
    RunStarted(cfg, env);
  }

  /** logger.init runs once, before the initial output and before every advance. */
  lemma LoggerInitRule(cfg: Config, env: Env)
    requires Starts(cfg)
    ensures var t := Run(cfg, env).trace;
            && Count(t, LoggerInit) == 1
            && (forall i :: 0 <= i < |t| && t[i] == LoggerInit ==> i + 1 < |t| && t[i + 1] == DoOutput(StateView(InitialOrigin(cfg, env), 0)))
            && (forall i, j :: 0 <= i < |t| && 0 <= j < |t| && t[i] == LoggerInit && t[j] == Advance ==> i + 1 < j)
  {
    var k := GetSolver(cfg.scheme).value;
    SetupEventsOnly(cfg, env, k);
    LifecycleLoggerInit(Setup(cfg, env, k), InitialOrigin(cfg, env), StepCount(cfg));
    RunStarted(cfg, env);
  }

  /** The end of a lifecycle: the last output, then cleanup and release, once each. */
  lemma LifecycleCleanup(s: seq<Event>, o: Origin, n: nat)
    requires forall e :: e in s ==> IsSetupEvent(e)
    ensures var t := Lifecycle(s, o, n);
            && Count(t, LoggerCleanup) == 1
            && Count(t, DeleteSolver) == 1
            && |t| >= 3
            && t[|t| - 3] == DoOutput(StateView(o, n))
            && t[|t| - 2] == LoggerCleanup
            && t[|t| - 1] == DeleteSolver
            && (forall i :: 0 <= i < |t| && t[i].DoOutput? ==> i < |t| - 2)
            && (forall i, j :: 0 <= i < |t| && 0 <= j < |t| && t[i] == LoggerInit && t[j].DoOutput? ==> i < j)
  {
    LifecycleLayout(s, o, n);
    LifecycleOnce(s, o, n);
    LifecycleOutputsBracketed(s, o, n);
    LifecycleLoggerInitAt(s, o, n);
  }

  /** Cleanup: logger.cleanup runs once, after the last output (which shows the
      State after every advance), then the solver is released and main returns 0. */
  lemma CleanupRule(cfg: Config, env: Env)
    requires Starts(cfg)
    ensures var t := Run(cfg, env).trace;
            && Run(cfg, env).status == 0
            && Count(t, LoggerCleanup) == 1
            && Count(t, DeleteSolver) == 1
            && |t| >= 3
            && t[|t| - 3] == DoOutput(StateView(InitialOrigin(cfg, env), StepCount(cfg)))
            && t[|t| - 2] == LoggerCleanup
            && t[|t| - 1] == DeleteSolver
            && (forall i :: 0 <= i < |t| && t[i].DoOutput? ==> i < |t| - 2)
            && (forall i, j :: 0 <= i < |t| && 0 <= j < |t| && t[i] == LoggerInit && t[j].DoOutput? ==> i < j)
  {
    var k := GetSolver(cfg.scheme).value;
    SetupEventsOnly(cfg, env, k);
    LifecycleCleanup(Setup(cfg, env, k), InitialOrigin(cfg, env), StepCount(cfg));
    RunStarted(cfg, env);
  }

  /** Output registration: the logger receives exactly Registrations(cfg), in that
      order, before logger.init. */
  lemma OutputRegistration(cfg: Config, env: Env)
    requires Starts(cfg)
    ensures var t := Run(cfg, env).trace;
            && AddedOutputs(t) == Registrations(cfg)
            && (forall i, j :: 0 <= i < |t| && 0 <= j < |t| && t[i].AddOutput? && t[j] == LoggerInit ==> i < j)
  {
    var k := GetSolver(cfg.scheme).value;
    var s := Setup(cfg, env, k);
    var o, n := InitialOrigin(cfg, env), StepCount(cfg);
    RunStarted(cfg, env);
    SetupEventsOnly(cfg, env, k);
    StartedRegistrations(cfg, env, k);
    LifecycleLoggerInitAt(s, o, n);
  }

  /** Initial State: zeroed once, right after the solver's start; the initial
      condition is loaded once, right after, exactly when a file is named; the
      first output shows the loaded fields only when that load succeeded. */
  lemma InitialStateRule(cfg: Config, env: Env)
    requires Starts(cfg)
    ensures var t := Run(cfg, env).trace;
            var at := |SolverStart(cfg, env)| + 4;
            && Count(t, ZeroState) == 1
            && Count(t, LoadInitialCondition(cfg.icFile)) == (if cfg.icFile != "" then 1 else 0)
            && (forall f :: LoadInitialCondition(f) in t ==> f == cfg.icFile && f != "")
            && t[at] == ZeroState
            && (cfg.icFile != "" ==> t[at + 1] == LoadInitialCondition(cfg.icFile))
            && |Outputs(t)| > 0
            && Outputs(t)[0] == StateView(
                 if cfg.icFile != "" && env.initialConditionLoads then LoadedFrom(cfg.icFile) else ZeroField, 0)
  {
    var k := GetSolver(cfg.scheme).value;
    var s := Setup(cfg, env, k);
    var o, n := InitialOrigin(cfg, env), StepCount(cfg);
    RunStarted(cfg, env);
    SetupEventsOnly(cfg, env, k);
    StartedStateCounts(cfg, env, k);
    StartedStatePositions(cfg, env, k);
    LifecycleOutputs(s, o, n);
  }

  /** A failed initial-condition load does not stop the run: it still takes every
      step and returns 0, with all outputs showing the zero State. */
  lemma FailedInitialConditionTolerated(cfg: Config, env: Env)
    requires Starts(cfg) && cfg.icFile != "" && !env.initialConditionLoads
    ensures var t := Run(cfg, env).trace;
            && Run(cfg, env).status == 0
            && LoadInitialCondition(cfg.icFile) in t
            && Count(t, Advance) == StepCount(cfg)
            && |Outputs(t)| == StepCount(cfg) + 1
            && (forall m :: 0 <= m < |Outputs(t)| ==> Outputs(t)[m] == StateView(ZeroField, m))
  {
    var k := GetSolver(cfg.scheme).value;
    var s := Setup(cfg, env, k);
    var n := StepCount(cfg);
    RunStarted(cfg, env);
    SetupEventsOnly(cfg, env, k);
    StartedStateCounts(cfg, env, k);
    LifecycleAdvanceCount(s, ZeroField, n);
    LifecycleOutputs(s, ZeroField, n);
  }

  /** A started run of three steps from the zero State: three advances, and four
      outputs of the zero State after 0, 1, 2 and 3 advances. */
  lemma ThreeStepsFromZero(cfg: Config, env: Env)
    requires Starts(cfg) && StepCount(cfg) == 3 && InitialOrigin(cfg, env) == ZeroField
    ensures Run(cfg, env).status == 0
    ensures Count(Run(cfg, env).trace, Advance) == 3
    ensures Outputs(Run(cfg, env).trace)
            == [StateView(ZeroField, 0), StateView(ZeroField, 1), StateView(ZeroField, 2), StateView(ZeroField, 3)]
  {
    SteppingRule(cfg, env);
    CleanupRule(cfg, env);
    FirstFourViews(Outputs(Run(cfg, env).trace), ZeroField);
  }

  /** Four outputs, each showing the State after as many advances as its position. */
  lemma FirstFourViews(views: seq<StateView>, o: Origin)
    requires |views| == 4 && forall m :: 0 <= m < |views| ==> views[m] == StateView(o, m)
    ensures views == [StateView(o, 0), StateView(o, 1), StateView(o, 2), StateView(o, 3)]
  {
    assert views[0] == StateView(o, 0) && views[3] == StateView(o, 3);
  }

  /** Scheme "Euler", spelled with a capital, three steps and no initial-condition
      file: the Euler solver is the one created, and the run takes three steps
      from the zero State. */
  lemma EulerThreeSteps(cfg: Config, env: Env)
    requires cfg.inputIsValid && !cfg.helpDesired
    requires cfg.scheme == "Euler" && cfg.numSteps == 3 && cfg.icFile == ""
    ensures Run(cfg, env).status == 0
    ensures NewSolver(Euler) in Run(cfg, env).trace
    ensures Count(Run(cfg, env).trace, Advance) == 3
    ensures Outputs(Run(cfg, env).trace)
            == [StateView(ZeroField, 0), StateView(ZeroField, 1), StateView(ZeroField, 2), StateView(ZeroField, 3)]
  {
    assert GetSolver(cfg.scheme) == Some(Euler) by { SelectionExamples(); }
    SelectedSchemeRuns(cfg, env, Euler);
    ThreeStepsFromZero(cfg, env);
  }
}
