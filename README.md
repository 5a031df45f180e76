# IBPM driver: scheme selection and the main control skeleton

IBPM (Immersed Boundary Projection Method) is a flow solver. Its driver
`src/ibpm.cc` reads run parameters and builds the grid, the geometry and a
Navier-Stokes model. It then picks a time-stepping scheme by name, warm- or
cold-starts the solver from a checkpoint, and sets up an initial State x. It
registers the output sinks whose period is positive, and runs the stepping
loop under a logger.

This project models two things:

- `GetSolver`, in module `Scheme`. It lower-cases the scheme name and
  selects Euler, AB2, RK2 or RK3. Any other name selects nothing, and the
  program then exits with status 1.
- The control skeleton of `main`, in module `Driver`. The collaborator calls
  that order the run are `Event`s appended to a trace: building the grid,
  reading the geometry, initialising the model, creating the solver, its
  load/init/save, zeroing and loading the State, `addOutput`, `init`,
  `doOutput` and `cleanup` on the logger, `advance`, and deleting the solver.
  Calls that only feed console output or construct values are not events
  (see "## Left out"). The answers that steer the control flow are inputs:
  - `Config.inputIsValid` and `Config.helpDesired` come from the parameter
    parser;
  - `Env.checkpointLoads` is the result of `solver->load`;
  - `Env.initialConditionLoads` is the result of `x.load`.

  The State is seen only as a `StateView`: where its fields came from (zero,
  or the initial-condition file) and how many times it has been advanced.

`Driver.Execute` is the imperative form of `main`, built from the methods
`StartSolver`, `InitialState`, `RegisterOutputs` and `Integrate`. It is
proved to produce exactly `Driver.Run(cfg, env)`, the exit status and the
trace. Module `DriverProperties` proves what `main` promises about that
outcome:

- invalid parameters exit before any grid, model or solver is built (the output directory already exists by then: `mkdir` runs at line 62 of `src/ibpm.cc`);
- an unknown scheme exits after the model is built;
- the chosen scheme is the only solver created;
- the cold/warm start logic;
- the initial State, including a tolerated failed load;
- which sinks are registered, in which order;
- the stepping loop's advances and outputs, and the cleanup order.

Module `Events` holds the event datatype and the trace queries (`Count`,
`Outputs`, `AddedOutputs`) with their algebra. Module `Wrappers` holds
`Option`.

## Model

| member | source | states |
|---|---|---|
| Scheme.Lowercase | src/ibpm.cc:174 | MakeLowercase keeps the length of the name; every character is lowered pointwise (A-Z to a-z, others kept); and the result holds no upper-case letter |
| Scheme.GetSolver | src/ibpm.cc:169-191 | a scheme is selected exactly when the lower-cased name is its name ("euler", "ab2", "rk2", "rk3"), and nothing is selected exactly when the lower-cased name is none of the four |
| Scheme.LowercaseIdempotent | src/ibpm.cc:174 | lower-casing an already lower-cased name changes nothing |
| Scheme.LowercaseKeepsLower | src/ibpm.cc:174 | a name without upper-case letters is left as it is |
| Scheme.SelectionIsCaseInsensitive | src/ibpm.cc:174-186 | any name selects the same scheme as its lower-case form |
| Scheme.SchemeNameSelects | src/ibpm.cc:175-186 | each of the four names selects its own scheme |
| Scheme.SpellingsSelect | src/ibpm.cc:174-186 | a name selects scheme k if and only if its lower-case form is k's name |
| Scheme.SelectionExamples | src/ibpm.cc:174-190 | "RK2", "Euler", "AB2" and "rK3" select their schemes; "bogus" and "" select nothing |
| Driver.StartSolver | src/ibpm.cc:110-113 | the events are a load of outdir+name, then, only when that load fails, init and a save to the same path |
| Driver.InitialState | src/ibpm.cc:115-128 | the State is zeroed; the initial-condition file is loaded only when one is named; the State comes from that file only when the load succeeds, and from zero otherwise |
| Driver.RegisterOutputs | src/ibpm.cc:130-148 | the events are one addOutput per sink whose period is positive, with that period, in the order tecplot, restart, force, and nothing else |
| Driver.Integrate | src/ibpm.cc:154-163 | the loop advances the State max(numSteps, 0) times in place, and its events are the alternation advance, doOutput of the State just advanced |
| Driver.Execute | src/ibpm.cc:34-167 | main's status and trace are exactly Run(cfg, env): the exit, solver start, initial State, registration, stepping and cleanup behaviour the DriverProperties lemmas prove |
| DriverProperties.RegistrationRule | src/ibpm.cc:131-148 | the tecplot, restart and force sinks are each registered if and only if their period is positive; every registration carries its sink's period; they come in the fixed order tecplot, restart, force |
| DriverProperties.StepsShape | src/ibpm.cc:154-163 | the loop's events alternate: an advance at each even position, then the output of the State advanced i/2+1 times |
| DriverProperties.StepsCounts | src/ibpm.cc:154-163 | n rounds of the loop advance n times and output the States after 1..n advances, in order |
| DriverProperties.InvalidInputExits | src/ibpm.cc:72-75 | invalid parameters or a help request give exit status 1 before any grid, model or solver exists |
| DriverProperties.UnknownSchemeExits | src/ibpm.cc:89-190 | a name that lower-cases to none of the four schemes gives exit status 1 after the grid, geometry and model are set up, with no solver, output or step |
| DriverProperties.BogusSchemeExits | src/ibpm.cc:187-190 | the scheme "bogus" exits with status 1 and takes no step |
| DriverProperties.SelectedSchemeRuns | src/ibpm.cc:169-186 | a name whose lower-case form is scheme k's name leads to status 0 and exactly one solver creation, of scheme k, and none of any other scheme |
| DriverProperties.ColdOrWarmStart | src/ibpm.cc:110-113 | the checkpoint at outdir+name is loaded exactly once, right after solver creation; init and save happen once each, right after that load, exactly when it fails; every load and every save uses outdir+name; all of this precedes every advance |
| DriverProperties.InitialStateRule | src/ibpm.cc:115-150 | the State is zeroed once, right after the solver start; the named initial-condition file is loaded once, right after, and only a non-empty name is ever loaded; the first output shows the loaded State exactly when the file is named and loads, and the zero State otherwise |
| DriverProperties.FailedInitialConditionTolerated | src/ibpm.cc:120-125 | when the named initial-condition file fails to load, the run still takes every step and exits with 0, and every output shows the zero State |
| DriverProperties.OutputRegistration | src/ibpm.cc:130-149 | the logger receives exactly the registrations of RegistrationRule, all before logger.init |
| DriverProperties.LoggerInitRule | src/ibpm.cc:149-156 | logger.init runs exactly once; right after it comes the output of the initial State, and it precedes every advance |
| DriverProperties.SteppingRule | src/ibpm.cc:150-163 | advance runs max(numSteps, 0) times and doOutput one more time; the m-th output shows the initial State advanced m times; each advance is immediately followed by an output |
| DriverProperties.CleanupRule | src/ibpm.cc:162-166 | main returns 0; logger.cleanup and the solver's release happen once each, as the last two events, right after the output of the fully advanced State; every output comes after logger.init and before cleanup |
| DriverProperties.ThreeStepsFromZero | src/ibpm.cc:150-163 | three steps from the zero State give three advances and outputs of the zero State advanced 0, 1, 2 and 3 times |
| DriverProperties.EulerThreeSteps | src/ibpm.cc:107-163 | scheme "Euler", three steps and no initial-condition file: status 0; an Euler solver is created; three advances; four outputs of the zero State |

## Left out

- Parameter parsing (`ParmParser`, defaults, `getParameters`) is left out: its only effect on control flow is the valid/help verdict and the parsed values, which are `Config` inputs.
- `AddSlashToPath` is not part of this model: `Config.outdir` stands for the directory after a trailing slash has been ensured.
- `mkdir` of the output directory is left out: it runs unconditionally at line 62, before the validity exit at lines 72-75, so even a run that exits with status 1 has created the directory; its result is ignored by the source.
- Console output (`cout`/`cerr`, `printUsage`) is left out, including the per-step force print and the `computeNetForce` call that only feeds it.
- The numerics are left out: grid and geometry construction, the uniform background flux, the Navier-Stokes model and the scheme bodies (`advance`, `init`, `load`, `save`). They are opaque events; a loaded State is identified by its file name, and an advanced one by its advance count.
- The Logger's own rule for when a registered sink fires at a given step, and the sinks' file formats, are left out: the model records each `doOutput` and the registrations the logger receives.
- `Scheme.Lowercase`: the body of `MakeLowercase` is not part of this model; it is modelled as ASCII upper-case letters A-Z lowered, every other character kept.
- `Driver.InitialState`: when the initial-condition load fails, the State is taken to stay zero. The source prints "using zero initial condition" and does not re-zero the fields a partial load may have written.
- `Driver.Integrate`: the loop counter is an unbounded integer. The C++ `int i` with `++i` overflows when `numSteps` is the largest `int`, and that case is not modelled.
- `delete solver` is an event; destructor effects and memory are not modelled.
- Calls that are not events: `geom.getNumPoints()` (line 94), `Flux::UniformFlow` (line 100), `solver->getName()` (line 108), the constructors of the three sinks (lines 131-133) and of the `Logger` (line 135). They only construct values or feed console output; the sinks appear as the values carried by `addOutput` events.
