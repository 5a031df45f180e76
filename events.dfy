/**
 * The calls main makes on its collaborators (grid, geometry, flow model,
 * time stepper, State, output sinks and Logger), recorded as events in the
 * order they happen, and the queries the driver's properties are stated with.
 */
module Events {
  import opened Scheme

  /** The three output sinks main builds, with the file-name templates it gives them. */
  datatype Sink =
    | Tecplot(fileTemplate: string, titleTemplate: string)
    | Restart(fileTemplate: string)
    | Force(file: string)

  /** One logger.addOutput(sink, period) call. */
  datatype Registration = Registration(sink: Sink, period: int)

  /** Where the fields of the State came from before stepping began. */
  datatype Origin = ZeroField | LoadedFrom(file: string)

  /** The single State x of a run, as far as the driver can see it: its
      initial fields and the number of advance calls it has been through. */
  datatype StateView = StateView(origin: Origin, advances: nat)

  datatype Event =
    | SetupGrid                          // Grid grid(nx, ny, length, xOffset, yOffset)
    | ReadGeometry(file: string)         // Geometry geom(geomFile)
    | InitModel                          // NonlinearNavierStokes model(...); model.init()
    | NewSolver(kind: SolverKind)        // GetSolver(model, dt, integratorType)
    | LoadCheckpoint(path: string)       // solver->load(path)
    | InitSolver                         // solver->init()
    | SaveCheckpoint(path: string)       // solver->save(path)
    | ZeroState                          // State x(grid, geom) with gamma, f, q set to 0
    | LoadInitialCondition(file: string) // x.load(icFile)
    | AddOutput(reg: Registration)       // logger.addOutput(&sink, period)
    | LoggerInit                         // logger.init()
    | DoOutput(x: StateView)             // logger.doOutput(x)
    | Advance                            // solver->advance(x)
    | LoggerCleanup                      // logger.cleanup()
    | DeleteSolver                       // delete solver

  /** How many times e occurs in t. */
  function Count<T(==)>(t: seq<T>, e: T): (n: nat)
    ensures n <= |t|
    ensures n == 0 <==> e !in t
  {
    if t == [] then 0 else (if t[0] == e then 1 else 0) + Count(t[1..], e)
  }

  /** The states handed to logger.doOutput, in call order. */
  function Outputs(t: seq<Event>): (xs: seq<StateView>)
    ensures |xs| <= |t|
  {
    if t == [] then []
    else (if t[0].DoOutput? then [t[0].x] else []) + Outputs(t[1..])
  }

  /** The registrations made with logger.addOutput, in call order. */
  function AddedOutputs(t: seq<Event>): (regs: seq<Registration>)
    ensures |regs| <= |t|
  {
    if t == [] then []
    else (if t[0].AddOutput? then [t[0].reg] else []) + AddedOutputs(t[1..])
  }

  /** One addOutput event per registration, in the same order. */
  function AddOutputs(regs: seq<Registration>): (t: seq<Event>)
    ensures |t| == |regs|
    ensures forall i :: 0 <= i < |regs| ==> t[i] == AddOutput(regs[i])
    ensures forall e :: e in t ==> e.AddOutput?
  {
    if regs == [] then [] else [AddOutput(regs[0])] + AddOutputs(regs[1..])
  }

  /** A trace without doOutput calls outputs nothing. */
  lemma {:induction false} NoOutputs(t: seq<Event>)
    requires forall e :: e in t ==> !e.DoOutput?
    ensures Outputs(t) == []
  {
    if t != [] {
      assert t[0] in t;
      assert forall e :: e in t[1..] ==> e in t;
      NoOutputs(t[1..]);
    }
  }

  /** A trace without addOutput calls registers nothing. */
  lemma {:induction false} NoAddedOutputs(t: seq<Event>)
    requires forall e :: e in t ==> !e.AddOutput?
    ensures AddedOutputs(t) == []
  {
    if t != [] {
      assert t[0] in t;
      assert forall e :: e in t[1..] ==> e in t;
      NoAddedOutputs(t[1..]);
    }
  }

  lemma {:induction false} CountConcat<T>(a: seq<T>, b: seq<T>, e: T)
    ensures Count(a + b, e) == Count(a, e) + Count(b, e)
  {
    if a != [] {
      assert (a + b)[1..] == a[1..] + b;
      CountConcat(a[1..], b, e);
    } else {
      assert a + b == b;
    }
  }

  lemma {:induction false} OutputsConcat(a: seq<Event>, b: seq<Event>)
    ensures Outputs(a + b) == Outputs(a) + Outputs(b)
  {
    if a != [] {
      assert (a + b)[1..] == a[1..] + b;
      OutputsConcat(a[1..], b);
    } else {
      assert a + b == b;
    }
  }

  lemma {:induction false} AddedOutputsConcat(a: seq<Event>, b: seq<Event>)
    ensures AddedOutputs(a + b) == AddedOutputs(a) + AddedOutputs(b)
  {
    if a != [] {
      assert (a + b)[1..] == a[1..] + b;
      AddedOutputsConcat(a[1..], b);
    } else {
      assert a + b == b;
    }
  }

  /** An event that stands once between two parts free of it occurs exactly once. */
  lemma CountOnce<T>(a: seq<T>, e: T, b: seq<T>)
    requires e !in a && e !in b
    ensures Count(a + [e] + b, e) == 1
  {
    CountConcat(a, [e], e);
    CountConcat(a + [e], b, e);
    assert [e][1..] == [];
  }

  /** Parts free of e add nothing to its count. */
  lemma CountMiddle<T>(a: seq<T>, m: seq<T>, b: seq<T>, e: T)
    requires e !in a && e !in b
    ensures Count(a + m + b, e) == Count(m, e)
  {
    CountConcat(a, m, e);
    CountConcat(a + m, b, e);
  }

  /** Position |a| + i of a + m + b holds m's i-th element. */
  lemma IndexMiddle<T>(a: seq<T>, m: seq<T>, b: seq<T>, i: int)
    requires 0 <= i < |m|
    ensures |a| + i < |a + m + b| && (a + m + b)[|a| + i] == m[i]
  {
  }

  lemma CountOne<T>(a: T, e: T)
    ensures Count([a], e) == if a == e then 1 else 0
  {
    assert [a][1..] == [];
  }

  lemma CountThree<T>(a: T, b: T, c: T, e: T)
    ensures Count([a, b, c], e) == (if a == e then 1 else 0) + (if b == e then 1 else 0) + (if c == e then 1 else 0)
  {
    assert [a, b, c][1..] == [b, c];
    assert [b, c][1..] == [c];
    assert [c][1..] == [];
  }

  /** Reading the registrations back out of their events gives them unchanged. */
  lemma {:induction false} AddedOutputsOfAddOutputs(regs: seq<Registration>)
    ensures AddedOutputs(AddOutputs(regs)) == regs
  {
    if regs != [] {
      var t := AddOutputs(regs);
      assert t[1..] == AddOutputs(regs[1..]);
      AddedOutputsOfAddOutputs(regs[1..]);
    }
  }

  /** Registering one more sink appends one event. */
  lemma {:induction false} AddOutputsSnoc(regs: seq<Registration>, r: Registration)
    ensures AddOutputs(regs + [r]) == AddOutputs(regs) + [AddOutput(r)]
  {
    var lhs := AddOutputs(regs + [r]);
    var rhs := AddOutputs(regs) + [AddOutput(r)];
    assert |lhs| == |rhs|;
    forall i | 0 <= i < |lhs|
      ensures lhs[i] == rhs[i]
    {
      if i < |regs| {
        assert (regs + [r])[i] == regs[i];
      }
    }
  }
}
