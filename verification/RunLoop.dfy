/** `Pipeline.execute`: the status loop over the execution order, with early exit,
    repackage mode, self-reporting stages, allowed failures and fatal failures. */
module RunLoop {
  import opened Scheduler

  datatype Status = Pending | Running | Success | Skipped | Failed

  /** What a stage told the status table about itself before returning. */
  datatype Report = Silent | SaysSuccess | SaysSkipped

  /** One call of a stage's `run`: how it ended, the world it left, and whether it set `skip_remaining`. */
  datatype Outcome<W> =
    | Returned(world: W, report: Report, skip: bool)
    | Raised(world: W, skip: bool)

  datatype Final = Unfinished | Complete | Fatal

  datatype State<N, W> = State(world: W, status: map<N, Status>, skip: bool, final: Final, repackage: bool)

  /** A stage's `run` as seen by the loop: unknown code over the world, which may read the status table. */
  type Body<!N, !W> = (N, W, map<N, Status>) -> Outcome<W>

  function Mark<N, W>(st: State<N, W>, n: N, s: Status): State<N, W> {
    st.(status := st.status[n := s])
  }

  function Settled(report: Report): Status {
    match report
    case Silent => Success
    case SaysSuccess => Success
    case SaysSkipped => Skipped
  }

  datatype Settings<!N> = Settings(allowed: set<N>, building: set<N>)

  predicate Bypassed<N(==), W>(cfg: Settings<N>, st: State<N, W>, n: N) {
    (st.repackage && n in cfg.building) || st.skip
  }

  /** The state after the loop body has handled stage `n`. */
  function Handle<N(==), W>(cfg: Settings<N>, body: Body<N, W>, st: State<N, W>, n: N): State<N, W> {
    if Bypassed(cfg, st, n) then Mark(st, n, Skipped)
    else
      match body(n, st.world, st.status[n := Running])
      case Returned(w, report, skip) => Mark(st, n, Settled(report)).(world := w, skip := st.skip || skip)
      case Raised(w, skip) =>
        Mark(st, n, Failed).(world := w, skip := st.skip || skip, final := if n in cfg.allowed then st.final else Fatal)
  }

  /** The state after the first `k` stages of the order, or after a fatal failure among them. */
  function After<N(==), W>(cfg: Settings<N>, body: Body<N, W>, order: seq<N>, start: State<N, W>, k: nat): State<N, W>
    requires k <= |order|
    decreases k
  {
    if k == 0 then start
    else
      var st := After(cfg, body, order, start, k - 1);
      if st.final == Fatal then st else Handle(cfg, body, st, order[k - 1])
  }

  /** The stages whose `run` is called among the first `k`, in order. */
  ghost function Entered<N, W>(cfg: Settings<N>, body: Body<N, W>, order: seq<N>, start: State<N, W>, k: nat): seq<N>
    requires k <= |order|
    decreases k
  {
    if k == 0 then []
    else
      var st := After(cfg, body, order, start, k - 1);
      Entered(cfg, body, order, start, k - 1)
      + if st.final == Fatal || Bypassed(cfg, st, order[k - 1]) then [] else [order[k - 1]]
  }

  /** The whole call: a fatal failure returns at once, otherwise the run is "Complete" and
      leaves repackage mode (a failed run stays in it). */
  function Execute<N(==), W>(cfg: Settings<N>, body: Body<N, W>, order: seq<N>, start: State<N, W>): State<N, W> {
    var st := After(cfg, body, order, start, |order|);
    if st.final == Fatal then st else st.(final := Complete, repackage := false)
  }

  ghost predicate Ready<N>(order: seq<N>, start: map<N, Status>) {
    && NoRepeats(order)
    && (forall n <- order :: n in start && start[n] == Pending)
  }

  /** A dependency in this state lets its dependents run. */
  ghost predicate Passed<N>(cfg: Settings<N>, status: map<N, Status>, n: N) {
    n in status && (status[n] in {Success, Skipped} || (status[n] == Failed && n in cfg.allowed))
  }

  /** The status table after `k` stages: a handled prefix and an untouched suffix. */
  ghost predicate Shape<N, W>(cfg: Settings<N>, order: seq<N>, start: State<N, W>, st: State<N, W>, k: nat)
    requires k <= |order|
  {
    && st.status.Keys == start.status.Keys
    && (forall j :: 0 <= j < k ==> Passed(cfg, st.status, order[j]))
    && (forall j :: k <= j < |order| ==> order[j] in start.status && st.status[order[j]] == start.status[order[j]])
  }

  /** Where a fatal failure struck: everything before passed, one stage failed without leave, nothing
      after was touched. */
  ghost predicate FailedAt<N, W>(cfg: Settings<N>, order: seq<N>, start: State<N, W>, st: State<N, W>, k: nat)
    requires k < |order|
  {
    && st.status.Keys == start.status.Keys
    && (forall j :: 0 <= j < k ==> Passed(cfg, st.status, order[j]))
    && order[k] in st.status && st.status[order[k]] == Failed && order[k] !in cfg.allowed
    && (forall j :: k < j < |order| ==> order[j] in start.status && st.status[order[j]] == start.status[order[j]])
  }

  lemma ShapeNext<N, W>(cfg: Settings<N>, body: Body<N, W>, order: seq<N>, start: State<N, W>, st: State<N, W>, k: nat,
                        next: State<N, W>)
    requires Ready(order, start.status) && k < |order| && st.final == Unfinished && Shape(cfg, order, start, st, k)
    requires next == Handle(cfg, body, st, order[k])
    ensures next.final != Complete
    ensures next.final == Unfinished ==> Shape(cfg, order, start, next, k + 1)
    ensures next.final == Fatal ==> FailedAt(cfg, order, start, next, k)
  {
    assert order[k] in order && order[k] in st.status;
    assert forall j :: 0 <= j < |order| && j != k ==> order[j] != order[k];
    assert next.status == st.status[order[k] := next.status[order[k]]];
  }

  lemma {:induction false} PrefixShape<N, W>(cfg: Settings<N>, body: Body<N, W>, order: seq<N>, start: State<N, W>,
                                              k: nat)
    requires Ready(order, start.status) && start.final == Unfinished && k <= |order|
    ensures var st := After(cfg, body, order, start, k);
            && (st.final == Unfinished ==> Shape(cfg, order, start, st, k))
            && st.final != Complete
            && (st.final == Fatal ==> exists j: nat :: j < k && FailedAt(cfg, order, start, st, j))
    decreases k
  {
    if k > 0 {
      PrefixShape(cfg, body, order, start, k - 1);
      var before, st := After(cfg, body, order, start, k - 1), After(cfg, body, order, start, k);
      if before.final == Unfinished {
        ShapeNext(cfg, body, order, start, before, k - 1, st);
      } else {
        var j: nat :| j < k - 1 && FailedAt(cfg, order, start, before, j);
        assert FailedAt(cfg, order, start, st, j);
      }
    }
  }

  /** Whenever the loop enters a stage's `run`, every transitive dependency of that stage
      has succeeded, was skipped, or failed with leave to fail. */
  lemma EnteredOnlyWhenReady<N(!new), W>(cfg: Settings<N>, body: Body<N, W>, deps: map<N, seq<N>>, order: seq<N>,
                                         start: State<N, W>, k: nat, d: N)
    requires Ready(order, start.status) && start.final == Unfinished
    requires Topological(deps, order) && k < |order| && DependsOn(deps, order[k], d)
    requires After(cfg, body, order, start, k).final == Unfinished
    ensures Passed(cfg, After(cfg, body, order, start, k).status, d)
  {
    PrefixShape(cfg, body, order, start, k);
    DependenciesComeFirst(deps, order, k, d);
  }

  /** How a run can end: "Complete" with every stage passed and repackage mode left, or
      "Failed" at one stage, with a passed prefix, an untouched suffix and the mode kept. */
  lemma RunEnds<N, W>(cfg: Settings<N>, body: Body<N, W>, order: seq<N>, start: State<N, W>)
    requires Ready(order, start.status) && start.final == Unfinished
    ensures var st := Execute(cfg, body, order, start);
            || (st.final == Complete && !st.repackage && forall n <- order :: Passed(cfg, st.status, n))
            || (st.final == Fatal && exists k: nat :: k < |order| && FailedAt(cfg, order, start, st, k))
    ensures Execute(cfg, body, order, start).final == Fatal ==>
        Execute(cfg, body, order, start).repackage == start.repackage
  {
    PrefixShape(cfg, body, order, start, |order|);
    ModeIsKept(cfg, body, order, start, |order|);
  }

  lemma {:induction false} ModeIsKept<N, W>(cfg: Settings<N>, body: Body<N, W>, order: seq<N>, start: State<N, W>,
                                             k: nat)
    requires k <= |order|
    ensures After(cfg, body, order, start, k).repackage == start.repackage
    decreases k
  {
    if k > 0 {
      ModeIsKept(cfg, body, order, start, k - 1);
    }
  }

  /** What the skipping of stages `j` to `k` leaves. */
  ghost predicate Skips<N, W>(order: seq<N>, now: State<N, W>, later: State<N, W>, j: nat, k: nat)
    requires j <= k <= |order|
  {
    && later.skip && later.final == Unfinished && later.world == now.world
    && (forall m :: j <= m < k ==> order[m] in later.status && later.status[order[m]] == Skipped)
    && (forall m :: 0 <= m < j && order[m] in now.status ==>
          order[m] in later.status && later.status[order[m]] == now.status[order[m]])
  }

  lemma SkipsNext<N, W>(order: seq<N>, now: State<N, W>, later: State<N, W>, j: nat, k: nat)
    requires NoRepeats(order) && j <= k < |order| && Skips(order, now, later, j, k)
    ensures Skips(order, now, Mark(later, order[k], Skipped), j, k + 1)
  {
    assert forall m :: 0 <= m < k ==> order[m] != order[k];
  }

  /** Once `skip_remaining` is set no later `run` is entered: the world stays as it was and every
      later stage is Skipped. */
  lemma {:induction false} SkipIsFinal<N, W>(cfg: Settings<N>, body: Body<N, W>, order: seq<N>, start: State<N, W>,
                                                j: nat, k: nat)
    requires NoRepeats(order) && j <= k <= |order|
    requires After(cfg, body, order, start, j).skip && After(cfg, body, order, start, j).final == Unfinished
    ensures Skips(order, After(cfg, body, order, start, j), After(cfg, body, order, start, k), j, k)
    decreases k
  {
    if j < k {
      SkipIsFinal(cfg, body, order, start, j, k - 1);
      SkipsNext(order, After(cfg, body, order, start, j), After(cfg, body, order, start, k - 1), j, k - 1);
    }
  }

  /** So a run in which it has been set completes with the files it had then. */
  lemma RestSkipped<N, W>(cfg: Settings<N>, body: Body<N, W>, order: seq<N>, start: State<N, W>, j: nat,
                          now: State<N, W>)
    requires NoRepeats(order) && j <= |order| && now == After(cfg, body, order, start, j)
    requires now.skip && now.final == Unfinished
    ensures var st := Execute(cfg, body, order, start);
            && st.final == Complete && st.world == now.world
            && (forall m :: j <= m < |order| ==> order[m] in st.status && st.status[order[m]] == Skipped)
            && (forall m :: 0 <= m < j && order[m] in now.status ==>
                  order[m] in st.status && st.status[order[m]] == now.status[order[m]])
  {
    SkipIsFinal(cfg, body, order, start, j, |order|);
  }

  lemma AfterNext<N, W>(cfg: Settings<N>, body: Body<N, W>, order: seq<N>, start: State<N, W>, k: nat)
    requires k < |order|
    ensures var st := After(cfg, body, order, start, k);
            After(cfg, body, order, start, k + 1) == if st.final == Fatal then st else Handle(cfg, body, st, order[k])
  {
  }

  /** A fatal failure is where the run ends. */
  lemma FatalIsLast<N, W>(cfg: Settings<N>, body: Body<N, W>, order: seq<N>, start: State<N, W>, j: nat)
    requires j <= |order| && After(cfg, body, order, start, j).final == Fatal
    ensures Execute(cfg, body, order, start) == After(cfg, body, order, start, j)
  {
    StaysFatal(cfg, body, order, start, j);
  }

  /** The run state that `execute` updates in place. */
  class Run<N(==), W> {
    var world: W
    var nodeStates: map<N, Status>
    var skipRemaining: bool
    var finalStatus: Final
    var repackageOnlyActive: bool
    ghost var entered: seq<N>

    ghost function Now(): State<N, W>
      reads this
    {
      State(world, nodeStates, skipRemaining, finalStatus, repackageOnlyActive)
    }

    constructor (world: W, nodeStates: map<N, Status>, repackage: bool)
      ensures Now() == State(world, nodeStates, false, Unfinished, repackage) && entered == []
    {
      this.world, this.nodeStates, skipRemaining, finalStatus := world, nodeStates, false, Unfinished;
      repackageOnlyActive, entered := repackage, [];
    }

    method UpdateNodeStatus(n: N, s: Status)
      modifies `nodeStates
      ensures nodeStates == old(nodeStates)[n := s]
    {
      nodeStates := nodeStates[n := s];
    }

    /** One turn of the loop, past the two `continue` tests: enter the stage and settle its status. */
    method Enter(n: N, cfg: Settings<N>, body: Body<N, W>)
      requires !Bypassed(cfg, Now(), n)
      modifies this
      ensures Now() == Handle(cfg, body, old(Now()), n)
      ensures entered == old(entered) + [n]
    {
      UpdateNodeStatus(n, Running);
      entered := entered + [n];
      var outcome := body(n, world, nodeStates);
      world, skipRemaining := outcome.world, skipRemaining || outcome.skip;
      if outcome.Returned? {
        UpdateNodeStatus(n, Settled(outcome.report));
      } else {
        UpdateNodeStatus(n, Failed);
        if n !in cfg.allowed {
          finalStatus := Fatal;
        }
      }
      assert nodeStates == old(nodeStates)[n := nodeStates[n]];
    }

    /** One turn of the loop. */
    method Turn(n: N, cfg: Settings<N>, body: Body<N, W>, repackageMode: bool)
      requires repackageMode == repackageOnlyActive
      modifies this
      ensures Now() == Handle(cfg, body, old(Now()), n)
      ensures entered == old(entered) + if Bypassed(cfg, old(Now()), n) then [] else [n]
    {
      if (repackageMode && n in cfg.building) || skipRemaining {
        UpdateNodeStatus(n, Skipped);
      } else {
        Enter(n, cfg, body);
      }
    }

    /** `execute` itself; `entered` lists the stages whose `run` was called, in order. */
    method Go(order: seq<N>, cfg: Settings<N>, body: Body<N, W>)
      modifies this
      ensures var start := State(old(world), old(nodeStates), false, Unfinished, old(repackageOnlyActive));
              && Now() == Execute(cfg, body, order, start)
              && entered == Entered(cfg, body, order, start, |order|)
    {
      ghost var start := State(world, nodeStates, false, Unfinished, repackageOnlyActive);
      skipRemaining, finalStatus, entered := false, Unfinished, [];
      var repackageMode := repackageOnlyActive;
      for k := 0 to |order|
        invariant Now() == After(cfg, body, order, start, k)
        invariant finalStatus == Unfinished && repackageOnlyActive == repackageMode
        invariant entered == Entered(cfg, body, order, start, k)
      {
        TurnSteps(cfg, body, order, start, k);
        Turn(order[k], cfg, body, repackageMode);
        if finalStatus == Fatal {
          StaysFatal(cfg, body, order, start, k + 1);
          return;
        }
      }
      finalStatus, repackageOnlyActive := Complete, false;
    }
  }

  /** What a turn of the loop adds to the history of a run that has not ended. */
  lemma TurnSteps<N, W>(cfg: Settings<N>, body: Body<N, W>, order: seq<N>, start: State<N, W>, k: nat)
    requires k < |order| && start.final == Unfinished && After(cfg, body, order, start, k).final == Unfinished
    ensures var st, next := After(cfg, body, order, start, k), After(cfg, body, order, start, k + 1);
            && next == Handle(cfg, body, st, order[k]) && next.final != Complete && next.repackage == start.repackage
            && Entered(cfg, body, order, start, k + 1)
               == Entered(cfg, body, order, start, k) + if Bypassed(cfg, st, order[k]) then [] else [order[k]]
  {
    AfterNext(cfg, body, order, start, k);
    ModeIsKept(cfg, body, order, start, k + 1);
    NeverComplete(cfg, body, order, start, k + 1);
  }

  lemma {:induction false} NeverComplete<N, W>(cfg: Settings<N>, body: Body<N, W>, order: seq<N>, start: State<N, W>,
                                                k: nat)
    requires k <= |order| && start.final == Unfinished
    ensures After(cfg, body, order, start, k).final != Complete
    decreases k
  {
    if k > 0 {
      NeverComplete(cfg, body, order, start, k - 1);
    }
  }

  lemma {:induction false} StaysFatal<N, W>(cfg: Settings<N>, body: Body<N, W>, order: seq<N>, start: State<N, W>,
                                            j: nat)
    requires j <= |order| && After(cfg, body, order, start, j).final == Fatal
    ensures After(cfg, body, order, start, |order|) == After(cfg, body, order, start, j)
    ensures Entered(cfg, body, order, start, |order|) == Entered(cfg, body, order, start, j)
    decreases |order| - j
  {
    if j < |order| {
      StaysFatal(cfg, body, order, start, j + 1);
    }
  }
}
