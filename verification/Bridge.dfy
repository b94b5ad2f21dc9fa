/** From the programs to the runs: what ReleaseController.Reconcile and
    ChartController.Reconcile do is a run of the machine, so every theorem about runs and
    reachable states holds between and during them. */
module Bridge {
  import opened Types
  import opened Machine
  import opened Invariant
  import D = Drain
  import R = ReleaseController
  import C = ChartRun

  ghost predicate IsRun(w: World, urlOk: string -> bool, v: World) {
    exists actions :: v == Run(w, urlOk, actions)
  }

  lemma RunsCompose(w: World, urlOk: string -> bool, v: World, u: World)
    requires IsRun(w, urlOk, v) && IsRun(v, urlOk, u)
    ensures IsRun(w, urlOk, u)
  {
    var front :| v == Run(w, urlOk, front);
    var rest :| u == Run(v, urlOk, rest);
    D.RunAppend(w, urlOk, front, rest);
  }

  lemma ActionIsRun(w: World, urlOk: string -> bool, a: Action)
    ensures IsRun(w, urlOk, Apply(w, urlOk, a))
  {
    hide Apply;
    assert Run(w, urlOk, [a][..0]) == w;
    assert Apply(w, urlOk, a) == Run(w, urlOk, [a]);
  }

  lemma NothingIsRun(w: World, urlOk: string -> bool)
    ensures IsRun(w, urlOk, w)
  {
    assert w == Run(w, urlOk, []);
  }

  lemma {:induction false} ReleaseStepsAreRun(w: World, urlOk: string -> bool, id: ProxyId,
                                              env: ReleasePc -> ReleaseEnv, n: nat)
    ensures IsRun(w, urlOk, R.Through(w, id, env, n))
  {
    hide IsRun, StepRelease;
    if n == 0 {
      NothingIsRun(w, urlOk);
    } else {
      ReleaseStepsAreRun(w, urlOk, id, env, n - 1);
      var v := R.Through(w, id, env, n - 1);
      if id in v.releaseJobs {
        var e := env(v.releaseJobs[id].pc);
        assert Apply(v, urlOk, ReleaseReconcile(id, e)) == StepRelease(v, id, v.releaseJobs[id], e);
        ActionIsRun(v, urlOk, ReleaseReconcile(id, e));
        RunsCompose(w, urlOk, v, R.Through(w, id, env, n));
      }
    }
  }

  lemma {:induction false} ChartStepsAreRun(w: World, urlOk: string -> bool, key: ObjectKey, es: seq<ChartEnv>)
    ensures IsRun(w, urlOk, C.Steps(w, urlOk, key, es))
    decreases |es|
  {
    hide IsRun, StepChart;
    if es == [] {
      NothingIsRun(w, urlOk);
    } else {
      var front, e := es[..|es| - 1], es[|es| - 1];
      ChartStepsAreRun(w, urlOk, key, front);
      var v := C.Steps(w, urlOk, key, front);
      if key in v.chartJobs {
        assert Apply(v, urlOk, ChartReconcile(key, e)) == StepChart(v, urlOk, key, v.chartJobs[key], e);
        ActionIsRun(v, urlOk, ChartReconcile(key, e));
        RunsCompose(w, urlOk, v, C.Steps(w, urlOk, key, es));
      }
    }
  }

  /** What ReleaseController.Reconcile ensures is a run, and keeps the invariant. */
  lemma ReleaseReconcileIsRun(w: World, urlOk: string -> bool, id: ProxyId, env: ReleasePc -> ReleaseEnv, v: World)
    requires id !in w.releaseJobs && R.OnTheWay(R.Begun(w, id), id, env, v)
    ensures IsRun(w, urlOk, v)
    ensures Inv(w, urlOk) ==> Inv(v, urlOk)
  {
    hide IsRun, Inv, Run;
    var n: nat :| v == R.Through(R.Begun(w, id), id, env, n);
    var e := env(PatchConditions);
    assert R.Begun(w, id) == Apply(w, urlOk, ReleaseReconcile(id, e));
    ActionIsRun(w, urlOk, ReleaseReconcile(id, e));
    ReleaseStepsAreRun(R.Begun(w, id), urlOk, id, env, n);
    RunsCompose(w, urlOk, R.Begun(w, id), v);
    IsRunKeepsInv(w, urlOk, v);
  }

  /** What ChartController.Reconcile ensures is a run, and keeps the invariant. */
  lemma ChartReconcileIsRun(w: World, urlOk: string -> bool, key: ObjectKey, o: C.Oracle, v: World)
    requires key !in w.chartJobs && C.OnTheWay(C.Begun(w, key), urlOk, key, o, v)
    ensures IsRun(w, urlOk, v)
    ensures Inv(w, urlOk) ==> Inv(v, urlOk)
  {
    hide IsRun, Inv, Run;
    var es :| C.Obeys(C.Begun(w, key), urlOk, key, o, es) && v == C.Steps(C.Begun(w, key), urlOk, key, es);
    var e := ChartEnv(true, 0, key, None);
    assert C.Begun(w, key) == Apply(w, urlOk, ChartReconcile(key, e));
    ActionIsRun(w, urlOk, ChartReconcile(key, e));
    ChartStepsAreRun(C.Begun(w, key), urlOk, key, es);
    RunsCompose(w, urlOk, C.Begun(w, key), v);
    IsRunKeepsInv(w, urlOk, v);
  }

  lemma IsRunKeepsInv(w: World, urlOk: string -> bool, v: World)
    requires IsRun(w, urlOk, v)
    ensures Inv(w, urlOk) ==> Inv(v, urlOk)
  {
    hide Inv;
    var actions :| v == Run(w, urlOk, actions);
    if Inv(w, urlOk) {
      RunKeepsInv(w, urlOk, actions);
    }
  }
}
