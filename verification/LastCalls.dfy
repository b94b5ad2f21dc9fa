/** The most recent Helm call of a proxy, recorded or not: while a Continuous or unset proxy is
    Ready at its current generation, that call was made with its current spec. */
module LastCalls {
  import opened Types
  import opened Admission
  import opened Helm
  import opened Phases
  import opened ReleaseFlow
  import opened Machine
  import opened StoreInvariant
  import opened ReleaseInvariant
  import opened ContentInvariant
  import opened Invariant
  import opened Runs
  import D = Drain

  /** The most recent install/upgrade call made for a proxy. */
  function LastCall(log: seq<Event>, id: ProxyId): Option<Call> {
    if log == [] then None
    else
      var e := log[|log| - 1];
      if e.Applied? && e.id == id then Some(e.call) else LastCall(log[..|log| - 1], id)
  }

  lemma LastCallAppend(log: seq<Event>, e: Event, id: ProxyId)
    ensures LastCall(log + [e], id) == if e.Applied? && e.id == id then Some(e.call) else LastCall(log, id)
  {
    assert (log + [e])[..|log|] == log;
  }

  /** Ready at the current generation, under a strategy that keeps the release up to date. */
  ghost predicate ReadyNow(p: ReleaseProxy) {
    p.spec.strategy != InstallOnce && !p.deleting && p.status.ready == IsTrue &&
    p.status.observedGeneration == p.generation
  }

  ghost predicate CurrentOk(log: seq<Event>, id: ProxyId, p: ReleaseProxy) {
    ReadyNow(p) ==> LastCall(log, id).Some? && LastCall(log, id).value.spec == p.spec
  }

  ghost predicate JobCurrent(log: seq<Event>, proxies: Proxies, id: ProxyId, j: ReleaseJob) {
    && (j.call.Some? ==> LastCall(log, id) == j.call)
    && (id in proxies ==> proxies[id].status.observedGeneration <= j.base.generation)
  }

  ghost predicate LastInv(w: World) {
    && (forall id <- w.proxies :: CurrentOk(w.history.log, id, w.proxies[id]))
    && (forall id <- w.releaseJobs :: JobCurrent(w.history.log, w.proxies, id, w.releaseJobs[id]))
  }

  /** A write by anyone else moves the generation on or leaves everything as it is. */
  lemma ForeignKeepsLast(w: World, urlOk: string -> bool, id: ProxyId, q: ReleaseProxy)
    requires Inv(w, urlOk) && LastInv(w) && id in w.proxies && ForeignWrite(w.proxies[id], q)
    ensures LastInv(WriteProxy(w, id, q))
  {
    assert StatusOk(w.proxies[id]) by {
      assert ContentOk(w.history, id, w.proxies[id]);
    }
    hide Inv;
    assert CurrentOk(w.history.log, id, w.proxies[id]);
    ForeignStaysCurrent(w.history.log, id, w.proxies[id], q, w.clock);
    hide Stamp, ForeignWrite, CurrentOk;
    var w' := WriteProxy(w, id, q);
    forall i <- w'.proxies ensures CurrentOk(w'.history.log, i, w'.proxies[i]) {
      assert CurrentOk(w.history.log, i, w.proxies[i]);
    }
    forall i <- w'.releaseJobs ensures JobCurrent(w'.history.log, w'.proxies, i, w'.releaseJobs[i]) {
      assert JobCurrent(w.history.log, w.proxies, i, w.releaseJobs[i]);
    }
  }

  lemma ForeignStaysCurrent(log: seq<Event>, id: ProxyId, p: ReleaseProxy, q: ReleaseProxy, clock: nat)
    requires CurrentOk(log, id, p) && StatusOk(p) && ForeignWrite(p, q)
    ensures CurrentOk(log, id, Stamp(p, q, clock))
    ensures Stamp(p, q, clock).status.observedGeneration == p.status.observedGeneration
  {
  }

  lemma AlikeKeepsLast(w: World, v: World)
    requires LastInv(w) && Alike(w, v)
    ensures LastInv(v)
  {
  }

  lemma DeleteKeepsLast(w: World, urlOk: string -> bool, id: ProxyId)
    requires Inv(w, urlOk) && LastInv(w)
    ensures LastInv(DeleteProxy(w, id))
  {
    if id in w.proxies {
      ForeignKeepsLast(w, urlOk, id, w.proxies[id].(deleting := true));
    }
  }

  lemma CreateKeepsLast(w: World, urlOk: string -> bool, key: ObjectKey, j: ChartJob)
    requires Inv(w, urlOk) && LastInv(w) && At(w, urlOk, key, j) && j.pc.CreateProxy?
    ensures LastInv(Created(w, key, j.pc.cluster, j.base.spec, j.pc.proxy))
  {
    JobIsOk(w, urlOk, key, j);
    var w' := Created(w, key, j.pc.cluster, j.base.spec, j.pc.proxy);
    assert !ReadyNow(w'.proxies[w.clock]);
    forall i <- w'.releaseJobs ensures JobCurrent(w'.history.log, w'.proxies, i, w'.releaseJobs[i]) {
      assert JobCurrent(w.history.log, w.proxies, i, w.releaseJobs[i]);
      ReleaseJobIsOk(w, i);
    }
  }

  lemma ChartStepKeepsLast(w: World, urlOk: string -> bool, key: ObjectKey, e: ChartEnv)
    requires Inv(w, urlOk) && LastInv(w) && key in w.chartJobs
    ensures LastInv(StepChart(w, urlOk, key, w.chartJobs[key], e))
  {
    hide StoreInv, ReleaseSide, StepChart, LastInv, WriteProxy, Created;
    var j := w.chartJobs[key];
    var w' := StepChart(w, urlOk, key, j, e);
    ChartStepEffect(w, urlOk, key, j, e);
    if Alike(w, w') {
      AlikeKeepsLast(w, w');
    } else if j.pc.DeleteOrphans? || j.pc.DeleteForReinstall? || j.pc.Teardown? {
      DeleteKeepsLast(w, urlOk, Victim(j, e));
      AlikeKeepsLast(DeleteProxy(w, Victim(j, e)), w');
    } else if j.pc.CreateProxy? {
      CreateKeepsLast(w, urlOk, key, j);
      AlikeKeepsLast(Created(w, key, j.pc.cluster, j.base.spec, j.pc.proxy), w');
    } else {
      UpdateIsForeign(w, urlOk, key, j);
      ForeignKeepsLast(w, urlOk, j.pc.id, Overwrite(w.proxies[j.pc.id], j.pc.proxy));
      AlikeKeepsLast(WriteProxy(w, j.pc.id, Overwrite(w.proxies[j.pc.id], j.pc.proxy)), w');
    }
  }

  /* ---- release reconciles ---- */

  /** A Helm call is made with the spec that is stored, if the stored object is Ready. */
  lemma CallIsCurrent(w: World, urlOk: string -> bool, id: ProxyId)
    requires Inv(w, urlOk) && LastInv(w) && id in w.releaseJobs && id in w.proxies
    requires w.releaseJobs[id].pc.CallHelm? && ReadyNow(w.proxies[id])
    ensures w.releaseJobs[id].local.spec == w.proxies[id].spec
  {
    ReleaseJobIsOk(w, id);
    hide Inv;
    assert JobCurrent(w.history.log, w.proxies, id, w.releaseJobs[id]);
  }

  /** The reconcile of `id` moves on without a write, perhaps after a Helm operation. */
  ghost predicate MovesOn(w: World, w': World, id: ProxyId, event: Event) {
    && w'.proxies == w.proxies
    && (w'.history.log == w.history.log || w'.history.log == w.history.log + [event])
    && w'.releaseJobs.Keys == w.releaseJobs.Keys
    && (forall i <- w.releaseJobs :: i != id ==> w'.releaseJobs[i] == w.releaseJobs[i])
    && (id in w.releaseJobs ==> w'.releaseJobs[id].base == w.releaseJobs[id].base)
    && (event.Applied? ==> event.id == id)
  }

  lemma MovingOnKeepsLast(w: World, w': World, id: ProxyId, event: Event)
    requires LastInv(w) && id in w.releaseJobs && MovesOn(w, w', id, event)
    requires w'.history.log != w.history.log && event.Applied? ==> w'.releaseJobs[id].call == Some(event.call)
    requires w'.history.log == w.history.log || !event.Applied? ==> w'.releaseJobs[id].call.None?
    requires event.Applied? && id in w.proxies && ReadyNow(w.proxies[id]) ==> event.call.spec == w.proxies[id].spec
    ensures LastInv(w')
  {
    forall i <- w'.proxies ensures CurrentOk(w'.history.log, i, w'.proxies[i]) {
      assert CurrentOk(w.history.log, i, w.proxies[i]);
      LastCallAppend(w.history.log, event, i);
    }
    forall i <- w'.releaseJobs ensures JobCurrent(w'.history.log, w'.proxies, i, w'.releaseJobs[i]) {
      assert JobCurrent(w.history.log, w.proxies, i, w.releaseJobs[i]);
      LastCallAppend(w.history.log, event, i);
    }
  }

  lemma AfterCallKeepsLast(w: World, id: ProxyId, j: ReleaseJob, r: CallResult)
    requires LastInv(w) && id in w.releaseJobs && w.releaseJobs[id] == j
    requires id in w.proxies && ReadyNow(w.proxies[id]) ==> j.local.spec == w.proxies[id].spec
    ensures LastInv(AfterCall(w, id, j, r))
  {
    hide LastInv, ReadyNow, AfterHelm, MarkNameGenerated, Stakes;
    MovingOnKeepsLast(w, AfterCall(w, id, j, r), id, Applied(id, Call(j.local.spec, r.outcome)));
  }

  lemma CallKeepsLast(w: World, urlOk: string -> bool, id: ProxyId, e: ReleaseEnv)
    requires Inv(w, urlOk) && LastInv(w) && id in w.releaseJobs && w.releaseJobs[id].pc.CallHelm?
    ensures LastInv(StepCallHelm(w, id, w.releaseJobs[id], e))
  {
    var j := w.releaseJobs[id];
    ReleaseJobIsOk(w, id);
    assert j.call.None?;
    hide Inv, HelmResult, AfterCall, Jump, LastInv, ReadyNow, ReleaseJobOk;
    if id in w.proxies && ReadyNow(w.proxies[id]) {
      CallIsCurrent(w, urlOk, id);
    }
    JumpMovesOn(w, id, j, FinishRelease, Event.Uninstalled(id, j.base.spec));
    AfterCallKeepsLast(w, id, j, HelmResult(w, j.local.spec, e.helm));
  }

  lemma JumpMovesOn(w: World, id: ProxyId, j: ReleaseJob, pc: ReleasePc, event: Event)
    requires LastInv(w) && id in w.releaseJobs && j.base == w.releaseJobs[id].base && j.call.None? && !event.Applied?
    ensures LastInv(Jump(w, id, j, pc))
    ensures forall releases, claims :: LastInv(Jump(HelmWrites(w, releases, event, claims), id, j, pc))
  {
    MovingOnKeepsLast(w, Jump(w, id, j, pc), id, event);
    forall releases, claims ensures LastInv(Jump(HelmWrites(w, releases, event, claims), id, j, pc)) {
      MovingOnKeepsLast(w, Jump(HelmWrites(w, releases, event, claims), id, j, pc), id, event);
    }
  }

  lemma OtherStepsKeepLast(w: World, id: ProxyId, e: ReleaseEnv)
    requires LastInv(w) && JobsOk(w) && id in w.releaseJobs
    ensures var j := w.releaseJobs[id];
      && (j.pc.GetCluster? ==> LastInv(StepGetCluster(w, id, j, e)))
      && (j.pc.GetClusterForDelete? ==> LastInv(StepGetClusterForDelete(w, id, j, e)))
      && (j.pc.Uninstall? ==> LastInv(StepUninstall(w, id, j, e)))
  {
    var j := w.releaseJobs[id];
    ReleaseJobIsOk(w, id);
    if j.pc.GetCluster? || j.pc.GetClusterForDelete? || j.pc.Uninstall? {
      var event := Event.Uninstalled(id, j.base.spec);
      assert j.call.None?;
      hide LastInv, JobsOk, ReleaseJobOk, Jump, HelmWrites, AfterUninstall;
      forall local, pc ensures LastInv(Jump(w, id, j.(local := local), pc)) {
        JumpMovesOn(w, id, j.(local := local), pc, event);
      }
      JumpMovesOn(w, id, ReleaseGone(j), UnpatchFinalizer, event);
    }
  }

  /* ---- the patches ---- */

  /** Before a Helm call nothing is patched to Ready. */
  lemma QuietIsNotReady(w: World, id: ProxyId, j: ReleaseJob)
    requires ReleaseJobOk(w.proxies, w.clock, id, j) && id in w.proxies && Patches(j.pc) && j.call.None?
    ensures !ReadyNow(Stamp(w.proxies[id], MergePatch(w.proxies[id], j.base, j.local), w.clock))
  {
    QuietPatch(w.proxies[id], j);
  }

  lemma RecordingIsCurrent(w: World, id: ProxyId, j: ReleaseJob)
    requires ReleaseJobOk(w.proxies, w.clock, id, j) && id in w.proxies && j.call.Some?
    ensures var p := Stamp(w.proxies[id], MergePatch(w.proxies[id], j.base, j.local), w.clock);
      && p.status.observedGeneration == j.base.generation
      && (ReadyNow(p) ==> j.call.value.spec == p.spec)
  {
    FullPatch(w.proxies[id], j);
  }

  lemma PatchKeepsLast(w: World, w': World, id: ProxyId, j: ReleaseJob)
    requires LastInv(w) && InFlight(w, id, j) && id in w.proxies && Patches(j.pc)
    requires w'.proxies == PatchProxy(w, id, j).proxies && w'.history.log == w.history.log
    requires w'.releaseJobs.Keys <= w.releaseJobs.Keys
    requires forall i <- w'.releaseJobs :: i != id ==> w'.releaseJobs[i] == w.releaseJobs[i]
    requires id in w'.releaseJobs ==> w'.releaseJobs[id].base == j.base && w'.releaseJobs[id].call.None?
    ensures LastInv(w')
  {
    var p := Stamp(w.proxies[id], MergePatch(w.proxies[id], j.base, j.local), w.clock);
    assert ReleaseJobOk(w.proxies, w.clock, id, j) && JobCurrent(w.history.log, w.proxies, id, j);
    if j.call.Some? {
      RecordingIsCurrent(w, id, j);
    } else {
      QuietIsNotReady(w, id, j);
    }
    assert p.status.observedGeneration <= j.base.generation;
    hide MergePatch, Stamp, ReleaseJobOk;
    forall i <- w'.proxies ensures CurrentOk(w'.history.log, i, w'.proxies[i]) {
      if i != id {
        assert CurrentOk(w.history.log, i, w.proxies[i]);
      }
    }
    forall i <- w'.releaseJobs ensures JobCurrent(w'.history.log, w'.proxies, i, w'.releaseJobs[i]) {
      assert JobCurrent(w.history.log, w.proxies, i, w.releaseJobs[i]);
    }
  }

  lemma QuietStepsKeepLast(w: World, id: ProxyId, j: ReleaseJob, e: ReleaseEnv)
    requires LastInv(w) && InFlight(w, id, j)
    ensures j.pc.PatchConditions? ==> LastInv(StepPatchConditions(w, id, j, e))
    ensures j.pc.PatchFinalizer? ==> LastInv(StepPatchFinalizer(w, id, j, e))
    ensures j.pc.UnpatchFinalizer? ==> LastInv(StepUnpatchFinalizer(w, id, j, e))
  {
    assert ReleaseJobOk(w.proxies, w.clock, id, j);
    if j.pc.PatchConditions? || j.pc.PatchFinalizer? || j.pc.UnpatchFinalizer? {
      assert j.call.None?;
      hide LastInv, ReleaseJobOk;
      var b := Branch(j.base, j.local);
      var event := Event.Uninstalled(id, j.base.spec);
      assert b.call.None? && b.base == j.base;
      if e.apiOk && id in w.proxies {
        var w1 := PatchProxy(w, id, j);
        hide PatchProxy, Branch;
        assert w1.releaseJobs == w.releaseJobs && w1.history == w.history by {
          PatchLeaves(w, id, j);
        }
        PatchKeepsLast(w, w1, id, j);
        QuietJumps(w1, id, j, b, event);
      } else {
        hide Branch;
        QuietJumps(w, id, j, b, event);
      }
    }
  }

  lemma PatchLeaves(w: World, id: ProxyId, j: ReleaseJob)
    requires id in w.proxies
    ensures PatchProxy(w, id, j).releaseJobs == w.releaseJobs && PatchProxy(w, id, j).history == w.history
  {
  }

  lemma QuietJumps(w: World, id: ProxyId, j: ReleaseJob, b: ReleaseJob, event: Event)
    requires LastInv(w) && id in w.releaseJobs && w.releaseJobs[id] == j && j.call.None?
    requires b.base == j.base && b.call.None? && !event.Applied?
    ensures LastInv(w.(releaseJobs := w.releaseJobs[id := b]))
    ensures LastInv(Jump(w, id, j, GetCluster)) && LastInv(Jump(w, id, j, FinishRelease))
  {
    hide LastInv;
    D.JumpTo(w, id, b);
    JumpMovesOn(w, id, b, b.pc, event);
    JumpMovesOn(w, id, j, GetCluster, event);
    JumpMovesOn(w, id, j, FinishRelease, event);
  }

  lemma FinishKeepsLast(w: World, id: ProxyId, j: ReleaseJob, e: ReleaseEnv)
    requires LastInv(w) && InFlight(w, id, j) && j.pc.FinishRelease?
    ensures LastInv(StepFinishRelease(w, id, j, e))
  {
    if e.apiOk && id in w.proxies {
      hide LastInv, InFlight, Record, PatchProxy;
      PatchLeaves(w, id, j);
      PatchKeepsLast(w, StepFinishRelease(w, id, j, e), id, j);
    }
  }

  lemma ReleaseStepKeepsLast(w: World, urlOk: string -> bool, id: ProxyId, e: ReleaseEnv)
    requires Inv(w, urlOk) && LastInv(w) && id in w.releaseJobs
    ensures LastInv(StepRelease(w, id, w.releaseJobs[id], e))
  {
    hide StoreInv, ReleaseJobsOk, ContentInv, LogInv, LastInv;
    var j := w.releaseJobs[id];
    match j.pc
    case PatchConditions => QuietStepsKeepLast(w, id, j, e);
    case PatchFinalizer => QuietStepsKeepLast(w, id, j, e);
    case GetCluster => OtherStepsKeepLast(w, id, e);
    case CallHelm => CallKeepsLast(w, urlOk, id, e);
    case GetClusterForDelete => OtherStepsKeepLast(w, id, e);
    case Uninstall => OtherStepsKeepLast(w, id, e);
    case UnpatchFinalizer => QuietStepsKeepLast(w, id, j, e);
    case FinishRelease => FinishKeepsLast(w, id, j, e);
  }

  lemma StartKeepsLast(w: World, urlOk: string -> bool, id: ProxyId)
    requires Inv(w, urlOk) && LastInv(w) && id in w.proxies && id !in w.releaseJobs
    ensures LastInv(w.(releaseJobs := w.releaseJobs[id := StartRelease(w.proxies[id])]))
  {
    assert ContentOk(w.history, id, w.proxies[id]);
    hide Inv;
    var w' := w.(releaseJobs := w.releaseJobs[id := StartRelease(w.proxies[id])]);
    forall i <- w'.releaseJobs ensures JobCurrent(w'.history.log, w'.proxies, i, w'.releaseJobs[i]) {
      if i != id {
        assert JobCurrent(w.history.log, w.proxies, i, w.releaseJobs[i]);
      }
    }
  }

  lemma ElsewhereKeepsLast(w: World, urlOk: string -> bool, a: Action)
    requires LastInv(w) && Elsewhere(a)
    ensures LastInv(Apply(w, urlOk, a))
  {
    ElsewhereTouchesNoProxy(w, urlOk, a);
    hide ValidateChartCreate, ValidateChartUpdate, DefaultChart, KeysOn, PutChart;
    var w' := Apply(w, urlOk, a);
    assert forall i <- w'.releaseJobs :: i in w.releaseJobs && w'.releaseJobs[i] == w.releaseJobs[i];
  }

  lemma ApplyKeepsLast(w: World, urlOk: string -> bool, a: Action)
    requires Inv(w, urlOk) && LastInv(w)
    ensures LastInv(Apply(w, urlOk, a))
  {
    hide Inv, LastInv, StepChart, StepRelease, StartRelease, WriteProxy;
    if Elsewhere(a) {
      ElsewhereKeepsLast(w, urlOk, a);
    } else if a.DeleteProxyByHand? {
      DeleteKeepsLast(w, urlOk, a.id);
    } else if a.ChartReconcile? {
      if a.key in w.chartJobs {
        ChartStepKeepsLast(w, urlOk, a.key, a.chartEnv);
      } else if a.key in w.charts {
        AlikeKeepsLast(w, Apply(w, urlOk, a));
      }
    } else if a.id in w.releaseJobs {
      ReleaseStepKeepsLast(w, urlOk, a.id, a.releaseEnv);
    } else if a.id in w.proxies {
      StartKeepsLast(w, urlOk, a.id);
    }
  }

  lemma {:induction false} RunKeepsLast(w: World, urlOk: string -> bool, actions: seq<Action>)
    requires Inv(w, urlOk) && LastInv(w)
    ensures LastInv(Run(w, urlOk, actions))
    decreases |actions|
  {
    if actions != [] {
      hide Inv, LastInv, Apply;
      var butLast := actions[..|actions| - 1];
      RunKeepsLast(w, urlOk, butLast);
      RunKeepsInv(w, urlOk, butLast);
      ApplyKeepsLast(Run(w, urlOk, butLast), urlOk, actions[|actions| - 1]);
    }
  }

  /** While a proxy is Ready at its current generation, its most recent Helm call was made with
      its current spec, even if that call's outcome has not reached the store; and if it has,
      the call returned a deployed release or one in a status the controller ignores. */
  lemma MostRecentCallIsCurrent(w: World, urlOk: string -> bool, id: ProxyId)
    requires Reachable(w, urlOk) && id in w.proxies && ReadyNow(w.proxies[id])
    ensures LastCall(w.history.log, id).Some? && LastCall(w.history.log, id).value.spec == w.proxies[id].spec
    ensures id in w.history.recorded
    ensures LastCall(w.history.log, id) == Some(w.history.recorded[id]) ==>
      LeavesReady(LastCall(w.history.log, id).value.outcome)
  {
    var start, actions :| Init(start, urlOk) && w == Run(start, urlOk, actions);
    InitHasInv(start, urlOk);
    RunKeepsLast(start, urlOk, actions);
    RunKeepsInv(start, urlOk, actions);
    hide Run, Reachable, StoreInv, LogInv, JobsOk;
    assert CurrentOk(w.history.log, id, w.proxies[id]);
    assert ContentOk(w.history, id, w.proxies[id]);
  }

  /* ---- when the recorded call is the last one ---- */

  /** The last call of a proxy is the recorded one, unless its reconcile in flight carries it. */
  ghost predicate AllRecorded(w: World, id: ProxyId) {
    || (id in w.releaseJobs && w.releaseJobs[id].call.Some?)
    || LastCall(w.history.log, id) == (if id in w.history.recorded then Some(w.history.recorded[id]) else None)
  }

  /** The two ways to lose the outcome of a call: the reconcile that carries it crashes, or its
      final patch fails. */
  ghost predicate Loses(w: World, id: ProxyId, a: Action) {
    && id in w.releaseJobs && w.releaseJobs[id].call.Some?
    && ((a.ReleaseCrash? && a.id == id) || (a.ReleaseReconcile? && a.id == id && !a.releaseEnv.apiOk))
  }

  /** A run in which no outcome of a call of `id` is lost. */
  ghost predicate NothingLost(w: World, urlOk: string -> bool, id: ProxyId, actions: seq<Action>)
    decreases |actions|
  {
    actions == [] ||
    (NothingLost(w, urlOk, id, actions[..|actions| - 1]) &&
     !Loses(Run(w, urlOk, actions[..|actions| - 1]), id, actions[|actions| - 1]))
  }

  lemma SameRecords(w: World, v: World, id: ProxyId)
    requires AllRecorded(w, id) && v.history.log == w.history.log && v.history.recorded == w.history.recorded
    requires id in w.releaseJobs && w.releaseJobs[id].call.Some? ==>
      id in v.releaseJobs && v.releaseJobs[id].call.Some?
    ensures AllRecorded(v, id)
  {
  }

  /** Nothing that the records depend on changes, but perhaps reconciles other than those that
      carry a call. */
  ghost predicate KeepsHistory(w: World, v: World, id: ProxyId) {
    && v.history.log == w.history.log && v.history.recorded == w.history.recorded
    && (id in w.releaseJobs && w.releaseJobs[id].call.Some? ==> id in v.releaseJobs && v.releaseJobs[id].call.Some?)
  }

  lemma UsersKeepHistory(w: World, urlOk: string -> bool, a: Action, id: ProxyId)
    requires a.CreateChart? || a.UpdateChart? || a.DeleteChart? || a.DeleteProxyByHand?
    ensures KeepsHistory(w, Apply(w, urlOk, a), id)
  {
    hide ValidateChartCreate, ValidateChartUpdate, DefaultChart, PutChart, Stamp, Put;
  }

  lemma OthersKeepHistory(w: World, urlOk: string -> bool, a: Action, id: ProxyId)
    requires !Loses(w, id, a) && (a.ClusterChanges? || a.ReleaseChanges? || a.ChartCrash? || a.ReleaseCrash?)
    ensures KeepsHistory(w, Apply(w, urlOk, a), id)
  {
    hide KeysOn;
  }

  lemma OutsideKeepsRecords(w: World, urlOk: string -> bool, a: Action, id: ProxyId)
    requires AllRecorded(w, id) && !Loses(w, id, a) && (Elsewhere(a) || a.DeleteProxyByHand?)
    ensures AllRecorded(Apply(w, urlOk, a), id)
  {
    hide Apply, AllRecorded;
    if a.CreateChart? || a.UpdateChart? || a.DeleteChart? || a.DeleteProxyByHand? {
      UsersKeepHistory(w, urlOk, a, id);
    } else {
      OthersKeepHistory(w, urlOk, a, id);
    }
    SameRecords(w, Apply(w, urlOk, a), id);
  }

  lemma ChartKeepsRecords(w: World, urlOk: string -> bool, key: ObjectKey, e: ChartEnv, id: ProxyId)
    requires AllRecorded(w, id)
    ensures AllRecorded(Apply(w, urlOk, ChartReconcile(key, e)), id)
  {
    var v := Apply(w, urlOk, ChartReconcile(key, e));
    hide StepChart, AllRecorded, Stamp, Put, Overwrite, UpdateAccepted, NewProxy;
    if key in w.chartJobs {
      ChartStepEffect(w, urlOk, key, w.chartJobs[key], e);
    }
    SameRecords(w, v, id);
  }

  /** What a step of a release reconcile adds to the log. */
  lemma StepLogs(w: World, i: ProxyId, j: ReleaseJob, e: ReleaseEnv)
    ensures var v := StepRelease(w, i, j, e);
      || v.history.log == w.history.log
      || (j.pc.Uninstall? && v.history.log == w.history.log + [Event.Uninstalled(i, j.base.spec)])
      || (j.pc.CallHelm? && i in v.releaseJobs && v.releaseJobs[i].call.Some? &&
          v.history.log == w.history.log + [Applied(i, v.releaseJobs[i].call.value)])
  {
    StepOf(w, i, j, e);
    hide StepRelease;
    if j.pc.CallHelm? {
      hide HelmResult, AfterHelm, MarkNameGenerated, Stakes;
      if j.local.spec.strategy == InstallOnce && HasBeenInstalled(Some(j.local)) {
      } else {
      }
    } else if j.pc.Uninstall? {
      var spec := j.base.spec;
      if spec.strategy == InstallOnce {
      } else if spec.releaseName == "" {
      } else if spec.cluster !in w.clusters || e.helm.getFails {
      } else if KeyOf(spec) !in w.releases {
      } else if !e.uninstallOk {
      } else {
      }
    }
  }

  lemma StepRecords(w: World, urlOk: string -> bool, i: ProxyId, e: ReleaseEnv)
    requires Inv(w, urlOk) && i in w.releaseJobs
    ensures var j := w.releaseJobs[i];
      StepRelease(w, i, j, e).history.recorded ==
        if j.call.Some? && e.apiOk then w.history.recorded[i := j.call.value] else w.history.recorded
  {
    var j := w.releaseJobs[i];
    ReleaseJobIsOk(w, i);
    JobCalls(w, i, j);
    assert j.call.Some? ==> i in w.proxies;
    hide Inv, StepRelease, ReleaseJobOk;
    if Patches(j.pc) && e.apiOk && i in w.proxies {
      PatchStepsWrite(w, i, j, e);
    } else {
      OtherStepsWriteNothing(w, i, j, e);
    }
  }

  lemma OthersReconcileKeepsRecords(w: World, urlOk: string -> bool, i: ProxyId, e: ReleaseEnv, id: ProxyId)
    requires Inv(w, urlOk) && AllRecorded(w, id) && i != id && i in w.releaseJobs
    ensures AllRecorded(StepRelease(w, i, w.releaseJobs[i], e), id)
  {
    var j := w.releaseJobs[i];
    var v := StepRelease(w, i, j, e);
    StepLogs(w, i, j, e);
    StepRecords(w, urlOk, i, e);
    D.ReleaseStepFrames(w, i, j, e);
    hide Inv, StepRelease;
    assert id in w.releaseJobs ==> id in v.releaseJobs && v.releaseJobs[id] == w.releaseJobs[id] by {
      assert id in w.releaseJobs ==> id in w.releaseJobs - {i} && id in v.releaseJobs - {i};
    }
    if v.history.log != w.history.log {
      var event := v.history.log[|w.history.log|];
      LastCallAppend(w.history.log, event, id);
    }
  }

  lemma OwnReconcileKeepsRecords(w: World, urlOk: string -> bool, id: ProxyId, e: ReleaseEnv)
    requires Inv(w, urlOk) && LastInv(w) && AllRecorded(w, id) && id in w.releaseJobs
    requires !Loses(w, id, ReleaseReconcile(id, e))
    ensures AllRecorded(StepRelease(w, id, w.releaseJobs[id], e), id)
  {
    var j := w.releaseJobs[id];
    var v := StepRelease(w, id, j, e);
    assert JobCurrent(w.history.log, w.proxies, id, j);
    StepLogs(w, id, j, e);
    StepRecords(w, urlOk, id, e);
    ReleaseJobIsOk(w, id);
    JobCalls(w, id, j);
    hide Inv, StepRelease, LastInv, ReleaseJobOk;
    if v.history.log != w.history.log {
      var event := v.history.log[|w.history.log|];
      LastCallAppend(w.history.log, event, id);
    }
  }

  lemma ApplyKeepsRecords(w: World, urlOk: string -> bool, a: Action, id: ProxyId)
    requires Inv(w, urlOk) && LastInv(w) && AllRecorded(w, id) && !Loses(w, id, a)
    ensures AllRecorded(Apply(w, urlOk, a), id)
  {
    hide Inv, LastInv, StepChart, StepRelease, StartRelease;
    if Elsewhere(a) || a.DeleteProxyByHand? {
      OutsideKeepsRecords(w, urlOk, a, id);
    } else if a.ChartReconcile? {
      ChartKeepsRecords(w, urlOk, a.key, a.chartEnv, id);
    } else if a.id !in w.releaseJobs {
      hide AllRecorded;
      SameRecords(w, Apply(w, urlOk, a), id);
    } else if a.id == id {
      OwnReconcileKeepsRecords(w, urlOk, id, a.releaseEnv);
    } else {
      OthersReconcileKeepsRecords(w, urlOk, a.id, a.releaseEnv, id);
    }
  }

  lemma {:induction false} RunKeepsRecords(w: World, urlOk: string -> bool, actions: seq<Action>, id: ProxyId)
    requires Inv(w, urlOk) && LastInv(w) && AllRecorded(w, id) && NothingLost(w, urlOk, id, actions)
    ensures AllRecorded(Run(w, urlOk, actions), id)
    decreases |actions|
  {
    if actions != [] {
      hide Inv, LastInv, Apply, AllRecorded, Loses;
      var butLast := actions[..|actions| - 1];
      RunKeepsRecords(w, urlOk, butLast, id);
      RunKeepsInv(w, urlOk, butLast);
      RunKeepsLast(w, urlOk, butLast);
      ApplyKeepsRecords(Run(w, urlOk, butLast), urlOk, actions[|actions| - 1], id);
    }
  }

  lemma InitRecords(w: World, urlOk: string -> bool, id: ProxyId)
    requires Init(w, urlOk)
    ensures Inv(w, urlOk) && LastInv(w) && AllRecorded(w, id)
  {
    InitHasInv(w, urlOk);
    hide Inv;
  }

  /** Over every run from a fresh system in which no reconcile of the proxy is lost between its
      Helm call and its final patch: while the proxy is Ready at its current generation and no
      reconcile of it carries a call, its most recent call was made with its current spec and
      returned a deployed release, or one in a status the controller ignores. */
  lemma ReadyMeansDeployed(start: World, urlOk: string -> bool, actions: seq<Action>, id: ProxyId)
    requires Init(start, urlOk) && NothingLost(start, urlOk, id, actions)
    requires var w := Run(start, urlOk, actions);
      && id in w.proxies && ReadyNow(w.proxies[id])
      && (id in w.releaseJobs ==> w.releaseJobs[id].call.None?)
    ensures var w := Run(start, urlOk, actions);
      var last := LastCall(w.history.log, id);
      last.Some? && last.value.spec == w.proxies[id].spec && LeavesReady(last.value.outcome)
  {
    var w := Run(start, urlOk, actions);
    InitRecords(start, urlOk, id);
    RunKeepsRecords(start, urlOk, actions, id);
    assert Reachable(w, urlOk);
    MostRecentCallIsCurrent(w, urlOk, id);
  }

  /** Where the outcome can lag: a call that fails on a proxy that is Ready leaves it stored as
      Ready until the reconcile patches it, or for as long as that reconcile is lost. */
  lemma FailureIsSeenLate(w: World, urlOk: string -> bool, id: ProxyId, e: ReleaseEnv)
    requires id in w.releaseJobs && w.releaseJobs[id].pc.CallHelm? && id in w.proxies && ReadyNow(w.proxies[id])
    requires w.releaseJobs[id].local.spec.strategy != InstallOnce
    requires e.helm.located.None?
    ensures var w' := Run(w, urlOk, [ReleaseReconcile(id, e), ReleaseCrash(id)]);
      && id in w'.proxies && ReadyNow(w'.proxies[id])
      && LastCall(w'.history.log, id).Some? && LastCall(w'.history.log, id).value.outcome.failed
  {
    var a, b := ReleaseReconcile(id, e), ReleaseCrash(id);
    var w1 := FailureCalled(w, urlOk, id, e);
    hide LastCall, ReadyNow, Apply;
    assert [a, b] == [a] + [b];
    D.RunFront(w, urlOk, a, [b]);
    D.RunFront(w1, urlOk, b, []);
    assert [b] + [] == [b];
    assert Run(w, urlOk, [a, b]) == Apply(w1, urlOk, b);
  }

  lemma FailureCalled(w: World, urlOk: string -> bool, id: ProxyId, e: ReleaseEnv) returns (w1: World)
    requires id in w.releaseJobs && w.releaseJobs[id].pc.CallHelm? && id in w.proxies
    requires w.releaseJobs[id].local.spec.strategy != InstallOnce && e.helm.located.None?
    ensures w1 == Apply(w, urlOk, ReleaseReconcile(id, e)) && w1.proxies == w.proxies
    ensures LastCall(w1.history.log, id).Some? && LastCall(w1.history.log, id).value.outcome.failed
    ensures var w2 := Apply(w1, urlOk, ReleaseCrash(id)); w2.proxies == w1.proxies && w2.history == w1.history
  {
    var j := w.releaseJobs[id];
    var r := HelmResult(w, j.local.spec, e.helm);
    assert r.outcome.failed;
    hide HelmResult, AfterHelm, Stakes, MarkNameGenerated;
    w1 := AfterCall(w, id, j, r);
    assert Apply(w, urlOk, ReleaseReconcile(id, e)) == w1;
    LastCallAppend(w.history.log, Applied(id, Call(j.local.spec, r.outcome)), id);
  }
}
