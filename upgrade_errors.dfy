/** The error edges of the upgrade state machine: the catch on `MainChain`
    sends a failed call of any main-chain task, a failed branch of either
    fan-out, and a health probe that returns an error to the one rollback;
    an execution succeeds exactly when none of them happens and a probe sees
    a running task before the timeout. */
module UpgradeErrors {
  import opened UpgradeWorkflow
  import opened UpgradeProofs

  const ScaleDownTasks: set<string> := { "ScaleDownNextcloud", "ScaleDownApache", "ScaleDownNotify" }
  const ScaleUpTasks: set<string> := { "ScaleUpNextcloud", "ScaleUpApache", "ScaleUpNotify" }

  // ---------------------------------------------------------------------
  // One transition
  // ---------------------------------------------------------------------

  /** The main-chain states whose error the catch on `MainChain` handles,
      under the names the rollback records. */
  function Label(st: State): string
  {
    match st
    case MaintenanceOn => "MaintenanceOn"
    case ScaleDownAll => "ScaleDownAll"
    case CreateSnapshot => "CreateSnapshot"
    case BackupConfig => "BackupConfig"
    case ScaleUpNextcloudOne => "ScaleUpNextcloudOne"
    case CheckHealth => "CheckHealth"
    case ScaleUpAll => "ScaleUpAll"
    case _ => ""
  }

  /** The transition out of `c` raises an error the catch handles: a failed
      call of a task state, a failed branch of a fan-out, or a probe that
      raises an error. */
  predicate Caught(c: Config, o: Oracle)
  {
    match c.state
    case MaintenanceOn => "MaintenanceOn" in o.fails
    case ScaleDownAll => ScaleDownTasks * o.fails != {}
    case CreateSnapshot => "CreateSnapshot" in o.fails
    case BackupConfig => "BackupConfig" in o.fails
    case ScaleUpNextcloudOne => "ScaleUpNextcloudOne" in o.fails
    case CheckHealth => o.probe(c.retries) == ProbeFailed
    case ScaleUpAll => ScaleUpTasks * o.fails != {}
    case _ => false
  }

  /** The edges into RollbackScaleUp are exactly the caught errors, and each
      records the state whose error was caught. */
  lemma MainChainErrorsCaught(c: Config, o: Oracle)
    requires !c.state.Done?
    ensures Step(c, o).state.RollbackScaleUp? <==> Caught(c, o)
    ensures Caught(c, o) ==> Step(c, o).state == RollbackScaleUp(Label(c.state)) && Label(c.state) != ""
  {
    match c.state
    case ScaleDownAll =>
      FanOutFails(c, o, ScaleDownBranches, WaitScaleDown, RollbackScaleUp("ScaleDownAll"), ScaleDownTasks);
    case ScaleUpAll =>
      FanOutFails(c, o, ScaleUpBranches, Done(Succeeded), RollbackScaleUp("ScaleUpAll"), ScaleUpTasks);
    case RollbackScaleUp(_) =>
      RollbackScaleUpStep(c, o);
    case _ =>
  }

  /** A fan-out fails exactly when one of its branch states is among the
      failing ones. */
  lemma FanOutFails(c: Config, o: Oracle, branches: seq<ApiCall>, next: State, onError: State, ids: set<string>)
    requires |branches| == 3 && next != onError
    requires forall i :: 0 <= i < 3 ==> branches[i].UpdateService?
    requires ids == { branches[0].stateId, branches[1].stateId, branches[2].stateId }
    ensures FanOut(c, o, branches, next, onError).state == onError <==> ids * o.fails != {}
  {
    if ids * o.fails != {} {
      var id :| id in ids * o.fails;
      assert id == branches[0].stateId || id == branches[1].stateId || id == branches[2].stateId;
      assert Fails(o, branches[0]) || Fails(o, branches[1]) || Fails(o, branches[2]);
    } else {
      forall i | 0 <= i < 3
        ensures !Fails(o, branches[i])
      {
        assert branches[i].stateId in ids;
        assert branches[i].stateId !in ids * o.fails;
      }
    }
  }

  // ---------------------------------------------------------------------
  // A caught error ends the execution through the rollback
  // ---------------------------------------------------------------------

  /** The execution ends in the Fail state with the fixed cause, at the
      nominal counts, after `before` and the whole compensating path. */
  predicate RolledBackAfter(r: Config, before: seq<Event>)
  {
    && r.state == Done(FailedWith(UpgradeFailedCause))
    && Nominal(r.desired)
    && r.trace == before + RollbackTrace()
  }

  /** A transition into the rollback, followed by compensating calls that
      succeed, ends the execution as failed after that transition's history. */
  lemma CaughtErrorRollsBack(c: Config, o: Oracle)
    requires !c.state.Done? && Step(c, o).state.RollbackScaleUp? && o.fails !! RollbackTasks
    ensures RolledBackAfter(Execute(c, o), Step(c, o).trace)
  {
    RollbackCompletes(Step(c, o), o);
  }

  lemma MaintenanceOnFails(name: string, bucket: string, d0: map<string, int>, o: Oracle)
    requires "MaintenanceOn" in o.fails && o.fails !! RollbackTasks
    ensures RolledBackAfter(Execute(Start(name, bucket, d0), o), MainPrefix(name, bucket)[..1])
  {
    MainPrefixAt(name, bucket);
    var c1 := Step(Start(name, bucket, d0), o);
    var s := Step(c1, o);
    assert s.state == RollbackScaleUp("MaintenanceOn") && s.trace == [MainPrefix(name, bucket)[0]];
    RollbackCompletes(s, o);
  }

  lemma ScaleDownFails(name: string, bucket: string, d0: map<string, int>, o: Oracle)
    requires "MaintenanceOn" !in o.fails && ScaleDownTasks * o.fails != {} && o.fails !! RollbackTasks
    ensures RolledBackAfter(Execute(Start(name, bucket, d0), o), MainPrefix(name, bucket)[..5])
  {
    var c := SetupReachesScaleDown(name, bucket, d0, o);
    assert c.trace == MainPrefix(name, bucket)[..2];
    ScaleDownErrorRollsBack(c, o);
  }

  /** A failed scale-down branch goes to the rollback after all three. */
  lemma ScaleDownErrorRollsBack(c: Config, o: Oracle)
    requires c.state == ScaleDownAll && c.trace == MainPrefix(c.executionId, c.bucketName)[..2]
    requires ScaleDownTasks * o.fails != {} && o.fails !! RollbackTasks
    ensures RolledBackAfter(Execute(c, o), MainPrefix(c.executionId, c.bucketName)[..5])
  {
    var P := MainPrefix(c.executionId, c.bucketName);
    MainPrefixAt(c.executionId, c.bucketName);
    FanOutFails(c, o, ScaleDownBranches, WaitScaleDown, RollbackScaleUp("ScaleDownAll"), ScaleDownTasks);
    RollbackCompletes(Step(c, o), o);
    PrefixGrowsBy(P, 2, Calls(ScaleDownBranches));
  }

  lemma SnapshotFails(name: string, bucket: string, d0: map<string, int>, o: Oracle)
    requires o.fails !! SetupTasks && "CreateSnapshot" in o.fails && o.fails !! RollbackTasks
    ensures RolledBackAfter(Execute(Start(name, bucket, d0), o), MainPrefix(name, bucket)[..7])
  {
    var c := SetupReachesSnapshot(name, bucket, d0, o);
    var P := MainPrefix(name, bucket);
    assert c.trace == P[..6];
    MainPrefixAt(name, bucket);
    var s := Step(c, o);
    assert s.state == RollbackScaleUp("CreateSnapshot") && s.trace == P[..6] + [P[6]];
    RollbackCompletes(s, o);
    PrefixGrows(P, 6, P[6]);
  }

  lemma BackupFails(name: string, bucket: string, d0: map<string, int>, o: Oracle)
    requires o.fails !! SetupTasks && "CreateSnapshot" !in o.fails && "BackupConfig" in o.fails
    requires o.fails !! RollbackTasks
    ensures RolledBackAfter(Execute(Start(name, bucket, d0), o), MainPrefix(name, bucket)[..8])
  {
    var c5 := SetupReachesSnapshot(name, bucket, d0, o);
    var c := StepKeepsInv(c5, o);
    assert c.state == BackupConfig;
    var P := MainPrefix(name, bucket);
    assert c.trace == P[..7];
    MainPrefixAt(name, bucket);
    var s := Step(c, o);
    assert s.state == RollbackScaleUp("BackupConfig") && s.trace == P[..7] + [P[7]];
    RollbackCompletes(s, o);
    PrefixGrows(P, 7, P[7]);
  }

  lemma ScaleUpOneFails(name: string, bucket: string, d0: map<string, int>, o: Oracle)
    requires o.fails !! SetupTasks && "CreateSnapshot" !in o.fails && "BackupConfig" !in o.fails
    requires "ScaleUpNextcloudOne" in o.fails && o.fails !! RollbackTasks
    ensures RolledBackAfter(Execute(Start(name, bucket, d0), o), MainPrefix(name, bucket)[..9])
  {
    var c5 := SetupReachesSnapshot(name, bucket, d0, o);
    var c := SnapshotReachesScaleUp(c5, o);
    var P := MainPrefix(name, bucket);
    assert c.trace == P[..8];
    MainPrefixAt(name, bucket);
    var s := Step(c, o);
    assert s.state == RollbackScaleUp("ScaleUpNextcloudOne") && s.trace == P[..8] + [P[8]];
    RollbackCompletes(s, o);
    PrefixGrows(P, 8, P[8]);
  }

  /** Unhealthy probes below `k` carry the execution to the k-th CheckHealth. */
  lemma {:induction false} PollReaches(c: Config, o: Oracle, k: nat) returns (r: Config)
    requires Inv(c, o) && c.state == CheckHealth
    requires c.retries <= k <= MaxRetries
    requires forall j: nat :: c.retries <= j < k ==> Unhealthy(o, j)
    ensures Inv(r, o) && r.state == CheckHealth && r.retries == k
    ensures Execute(r, o) == Execute(c, o)
    decreases k - c.retries
  {
    if c.retries == k {
      r := c;
    } else {
      var c3 := UnhealthyProbeRetries(c, o);
      r := PollReaches(c3, o, k);
    }
  }

  /** A probe that raises an error goes to the rollback. */
  lemma ProbeErrorRollsBack(c: Config, o: Oracle)
    requires c.state == CheckHealth && c.trace == MainPrefix(c.executionId, c.bucketName) + Retries(c.retries)
    requires o.probe(c.retries) == ProbeFailed && o.fails !! RollbackTasks
    ensures RolledBackAfter(Execute(c, o), MainPrefix(c.executionId, c.bucketName) + Retries(c.retries) + [HealthProbe])
  {
    var s := Step(c, o);
    assert s.state == RollbackScaleUp("CheckHealth") && s.trace == c.trace + [HealthProbe];
    RollbackCompletes(s, o);
  }

  /** A probe that sees a running task leads, without a call or a wait,
      to ScaleUpAll. */
  lemma HealthyReachesScaleUpAll(c: Config, o: Oracle) returns (c3: Config)
    requires c.state == CheckHealth && Healthy(o, c.retries)
    ensures c3 == c.(state := ScaleUpAll, trace := c.trace + [HealthProbe])
    ensures Execute(c3, o) == Execute(c, o)
  {
    var c1 := Step(c, o);
    assert c1 == c.(state := IsHealthy(o.probe(c.retries).runningCount), trace := c.trace + [HealthProbe]);
    var c2 := Step(c1, o);
    assert c2 == c1.(state := HealthCheckPassed);
    c3 := Step(c2, o);
    assert c3 == c2.(state := ScaleUpAll);
    assert Execute(c, o) == Execute(c1, o) == Execute(c2, o) == Execute(c3, o);
  }

  /** A probe that sees a running task, then a failed scale-up branch, goes
      to the rollback after the whole success history. */
  lemma ScaleUpErrorRollsBack(c: Config, o: Oracle)
    requires c.state == CheckHealth && c.trace == MainPrefix(c.executionId, c.bucketName) + Retries(c.retries)
    requires Healthy(o, c.retries) && ScaleUpTasks * o.fails != {} && o.fails !! RollbackTasks
    ensures RolledBackAfter(Execute(c, o), SuccessTrace(c.executionId, c.bucketName, c.retries))
  {
    var c3 := HealthyReachesScaleUpAll(c, o);
    ScaleUpAllErrorRollsBack(c3, o);
  }

  /** A failed scale-up branch goes to the rollback after all three. */
  lemma ScaleUpAllErrorRollsBack(c: Config, o: Oracle)
    requires c.state == ScaleUpAll && ScaleUpTasks * o.fails != {} && o.fails !! RollbackTasks
    ensures RolledBackAfter(Execute(c, o), c.trace + Calls(ScaleUpBranches))
  {
    FanOutFails(c, o, ScaleUpBranches, Done(Succeeded), RollbackScaleUp("ScaleUpAll"), ScaleUpTasks);
    RollbackCompletes(Step(c, o), o);
  }

  /** The probe of round `k` raises an error after `k` unhealthy rounds. */
  lemma ProbeFails(name: string, bucket: string, d0: map<string, int>, o: Oracle, k: nat)
    requires o.fails !! PreHealthTasks && o.fails !! RollbackTasks
    requires k <= MaxRetries && ProbesUnhealthyBelow(o, k) && o.probe(k) == ProbeFailed
    ensures RolledBackAfter(Execute(Start(name, bucket, d0), o), MainPrefix(name, bucket) + Retries(k) + [HealthProbe])
  {
    var c0 := SetupReachesCheckHealth(name, bucket, d0, o);
    var c := PollReaches(c0, o, k);
    assert c.executionId == name && c.bucketName == bucket;
    ProbeErrorRollsBack(c, o);
  }

  /** A failed scale-up branch after the first healthy probe `k`. */
  lemma ScaleUpAllFails(name: string, bucket: string, d0: map<string, int>, o: Oracle, k: nat)
    requires o.fails !! PreHealthTasks && ScaleUpTasks * o.fails != {} && o.fails !! RollbackTasks
    requires k <= MaxRetries && ProbesUnhealthyBelow(o, k) && Healthy(o, k)
    ensures RolledBackAfter(Execute(Start(name, bucket, d0), o), SuccessTrace(name, bucket, k))
  {
    var c0 := SetupReachesCheckHealth(name, bucket, d0, o);
    var c := PollReaches(c0, o, k);
    assert c.executionId == name && c.bucketName == bucket;
    ScaleUpErrorRollsBack(c, o);
  }

  /** Execution `run-42` whose snapshot call fails: the rollback runs, the
      services end at {2, 2, 1}, maintenance mode is turned off and the
      execution fails with the fixed cause. */
  lemma Run42SnapshotFails(bucket: string, d0: map<string, int>)
    ensures var o := Oracle({"CreateSnapshot"}, (k: nat) => Observed(1));
      var r := Execute(Start("run-42", bucket, d0), o);
      && r.state == Done(FailedWith(UpgradeFailedCause))
      && Nominal(r.desired)
      && r.trace == MainPrefix("run-42", bucket)[..7] + RollbackTrace()
  {
    SnapshotFails("run-42", bucket, d0, Oracle({"CreateSnapshot"}, (k: nat) => Observed(1)));
  }

  // ---------------------------------------------------------------------
  // Success needs every main-chain call to succeed
  // ---------------------------------------------------------------------

  /** An event that is a failed call; a probe's outcome is read from its
      result instead. */
  predicate FailedCall(o: Oracle, e: Event)
  {
    e.Called? && !e.call.DescribeServices? && Fails(o, e.call)
  }

  /** The states from which the execution can no longer succeed. */
  predicate PastError(st: State)
  {
    st.RollbackScaleUp? || st == MaintenanceOff || (st.Done? && st != Done(Succeeded))
  }

  /** Once the rollback has started, the execution cannot succeed. */
  lemma NoSuccessAfterRollback(c: Config, o: Oracle)
    requires PastError(c.state)
    ensures Execute(c, o).state != Done(Succeeded)
  {
    if c.state.RollbackScaleUp? {
      RollbackScaleUpStep(c, o);
      var c1 := Step(c, o);
      if c1.state == MaintenanceOff {
        assert Step(c1, o).state.Done?;
        assert Execute(c, o) == Execute(c1, o) == Step(c1, o);
      }
    } else if c.state == MaintenanceOff {
      assert Execute(c, o) == Step(c, o);
    }
  }

  /** A fan-out that moves on issued only calls that succeeded. */
  lemma FanOutCallsSucceed(c: Config, o: Oracle, branches: seq<ApiCall>, next: State, onError: State)
    requires forall i :: 0 <= i < |branches| ==> branches[i].UpdateService?
    requires next != onError && FanOut(c, o, branches, next, onError).state == next
    ensures var s := FanOut(c, o, branches, next, onError);
      forall i :: |c.trace| <= i < |s.trace| ==> !FailedCall(o, s.trace[i])
  {
    var s := FanOut(c, o, branches, next, onError);
    forall i | |c.trace| <= i < |s.trace|
      ensures !FailedCall(o, s.trace[i])
    {
      assert s.trace[i] == Calls(branches)[i - |c.trace|];
    }
  }

  /** A transition that does not go past an error issued only calls that
      succeeded. */
  lemma StepCallsSucceed(c: Config, o: Oracle)
    requires !c.state.Done?
    ensures var s := Step(c, o);
      && c.trace <= s.trace
      && (!PastError(s.state) ==> forall i :: |c.trace| <= i < |s.trace| ==> !FailedCall(o, s.trace[i]))
  {
    var s := Step(c, o);
    match c.state
    case ScaleDownAll =>
      if !PastError(s.state) {
        FanOutCallsSucceed(c, o, ScaleDownBranches, WaitScaleDown, RollbackScaleUp("ScaleDownAll"));
      }
    case ScaleUpAll =>
      if !PastError(s.state) {
        FanOutCallsSucceed(c, o, ScaleUpBranches, Done(Succeeded), RollbackScaleUp("ScaleUpAll"));
      }
    case RollbackScaleUp(_) =>
      RollbackScaleUpStep(c, o);
    case _ =>
  }

  /** Every call of a successful execution succeeds. */
  lemma {:induction false} SucceedingRunCallsSucceed(c: Config, o: Oracle)
    ensures var r := Execute(c, o);
      r.state == Done(Succeeded) ==>
        c.trace <= r.trace && forall i :: |c.trace| <= i < |r.trace| ==> !FailedCall(o, r.trace[i])
    decreases Remaining(c), Rank(c.state)
  {
    if !c.state.Done? {
      StepProgresses(c, o);
      var s := Step(c, o);
      StepCallsSucceed(c, o);
      if PastError(s.state) {
        NoSuccessAfterRollback(s, o);
      }
      SucceedingRunCallsSucceed(s, o);
      var r := Execute(c, o);
      assert r == Execute(s, o);
      if r.state == Done(Succeeded) {
        forall i | |c.trace| <= i < |r.trace|
          ensures !FailedCall(o, r.trace[i])
        {
          if i < |s.trace| {
            assert r.trace[i] == s.trace[i];
          }
        }
      }
    }
  }

  /** `e` is the call of task state `t`. */
  predicate CallsTask(e: Event, t: string)
  {
    e.Called? && !e.call.DescribeServices? && e.call.stateId == t
  }

  /** A success history calls every main-chain task. */
  lemma MainChainCalledInSuccess(id: string, bucket: string, n: nat)
    ensures var ST := SuccessTrace(id, bucket, n);
      forall t :: t in MainChainTasks ==> exists i :: 0 <= i < |ST| && CallsTask(ST[i], t)
  {
    var P := MainPrefix(id, bucket);
    var U := Calls(ScaleUpBranches);
    var ST := SuccessTrace(id, bucket, n);
    MainPrefixAt(id, bucket);
    var m := |P| + |Retries(n)| + 1;
    assert ST == P + (Retries(n) + [HealthProbe]) + U;
    assert ST[..10] == P && ST[m..] == U;
    assert P[2] == Calls(ScaleDownBranches)[0] && P[3] == Calls(ScaleDownBranches)[1];
    assert P[4] == Calls(ScaleDownBranches)[2];
    forall t | t in MainChainTasks
      ensures exists i :: 0 <= i < |ST| && CallsTask(ST[i], t)
    {
      if t == "MaintenanceOn" { assert CallsTask(ST[0], t); }
      else if t == "ScaleDownNextcloud" { assert CallsTask(ST[2], t); }
      else if t == "ScaleDownApache" { assert CallsTask(ST[3], t); }
      else if t == "ScaleDownNotify" { assert CallsTask(ST[4], t); }
      else if t == "CreateSnapshot" { assert CallsTask(ST[6], t); }
      else if t == "BackupConfig" { assert CallsTask(ST[7], t); }
      else if t == "ScaleUpNextcloudOne" { assert CallsTask(ST[8], t); }
      else if t == "ScaleUpNextcloud" { assert CallsTask(ST[m], t); }
      else if t == "ScaleUpApache" { assert CallsTask(ST[m + 1], t); }
      else { assert CallsTask(ST[m + 2], t); }
    }
  }

  /** A successful execution saw no error in any main-chain task. */
  lemma SucceededMeansNoErrors(name: string, bucket: string, d0: map<string, int>, o: Oracle)
    ensures Execute(Start(name, bucket, d0), o).state == Done(Succeeded) ==> o.fails !! MainChainTasks
  {
    var r := Execute(Start(name, bucket, d0), o);
    if r.state == Done(Succeeded) {
      SucceedingRunCallsSucceed(Start(name, bucket, d0), o);
      SuccessfulUpgrade(name, bucket, d0, o);
      MainChainCalledInSuccess(name, bucket, r.retries);
      forall t | t in MainChainTasks
        ensures t !in o.fails
      {
        var i :| 0 <= i < |r.trace| && CallsTask(r.trace[i], t);
        assert !FailedCall(o, r.trace[i]);
      }
    }
  }

  /** An execution succeeds exactly when no main-chain call fails and some
      probe within the timeout is the first to see a running task. */
  lemma SuccessIff(name: string, bucket: string, d0: map<string, int>, o: Oracle)
    ensures Execute(Start(name, bucket, d0), o).state == Done(Succeeded) <==>
      o.fails !! MainChainTasks
      && exists k: nat :: k <= MaxRetries && ProbesUnhealthyBelow(o, k) && Healthy(o, k)
  {
    var r := Execute(Start(name, bucket, d0), o);
    if r.state == Done(Succeeded) {
      SucceededMeansNoErrors(name, bucket, d0, o);
      SuccessfulUpgrade(name, bucket, d0, o);
      assert Healthy(o, r.retries);
    }
    if o.fails !! MainChainTasks && exists k: nat :: k <= MaxRetries && ProbesUnhealthyBelow(o, k) && Healthy(o, k) {
      var k: nat :| k <= MaxRetries && ProbesUnhealthyBelow(o, k) && Healthy(o, k);
      FirstHealthyProbeDecides(name, bucket, d0, o, k);
    }
  }
}
