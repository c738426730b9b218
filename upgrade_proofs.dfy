/** What every execution of the upgrade state machine does: the order of the
    main chain, the health-check loop, the single compensating path and the
    timeout, stated over `Execute` from a fresh `Start`. */
module UpgradeProofs {
  import opened UpgradeWorkflow

  // ---------------------------------------------------------------------
  // The histories the definition allows
  // ---------------------------------------------------------------------

  const OffCall: Event := Called(RunOccCommand("MaintenanceOff", MaintenanceOffCommand))
  const HealthProbe: Event := Called(DescribeServices("CheckHealth", [NextcloudService]))
  const RetryWait: Event := Waited("WaitRetryHealth", RetryHealthSeconds)

  /** MaintenanceOn through WaitUpgrade, in chain order. */
  function MainPrefix(id: string, bucket: string): seq<Event>
  {
    [ Called(RunOccCommand("MaintenanceOn", MaintenanceOnCommand)),
      Waited("WaitDrain", DrainSeconds) ]
    + Calls(ScaleDownBranches)
    + [ Waited("WaitScaleDown", ScaleDownSeconds),
        Called(CreateDbClusterSnapshot("CreateSnapshot", SnapshotPrefix + id)),
        Called(RunOccCommand("BackupConfig", BackupCommand(bucket))),
        Called(ScaleService("ScaleUpNextcloudOne", NextcloudService, 1)),
        Waited("WaitUpgrade", UpgradeSeconds) ]
  }

  /** `n` rounds of CheckHealth followed by WaitRetryHealth. */
  function Retries(n: nat): seq<Event>
  {
    if n == 0 then [] else Retries(n - 1) + [HealthProbe, RetryWait]
  }

  /** The history of a successful execution after `n` retries. */
  function SuccessTrace(id: string, bucket: string, n: nat): seq<Event>
  {
    MainPrefix(id, bucket) + Retries(n) + [HealthProbe] + Calls(ScaleUpBranches)
  }

  /** The compensating path: RollbackScaleUp's three branches, then MaintenanceOff. */
  function RollbackTrace(): seq<Event>
  {
    Calls(RollbackBranches) + [OffCall]
  }

  /** The counts the success path and the rollback both restore. */
  predicate Nominal(d: map<string, int>)
  {
    && NextcloudService in d && d[NextcloudService] == 2
    && ApacheService in d && d[ApacheService] == 2
    && NotifyPushService in d && d[NotifyPushService] == 1
  }

  predicate Counts(d: map<string, int>, nextcloud: int, apache: int, notifyPush: int)
  {
    && NextcloudService in d && d[NextcloudService] == nextcloud
    && ApacheService in d && d[ApacheService] == apache
    && NotifyPushService in d && d[NotifyPushService] == notifyPush
  }

  /** Seconds waited before the first CheckHealth. */
  const SetupWait: nat := DrainSeconds + ScaleDownSeconds + UpgradeSeconds

  /** The most WaitRetryHealth rounds that fit in the timeout. */
  const MaxRetries: nat := (Timeout - SetupWait) / RetryHealthSeconds

  predicate Unhealthy(o: Oracle, k: nat)
  {
    o.probe(k).Observed? && o.probe(k).runningCount < 1
  }

  predicate Healthy(o: Oracle, k: nat)
  {
    o.probe(k).Observed? && o.probe(k).runningCount >= 1
  }

  predicate ProbesUnhealthyBelow(o: Oracle, n: nat)
  {
    forall k: nat :: k < n ==> Unhealthy(o, k)
  }

  /** `trace` is a prefix of `main` followed by exactly `tail`. */
  predicate EndsAfter(trace: seq<Event>, main: seq<Event>, tail: seq<Event>)
  {
    |tail| <= |trace| && trace[..|trace| - |tail|] <= main && trace[|trace| - |tail|..] == tail
  }

  // ---------------------------------------------------------------------
  // The invariant of every reachable configuration
  // ---------------------------------------------------------------------

  ghost predicate Inv(c: Config, o: Oracle)
  {
    && c.elapsed <= Timeout
    && c.retries <= MaxRetries
    && ProbesUnhealthyBelow(o, c.retries)
    && (c.state != ExtractExecutionId ==> c.executionId == c.executionName)
    && StateInv(c, o)
  }

  /** What each state of the machine has done so far. */
  ghost predicate StateInv(c: Config, o: Oracle)
  {
    var P := MainPrefix(c.executionId, c.bucketName);
    var ST := SuccessTrace(c.executionId, c.bucketName, c.retries);
    var polling := SetupWait + RetryHealthSeconds * c.retries;
    (match c.state
        case ExtractExecutionId => c.trace == [] && c.elapsed == 0 && c.retries == 0
        case MaintenanceOn => c.trace == [] && c.elapsed == 0 && c.retries == 0
        case WaitDrain => c.trace == P[..1] && c.elapsed == 0 && c.retries == 0
        case ScaleDownAll => c.trace == P[..2] && c.elapsed == DrainSeconds && c.retries == 0
        case WaitScaleDown =>
          c.trace == P[..5] && c.elapsed == DrainSeconds && c.retries == 0 && Counts(c.desired, 0, 0, 0)
        case CreateSnapshot =>
          c.trace == P[..6] && c.elapsed == DrainSeconds + ScaleDownSeconds && c.retries == 0 && Counts(c.desired, 0, 0, 0)
        case BackupConfig =>
          c.trace == P[..7] && c.elapsed == DrainSeconds + ScaleDownSeconds && c.retries == 0 && Counts(c.desired, 0, 0, 0)
        case ScaleUpNextcloudOne =>
          c.trace == P[..8] && c.elapsed == DrainSeconds + ScaleDownSeconds && c.retries == 0 && Counts(c.desired, 0, 0, 0)
        case WaitUpgrade =>
          c.trace == P[..9] && c.elapsed == DrainSeconds + ScaleDownSeconds && c.retries == 0 && Counts(c.desired, 1, 0, 0)
        case CheckHealth =>
          c.trace == P + Retries(c.retries) && c.elapsed == polling && Counts(c.desired, 1, 0, 0)
        case IsHealthy(n) =>
          c.trace == P + Retries(c.retries) + [HealthProbe] && c.elapsed == polling && Counts(c.desired, 1, 0, 0)
          && o.probe(c.retries) == Observed(n)
        case WaitRetryHealth =>
          c.trace == P + Retries(c.retries) + [HealthProbe] && c.elapsed == polling && Counts(c.desired, 1, 0, 0)
          && Unhealthy(o, c.retries)
        case HealthCheckPassed =>
          c.trace == P + Retries(c.retries) + [HealthProbe] && c.elapsed == polling && Counts(c.desired, 1, 0, 0)
          && Healthy(o, c.retries)
        case ScaleUpAll =>
          c.trace == P + Retries(c.retries) + [HealthProbe] && c.elapsed == polling && Counts(c.desired, 1, 0, 0)
          && Healthy(o, c.retries)
        case RollbackScaleUp(_) => c.trace <= ST
        case MaintenanceOff => EndsAfter(c.trace, ST, Calls(RollbackBranches)) && Nominal(c.desired)
        case Done(_) => OutcomeInv(c, o))
  }

  /** What an execution has done when it ends, by outcome. */
  ghost predicate OutcomeInv(c: Config, o: Oracle)
    requires c.state.Done?
  {
    var P := MainPrefix(c.executionId, c.bucketName);
    var ST := SuccessTrace(c.executionId, c.bucketName, c.retries);
    var polling := SetupWait + RetryHealthSeconds * c.retries;
    match c.state.outcome
    case Succeeded => c.trace == ST && c.elapsed == polling && Nominal(c.desired) && Healthy(o, c.retries)
    case FailedWith(cause) =>
      cause == UpgradeFailedCause && EndsAfter(c.trace, ST, RollbackTrace()) && Nominal(c.desired)
    case Aborted(s) =>
      || (s == "RollbackScaleUp" && EndsAfter(c.trace, ST, Calls(RollbackBranches)))
      || (s == "MaintenanceOff" && EndsAfter(c.trace, ST, RollbackTrace()) && Nominal(c.desired))
    case TimedOut =>
      c.trace == P + Retries(c.retries) + [HealthProbe] && c.retries == MaxRetries
      && Unhealthy(o, c.retries) && Counts(c.desired, 1, 0, 0)
  }

  // ---------------------------------------------------------------------
  // Facts about the histories
  // ---------------------------------------------------------------------

  lemma MainPrefixAt(id: string, bucket: string)
    ensures var P := MainPrefix(id, bucket);
      && |P| == 10
      && P[0] == Called(RunOccCommand("MaintenanceOn", MaintenanceOnCommand))
      && P[1] == Waited("WaitDrain", DrainSeconds)
      && P[2..5] == Calls(ScaleDownBranches)
      && P[5] == Waited("WaitScaleDown", ScaleDownSeconds)
      && P[6] == Called(CreateDbClusterSnapshot("CreateSnapshot", SnapshotPrefix + id))
      && P[7] == Called(RunOccCommand("BackupConfig", BackupCommand(bucket)))
      && P[8] == Called(ScaleService("ScaleUpNextcloudOne", NextcloudService, 1))
      && P[9] == Waited("WaitUpgrade", UpgradeSeconds)
  {
  }

  lemma PrefixGrows(P: seq<Event>, k: nat, e: Event)
    requires k < |P| && P[k] == e
    ensures P[..k] + [e] == P[..k + 1]
  {
  }

  lemma PrefixGrowsBy(P: seq<Event>, k: nat, es: seq<Event>)
    requires k + |es| <= |P| && P[k..k + |es|] == es
    ensures P[..k] + es == P[..k + |es|]
  {
    assert P[..k + |es|] == P[..k] + P[k..k + |es|];
  }

  /** A prefix of the main chain is a prefix of every success history. */
  lemma MainPrefixInSuccess(id: string, bucket: string, n: nat, k: nat)
    requires k <= 10
    ensures MainPrefix(id, bucket)[..k] <= SuccessTrace(id, bucket, n)
  {
    MainPrefixAt(id, bucket);
    var P := MainPrefix(id, bucket);
    var ST := SuccessTrace(id, bucket, n);
    assert ST == P + (Retries(n) + [HealthProbe] + Calls(ScaleUpBranches));
    assert ST[..k] == P[..k];
  }

  lemma HealthProbeInSuccess(id: string, bucket: string, n: nat)
    ensures MainPrefix(id, bucket) + Retries(n) + [HealthProbe] <= SuccessTrace(id, bucket, n)
  {
  }

  /** Rounds of the health loop hold only probes and retry waits. */
  lemma {:induction false} RetriesOnly(n: nat)
    ensures forall i :: 0 <= i < |Retries(n)| ==> Retries(n)[i] == HealthProbe || Retries(n)[i] == RetryWait
  {
    if n > 0 {
      RetriesOnly(n - 1);
      var R := Retries(n - 1);
      assert Retries(n) == R + [HealthProbe, RetryWait];
      forall i | 0 <= i < |Retries(n)|
        ensures Retries(n)[i] == HealthProbe || Retries(n)[i] == RetryWait
      {
        if i < |R| {
          assert Retries(n)[i] == R[i];
        }
      }
    }
  }

  // ---------------------------------------------------------------------
  // Preservation of the invariant
  // ---------------------------------------------------------------------

  lemma RollbackFromMainChain(c: Config, o: Oracle, k: nat)
    requires k <= 10
    requires c.trace == MainPrefix(c.executionId, c.bucketName)[..k]
    ensures c.trace <= SuccessTrace(c.executionId, c.bucketName, c.retries)
  {
    MainPrefixInSuccess(c.executionId, c.bucketName, c.retries, k);
  }

  lemma StepInvSetup(c: Config, o: Oracle)
    requires Inv(c, o)
    requires c.state in {ExtractExecutionId, MaintenanceOn, WaitDrain, ScaleDownAll, WaitScaleDown}
    ensures Inv(Step(c, o), o)
  {
    var P := MainPrefix(c.executionName, c.bucketName);
    MainPrefixAt(c.executionName, c.bucketName);
    var r := Step(c, o);
    match c.state
    case ExtractExecutionId =>
    case MaintenanceOn =>
      PrefixGrows(P, 0, P[0]);
      if r.state.RollbackScaleUp? {
        RollbackFromMainChain(r, o, 1);
      }
    case WaitDrain =>
      PrefixGrows(P, 1, P[1]);
    case ScaleDownAll =>
      PrefixGrowsBy(P, 2, Calls(ScaleDownBranches));
      ApplyThree(c.desired, o, ScaleDownBranches);
      if r.state.RollbackScaleUp? {
        RollbackFromMainChain(r, o, 5);
      }
    case WaitScaleDown =>
      PrefixGrows(P, 5, P[5]);
  }

  lemma StepInvBackup(c: Config, o: Oracle)
    requires Inv(c, o)
    requires c.state in {CreateSnapshot, BackupConfig, ScaleUpNextcloudOne, WaitUpgrade}
    ensures Inv(Step(c, o), o)
  {
    var P := MainPrefix(c.executionName, c.bucketName);
    MainPrefixAt(c.executionName, c.bucketName);
    var r := Step(c, o);
    match c.state
    case CreateSnapshot =>
      PrefixGrows(P, 6, P[6]);
      if r.state.RollbackScaleUp? {
        RollbackFromMainChain(r, o, 7);
      }
    case BackupConfig =>
      PrefixGrows(P, 7, P[7]);
      if r.state.RollbackScaleUp? {
        RollbackFromMainChain(r, o, 8);
      }
    case ScaleUpNextcloudOne =>
      PrefixGrows(P, 8, P[8]);
      if r.state.RollbackScaleUp? {
        RollbackFromMainChain(r, o, 9);
      }
    case WaitUpgrade =>
      PrefixGrows(P, 9, P[9]);
      assert P[..10] == P;
      assert Retries(0) == [];
  }

  lemma StepInvHealth(c: Config, o: Oracle)
    requires Inv(c, o)
    requires c.state.CheckHealth? || c.state.IsHealthy? || c.state.HealthCheckPassed?
    ensures Inv(Step(c, o), o)
  {
    var r := Step(c, o);
    if c.state.CheckHealth? && r.state.RollbackScaleUp? {
      HealthProbeInSuccess(c.executionName, c.bucketName, c.retries);
    }
  }

  lemma StepInvRetry(c: Config, o: Oracle)
    requires Inv(c, o) && c.state.WaitRetryHealth?
    ensures Inv(Step(c, o), o)
  {
    var P := MainPrefix(c.executionName, c.bucketName);
    var r := Step(c, o);
    if r.state == CheckHealth {
      assert Retries(r.retries) == Retries(c.retries) + [HealthProbe, RetryWait];
      assert r.trace == P + Retries(r.retries);
      assert ProbesUnhealthyBelow(o, r.retries) by {
        forall k: nat | k < r.retries ensures Unhealthy(o, k) {
          if k < c.retries {
            assert Unhealthy(o, k);
          }
        }
      }
    }
  }

  /** The final fan-out issues its three calls, reaches the nominal counts
      when it succeeds, and touches nothing else. */
  lemma ScaleUpAllStep(c: Config, o: Oracle)
    requires c.state.ScaleUpAll?
    ensures var r := Step(c, o);
      && r == c.(state := r.state, desired := r.desired, trace := c.trace + Calls(ScaleUpBranches))
      && (r.state == Done(Succeeded) || r.state == RollbackScaleUp("ScaleUpAll"))
      && (r.state == Done(Succeeded) ==> Nominal(r.desired))
  {
    ApplyThree(c.desired, o, ScaleUpBranches);
  }

  lemma StepInvScaleUp(c: Config, o: Oracle)
    requires Inv(c, o) && c.state.ScaleUpAll?
    ensures Inv(Step(c, o), o)
  {
    ScaleUpAllStep(c, o);
    assert Step(c, o).trace == SuccessTrace(c.executionId, c.bucketName, c.retries);
  }

  /** A prefix of `main` followed by `tail` ends after `main` with `tail`. */
  lemma EndsAfterAppend(t: seq<Event>, main: seq<Event>, tail: seq<Event>)
    requires t <= main
    ensures EndsAfter(t + tail, main, tail)
  {
    assert (t + tail)[..|t|] == t;
  }

  /** One more event extends the tail. */
  lemma EndsAfterExtend(t: seq<Event>, main: seq<Event>, tail: seq<Event>, e: Event)
    requires EndsAfter(t, main, tail)
    ensures EndsAfter(t + [e], main, tail + [e])
  {
    assert (t + [e])[..|t + [e]| - |tail + [e]|] == t[..|t| - |tail|];
  }

  /** The rollback fan-out issues its three calls, restores the nominal
      counts when it moves on, and touches nothing else. */
  lemma RollbackScaleUpStep(c: Config, o: Oracle)
    requires c.state.RollbackScaleUp?
    ensures var r := Step(c, o);
      && r == c.(state := r.state, desired := r.desired, trace := c.trace + Calls(RollbackBranches))
      && (r.state == MaintenanceOff || r.state == Done(Aborted("RollbackScaleUp")))
      && (r.state == MaintenanceOff ==> Nominal(r.desired))
  {
    ApplyThree(c.desired, o, RollbackBranches);
  }

  lemma StepInvRollbackScaleUp(c: Config, o: Oracle)
    requires Inv(c, o) && c.state.RollbackScaleUp?
    ensures Inv(Step(c, o), o)
  {
    RollbackScaleUpStep(c, o);
    EndsAfterAppend(c.trace, SuccessTrace(c.executionId, c.bucketName, c.retries), Calls(RollbackBranches));
  }

  lemma StepInvMaintenanceOff(c: Config, o: Oracle)
    requires Inv(c, o) && c.state.MaintenanceOff?
    ensures Inv(Step(c, o), o)
  {
    EndsAfterExtend(c.trace, SuccessTrace(c.executionId, c.bucketName, c.retries), Calls(RollbackBranches), OffCall);
  }

  lemma StepInv(c: Config, o: Oracle)
    requires Inv(c, o) && !c.state.Done?
    ensures Inv(Step(c, o), o)
  {
    if c.state in {ExtractExecutionId, MaintenanceOn, WaitDrain, ScaleDownAll, WaitScaleDown} {
      StepInvSetup(c, o);
    } else if c.state in {CreateSnapshot, BackupConfig, ScaleUpNextcloudOne, WaitUpgrade} {
      StepInvBackup(c, o);
    } else if c.state.RollbackScaleUp? {
      StepInvRollbackScaleUp(c, o);
    } else if c.state.MaintenanceOff? {
      StepInvMaintenanceOff(c, o);
    } else if c.state.WaitRetryHealth? {
      StepInvRetry(c, o);
    } else if c.state.ScaleUpAll? {
      StepInvScaleUp(c, o);
    } else {
      StepInvHealth(c, o);
    }
  }

  /** One transition keeps the invariant and the rest of the execution. */
  lemma StepKeepsInv(c: Config, o: Oracle) returns (r: Config)
    requires Inv(c, o) && !c.state.Done?
    ensures r == Step(c, o) && Inv(r, o)
    ensures Execute(r, o) == Execute(c, o)
  {
    r := Step(c, o);
    StepInv(c, o);
  }

  lemma {:induction false} ExecuteInv(c: Config, o: Oracle)
    requires Inv(c, o)
    ensures Inv(Execute(c, o), o)
    decreases Remaining(c), Rank(c.state)
  {
    if !c.state.Done? {
      StepInv(c, o);
      StepProgresses(c, o);
      ExecuteInv(Step(c, o), o);
    }
  }

  /** Every execution ends in a state its outcome accounts for. */
  lemma ExecuteEnds(name: string, bucket: string, d0: map<string, int>, o: Oracle) returns (r: Config)
    ensures r == Execute(Start(name, bucket, d0), o)
    ensures r.state.Done? && OutcomeInv(r, o)
    ensures r.retries <= MaxRetries && ProbesUnhealthyBelow(o, r.retries) && r.executionId == name
  {
    r := Execute(Start(name, bucket, d0), o);
    StartInv(name, bucket, d0, o);
    ExecuteInv(Start(name, bucket, d0), o);
  }

  lemma StartInv(name: string, bucket: string, d0: map<string, int>, o: Oracle)
    ensures Inv(Start(name, bucket, d0), o)
  {
  }

  // ---------------------------------------------------------------------
  // Whole executions
  // ---------------------------------------------------------------------

  predicate IsSnapshotCall(e: Event)
  {
    e.Called? && e.call.CreateDbClusterSnapshot?
  }

  /** A success history holds one snapshot call, the seventh event, and no
      maintenance-off command. */
  lemma SuccessTraceContents(id: string, bucket: string, n: nat)
    ensures var ST := SuccessTrace(id, bucket, n);
      && OffCall !in ST
      && IsSnapshotCall(ST[6]) && ST[6].call.snapshotId == SnapshotPrefix + id
      && forall i :: 0 <= i < |ST| && IsSnapshotCall(ST[i]) ==> i == 6
  {
    var P := MainPrefix(id, bucket);
    var R := Retries(n);
    var U := Calls(ScaleUpBranches);
    var ST := SuccessTrace(id, bucket, n);
    MainPrefixAt(id, bucket);
    RetriesOnly(n);
    assert ST == P + R + [HealthProbe] + U;
    forall i | 0 <= i < |ST|
      ensures ST[i] != OffCall
      ensures IsSnapshotCall(ST[i]) ==> i == 6
    {
      if i < |P| {
        assert ST[i] == P[i];
        if 2 <= i < 5 {
          assert P[i] == P[2..5][i - 2];
        }
      } else if i < |P| + |R| {
        assert ST[i] == R[i - |P|];
      } else if i == |P| + |R| {
        assert ST[i] == HealthProbe;
      } else {
        assert ST[i] == U[i - |P| - |R| - 1];
      }
    }
  }

  /** The history of a finished execution: a run along the main chain,
      cut short at a failure or not, followed by what the compensating path
      managed to issue. */
  lemma FinalTrace(name: string, bucket: string, d0: map<string, int>, o: Oracle)
    returns (main: seq<Event>, tail: seq<Event>)
    ensures var r := Execute(Start(name, bucket, d0), o);
      && r.trace == main + tail
      && main <= SuccessTrace(name, bucket, r.retries)
      && (tail == [] || tail == Calls(RollbackBranches) || tail == RollbackTrace())
      && (tail == RollbackTrace() <==> r.state.outcome.FailedWith? || r.state.outcome == Aborted("MaintenanceOff"))
      && (r.state.outcome.TimedOut? || r.state.outcome.Succeeded? ==> tail == [])
  {
    var r := ExecuteEnds(name, bucket, d0, o);
    var ST := SuccessTrace(name, bucket, r.retries);
    match r.state.outcome
    case Succeeded =>
      main, tail := r.trace, [];
    case TimedOut =>
      HealthProbeInSuccess(name, bucket, r.retries);
      main, tail := r.trace, [];
    case FailedWith(_) =>
      tail := RollbackTrace();
      main := EndsAfterSplit(r.trace, ST, tail);
    case Aborted(s) =>
      if s == "RollbackScaleUp" {
        tail := Calls(RollbackBranches);
        main := EndsAfterSplit(r.trace, ST, tail);
        assert |Calls(RollbackBranches)| != |RollbackTrace()|;
      } else {
        tail := RollbackTrace();
        main := EndsAfterSplit(r.trace, ST, tail);
      }
  }

  /** A history that ends after `main` with `tail` splits into the two. */
  lemma EndsAfterSplit(t: seq<Event>, main: seq<Event>, tail: seq<Event>) returns (head: seq<Event>)
    requires EndsAfter(t, main, tail)
    ensures t == head + tail && head <= main
  {
    head := t[..|t| - |tail|];
    assert t == head + t[|t| - |tail|..];
  }

  /** `ExtractExecutionId` captures the execution name once; every later
      state sees it unchanged. */
  lemma ExecutionIdCaptured(name: string, bucket: string, d0: map<string, int>, o: Oracle)
    ensures Execute(Start(name, bucket, d0), o).executionId == name
  {
    var r := ExecuteEnds(name, bucket, d0, o);
  }

  /** The success path: the main chain in order, CheckHealth repeated until
      the first probe that sees a running task, then ScaleUpAll to {2, 2, 1}
      and Succeed; maintenance mode is never turned off. */
  lemma SuccessfulUpgrade(name: string, bucket: string, d0: map<string, int>, o: Oracle)
    ensures var r := Execute(Start(name, bucket, d0), o);
      r.state == Done(Succeeded) ==>
        && r.trace == SuccessTrace(name, bucket, r.retries)
        && Nominal(r.desired)
        && OffCall !in r.trace
        && r.retries <= MaxRetries
        && ProbesUnhealthyBelow(o, r.retries) && Healthy(o, r.retries)
        && r.elapsed == SetupWait + RetryHealthSeconds * r.retries
  {
    var r := ExecuteEnds(name, bucket, d0, o);
    SuccessTraceContents(name, bucket, r.retries);
  }

  /** Any caught error ends the same way: the three services back at
      {2, 2, 1}, then maintenance mode off as the very last call, then the
      Fail state with the fixed cause. */
  lemma FailedUpgrade(name: string, bucket: string, d0: map<string, int>, o: Oracle)
    ensures var r := Execute(Start(name, bucket, d0), o);
      r.state.outcome.FailedWith? ==>
        && r.state.outcome.cause == UpgradeFailedCause
        && Nominal(r.desired)
        && |r.trace| >= 4
        && r.trace[|r.trace| - 4..] == RollbackTrace()
        && r.trace[..|r.trace| - 4] <= SuccessTrace(name, bucket, r.retries)
        && OffCall !in r.trace[..|r.trace| - 1]
  {
    var r := ExecuteEnds(name, bucket, d0, o);
    if r.state.outcome.FailedWith? {
      var ST := SuccessTrace(name, bucket, r.retries);
      SuccessTraceContents(name, bucket, r.retries);
      var main := r.trace[..|r.trace| - 4];
      assert r.trace[..|r.trace| - 1] == main + Calls(RollbackBranches);
      forall i | 0 <= i < |r.trace| - 1 ensures r.trace[i] != OffCall {
        if i < |main| {
          assert r.trace[i] == ST[i];
        } else {
          assert r.trace[i] == Calls(RollbackBranches)[i - |main|];
        }
      }
    }
  }

  /** When every probe sees no running task, the 2-hour timeout ends the
      execution after MaxRetries rounds, leaving Nextcloud at 1 task, the
      other two services at 0 and maintenance mode on: nothing rolls back. */
  lemma TimedOutUpgrade(name: string, bucket: string, d0: map<string, int>, o: Oracle)
    ensures var r := Execute(Start(name, bucket, d0), o);
      r.state == Done(TimedOut) ==>
        && r.retries == MaxRetries
        && ProbesUnhealthyBelow(o, MaxRetries + 1)
        && Counts(r.desired, 1, 0, 0)
        && OffCall !in r.trace
  {
    var r := ExecuteEnds(name, bucket, d0, o);
    if r.state == Done(TimedOut) {
      SuccessTraceContents(name, bucket, r.retries);
      HealthProbeInSuccess(name, bucket, r.retries);
      var ST := SuccessTrace(name, bucket, r.retries);
      forall i | 0 <= i < |r.trace| ensures r.trace[i] != OffCall {
        assert r.trace[i] == ST[i];
      }
      assert ProbesUnhealthyBelow(o, MaxRetries + 1) by {
        forall k: nat | k < MaxRetries + 1 ensures Unhealthy(o, k) {
          if k < MaxRetries {
            assert Unhealthy(o, k);
          }
        }
      }
    }
  }

  /** `maintenance:mode --off` is issued only by the compensating path, as
      its last call and after the three rollback branches. */
  lemma MaintenanceOffOnlyOnRollback(name: string, bucket: string, d0: map<string, int>, o: Oracle)
    ensures var r := Execute(Start(name, bucket, d0), o);
      OffCall in r.trace ==>
        && (r.state == Done(FailedWith(UpgradeFailedCause)) || r.state == Done(Aborted("MaintenanceOff")))
        && |r.trace| >= 4
        && r.trace[|r.trace| - 4..] == RollbackTrace()
        && OffCall !in r.trace[..|r.trace| - 1]
  {
    var r := Execute(Start(name, bucket, d0), o);
    var main, tail := FinalTrace(name, bucket, d0, o);
    var ST := SuccessTrace(name, bucket, r.retries);
    SuccessTraceContents(name, bucket, r.retries);
    assert OffCall !in main by {
      forall i | 0 <= i < |main| ensures main[i] != OffCall {
        assert main[i] == ST[i];
      }
    }
    assert OffCall !in Calls(RollbackBranches);
    if OffCall in r.trace {
      assert tail == RollbackTrace();
      assert r.trace[..|r.trace| - 1] == main + Calls(RollbackBranches);
      assert r.trace[|r.trace| - 4..] == tail;
      FailedUpgrade(name, bucket, d0, o);
    }
  }

  /** The one snapshot an execution may take is its seventh call, named
      `pre-upgrade-<execution name>`. */
  lemma SnapshotNamedAfterExecution(name: string, bucket: string, d0: map<string, int>, o: Oracle)
    ensures var r := Execute(Start(name, bucket, d0), o);
      forall i :: 0 <= i < |r.trace| && IsSnapshotCall(r.trace[i]) ==>
        i == 6 && r.trace[i].call.snapshotId == SnapshotPrefix + name
  {
    var r := Execute(Start(name, bucket, d0), o);
    var main, tail := FinalTrace(name, bucket, d0, o);
    var ST := SuccessTrace(name, bucket, r.retries);
    SuccessTraceContents(name, bucket, r.retries);
    forall i | 0 <= i < |r.trace| && IsSnapshotCall(r.trace[i])
      ensures i == 6 && r.trace[i].call.snapshotId == SnapshotPrefix + name
    {
      if i < |main| {
        assert r.trace[i] == ST[i];
      }
    }
  }

  // ---------------------------------------------------------------------
  // Single transitions
  // ---------------------------------------------------------------------

  /** ScaleDownAll issues its three branches; when none fails every service
      is at 0, and nothing but the desired counts and the history changes. */
  lemma ScaleDownAllEffect(c: Config, o: Oracle)
    requires c.state == ScaleDownAll
    ensures var r := Step(c, o);
      && r.trace == c.trace + Calls(ScaleDownBranches)
      && (r.state == WaitScaleDown <==> forall i :: 0 <= i < 3 ==> !Fails(o, ScaleDownBranches[i]))
      && (r.state != WaitScaleDown ==> r.state == RollbackScaleUp("ScaleDownAll"))
      && (r.state == WaitScaleDown ==>
            r.desired == c.desired[NextcloudService := 0][ApacheService := 0][NotifyPushService := 0])
      && r.executionId == c.executionId && r.elapsed == c.elapsed && r.retries == c.retries
  {
    ApplyThree(c.desired, o, ScaleDownBranches);
  }

  /** IsHealthy with a running task goes through the HealthCheckPassed Pass
      state straight to ScaleUpAll: no wait, no call. */
  lemma HealthyProceedsToScaleUpAll(c: Config, o: Oracle)
    requires c.state.IsHealthy? && c.state.runningCount >= 1
    ensures var r := Step(Step(c, o), o);
      && Step(c, o).state == HealthCheckPassed
      && r.state == ScaleUpAll
      && r.trace == c.trace && r.elapsed == c.elapsed && r.desired == c.desired && r.retries == c.retries
  {
  }

  /** IsHealthy with no running task waits 60 s and probes again; only the
      execution timeout bounds the loop. */
  lemma UnhealthyWaitsAndRetries(c: Config, o: Oracle)
    requires c.state.IsHealthy? && c.state.runningCount < 1
    ensures Step(c, o).state == WaitRetryHealth
    ensures var r := Step(Step(c, o), o);
      if c.elapsed + RetryHealthSeconds <= Timeout then
        && r.state == CheckHealth
        && r.trace == c.trace + [RetryWait]
        && r.elapsed == c.elapsed + RetryHealthSeconds
        && r.retries == c.retries + 1
        && r.desired == c.desired
      else r.state == Done(TimedOut) && r.trace == c.trace
  {
  }

  /** The rollback does not look at which state failed: it always issues the
      same three branches and, when they succeed, sets {2, 2, 1}. */
  lemma RollbackIgnoresFailedState(c: Config, o: Oracle, other: string)
    requires c.state.RollbackScaleUp?
    ensures Step(c, o) == Step(c.(state := RollbackScaleUp(other)), o)
    ensures var r := Step(c, o);
      && r.trace == c.trace + Calls(RollbackBranches)
      && (r.state == MaintenanceOff ==>
            r.desired == c.desired[NextcloudService := 2][ApacheService := 2][NotifyPushService := 1])
      && (r.state != MaintenanceOff ==> r.state == Done(Aborted("RollbackScaleUp")))
  {
    ApplyThree(c.desired, o, RollbackBranches);
  }

  // ---------------------------------------------------------------------
  // When an execution succeeds
  // ---------------------------------------------------------------------

  /** The ids of the main chain's task states. */
  const MainChainTasks: set<string> :=
    { "MaintenanceOn", "ScaleDownNextcloud", "ScaleDownApache", "ScaleDownNotify", "CreateSnapshot",
      "BackupConfig", "ScaleUpNextcloudOne", "ScaleUpNextcloud", "ScaleUpApache", "ScaleUpNotify" }

  /** From CheckHealth, with no failing scale-up branch and the first
      running task seen by probe k, the execution succeeds after k retries. */
  lemma {:induction false} PollUntilHealthy(c: Config, o: Oracle, k: nat)
    requires Inv(c, o) && c.state == CheckHealth
    requires o.fails !! MainChainTasks
    requires c.retries <= k <= MaxRetries
    requires forall j: nat :: c.retries <= j < k ==> Unhealthy(o, j)
    requires Healthy(o, k)
    ensures Execute(c, o).state == Done(Succeeded) && Execute(c, o).retries == k
    decreases k - c.retries
  {
    if c.retries == k {
      HealthyProbeSucceeds(c, o);
    } else {
      var c3 := UnhealthyProbeRetries(c, o);
      PollUntilHealthy(c3, o, k);
    }
  }

  /** A CheckHealth whose probe sees a running task, followed by scale-up
      branches that all succeed, ends the execution successfully. */
  lemma HealthyProbeSucceeds(c: Config, o: Oracle)
    requires c.state == CheckHealth && Healthy(o, c.retries)
    requires o.fails !! MainChainTasks
    ensures Execute(c, o).state == Done(Succeeded) && Execute(c, o).retries == c.retries
  {
    var c1 := Step(c, o);
    var c2 := Step(c1, o);
    assert c2.state == HealthCheckPassed && c2.retries == c.retries;
    assert Execute(c, o) == Execute(c1, o) == Execute(c2, o);
    PassedCheckSucceeds(c2, o);
  }

  /** After a passed health check, scale-up branches that all succeed end
      the execution successfully. */
  lemma PassedCheckSucceeds(c: Config, o: Oracle)
    requires c.state == HealthCheckPassed
    requires o.fails !! MainChainTasks
    ensures Execute(c, o).state == Done(Succeeded) && Execute(c, o).retries == c.retries
  {
    var c1 := Step(c, o);
    var c2 := Step(c1, o);
    assert c2.state == Done(Succeeded) && c2.retries == c.retries;
    assert Execute(c, o) == Execute(c1, o) == c2;
  }

  /** A CheckHealth whose probe sees no running task, with time left for one
      more wait, comes back to CheckHealth with one more retry. */
  lemma UnhealthyProbeRetries(c: Config, o: Oracle) returns (c3: Config)
    requires Inv(c, o) && c.state == CheckHealth
    requires Unhealthy(o, c.retries) && c.retries < MaxRetries
    ensures Inv(c3, o) && c3.state == CheckHealth && c3.retries == c.retries + 1
    ensures Execute(c3, o) == Execute(c, o)
  {
    var c1 := Step(c, o);
    StepInv(c, o);
    var c2 := Step(c1, o);
    StepInv(c1, o);
    assert c2.state == WaitRetryHealth;
    assert RetryHealthSeconds * c.retries <= RetryHealthSeconds * (MaxRetries - 1);
    c3 := Step(c2, o);
    StepInv(c2, o);
    assert Execute(c, o) == Execute(c1, o) == Execute(c2, o) == Execute(c3, o);
  }

  /** Task states before CreateSnapshot. */
  const SetupTasks: set<string> :=
    { "MaintenanceOn", "ScaleDownNextcloud", "ScaleDownApache", "ScaleDownNotify" }

  /** Task states before the first CheckHealth. */
  const PreHealthTasks: set<string> :=
    { "MaintenanceOn", "ScaleDownNextcloud", "ScaleDownApache", "ScaleDownNotify", "CreateSnapshot",
      "BackupConfig", "ScaleUpNextcloudOne" }

  /** With a MaintenanceOn call that succeeds, the execution reaches ScaleDownAll. */
  lemma SetupReachesScaleDown(name: string, bucket: string, d0: map<string, int>, o: Oracle)
    returns (c: Config)
    requires "MaintenanceOn" !in o.fails
    ensures Inv(c, o) && c.state == ScaleDownAll
    ensures Execute(c, o) == Execute(Start(name, bucket, d0), o)
  {
    var c0 := Start(name, bucket, d0);
    StartInv(name, bucket, d0, o);
    var c1 := StepKeepsInv(c0, o);
    assert c1.state == MaintenanceOn;
    var c2 := StepKeepsInv(c1, o);
    assert c2.state == WaitDrain;
    c := StepKeepsInv(c2, o);
  }

  /** With no failing call before it, the execution reaches CreateSnapshot. */
  lemma SetupReachesSnapshot(name: string, bucket: string, d0: map<string, int>, o: Oracle)
    returns (c: Config)
    requires o.fails !! SetupTasks
    ensures Inv(c, o) && c.state == CreateSnapshot
    ensures Execute(c, o) == Execute(Start(name, bucket, d0), o)
  {
    var c3 := SetupReachesScaleDown(name, bucket, d0, o);
    var c4 := StepKeepsInv(c3, o);
    assert c4.state == WaitScaleDown;
    c := StepKeepsInv(c4, o);
  }

  /** With no failing call before it the execution reaches the first
      CheckHealth. */
  lemma SetupReachesCheckHealth(name: string, bucket: string, d0: map<string, int>, o: Oracle)
    returns (c: Config)
    requires o.fails !! PreHealthTasks
    ensures Inv(c, o) && c.state == CheckHealth && c.retries == 0
    ensures Execute(c, o) == Execute(Start(name, bucket, d0), o)
  {
    var c5 := SetupReachesSnapshot(name, bucket, d0, o);
    var c7 := SnapshotReachesScaleUp(c5, o);
    c := ScaleUpReachesCheckHealth(c7, o);
  }

  /** A snapshot and a backup that succeed lead to ScaleUpNextcloudOne. */
  lemma SnapshotReachesScaleUp(c: Config, o: Oracle) returns (r: Config)
    requires Inv(c, o) && c.state == CreateSnapshot
    requires "CreateSnapshot" !in o.fails && "BackupConfig" !in o.fails
    ensures Inv(r, o) && r.state == ScaleUpNextcloudOne && r.retries == 0
    ensures Execute(r, o) == Execute(c, o)
  {
    var c6 := StepKeepsInv(c, o);
    assert c6.state == BackupConfig;
    r := StepKeepsInv(c6, o);
  }

  /** Starting the one Nextcloud task and waiting leads to the first probe. */
  lemma ScaleUpReachesCheckHealth(c: Config, o: Oracle) returns (r: Config)
    requires Inv(c, o) && c.state == ScaleUpNextcloudOne
    requires "ScaleUpNextcloudOne" !in o.fails
    ensures Inv(r, o) && r.state == CheckHealth && r.retries == 0
    ensures Execute(r, o) == Execute(c, o)
  {
    var c8 := StepKeepsInv(c, o);
    assert c8.state == WaitUpgrade;
    r := StepKeepsInv(c8, o);
  }

  /** With no failing call in the main chain, the execution succeeds exactly
      at the first probe that sees a running task, provided it comes within
      the timeout. */
  lemma FirstHealthyProbeDecides(name: string, bucket: string, d0: map<string, int>, o: Oracle, k: nat)
    requires o.fails !! MainChainTasks
    requires k <= MaxRetries && ProbesUnhealthyBelow(o, k) && Healthy(o, k)
    ensures var r := Execute(Start(name, bucket, d0), o);
      r.state == Done(Succeeded) && r.retries == k && Nominal(r.desired)
  {
    var c := SetupReachesCheckHealth(name, bucket, d0, o);
    PollUntilHealthy(c, o, k);
    SuccessfulUpgrade(name, bucket, d0, o);
  }

  // ---------------------------------------------------------------------
  // Two concrete executions
  // ---------------------------------------------------------------------

  /** Execution `run-42`: the first probe sees no running task, the second
      sees one. It succeeds after one retry, with snapshot
      `pre-upgrade-run-42` and the services at {2, 2, 1}. */
  lemma Run42Succeeds(bucket: string, d0: map<string, int>)
    ensures var o := Oracle({}, (k: nat) => if k == 0 then Observed(0) else Observed(1));
      var r := Execute(Start("run-42", bucket, d0), o);
      && r.state == Done(Succeeded)
      && r.retries == 1
      && Nominal(r.desired)
      && r.trace == SuccessTrace("run-42", bucket, 1)
      && r.trace[6] == Called(CreateDbClusterSnapshot("CreateSnapshot", "pre-upgrade-run-42"))
  {
    var o := Oracle({}, (k: nat) => if k == 0 then Observed(0) else Observed(1));
    assert ProbesUnhealthyBelow(o, 1) by {
      forall j: nat | j < 1 ensures Unhealthy(o, j) {
        assert j == 0;
      }
    }
    FirstHealthyProbeDecides("run-42", bucket, d0, o, 1);
    SuccessfulUpgrade("run-42", bucket, d0, o);
    SuccessTraceContents("run-42", bucket, 1);
    MainPrefixAt("run-42", bucket);
    assert SuccessTrace("run-42", bucket, 1)[6] == MainPrefix("run-42", bucket)[6];
  }

  /** The states of the compensating path. */
  const RollbackTasks: set<string> :=
    { "RollbackNextcloud", "RollbackApache", "RollbackNotify", "MaintenanceOff" }

  /** When the compensating calls succeed, a rollback ends the execution as
      failed with the fixed cause, after the rollback history, at the
      nominal counts. */
  lemma RollbackCompletes(c: Config, o: Oracle)
    requires c.state.RollbackScaleUp? && o.fails !! RollbackTasks
    ensures var r := Execute(c, o);
      && r.state == Done(FailedWith(UpgradeFailedCause))
      && r.trace == c.trace + RollbackTrace()
      && Nominal(r.desired)
  {
    RollbackScaleUpStep(c, o);
    var c1 := Step(c, o);
    assert c1.state == MaintenanceOff;
    var c2 := Step(c1, o);
    assert c2.state == Done(FailedWith(UpgradeFailedCause));
    assert Execute(c, o) == Execute(c1, o) == c2;
  }
}
