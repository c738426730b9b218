/** The `nextcloud-upgrade` Step Functions state machine declared in the CDK
    stack: maintenance mode on, drain, scale the three ECS services to zero,
    snapshot the Aurora cluster, back up config.php, start one Nextcloud task,
    poll its running count, scale everything back up; any error in that chain
    is caught once and sent to a fixed rollback.

    External calls are decided by an `Oracle`; waits are labelled steps that
    advance a clock of seconds; the 2-hour execution timeout ends the run when
    a wait would carry that clock past it. */
module UpgradeWorkflow {

  // ---------------------------------------------------------------------
  // Constants of the workflow definition
  // ---------------------------------------------------------------------

  const NextcloudService := "nextcloud-aio-nextcloud"
  const ApacheService := "nextcloud-aio-apache"
  const NotifyPushService := "nextcloud-aio-notify-push"

  const MaintenanceOnCommand: seq<string> := ["php", "/var/www/html/occ", "maintenance:mode", "--on"]
  const MaintenanceOffCommand: seq<string> := ["php", "/var/www/html/occ", "maintenance:mode", "--off"]

  /** The `sh -c` command of the BackupConfig task; the timestamp is expanded
      by the shell inside the container, so it stays literal here. */
  function BackupCommand(bucketName: string): (r: seq<string>)
    ensures |r| == 3 && r[0] == "sh" && r[1] == "-c"
    ensures |r[2]| == |BackupSource| + |bucketName| + |BackupKey|
    ensures r[2][..|BackupSource|] == BackupSource
    ensures r[2][|BackupSource|..|BackupSource| + |bucketName|] == bucketName
    ensures r[2][|BackupSource| + |bucketName|..] == BackupKey
  {
    var script := BackupSource + bucketName + BackupKey;
    assert script[..|BackupSource|] == BackupSource;
    assert script[|BackupSource|..|BackupSource| + |bucketName|] == bucketName;
    assert script[|BackupSource| + |bucketName|..] == BackupKey;
    ["sh", "-c", script]
  }

  /** The copy command up to the bucket, and the object key after it. */
  const BackupSource: string := "aws s3 cp /var/www/html/config/config.php s3://"
  const BackupKey: string := "/backups/config.php.$(date +%Y%m%d%H%M%S)"

  /** Each bucket gets its own backup command: the bucket is read back from
      the command. */
  lemma BackupCommandNamesBucket(a: string, b: string)
    requires BackupCommand(a) == BackupCommand(b)
    ensures a == b
  {
    var ra := BackupCommand(a);
    var rb := BackupCommand(b);
    assert |a| == |b| by {
      assert |ra[2]| == |rb[2]|;
    }
  }

  const SnapshotPrefix := "pre-upgrade-"
  const UpgradeFailedCause := "Upgrade failed. Services rolled back to previous state."

  /** The state machine's overall timeout, in seconds (2 hours). */
  const Timeout: nat := 7200

  const DrainSeconds: nat := 30
  const ScaleDownSeconds: nat := 60
  const UpgradeSeconds: nat := 180
  const RetryHealthSeconds: nat := 60

  // ---------------------------------------------------------------------
  // API calls, events and the two task helpers
  // ---------------------------------------------------------------------

  /** One AWS SDK call issued by a task state; `stateId` is the CDK id of
      the state that issues it. */
  datatype ApiCall =
    | RunTask(stateId: string, containerName: string, command: seq<string>, resultPath: string)
    | UpdateService(stateId: string, serviceName: string, desiredCount: nat)
    | CreateDbClusterSnapshot(stateId: string, snapshotId: string)
    | DescribeServices(stateId: string, services: seq<string>)

  /** What the execution history records: a call issued or a wait elapsed. */
  datatype Event = Called(call: ApiCall) | Waited(stateId: string, seconds: nat)

  /** `runOccCommand`: a one-off Fargate task of the Nextcloud task
      definition whose `nextcloud` container runs `command`; its result is
      kept under `$.<id>Result`. */
  function RunOccCommand(id: string, command: seq<string>): (call: ApiCall)
    ensures call.RunTask? && call.stateId == id
    ensures call.containerName == "nextcloud" && call.command == command
  {
    RunTask(id, "nextcloud", command, "$." + id + "Result")
  }

  /** `scaleService`: an UpdateService call setting one service's desired count. */
  function ScaleService(id: string, serviceName: string, count: nat): (call: ApiCall)
    ensures call.UpdateService? && call.stateId == id
    ensures call.serviceName == serviceName && call.desiredCount == count
  {
    UpdateService(id, serviceName, count)
  }

  /** The three branches of each Parallel fan-out, in branch order. */
  const ScaleDownBranches: seq<ApiCall> :=
    [ ScaleService("ScaleDownNextcloud", NextcloudService, 0),
      ScaleService("ScaleDownApache", ApacheService, 0),
      ScaleService("ScaleDownNotify", NotifyPushService, 0) ]

  const ScaleUpBranches: seq<ApiCall> :=
    [ ScaleService("ScaleUpNextcloud", NextcloudService, 2),
      ScaleService("ScaleUpApache", ApacheService, 2),
      ScaleService("ScaleUpNotify", NotifyPushService, 1) ]

  const RollbackBranches: seq<ApiCall> :=
    [ ScaleService("RollbackNextcloud", NextcloudService, 2),
      ScaleService("RollbackApache", ApacheService, 2),
      ScaleService("RollbackNotify", NotifyPushService, 1) ]

  // ---------------------------------------------------------------------
  // The environment: which calls fail, what each health probe sees
  // ---------------------------------------------------------------------

  /** The result of one DescribeServices call, read at
      `Services[0].Deployments[0].RunningCount`. */
  datatype Probe = ProbeFailed | Observed(runningCount: int)

  /** `fails` holds the ids of task states whose call raises an error;
      `probe(k)` is what the k-th CheckHealth call returns. */
  datatype Oracle = Oracle(fails: set<string>, probe: nat -> Probe)

  predicate Fails(o: Oracle, call: ApiCall)
  {
    call.stateId in o.fails
  }

  // ---------------------------------------------------------------------
  // States and configurations
  // ---------------------------------------------------------------------

  /** How an execution ends: the Succeed state, the Fail state with its
      cause, an error raised on the rollback path (nothing catches it), or
      the execution timeout. */
  datatype Outcome = Succeeded | FailedWith(cause: string) | Aborted(failedState: string) | TimedOut

  /** The states of the machine, named after their CDK ids. `IsHealthy`
      carries the running count read by the preceding CheckHealth;
      `RollbackScaleUp` carries the state whose error was caught. */
  datatype State =
    | ExtractExecutionId
    | MaintenanceOn
    | WaitDrain
    | ScaleDownAll
    | WaitScaleDown
    | CreateSnapshot
    | BackupConfig
    | ScaleUpNextcloudOne
    | WaitUpgrade
    | CheckHealth
    | IsHealthy(runningCount: int)
    | WaitRetryHealth
    | HealthCheckPassed
    | ScaleUpAll
    | RollbackScaleUp(failedState: string)
    | MaintenanceOff
    | Done(outcome: Outcome)

  /** A snapshot of one execution: its current state, its inputs (execution
      name, bucket of the config backup), the captured `executionId`, the
      desired count of each service, the history, the seconds spent waiting
      and how many WaitRetryHealth waits have completed. */
  datatype Config = Config(
    state: State,
    executionName: string,
    bucketName: string,
    executionId: string,
    desired: map<string, int>,
    trace: seq<Event>,
    elapsed: nat,
    retries: nat)

  /** A fresh execution named `executionName`, started while the services
      have desired counts `desired`. */
  function Start(executionName: string, bucketName: string, desired: map<string, int>): Config
  {
    Config(ExtractExecutionId, executionName, bucketName, "", desired, [], 0, 0)
  }

  // ---------------------------------------------------------------------
  // One transition
  // ---------------------------------------------------------------------

  /** A task state: the call is issued; the execution moves to `next`, or to
      `onError` when the call fails. */
  function Task(c: Config, o: Oracle, call: ApiCall, next: State, onError: State): (r: Config)
    ensures r.trace == c.trace + [Called(call)]
    ensures Fails(o, call) ==> r.state == onError
    ensures !Fails(o, call) ==> r.state == next
    ensures r.desired == c.desired && r.executionId == c.executionId
    ensures r.elapsed == c.elapsed && r.retries == c.retries
  {
    c.(state := if Fails(o, call) then onError else next,
       trace := c.trace + [Called(call)])
  }

  /** A single UpdateService task: the desired count changes only when the
      call succeeds. */
  function ScaleTask(c: Config, o: Oracle, call: ApiCall, next: State, onError: State): (r: Config)
    requires call.UpdateService?
    ensures r.trace == c.trace + [Called(call)]
    ensures Fails(o, call) ==> r.state == onError && r.desired == c.desired
    ensures !Fails(o, call) ==> r.state == next && call.serviceName in r.desired && r.desired[call.serviceName] == call.desiredCount
    ensures forall s :: s != call.serviceName ==> (s in r.desired <==> s in c.desired)
    ensures forall s :: s != call.serviceName && s in c.desired ==> r.desired[s] == c.desired[s]
    ensures r == c.(state := r.state, desired := r.desired, trace := r.trace)
  {
    var r := Task(c, o, call, next, onError);
    if Fails(o, call) then r else r.(desired := c.desired[call.serviceName := call.desiredCount])
  }

  /** The effect of the UpdateService branches that succeed. */
  function ApplyScaling(desired: map<string, int>, o: Oracle, branches: seq<ApiCall>): map<string, int>
    requires forall i :: 0 <= i < |branches| ==> branches[i].UpdateService?
    decreases |branches|
  {
    if branches == [] then desired
    else
      var b := branches[0];
      ApplyScaling(if Fails(o, b) then desired else desired[b.serviceName := b.desiredCount],
                   o, branches[1..])
  }

  /** A three-branch fan-out applies its branches one after the other. */
  lemma ApplyThree(d: map<string, int>, o: Oracle, bs: seq<ApiCall>)
    requires |bs| == 3 && bs[0].UpdateService? && bs[1].UpdateService? && bs[2].UpdateService?
    ensures ApplyScaling(d, o, bs) ==
      var d0 := if Fails(o, bs[0]) then d else d[bs[0].serviceName := bs[0].desiredCount];
      var d1 := if Fails(o, bs[1]) then d0 else d0[bs[1].serviceName := bs[1].desiredCount];
      if Fails(o, bs[2]) then d1 else d1[bs[2].serviceName := bs[2].desiredCount]
  {
    var d0 := if Fails(o, bs[0]) then d else d[bs[0].serviceName := bs[0].desiredCount];
    var d1 := if Fails(o, bs[1]) then d0 else d0[bs[1].serviceName := bs[1].desiredCount];
    assert bs[1..][0] == bs[1] && bs[1..][1..][0] == bs[2] && bs[1..][1..][1..] == [];
    assert ApplyScaling(d, o, bs) == ApplyScaling(d0, o, bs[1..]);
    assert ApplyScaling(d0, o, bs[1..]) == ApplyScaling(d1, o, bs[1..][1..]);
    var d2 := if Fails(o, bs[2]) then d1 else d1[bs[2].serviceName := bs[2].desiredCount];
    assert ApplyScaling(d1, o, bs[1..][1..]) == ApplyScaling(d2, o, bs[1..][1..][1..]);
  }

  function Calls(calls: seq<ApiCall>): (r: seq<Event>)
    ensures |r| == |calls|
    ensures forall i :: 0 <= i < |calls| ==> r[i] == Called(calls[i])
  {
    if calls == [] then [] else [Called(calls[0])] + Calls(calls[1..])
  }

  /** A Parallel state of UpdateService branches: every branch is issued,
      every branch that succeeds takes effect, and the fan-out fails when any
      branch fails. */
  function FanOut(c: Config, o: Oracle, branches: seq<ApiCall>, next: State, onError: State): (r: Config)
    requires forall i :: 0 <= i < |branches| ==> branches[i].UpdateService?
    ensures r.trace == c.trace + Calls(branches)
    ensures (forall i :: 0 <= i < |branches| ==> !Fails(o, branches[i])) ==> r.state == next
    ensures (exists i :: 0 <= i < |branches| && Fails(o, branches[i])) ==> r.state == onError
    ensures r.desired == ApplyScaling(c.desired, o, branches)
    ensures r == c.(state := r.state, desired := r.desired, trace := r.trace)
  {
    var failed := exists i :: 0 <= i < |branches| && Fails(o, branches[i]);
    c.(state := if failed then onError else next,
       desired := ApplyScaling(c.desired, o, branches),
       trace := c.trace + Calls(branches))
  }

  /** A Wait state; it times the execution out when it would carry the clock
      past `Timeout`. */
  function WaitFor(c: Config, id: string, seconds: nat, next: State): (r: Config)
    ensures c.elapsed + seconds <= Timeout ==>
      r == c.(state := next, trace := c.trace + [Waited(id, seconds)], elapsed := c.elapsed + seconds)
    ensures c.elapsed + seconds > Timeout ==> r == c.(state := Done(TimedOut))
  {
    if c.elapsed + seconds > Timeout then c.(state := Done(TimedOut))
    else c.(state := next, trace := c.trace + [Waited(id, seconds)], elapsed := c.elapsed + seconds)
  }

  /** Seconds left before the execution timeout. */
  function Remaining(c: Config): nat
  {
    if c.elapsed <= Timeout then Timeout - c.elapsed else 0
  }

  /** Position of a state in the graph, decreasing along every transition that
      does not wait. */
  function Rank(s: State): nat
  {
    match s
    case ExtractExecutionId => 20
    case MaintenanceOn => 19
    case WaitDrain => 18
    case ScaleDownAll => 17
    case WaitScaleDown => 16
    case CreateSnapshot => 15
    case BackupConfig => 14
    case ScaleUpNextcloudOne => 13
    case WaitUpgrade => 12
    case CheckHealth => 11
    case IsHealthy(_) => 10
    case WaitRetryHealth => 9
    case HealthCheckPassed => 8
    case ScaleUpAll => 7
    case RollbackScaleUp(_) => 3
    case MaintenanceOff => 2
    case Done(_) => 0
  }

  /** One transition of the state machine. Every state of the main chain
      sends a failed call to `RollbackScaleUp` (the catch on the `MainChain`
      Parallel); the rollback path has no catch. */
  function Step(c: Config, o: Oracle): (r: Config)
    requires !c.state.Done?
    ensures r.executionName == c.executionName && r.bucketName == c.bucketName
  {
    match c.state
    case ExtractExecutionId =>
      c.(state := MaintenanceOn, executionId := c.executionName)
    case MaintenanceOn =>
      Task(c, o, RunOccCommand("MaintenanceOn", MaintenanceOnCommand), WaitDrain, RollbackScaleUp("MaintenanceOn"))
    case WaitDrain =>
      WaitFor(c, "WaitDrain", DrainSeconds, ScaleDownAll)
    case ScaleDownAll =>
      FanOut(c, o, ScaleDownBranches, WaitScaleDown, RollbackScaleUp("ScaleDownAll"))
    case WaitScaleDown =>
      WaitFor(c, "WaitScaleDown", ScaleDownSeconds, CreateSnapshot)
    case CreateSnapshot =>
      Task(c, o, CreateDbClusterSnapshot("CreateSnapshot", SnapshotPrefix + c.executionId),
           BackupConfig, RollbackScaleUp("CreateSnapshot"))
    case BackupConfig =>
      Task(c, o, RunOccCommand("BackupConfig", BackupCommand(c.bucketName)),
           ScaleUpNextcloudOne, RollbackScaleUp("BackupConfig"))
    case ScaleUpNextcloudOne =>
      ScaleTask(c, o, ScaleService("ScaleUpNextcloudOne", NextcloudService, 1),
                WaitUpgrade, RollbackScaleUp("ScaleUpNextcloudOne"))
    case WaitUpgrade =>
      WaitFor(c, "WaitUpgrade", UpgradeSeconds, CheckHealth)
    case CheckHealth =>
      var probed := c.(trace := c.trace + [Called(DescribeServices("CheckHealth", [NextcloudService]))]);
      (match o.probe(c.retries)
       case ProbeFailed => probed.(state := RollbackScaleUp("CheckHealth"))
       case Observed(n) => probed.(state := IsHealthy(n)))
    case IsHealthy(n) =>
      c.(state := if n >= 1 then HealthCheckPassed else WaitRetryHealth)
    case WaitRetryHealth =>
      var w := WaitFor(c, "WaitRetryHealth", RetryHealthSeconds, CheckHealth);
      if w.state == CheckHealth then w.(retries := c.retries + 1) else w
    case HealthCheckPassed =>
      c.(state := ScaleUpAll)
    case ScaleUpAll =>
      FanOut(c, o, ScaleUpBranches, Done(Succeeded), RollbackScaleUp("ScaleUpAll"))
    case RollbackScaleUp(_) =>
      FanOut(c, o, RollbackBranches, MaintenanceOff, Done(Aborted("RollbackScaleUp")))
    case MaintenanceOff =>
      Task(c, o, RunOccCommand("MaintenanceOff", MaintenanceOffCommand),
           Done(FailedWith(UpgradeFailedCause)), Done(Aborted("MaintenanceOff")))
  }

  /** The whole execution from `c`: transitions until a terminal state. */
  function Execute(c: Config, o: Oracle): (r: Config)
    ensures r.state.Done?
    ensures r.executionName == c.executionName && r.bucketName == c.bucketName
    decreases Remaining(c), Rank(c.state)
  {
    if c.state.Done? then c
    else
      StepProgresses(c, o);
      Execute(Step(c, o), o)
  }

  /** Every transition either waits, using up time before the timeout, or
      moves to a state later in the graph: no execution runs forever. */
  lemma StepProgresses(c: Config, o: Oracle)
    requires !c.state.Done?
    ensures var r := Step(c, o);
      Remaining(r) < Remaining(c) || (Remaining(r) == Remaining(c) && Rank(r.state) < Rank(c.state))
  {
  }

  // ---------------------------------------------------------------------
  // The execution as an object updated in place
  // ---------------------------------------------------------------------

  /** One running execution. Its fields are the parts of `Config`; `Step`
      performs one transition in place and `Run` drives it to a terminal
      state. */
  class UpgradeExecution {
    const oracle: Oracle
    const executionName: string
    const bucketName: string
    var state: State
    var executionId: string
    var desired: map<string, int>
    var trace: seq<Event>
    var elapsed: nat
    var retries: nat

    function Current(): Config
      reads this
    {
      Config(state, executionName, bucketName, executionId, desired, trace, elapsed, retries)
    }

    constructor (executionName: string, bucketName: string, desired: map<string, int>, oracle: Oracle)
      ensures Current() == Start(executionName, bucketName, desired)
      ensures this.oracle == oracle
    {
      this.oracle := oracle;
      this.executionName := executionName;
      this.bucketName := bucketName;
      state := ExtractExecutionId;
      executionId := "";
      this.desired := desired;
      trace := [];
      elapsed := 0;
      retries := 0;
    }

    /** Issues `call` and moves to `next`, or to `onError` when it fails. */
    method RunCall(call: ApiCall, next: State, onError: State)
      modifies this
      ensures Current() == Task(old(Current()), oracle, call, next, onError)
    {
      ghost var expected := Task(Current(), oracle, call, next, onError);
      var failed := Fails(oracle, call);
      trace := trace + [Called(call)];
      state := if failed then onError else next;
      assert Current() == expected;
    }

    /** One UpdateService branch: issued, applied when it succeeds. */
    method Scale(call: ApiCall) returns (ok: bool)
      requires call.UpdateService?
      modifies this
      ensures ok == !Fails(oracle, call)
      ensures trace == old(trace) + [Called(call)]
      ensures desired == if ok then old(desired)[call.serviceName := call.desiredCount] else old(desired)
      ensures state == old(state) && executionId == old(executionId)
      ensures elapsed == old(elapsed) && retries == old(retries)
    {
      trace := trace + [Called(call)];
      ok := !Fails(oracle, call);
      if ok {
        desired := desired[call.serviceName := call.desiredCount];
      }
    }

    /** A Parallel state of three UpdateService branches. */
    method RunFanOut(branches: seq<ApiCall>, next: State, onError: State)
      requires |branches| == 3
      requires forall i :: 0 <= i < |branches| ==> branches[i].UpdateService?
      modifies this
      ensures Current() == FanOut(old(Current()), oracle, branches, next, onError)
    {
      ghost var before := Current();
      var ok0 := Scale(branches[0]);
      var ok1 := Scale(branches[1]);
      var ok2 := Scale(branches[2]);
      state := if ok0 && ok1 && ok2 then next else onError;
      ApplyThree(before.desired, oracle, branches);
      assert Calls(branches) == [Called(branches[0]), Called(branches[1]), Called(branches[2])];
      assert (exists i :: 0 <= i < |branches| && Fails(oracle, branches[i])) <==> !(ok0 && ok1 && ok2);
    }

    method RunWait(id: string, seconds: nat, next: State)
      modifies this
      ensures Current() == WaitFor(old(Current()), id, seconds, next)
    {
      if elapsed + seconds > Timeout {
        state := Done(TimedOut);
      } else {
        state := next;
        trace := trace + [Waited(id, seconds)];
        elapsed := elapsed + seconds;
      }
    }

    /** Performs one transition in place. */
    method Advance()
      requires !state.Done?
      modifies this
      ensures Current() == Step(old(Current()), oracle)
    {
      if state.CheckHealth? || state.IsHealthy? || state.WaitRetryHealth? || state.HealthCheckPassed? {
        AdvanceHealth();
      } else if state.ScaleUpAll? {
        AdvanceFinish();
      } else if state.RollbackScaleUp? || state.MaintenanceOff? {
        AdvanceRollback();
      } else if state.ExtractExecutionId? || state.MaintenanceOn? || state.WaitDrain? || state.ScaleDownAll? {
        AdvanceSetup();
      } else {
        AdvanceUpgrade();
      }
    }

    /** The transitions up to the scale-down fan-out. */
    method AdvanceSetup()
      requires state.ExtractExecutionId? || state.MaintenanceOn? || state.WaitDrain? || state.ScaleDownAll?
      modifies this
      ensures Current() == Step(old(Current()), oracle)
    {
      match state
      case ExtractExecutionId =>
        executionId := executionName;
        state := MaintenanceOn;
      case MaintenanceOn =>
        RunCall(RunOccCommand("MaintenanceOn", MaintenanceOnCommand), WaitDrain, RollbackScaleUp("MaintenanceOn"));
      case WaitDrain =>
        RunWait("WaitDrain", DrainSeconds, ScaleDownAll);
      case ScaleDownAll =>
        RunFanOut(ScaleDownBranches, WaitScaleDown, RollbackScaleUp("ScaleDownAll"));
    }

    /** The transitions from the scale-down wait to the upgrade wait. */
    method AdvanceUpgrade()
      requires state.WaitScaleDown? || state.CreateSnapshot? || state.BackupConfig?
               || state.ScaleUpNextcloudOne? || state.WaitUpgrade?
      modifies this
      ensures Current() == Step(old(Current()), oracle)
    {
      match state
      case WaitScaleDown =>
        RunWait("WaitScaleDown", ScaleDownSeconds, CreateSnapshot);
      case CreateSnapshot =>
        RunCall(CreateDbClusterSnapshot("CreateSnapshot", SnapshotPrefix + executionId),
                BackupConfig, RollbackScaleUp("CreateSnapshot"));
      case BackupConfig =>
        RunCall(RunOccCommand("BackupConfig", BackupCommand(bucketName)),
                ScaleUpNextcloudOne, RollbackScaleUp("BackupConfig"));
      case ScaleUpNextcloudOne =>
        var ok := Scale(ScaleService("ScaleUpNextcloudOne", NextcloudService, 1));
        state := if ok then WaitUpgrade else RollbackScaleUp("ScaleUpNextcloudOne");
      case WaitUpgrade =>
        RunWait("WaitUpgrade", UpgradeSeconds, CheckHealth);
    }

    /** The health-check loop. */
    method AdvanceHealth()
      requires state.CheckHealth? || state.IsHealthy? || state.WaitRetryHealth? || state.HealthCheckPassed?
      modifies this
      ensures Current() == Step(old(Current()), oracle)
    {
      match state
      case CheckHealth =>
        trace := trace + [Called(DescribeServices("CheckHealth", [NextcloudService]))];
        match oracle.probe(retries) {
          case ProbeFailed =>
            state := RollbackScaleUp("CheckHealth");
          case Observed(n) =>
            state := IsHealthy(n);
        }
      case IsHealthy(n) =>
        state := if n >= 1 then HealthCheckPassed else WaitRetryHealth;
      case WaitRetryHealth =>
        RunWait("WaitRetryHealth", RetryHealthSeconds, CheckHealth);
        if state == CheckHealth {
          retries := retries + 1;
        }
      case HealthCheckPassed =>
        state := ScaleUpAll;
    }

    /** The final scale-up fan-out. */
    method AdvanceFinish()
      requires state.ScaleUpAll?
      modifies this
      ensures Current() == Step(old(Current()), oracle)
    {
      RunFanOut(ScaleUpBranches, Done(Succeeded), RollbackScaleUp("ScaleUpAll"));
    }

    /** The compensating path: the restore fan-out, then maintenance off. */
    method AdvanceRollback()
      requires state.RollbackScaleUp? || state.MaintenanceOff?
      modifies this
      ensures Current() == Step(old(Current()), oracle)
    {
      if state.RollbackScaleUp? {
        RunFanOut(RollbackBranches, MaintenanceOff, Done(Aborted("RollbackScaleUp")));
      } else {
        RunCall(RunOccCommand("MaintenanceOff", MaintenanceOffCommand),
                Done(FailedWith(UpgradeFailedCause)), Done(Aborted("MaintenanceOff")));
      }
    }

    /** Runs the execution to a terminal state. */
    method Run()
      modifies this
      ensures Current() == Execute(old(Current()), oracle)
      ensures state.Done?
    {
      while !state.Done?
        invariant Execute(Current(), oracle) == Execute(old(Current()), oracle)
        decreases Remaining(Current()), Rank(state)
      {
        StepProgresses(Current(), oracle);
        Advance();
      }
    }
  }
}
