# Nextcloud on AWS: upgrade workflow, Redis configuration and stack settings

This project models the logic of a Nextcloud deployment on AWS. The
deployment is a CDK stack (`cdk/lib/cdk-stack.ts`) plus a PHP configuration
fragment shipped in the Nextcloud image
(`containers/nextcloud/config/redis.config.php`). The model covers four parts.

- **The `nextcloud-upgrade` Step Functions state machine** (`upgrade_workflow.dfy`,
  `upgrade_proofs.dfy`, `upgrade_errors.dfy`).
  - The run goes: maintenance mode on, drain, scale the three ECS services to
    zero, snapshot the Aurora cluster, copy `config.php` to S3, start one
    Nextcloud task, poll its running count, then scale everything back up.
  - Any error in that chain is caught once by the `MainChain` Parallel. The
    catch always runs the same rollback: restore 2/2/1 tasks, turn
    maintenance mode off, then fail with a fixed cause.
  - `Step` and `Execute` are the specification functions. The class
    `UpgradeExecution` keeps an execution's state in fields and updates it in
    place; its `Advance` and `Run` are proved equal to `Step` and `Execute`.
  - An `Oracle` decides which task states raise an error and what each
    `CheckHealth` call observes. Waits advance a clock of seconds, and the
    2-hour execution timeout ends the run.
  - `UpgradeProofs` proves one invariant over every reachable configuration.
    From it follow the outcome lemmas (success, failure, timeout), the
    ordering of the rollback and the snapshot name.
  - `UpgradeErrors` states the catch edges. A transition enters the rollback
    exactly when it raises an error the catch handles. An error in each
    main-chain task, fan-out or probe ends the run failed after the history
    up to that call. A run succeeds exactly when no main-chain call fails and
    a probe within the timeout sees a running task.
- **The Redis configuration** (`redis_config.dfy`, `php.dfy`).
  - Single-node mode: the `redis` array built from the environment.
  - Cluster mode: the `redis.cluster` array, whose seed list goes through
    `array_filter` and `array_values`.
  - The PHP semantics involved are modelled in `php.dfy`: `getenv`
    truthiness, `str_replace` with an empty replacement, and the `(int)` cast
    of a digit string.
- **Stack settings** (`stack_settings.dfy`):
  - context lookups with `||` defaults;
  - the five feature flags, which need the exact string `'true'`;
  - the choice of hosted zone, certificate and listener;
  - the `createService` helper with its `??` defaults and conditional
    autoscaling;
  - the serverless cache name.
- **The stack's Redis environment** (`stack_redis.dfy`). The variables the
  stack gives the `nextcloud` container make the PHP fragment choose cluster
  mode, with one `tls://host:port` seed, peer-verifying SSL options, the
  password and no user.

Where the code does something a reader might not expect, the model follows
the code.
- An error raised on the rollback path (`RollbackScaleUp`, `MaintenanceOff`)
  has no catch. The model ends such a run as `Aborted`, not in the
  `UpgradeFailed` Fail state.
- When a scale-up or rollback branch fails, the branches that succeeded have
  already taken effect. Desired counts can therefore be mixed after an
  aborted rollback.
- Hitting the execution timeout runs no rollback. `TimedOutUpgrade` shows
  that the services are left at 1/0/0 without a maintenance-off call.
- With TLS on and `REDIS_HOST` unset in single-node mode, the host entry is
  the bare `tls://` (`TlsWithoutHost`).

## Model

| member | source | states |
|---|---|---|
| UpgradeWorkflow.Execute | cdk/lib/cdk-stack.ts:740-747 | every execution reaches a terminal state (Succeed, Fail, an uncaught error or the timeout) and keeps its name and bucket |
| UpgradeWorkflow.Step | cdk/lib/cdk-stack.ts:711-733 | one transition of the graph; it keeps the execution's inputs, and each transition's effect is stated by the lemmas below |
| UpgradeWorkflow.StepProgresses | cdk/lib/cdk-stack.ts:740-742 | each transition either spends wait time before the 2-hour timeout or moves strictly later in the graph, so no execution runs forever |
| UpgradeWorkflow.ApplyThree | cdk/lib/cdk-stack.ts:635-638 | a three-branch fan-out applies each successful UpdateService branch in turn |
| UpgradeWorkflow.UpgradeExecution.constructor | cdk/lib/cdk-stack.ts:731-741 | a new execution starts at ExtractExecutionId with the given name, bucket and desired counts and an empty history |
| UpgradeWorkflow.UpgradeExecution.RunCall | cdk/lib/cdk-stack.ts:594-609 | a task issues its call, records it, and moves on or to the catch target when the call fails |
| UpgradeWorkflow.UpgradeExecution.Scale | cdk/lib/cdk-stack.ts:612-623 | an UpdateService call is recorded and sets the service's desired count exactly when it succeeds; nothing else changes |
| UpgradeWorkflow.UpgradeExecution.RunFanOut | cdk/lib/cdk-stack.ts:635-638 | a Parallel of three UpdateService branches issues all three, applies the successful ones, and fails when any branch fails |
| UpgradeWorkflow.UpgradeExecution.RunWait | cdk/lib/cdk-stack.ts:629 | a Wait state records its wait and advances the clock, or ends the execution as timed out when the wait would pass 2 hours |
| UpgradeWorkflow.UpgradeExecution.AdvanceSetup | cdk/lib/cdk-stack.ts:625-638 | ExtractExecutionId, MaintenanceOn, WaitDrain and ScaleDownAll update the execution exactly as `Step` does |
| UpgradeWorkflow.UpgradeExecution.AdvanceUpgrade | cdk/lib/cdk-stack.ts:640-665 | WaitScaleDown, CreateSnapshot, BackupConfig, ScaleUpNextcloudOne and WaitUpgrade update the execution exactly as `Step` does |
| UpgradeWorkflow.UpgradeExecution.AdvanceHealth | cdk/lib/cdk-stack.ts:667-687 | CheckHealth, IsHealthy, WaitRetryHealth and HealthCheckPassed update the execution exactly as `Step` does |
| UpgradeWorkflow.UpgradeExecution.AdvanceFinish | cdk/lib/cdk-stack.ts:689-698 | ScaleUpAll updates the execution exactly as `Step` does |
| UpgradeWorkflow.UpgradeExecution.AdvanceRollback | cdk/lib/cdk-stack.ts:700-708 | RollbackScaleUp and MaintenanceOff update the execution exactly as `Step` does |
| UpgradeWorkflow.UpgradeExecution.Advance | cdk/lib/cdk-stack.ts:711-728 | one in-place transition equals `Step` on the execution's state |
| UpgradeWorkflow.UpgradeExecution.Run | cdk/lib/cdk-stack.ts:740-747 | running in place ends in a terminal state equal to `Execute` from the initial state |
| UpgradeProofs.MainPrefixAt | cdk/lib/cdk-stack.ts:711-718 | the main chain issues MaintenanceOn, WaitDrain, the three scale-downs, WaitScaleDown, CreateSnapshot, BackupConfig, ScaleUpNextcloudOne and WaitUpgrade, in that order |
| UpgradeProofs.StepInv | cdk/lib/cdk-stack.ts:711-728 | every transition preserves the whole-run invariant: the history is a prefix of the success history, plus at most the rollback events |
| UpgradeProofs.ExecuteInv | cdk/lib/cdk-stack.ts:740-747 | the invariant holds in the terminal state of every execution that starts in it |
| UpgradeProofs.ExecuteEnds | cdk/lib/cdk-stack.ts:679-687 | every execution ends after at most the retries that fit in 2 hours, each earlier probe having seen no running task, with the execution id captured |
| UpgradeProofs.SuccessTraceContents | cdk/lib/cdk-stack.ts:644-653 | the success history holds no maintenance-off call and exactly one snapshot call, at position 6, named `pre-upgrade-<id>` |
| UpgradeProofs.FinalTrace | cdk/lib/cdk-stack.ts:706-728 | every final history is a prefix of the success history followed by nothing, the rollback fan-out, or the full rollback; the full rollback appears exactly when the run failed or MaintenanceOff raised |
| UpgradeProofs.ExecutionIdCaptured | cdk/lib/cdk-stack.ts:731-733 | the captured execution id is the execution's name |
| UpgradeProofs.SuccessfulUpgrade | cdk/lib/cdk-stack.ts:689-723 | a successful run has the full success history, ends at 2/2/1, never turned maintenance off, polled until the first healthy probe within the retry bound, and waited 270 s plus 60 s per retry |
| UpgradeProofs.FailedUpgrade | cdk/lib/cdk-stack.ts:700-708 | a failed run carries the fixed cause, ends at 2/2/1, and ends with the three restore calls then maintenance off, after a prefix of the main chain |
| UpgradeProofs.TimedOutUpgrade | cdk/lib/cdk-stack.ts:742 | a timed-out run used every retry, saw no running task on any probe, and left the services at 1/0/0 without turning maintenance off |
| UpgradeProofs.MaintenanceOffOnlyOnRollback | cdk/lib/cdk-stack.ts:705-706 | maintenance off is issued only as the last call, right after the three restore calls, and only on the rollback path |
| UpgradeProofs.SnapshotNamedAfterExecution | cdk/lib/cdk-stack.ts:649 | in every execution the only snapshot call is the seventh event and is named `pre-upgrade-<execution name>` |
| UpgradeProofs.ScaleDownAllEffect | cdk/lib/cdk-stack.ts:632-638 | ScaleDownAll issues the three calls; it proceeds iff none fails, then with all three services at 0; otherwise it goes to the rollback |
| UpgradeProofs.HealthyProceedsToScaleUpAll | cdk/lib/cdk-stack.ts:679-683 | a running count of at least 1 leads through HealthCheckPassed to ScaleUpAll with nothing else changed |
| UpgradeProofs.UnhealthyWaitsAndRetries | cdk/lib/cdk-stack.ts:684-687 | a running count below 1 waits 60 s and probes again with one more retry, or times out when the wait does not fit |
| UpgradeProofs.RollbackIgnoresFailedState | cdk/lib/cdk-stack.ts:726-728 | the rollback does the same whichever state failed: it issues the three restore calls and continues to MaintenanceOff at 2/2/1 or aborts |
| UpgradeProofs.RollbackCompletes | cdk/lib/cdk-stack.ts:700-708 | when the compensating calls succeed, a rollback ends in the Fail state with the fixed cause after the rollback history, at 2/2/1 |
| UpgradeProofs.PollUntilHealthy | cdk/lib/cdk-stack.ts:668-687 | with working scale-ups, polling from CheckHealth succeeds at the first healthy probe k within the retry bound, after k retries |
| UpgradeProofs.HealthyProbeSucceeds | cdk/lib/cdk-stack.ts:679-698 | a healthy probe at CheckHealth leads to success when the scale-up calls work |
| UpgradeProofs.UnhealthyProbeRetries | cdk/lib/cdk-stack.ts:684-687 | an unhealthy probe before the retry bound returns to CheckHealth with one more retry and the same final result |
| UpgradeProofs.SetupReachesCheckHealth | cdk/lib/cdk-stack.ts:711-719 | when no main-chain call fails, every execution reaches its first CheckHealth with no retries |
| UpgradeProofs.FirstHealthyProbeDecides | cdk/lib/cdk-stack.ts:668-698 | when no main-chain call fails and probe k is the first healthy one within the bound, the execution succeeds after k retries at 2/2/1 |
| UpgradeProofs.Run42Succeeds | cdk/lib/cdk-stack.ts:711-723 | run `run-42` with a first probe of 0 and a second of 1 succeeds after one retry with snapshot `pre-upgrade-run-42` and counts 2/2/1 |
| UpgradeWorkflow.RunOccCommand | cdk/lib/cdk-stack.ts:594-609 | a one-off command is an ECS RunTask of the `nextcloud` container with that command, under the state's id |
| UpgradeWorkflow.ScaleService | cdk/lib/cdk-stack.ts:612-623 | an UpdateService call for that service and desired count, under the state's id |
| UpgradeWorkflow.BackupCommand | cdk/lib/cdk-stack.ts:656-659 | the backup is an `sh -c` command copying `config.php` to `s3://<bucket>/backups/config.php.<timestamp>`, with the bucket placed between the two fixed parts |
| UpgradeWorkflow.BackupCommandNamesBucket | cdk/lib/cdk-stack.ts:656-659 | two buckets give the same backup command only when they are the same bucket |
| UpgradeWorkflow.Task | cdk/lib/cdk-stack.ts:594-609 | a task state records its call and moves on, or to the catch target exactly when the call fails; nothing else changes |
| UpgradeWorkflow.ScaleTask | cdk/lib/cdk-stack.ts:612-623 | an UpdateService task records its call; on success it sets that service's desired count and no other, on failure it goes to the catch target with the counts unchanged |
| UpgradeWorkflow.FanOut | cdk/lib/cdk-stack.ts:635-638 | a Parallel records every branch's call and applies the successful branches' counts; it moves on when no branch fails and goes to the catch target when any fails; only state, counts and history change |
| UpgradeWorkflow.WaitFor | cdk/lib/cdk-stack.ts:629 | a wait that fits in the timeout records itself and advances the clock by its seconds; one that does not ends the run as timed out and changes nothing else |
| UpgradeErrors.MainChainErrorsCaught | cdk/lib/cdk-stack.ts:711-728 | a transition enters RollbackScaleUp iff its state raises an error the catch handles (a failed task call, a failed fan-out branch, a probe error), labelled with that state |
| UpgradeErrors.FanOutFails | cdk/lib/cdk-stack.ts:635-638 | a three-branch fan-out goes to its catch target iff one of its branch states fails |
| UpgradeErrors.CaughtErrorRollsBack | cdk/lib/cdk-stack.ts:726-728 | after any transition into the rollback, working compensating calls end the run failed at 2/2/1 with the rollback history appended |
| UpgradeErrors.MaintenanceOnFails | cdk/lib/cdk-stack.ts:626 | a failing MaintenanceOn call ends the run failed at 2/2/1, after that call and the full rollback |
| UpgradeErrors.ScaleDownFails | cdk/lib/cdk-stack.ts:632-638 | a failing scale-down branch ends the run failed at 2/2/1, after the first five main-chain events and the full rollback |
| UpgradeErrors.ScaleDownErrorRollsBack | cdk/lib/cdk-stack.ts:635-638 | from ScaleDownAll, a failing branch ends the run failed after all three scale-down calls and the rollback |
| UpgradeErrors.SnapshotFails | cdk/lib/cdk-stack.ts:644-653 | a failing snapshot call ends the run failed at 2/2/1, after the first seven main-chain events and the full rollback |
| UpgradeErrors.BackupFails | cdk/lib/cdk-stack.ts:656-659 | a failing config backup ends the run failed at 2/2/1, after the first eight main-chain events and the full rollback |
| UpgradeErrors.ScaleUpOneFails | cdk/lib/cdk-stack.ts:662 | a failing single-task scale-up ends the run failed at 2/2/1, after the first nine main-chain events and the full rollback |
| UpgradeErrors.PollReaches | cdk/lib/cdk-stack.ts:679-687 | probes that see no running task carry the execution to CheckHealth round k, within the retry bound |
| UpgradeErrors.ProbeErrorRollsBack | cdk/lib/cdk-stack.ts:668-677 | a probe that raises an error ends the run failed after that probe and the rollback |
| UpgradeErrors.ProbeFails | cdk/lib/cdk-stack.ts:668-677 | a probe error in round k, after k unhealthy rounds, ends the run failed at 2/2/1 after k retries, that probe and the full rollback |
| UpgradeErrors.HealthyReachesScaleUpAll | cdk/lib/cdk-stack.ts:679-683 | a probe that sees a running task leads to ScaleUpAll with only the probe recorded |
| UpgradeErrors.ScaleUpAllErrorRollsBack | cdk/lib/cdk-stack.ts:693-696 | from ScaleUpAll, a failing branch ends the run failed after the three scale-up calls and the rollback |
| UpgradeErrors.ScaleUpErrorRollsBack | cdk/lib/cdk-stack.ts:679-698 | a healthy probe followed by a failing scale-up branch ends the run failed after the whole success history and the rollback |
| UpgradeErrors.ScaleUpAllFails | cdk/lib/cdk-stack.ts:690-698 | a failing scale-up branch after the first healthy probe k ends the run failed at 2/2/1, after the success history and the full rollback |
| UpgradeErrors.Run42SnapshotFails | cdk/lib/cdk-stack.ts:726-728 | run `run-42` whose snapshot raises ends failed at 2/2/1, after the first seven main-chain events and the full rollback |
| UpgradeErrors.NoSuccessAfterRollback | cdk/lib/cdk-stack.ts:700-708 | once the rollback has started, or the run has ended otherwise, the run cannot succeed |
| UpgradeErrors.FanOutCallsSucceed | cdk/lib/cdk-stack.ts:635-638 | a fan-out that moves on issued only calls that succeeded |
| UpgradeErrors.StepCallsSucceed | cdk/lib/cdk-stack.ts:711-728 | a transition only extends the history, and one that does not go past an error issued no failing call |
| UpgradeErrors.SucceedingRunCallsSucceed | cdk/lib/cdk-stack.ts:711-728 | every call a successful run issues succeeds |
| UpgradeErrors.MainChainCalledInSuccess | cdk/lib/cdk-stack.ts:711-723 | the success history calls each of the ten main-chain tasks |
| UpgradeErrors.SucceededMeansNoErrors | cdk/lib/cdk-stack.ts:723 | a successful run saw no failing main-chain task |
| UpgradeErrors.SuccessIff | cdk/lib/cdk-stack.ts:711-728 | a run succeeds iff no main-chain task fails and some probe within the retry bound is the first to see a running task |
| RedisConfig.ClusterMode | containers/nextcloud/config/redis.config.php:2 | cluster mode is chosen iff `getenv('REDIS_MODE')` reads exactly `rediscluster` |
| RedisConfig.TlsEnabled | containers/nextcloud/config/redis.config.php:30 | TLS is on iff `getenv('REDIS_TLS_ENABLED')` reads exactly `true` |
| RedisConfig.BuildConfig | containers/nextcloud/config/redis.config.php:2-78 | `$CONFIG` holds both memcache entries and either `redis` or `redis.cluster`, chosen by `REDIS_MODE === 'rediscluster'` |
| RedisConfig.BuildRedisConfig | containers/nextcloud/config/redis.config.php:8-35 | the single-node array holds each entry exactly when its variable is truthy, with TLS prefixing the host and adding peer-verifying ssl |
| RedisConfig.SingleNodeConfigUnique | containers/nextcloud/config/redis.config.php:8-35 | the environment determines the single-node array completely |
| RedisConfig.TlsWithoutHost | containers/nextcloud/config/redis.config.php:30-31 | with TLS on and no host set, the host entry is the bare `tls://` |
| RedisConfig.UserFromAuthForm | containers/nextcloud/config/redis.config.php:27 | `&auth[]=<user>` yields `<user>` when the user name has no marker inside |
| RedisConfig.User | containers/nextcloud/config/redis.config.php:26-28 | the user entry is no longer than `REDIS_USER_AUTH` |
| RedisConfig.NodeVar | containers/nextcloud/config/redis.config.php:39-47 | node 1 uses the bare variable name and node i > 1 the name followed by `_` and the decimal digit i, so distinct nodes read distinct variables |
| RedisConfig.Candidate | containers/nextcloud/config/redis.config.php:39-47 | node i gives a non-null entry exactly when both its host and port are truthy, and that entry is its host variable's value, `:`, then its port variable's value |
| RedisConfig.Candidates | containers/nextcloud/config/redis.config.php:38-48 | the candidate array has the nine entries, node 1 to node 9 in order |
| RedisConfig.ArrayFilter | containers/nextcloud/config/redis.config.php:38 | `array_filter` keeps only truthy strings, each at its original index, with indices increasing |
| RedisConfig.ArrayFilterKeepsTruthy | containers/nextcloud/config/redis.config.php:38 | every truthy string of the input survives `array_filter` under its index |
| RedisConfig.FilteredPositions | containers/nextcloud/config/redis.config.php:38 | after `array_values`, the kept strings are exactly the truthy entries, in their original order |
| RedisConfig.SeedNodes | containers/nextcloud/config/redis.config.php:38-48 | the seed list is exactly the `host:port` of every node with both variables set, in node order |
| RedisConfig.ArrayValues | containers/nextcloud/config/redis.config.php:38 | `array_values` keeps the kept strings in order and re-indexes them from 0 |
| RedisConfig.SeedList | containers/nextcloud/config/redis.config.php:38 | `array_values(array_filter(...))` of the nine candidates gives at most nine seeds, each truthy; `SeedNodes` states which |
| RedisConfig.WithScheme | containers/nextcloud/config/redis.config.php:51 | `array_map` prefixes every seed with `tls://` and keeps the count |
| RedisConfig.Seeds | containers/nextcloud/config/redis.config.php:50-52 | the seeds carry `tls://` exactly when TLS is enabled and are otherwise the filtered list |
| RedisConfig.BuildSeeds | containers/nextcloud/config/redis.config.php:38-52 | the computed seeds equal `Seeds` |
| RedisConfig.BuildClusterConfig | containers/nextcloud/config/redis.config.php:54-71 | the cluster array holds zero timeouts, the error failover mode and the seeds, plus ssl, password and user exactly when TLS is on or the variable is truthy |
| RedisConfig.ClusterConfigUnique | containers/nextcloud/config/redis.config.php:54-71 | the environment and seeds determine the cluster array completely |
| Php.EnvString | containers/nextcloud/config/redis.config.php:31 | a variable reads as its value when set and as the empty string when unset |
| Php.EnvEquals | containers/nextcloud/config/redis.config.php:30 | `getenv(name) === value`: never true for an unset variable, and for a truthy value true iff the variable is set to exactly that string |
| Php.StrRemove | containers/nextcloud/config/redis.config.php:27 | removing a marker never lengthens the string |
| Php.StrRemoveNoOccurrence | containers/nextcloud/config/redis.config.php:27 | a string without the marker is returned unchanged |
| Php.StrRemoveLeading | containers/nextcloud/config/redis.config.php:27 | a leading marker is dropped and the rest kept when it has no marker inside |
| Php.StrRemoveSinglePass | containers/nextcloud/config/redis.config.php:70 | removal is one pass: `"aabb"` without `"ab"` is `"ab"`, not empty |
| Php.StrRemoveFirstOccurrence | containers/nextcloud/config/redis.config.php:27 | when no occurrence starts before the first marker, the text before it is kept, the marker dropped and removal goes on after it |
| Php.IsSet | containers/nextcloud/config/redis.config.php:10 | a variable is set (truthy as `getenv`) only when it is present with a non-empty value, never when absent |
| Php.Truthy | containers/nextcloud/config/redis.config.php:10 | a string is truthy iff it is neither empty nor `"0"` |
| Php.IntCast | containers/nextcloud/config/redis.config.php:19 | a string of digits casts to its decimal value, and one starting with a digit casts to a non-negative number |
| Php.IntCastOfDecimal | containers/nextcloud/config/redis.config.php:19 | the cast reads back every decimal string (`"6379"` gives 6379) |
| Php.IntCastOfNonNumeric | containers/nextcloud/config/redis.config.php:23 | a string with no leading digit, sign or space casts to 0 |
| StackSettings.TryGetContext | cdk/lib/cdk-stack.ts:35-38 | a context lookup is present exactly for the keys given, with their values |
| StackSettings.ContextOr | cdk/lib/cdk-stack.ts:35-41 | `tryGetContext(k) \|\| d` is the value when it is truthy and the default otherwise |
| StackSettings.ContextOrEmpty | cdk/lib/cdk-stack.ts:36-38 | `\|\| ''` leaves truthiness unchanged |
| StackSettings.ParseFeatures | cdk/lib/cdk-stack.ts:42-46 | each of the five flags is on iff its context value is exactly the string `'true'` |
| StackSettings.FeatureEnabled | cdk/lib/cdk-stack.ts:42-46 | a flag is on iff its context value is exactly the string `'true'`, which is always truthy |
| StackSettings.FeatureNeedsExactString | cdk/lib/cdk-stack.ts:42-46 | any other value, including boolean true, leaves the flag off |
| StackSettings.SelectHostedZone | cdk/lib/cdk-stack.ts:528-530 | a hosted zone is imported iff both its id and name are truthy, with those attributes |
| StackSettings.SelectCertificate | cdk/lib/cdk-stack.ts:532-537 | a given ARN is imported first; otherwise a zone gives a DNS-validated certificate for the domain; otherwise there is none |
| StackSettings.SelectListener | cdk/lib/cdk-stack.ts:546-548 | with a certificate the listener is HTTPS on 443 with it and the recommended TLS policy; without one it is HTTP on 80 |
| StackSettings.StackListener | cdk/lib/cdk-stack.ts:528-548 | the listener is HTTPS iff the ARN is truthy or both zone values are; the certificate follows that precedence, with `cloud.example.com` for a missing domain |
| StackSettings.CreateService | cdk/lib/cdk-stack.ts:269-295 | a service is `<name>Service`, registered as `nextcloud-aio-<name>` with a 10 s TTL, runs `desiredCount ?? 1` tasks, and gets 70 % CPU scaling iff `maxCapacity` is truthy |
| StackSettings.DeployedServices | cdk/lib/cdk-stack.ts:382-519 | three services are deployed, four with OnlyOffice |
| StackSettings.WorkflowRestoresDeployedCounts | cdk/lib/cdk-stack.ts:382-476 | the workflow's scale-up and rollback targets are the deployed services' Cloud Map names and initial desired counts, 2/2/1 |
| StackSettings.ToLower | cdk/lib/cdk-stack.ts:150 | `toLowerCase` maps A-Z to a-z and leaves every other character unchanged |
| StackSettings.LowerCase | cdk/lib/cdk-stack.ts:150 | lower-casing keeps the length and lowers each character |
| StackSettings.CacheName | cdk/lib/cdk-stack.ts:150 | the cache name is `<id>-cache` cut to 40 characters, lower-cased, and ends in `-cache` when the id is short enough |
| StackRedis.StackEnvironment | cdk/lib/cdk-stack.ts:327-338 | the stack sets exactly REDIS_HOST, REDIS_PORT, REDIS_TLS_ENABLED, REDIS_MODE and REDIS_HOST_PASSWORD |
| StackRedis.OnlyFirstNode | cdk/lib/cdk-stack.ts:335-338 | nodes 2 to 9 are unset in the stack's environment |
| StackRedis.StackSeeds | cdk/lib/cdk-stack.ts:335-338 | the only seed is `tls://<endpoint address>:<endpoint port>` |
| StackRedis.StackClusterConfig | cdk/lib/cdk-stack.ts:327-338 | the stack's environment selects cluster mode with that one seed, peer-verifying ssl, the password and no user |

## Left out

- Real time: calls take no time in the model. Waits are labelled steps that add their seconds to a clock, and the 2-hour limit is checked at each wait.
- Parallelism: the three branches of each Parallel state run one after the other. Every branch is issued, and a successful branch takes effect even when another fails. Cancelling in-flight branches is not modelled.
- CheckHealth errors: `ProbeFailed` stands for an error raised by the DescribeServices call, which MainChain catches. A response without `Services[0].Deployments[0]` makes the Choice state fail with a runtime error. That case is not modelled.
- Other workflow details not modelled: the state machine's IAM role, network configuration, logging and tracing.
- Result paths: a RunTask call records its `$.<id>Result` path, but the results themselves are not kept. The only value carried in the execution state is the captured `executionId`.
- UpgradeWorkflow.Step: its own contract states only that the execution's inputs are kept. Each transition's effect is stated by the lemmas in `UpgradeProofs`; the error edges into the rollback by `UpgradeErrors.MainChainErrorsCaught` and the per-task lemmas beside it.
- Resource declarations are not modelled: VPC, security groups, database, cache, file system, task definitions, ALB targets, alarms, dashboard, CodePipeline, Nag suppressions and outputs.
- `cdk/bin/cdk.ts` only instantiates the stack and is not part of this model.
- Service names in the workflow are the literal `nextcloud-aio-*` strings. `createService` (cdk/lib/cdk-stack.ts:275-288) gives these only as Cloud Map registration names and sets no ECS service name, so CloudFormation generates the ECS names. The model takes the literals as the targets of every UpdateService and DescribeServices call (cdk/lib/cdk-stack.ts:618, 632-634, 662, 673, 690-692, 702-704) without showing that they resolve. If they do not, the calls fail; the oracle expresses this by putting the scale and rollback tasks in `fails`, and such a run ends `Aborted("RollbackScaleUp")` without a maintenance-off call.
- Context values are strings, booleans or integers. JavaScript floats and NaN are not modelled, so `auroraMinAcu` and the other numeric defaults are not modelled.
- StackSettings.CacheName: `cdk.Names.uniqueId` is an input, and `toLowerCase` is modelled for ASCII letters only.
- StackSettings.CreateService: the construct side effects are left out: cluster, security groups, subnets, namespace and the scaling construct itself. The container port is not used by the helper and is only a parameter.
- StackSettings.DeployedServices: its own contract states only the count. The names, counts and scaling are stated by WorkflowRestoresDeployedCounts.
- `getenv` is a map from variable names to strings. Reading the process environment is not modelled.
- PHP arrays are maps, so key order is not modelled. `\RedisCluster::FAILOVER_ERROR` stays a symbolic constant. The float `0.0` timeouts are the real number 0.0 (`Float(0.0)`).
- Php.IntCast: only digit strings are modelled, with optional leading spaces and sign. Exponents, hexadecimal, overflow and saturation at PHP_INT_MAX are not modelled.
- Php.StrRemove: its own contract states only the length bound. Its content is stated by StrRemoveNoOccurrence, StrRemoveLeading, StrRemoveFirstOccurrence and StrRemoveSinglePass.
- RedisConfig.User: its own contract states only the length bound. Its content is stated by UserFromAuthForm.
- Reading an unset host in single-node mode raises a PHP warning. That warning is not modelled; the value reads as the empty string.
