/** The small decisions the CDK stack takes before declaring resources:
    which optional services are switched on by context values, whether the
    load balancer listens on HTTPS, which defaults `createService` applies,
    and how the serverless cache is named.

    CDK context values are JSON: a string, a boolean or a number, or absent.
    Their truthiness follows JavaScript's `||` and `? :`. */
module StackSettings {
  import opened Wrappers
  import UpgradeWorkflow

  // ---------------------------------------------------------------------
  // Context values and JavaScript truthiness
  // ---------------------------------------------------------------------

  datatype ContextValue = Text(s: string) | Flag(b: bool) | Number(n: int)

  /** The app's context: `tryGetContext(key)` is `Some` exactly for the
      keys given on the command line or in cdk.json. */
  type Context = map<string, ContextValue>

  function TryGetContext(ctx: Context, key: string): (r: Option<ContextValue>)
    ensures r.Some? <==> key in ctx
    ensures r.Some? ==> r.value == ctx[key]
  {
    if key in ctx then Some(ctx[key]) else None
  }

  /** JavaScript truthiness: `undefined`, `''`, `false` and `0` are falsy. */
  predicate Truthy(v: Option<ContextValue>)
  {
    match v
    case None => false
    case Some(Text(s)) => s != ""
    case Some(Flag(b)) => b
    case Some(Number(n)) => n != 0
  }

  /** `tryGetContext(key) || default`: the value when it is truthy, the
      default otherwise. */
  function ContextOr(ctx: Context, key: string, default: ContextValue): (r: ContextValue)
    ensures Truthy(TryGetContext(ctx, key)) ==> r == ctx[key]
    ensures !Truthy(TryGetContext(ctx, key)) ==> r == default
  {
    var v := TryGetContext(ctx, key);
    if Truthy(v) then v.value else default
  }

  /** Defaulting to the empty string keeps truthiness: `x || ''` is truthy
      exactly when `x` is. */
  lemma ContextOrEmpty(ctx: Context, key: string)
    ensures Truthy(Some(ContextOr(ctx, key, Text("")))) <==> Truthy(TryGetContext(ctx, key))
  {
  }

  // ---------------------------------------------------------------------
  // Feature flags
  // ---------------------------------------------------------------------

  /** `tryGetContext(key) === 'true'`: strict equality with the string. */
  predicate FeatureEnabled(ctx: Context, key: string)
    ensures FeatureEnabled(ctx, key) <==> key in ctx && ctx[key] == Text("true")
    ensures FeatureEnabled(ctx, key) ==> Truthy(TryGetContext(ctx, key))
  {
    match TryGetContext(ctx, key)
    case Some(Text(s)) => s == "true"
    case _ => false
  }

  datatype Features = Features(
    onlyOffice: bool, talk: bool, fulltextsearch: bool, imaginary: bool, clamav: bool)

  function ParseFeatures(ctx: Context): (f: Features)
    ensures f.onlyOffice <==> "enableOnlyOffice" in ctx && ctx["enableOnlyOffice"] == Text("true")
    ensures f.talk <==> "enableTalk" in ctx && ctx["enableTalk"] == Text("true")
    ensures f.fulltextsearch <==> "enableFulltextsearch" in ctx && ctx["enableFulltextsearch"] == Text("true")
    ensures f.imaginary <==> "enableImaginary" in ctx && ctx["enableImaginary"] == Text("true")
    ensures f.clamav <==> "enableClamav" in ctx && ctx["enableClamav"] == Text("true")
  {
    Features(
      FeatureEnabled(ctx, "enableOnlyOffice"),
      FeatureEnabled(ctx, "enableTalk"),
      FeatureEnabled(ctx, "enableFulltextsearch"),
      FeatureEnabled(ctx, "enableImaginary"),
      FeatureEnabled(ctx, "enableClamav"))
  }

  /** A JSON `true`, or any other spelling than the exact string, leaves a
      feature off even though it is truthy. */
  lemma FeatureNeedsExactString(ctx: Context, key: string)
    requires key in ctx && ctx[key] != Text("true")
    ensures !FeatureEnabled(ctx, key)
  {
  }

  // ---------------------------------------------------------------------
  // Hosted zone, certificate and listener
  // ---------------------------------------------------------------------

  datatype HostedZone = HostedZone(hostedZoneId: ContextValue, zoneName: ContextValue)

  datatype Certificate =
    | Imported(arn: ContextValue)
    | DnsValidated(domainName: ContextValue, zone: HostedZone)

  datatype Protocol = Http | Https
  datatype SslPolicy = RecommendedTls

  datatype Listener = Listener(
    port: nat, protocol: Protocol, certificates: seq<Certificate>, sslPolicy: Option<SslPolicy>)

  const DefaultDomain := "cloud.example.com"

  /** `hostedZoneId && hostedZoneName ? fromHostedZoneAttributes(...) : undefined`. */
  function SelectHostedZone(hostedZoneId: ContextValue, hostedZoneName: ContextValue): (z: Option<HostedZone>)
    ensures z.Some? <==> Truthy(Some(hostedZoneId)) && Truthy(Some(hostedZoneName))
    ensures z.Some? ==> z.value.hostedZoneId == hostedZoneId && z.value.zoneName == hostedZoneName
  {
    if Truthy(Some(hostedZoneId)) && Truthy(Some(hostedZoneName))
    then Some(HostedZone(hostedZoneId, hostedZoneName))
    else None
  }

  /** The given ARN if truthy; otherwise a DNS-validated certificate for the
      domain when a hosted zone exists; otherwise none. */
  function SelectCertificate(certificateArn: ContextValue, domain: ContextValue, zone: Option<HostedZone>)
    : (c: Option<Certificate>)
    ensures c.Some? <==> Truthy(Some(certificateArn)) || zone.Some?
    ensures Truthy(Some(certificateArn)) ==> c == Some(Imported(certificateArn))
    ensures !Truthy(Some(certificateArn)) && zone.Some? ==> c == Some(DnsValidated(domain, zone.value))
  {
    if Truthy(Some(certificateArn)) then Some(Imported(certificateArn))
    else if zone.Some? then Some(DnsValidated(domain, zone.value))
    else None
  }

  /** HTTPS on 443 with the certificate and the recommended TLS policy when
      there is a certificate, plain HTTP on 80 otherwise. */
  function SelectListener(certificate: Option<Certificate>): (l: Listener)
    ensures l.protocol == Https <==> certificate.Some?
    ensures l.protocol == Https ==>
      l.port == 443 && l.certificates == [certificate.value] && l.sslPolicy == Some(RecommendedTls)
    ensures l.protocol == Http ==> l.port == 80 && l.certificates == [] && l.sslPolicy == None
  {
    match certificate
    case Some(cert) => Listener(443, Https, [cert], Some(RecommendedTls))
    case None => Listener(80, Http, [], None)
  }

  /** The listener the stack declares for its context. It serves HTTPS
      exactly when a certificate ARN is given or both hosted-zone attributes
      are; a given ARN wins over the zone, and a generated certificate is for
      the domain (by default `cloud.example.com`). */
  function StackListener(ctx: Context): (l: Listener)
    ensures l.protocol == Https <==>
      Truthy(TryGetContext(ctx, "certificateArn"))
      || (Truthy(TryGetContext(ctx, "hostedZoneId")) && Truthy(TryGetContext(ctx, "hostedZoneName")))
    ensures Truthy(TryGetContext(ctx, "certificateArn")) ==>
      l.certificates == [Imported(ctx["certificateArn"])]
    ensures !Truthy(TryGetContext(ctx, "certificateArn")) && l.protocol == Https ==>
      l.certificates == [DnsValidated(ContextOr(ctx, "domain", Text(DefaultDomain)),
                                      HostedZone(ctx["hostedZoneId"], ctx["hostedZoneName"]))]
    ensures !Truthy(TryGetContext(ctx, "domain")) && l.protocol == Https && l.certificates[0].DnsValidated? ==>
      l.certificates[0].domainName == Text(DefaultDomain)
  {
    var domain := ContextOr(ctx, "domain", Text(DefaultDomain));
    var certificateArn := ContextOr(ctx, "certificateArn", Text(""));
    var hostedZoneId := ContextOr(ctx, "hostedZoneId", Text(""));
    var hostedZoneName := ContextOr(ctx, "hostedZoneName", Text(""));
    SelectListener(SelectCertificate(certificateArn, domain, SelectHostedZone(hostedZoneId, hostedZoneName)))
  }

  // ---------------------------------------------------------------------
  // createService
  // ---------------------------------------------------------------------

  datatype ServiceOptions = ServiceOptions(
    desiredCount: Option<int>, minCapacity: Option<int>, maxCapacity: Option<int>)

  datatype Scaling = Scaling(
    minCapacity: int, maxCapacity: int, policyId: string, targetUtilizationPercent: nat)

  datatype Service = Service(
    constructId: string, desiredCount: int, cloudMapName: string, dnsTtlSeconds: nat,
    enableExecuteCommand: bool, scaling: Option<Scaling>)

  const CpuTargetPercent: nat := 70
  const CloudMapPrefix := "nextcloud-aio-"

  /** `createService(name, taskDef, port, opts)`: the service is called
      `<name>Service`, registers as `nextcloud-aio-<name>` in Cloud Map and
      starts `opts.desiredCount ?? 1` tasks; CPU target tracking at 70 % is
      attached exactly when `opts.maxCapacity` is truthy, between
      `opts.minCapacity ?? 1` and that maximum. The container port is
      not used by the helper. */
  function CreateService(name: string, port: int, opts: Option<ServiceOptions>): (svc: Service)
    ensures svc.constructId == name + "Service"
    ensures svc.cloudMapName == CloudMapPrefix + name
    ensures svc.dnsTtlSeconds == 10 && svc.enableExecuteCommand
    ensures opts.None? || opts.value.desiredCount.None? ==> svc.desiredCount == 1
    ensures opts.Some? && opts.value.desiredCount.Some? ==> svc.desiredCount == opts.value.desiredCount.value
    ensures svc.scaling.Some? <==>
      opts.Some? && opts.value.maxCapacity.Some? && opts.value.maxCapacity.value != 0
    ensures svc.scaling.Some? ==>
      && svc.scaling.value.maxCapacity == opts.value.maxCapacity.value
      && svc.scaling.value.minCapacity == opts.value.minCapacity.GetOr(1)
      && svc.scaling.value.policyId == name + "CpuScaling"
      && svc.scaling.value.targetUtilizationPercent == CpuTargetPercent
  {
    var desired := if opts.Some? then opts.value.desiredCount.GetOr(1) else 1;
    var scaling :=
      if opts.Some? && opts.value.maxCapacity.Some? && opts.value.maxCapacity.value != 0
      then Some(Scaling(opts.value.minCapacity.GetOr(1), opts.value.maxCapacity.value,
                        name + "CpuScaling", CpuTargetPercent))
      else None;
    Service(name + "Service", desired, CloudMapPrefix + name, 10, true, scaling)
  }

  /** The services the stack creates: Nextcloud (2 tasks, 2..10), Apache
      (2 tasks, 2..5), notify_push with the defaults, and ONLYOFFICE with
      the defaults when its feature is on. */
  function DeployedServices(features: Features, apachePort: int): (r: seq<Service>)
    ensures |r| == if features.onlyOffice then 4 else 3
  {
    [ CreateService("nextcloud", 9000, Some(ServiceOptions(Some(2), Some(2), Some(10)))),
      CreateService("apache", apachePort, Some(ServiceOptions(Some(2), Some(2), Some(5)))),
      CreateService("notify-push", 7867, None) ]
    + (if features.onlyOffice then [CreateService("onlyoffice", 80, None)] else [])
  }

  /** The upgrade workflow addresses the first three services by their
      Cloud Map names and scales each back, on success and on rollback
      alike, to the desired count the stack deployed it with; notify_push
      and ONLYOFFICE run one task and do not scale. */
  lemma WorkflowRestoresDeployedCounts(features: Features, apachePort: int)
    ensures var svcs := DeployedServices(features, apachePort);
      && (forall k :: 0 <= k < 3 ==>
            && UpgradeWorkflow.ScaleUpBranches[k].serviceName == svcs[k].cloudMapName
            && UpgradeWorkflow.RollbackBranches[k].serviceName == svcs[k].cloudMapName
            && UpgradeWorkflow.ScaleUpBranches[k].desiredCount == svcs[k].desiredCount
            && UpgradeWorkflow.RollbackBranches[k].desiredCount == svcs[k].desiredCount)
      && svcs[2].scaling.None? && svcs[0].scaling.Some? && svcs[1].scaling.Some?
      && (features.onlyOffice ==> svcs[3].desiredCount == 1 && svcs[3].scaling.None?)
  {
  }

  // ---------------------------------------------------------------------
  // Serverless cache name
  // ---------------------------------------------------------------------

  const CacheNameLimit: nat := 40
  const CacheSuffix := "-cache"

  predicate IsUpper(ch: char)
  {
    'A' <= ch <= 'Z'
  }

  function ToLower(ch: char): (r: char)
    ensures !IsUpper(r)
    ensures IsUpper(ch) ==> r as int == ch as int + 32
    ensures !IsUpper(ch) ==> r == ch
  {
    if IsUpper(ch) then (ch as int + 32) as char else ch
  }

  /** `toLowerCase` on ASCII letters. */
  function LowerCase(s: string): (r: string)
    ensures |r| == |s|
    ensures forall i :: 0 <= i < |s| ==> r[i] == ToLower(s[i])
  {
    if s == [] then [] else [ToLower(s[0])] + LowerCase(s[1..])
  }

  /** `${uniqueId}-cache`.substring(0, 40).toLowerCase(): at most 40
      characters, no capital letter, the lower-cased prefix of
      `<uniqueId>-cache`; the suffix survives whole only when the id has at
      most 34 characters. */
  function CacheName(uniqueId: string): (r: string)
    ensures |r| == (if |uniqueId| + |CacheSuffix| <= CacheNameLimit then |uniqueId| + |CacheSuffix| else CacheNameLimit)
    ensures forall i :: 0 <= i < |r| ==> !IsUpper(r[i]) && r[i] == ToLower((uniqueId + CacheSuffix)[i])
    ensures |uniqueId| <= CacheNameLimit - |CacheSuffix| ==> r[|r| - |CacheSuffix|..] == CacheSuffix
  {
    var full := uniqueId + CacheSuffix;
    LowerCase(if |full| <= CacheNameLimit then full else full[..CacheNameLimit])
  }
}
