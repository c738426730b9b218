/** The Nextcloud Redis configuration: the `$CONFIG` array built from the
    container's environment, for a single Redis node or for a Redis
    cluster. */
module RedisConfig {
  import opened Wrappers
  import opened Php

  /** The memcache class Nextcloud is pointed at in both modes. */
  const RedisMemcache := "\\OC\\Memcache\\Redis"
  const DistributedKey := "memcache.distributed"
  const LockingKey := "memcache.locking"
  const ClusterModeName := "rediscluster"
  const AuthMarker := "&auth[]="
  const TlsScheme := "tls://"
  const FailoverError: Value := Const("\\RedisCluster::FAILOVER_ERROR")
  const SslOptions: Value := Assoc(map["verify_peer" := Bool(true), "verify_peer_name" := Bool(true)])

  /** Cluster mode needs `REDIS_MODE` to be exactly `rediscluster`. */
  predicate ClusterMode(env: Env)
    ensures ClusterMode(env) <==> EnvString(env, "REDIS_MODE") == ClusterModeName
  {
    EnvEquals(env, "REDIS_MODE", ClusterModeName)
  }

  /** TLS needs `REDIS_TLS_ENABLED` to be exactly `true`. */
  predicate TlsEnabled(env: Env)
    ensures TlsEnabled(env) <==> EnvString(env, "REDIS_TLS_ENABLED") == "true"
  {
    EnvEquals(env, "REDIS_TLS_ENABLED", "true")
  }

  /** The user name with every `&auth[]=` removed. */
  function User(env: Env): (r: string)
    requires IsSet(env, "REDIS_USER_AUTH")
    ensures |r| <= |env["REDIS_USER_AUTH"]|
  {
    StrRemove(AuthMarker, env["REDIS_USER_AUTH"])
  }

  /** The user name written in the `&auth[]=<user>` form yields `<user>`. */
  lemma UserFromAuthForm(env: Env, user: string)
    requires "REDIS_USER_AUTH" in env && env["REDIS_USER_AUTH"] == AuthMarker + user
    requires !Contains(user, AuthMarker)
    ensures IsSet(env, "REDIS_USER_AUTH") && User(env) == user
  {
    assert |env["REDIS_USER_AUTH"]| >= 8;
    StrRemoveLeading(AuthMarker, user);
  }

  /** An assignment to a listed key keeps the keys within the list. */
  lemma PutWithin(m: map<string, Value>, k: string, v: Value, names: set<string>)
    requires m.Keys <= names && k in names
    ensures m[k := v].Keys <= names
  {
  }

  // ---------------------------------------------------------------------
  // Single node
  // ---------------------------------------------------------------------

  const SingleNodeKeyNames: set<string> := {"host", "password", "port", "dbindex", "user", "ssl"}

  /** The single-node array holds an entry exactly when its variable is
      set, with the variable's string, its `(int)` cast or the stripped user
      name. With TLS on, `host` gains `tls://` and is there even when no
      host was set (the unset host reads as the empty string), and `ssl`
      asks to verify the peer. */
  predicate SingleNodeConfig(env: Env, cfg: map<string, Value>)
  {
    && cfg.Keys <= SingleNodeKeyNames
    && ("host" in cfg <==> IsSet(env, "REDIS_HOST") || TlsEnabled(env))
    && ("host" in cfg ==>
          cfg["host"] == Str((if TlsEnabled(env) then TlsScheme else "") + EnvString(env, "REDIS_HOST")))
    && ("password" in cfg <==> IsSet(env, "REDIS_HOST_PASSWORD"))
    && ("password" in cfg ==> cfg["password"] == Str(env["REDIS_HOST_PASSWORD"]))
    && ("port" in cfg <==> IsSet(env, "REDIS_PORT"))
    && ("port" in cfg ==> cfg["port"] == Int(IntCast(env["REDIS_PORT"])))
    && ("dbindex" in cfg <==> IsSet(env, "REDIS_DB_INDEX"))
    && ("dbindex" in cfg ==> cfg["dbindex"] == Int(IntCast(env["REDIS_DB_INDEX"])))
    && ("user" in cfg <==> IsSet(env, "REDIS_USER_AUTH"))
    && ("user" in cfg ==> cfg["user"] == Str(User(env)))
    && ("ssl" in cfg <==> TlsEnabled(env))
    && ("ssl" in cfg ==> cfg["ssl"] == SslOptions)
  }

  /** `$redis_config`, built by successive conditional assignments. */
  method BuildRedisConfig(env: Env) returns (cfg: map<string, Value>)
    ensures SingleNodeConfig(env, cfg)
  {
    cfg := map[];
    if IsSet(env, "REDIS_HOST") {
      PutWithin(cfg, "host", Str(env["REDIS_HOST"]), SingleNodeKeyNames);
      cfg := cfg["host" := Str(env["REDIS_HOST"])];
    }
    if IsSet(env, "REDIS_HOST_PASSWORD") {
      PutWithin(cfg, "password", Str(env["REDIS_HOST_PASSWORD"]), SingleNodeKeyNames);
      cfg := cfg["password" := Str(env["REDIS_HOST_PASSWORD"])];
    }
    if IsSet(env, "REDIS_PORT") {
      PutWithin(cfg, "port", Int(IntCast(env["REDIS_PORT"])), SingleNodeKeyNames);
      cfg := cfg["port" := Int(IntCast(env["REDIS_PORT"]))];
    }
    if IsSet(env, "REDIS_DB_INDEX") {
      PutWithin(cfg, "dbindex", Int(IntCast(env["REDIS_DB_INDEX"])), SingleNodeKeyNames);
      cfg := cfg["dbindex" := Int(IntCast(env["REDIS_DB_INDEX"]))];
    }
    if IsSet(env, "REDIS_USER_AUTH") {
      PutWithin(cfg, "user", Str(User(env)), SingleNodeKeyNames);
      cfg := cfg["user" := Str(User(env))];
    }
    if TlsEnabled(env) {
      var current := if "host" in cfg && cfg["host"].Str? then cfg["host"].s else "";
      PutWithin(cfg, "host", Str(TlsScheme + current), SingleNodeKeyNames);
      cfg := cfg["host" := Str(TlsScheme + current)];
      PutWithin(cfg, "ssl", SslOptions, SingleNodeKeyNames);
      cfg := cfg["ssl" := SslOptions];
    }
  }

  /** The single-node description leaves no freedom: one array meets it. */
  lemma SingleNodeConfigUnique(env: Env, a: map<string, Value>, b: map<string, Value>)
    requires SingleNodeConfig(env, a) && SingleNodeConfig(env, b)
    ensures a == b
  {
    forall k | k in a
      ensures a[k] == b[k]
    {
      assert k in SingleNodeKeyNames;
    }
  }

  /** With TLS on and no host set, the host becomes the bare scheme. */
  lemma TlsWithoutHost(env: Env, cfg: map<string, Value>)
    requires SingleNodeConfig(env, cfg)
    requires TlsEnabled(env) && !IsSet(env, "REDIS_HOST")
    ensures "host" in cfg && cfg["host"] == Str(TlsScheme)
  {
    assert TlsScheme + "" == TlsScheme;
  }

  // ---------------------------------------------------------------------
  // Cluster seeds
  // ---------------------------------------------------------------------

  /** The name of node i's variable: `base` for the first node, then
      `base_2` to `base_9` (`REDIS_HOST_2`, `REDIS_PORT_9`). */
  function NodeVar(base: string, i: nat): (r: string)
    requires 1 <= i <= 9
    ensures i == 1 ==> r == base
    ensures i > 1 ==> |r| == |base| + 2 && r[..|base|] == base && r[|base|] == '_'
    ensures i > 1 ==> r[|base| + 1] == "0123456789"[i]
  {
    if i == 1 then base else base + "_" + [('0' as int + i) as char]
  }

  /** Node i contributes a seed only when both its host and its port are set. */
  predicate NodeSet(env: Env, i: nat)
    requires 1 <= i <= 9
  {
    IsSet(env, NodeVar("REDIS_HOST", i)) && IsSet(env, NodeVar("REDIS_PORT", i))
  }

  function HostPort(env: Env, i: nat): (r: string)
    requires 1 <= i <= 9 && NodeSet(env, i)
    ensures Truthy(r)
  {
    env[NodeVar("REDIS_HOST", i)] + ":" + env[NodeVar("REDIS_PORT", i)]
  }

  /** The i-th element of the literal array: `"host:port"` or `null`. */
  function Candidate(env: Env, i: nat): (r: Option<string>)
    requires 1 <= i <= 9
    ensures r.Some? <==> NodeSet(env, i)
    ensures r.Some? ==>
      r.value == env[NodeVar("REDIS_HOST", i)] + ":" + env[NodeVar("REDIS_PORT", i)]
  {
    if NodeSet(env, i) then Some(HostPort(env, i)) else None
  }

  function Candidates(env: Env): (r: seq<Option<string>>)
    ensures |r| == 9
    ensures forall k :: 0 <= k < 9 ==> r[k] == Candidate(env, k + 1)
  {
    seq(9, k requires 0 <= k < 9 => Candidate(env, k + 1))
  }

  /** An element `array_filter` keeps, with the index it keeps it under. */
  datatype Kept = Kept(index: nat, s: string)

  /** `array_filter` without a callback on `xs[from..]`: drops `null` and
      the falsy strings and keeps the others in order under their indices. */
  function ArrayFilter(xs: seq<Option<string>>, from: nat): (r: seq<Kept>)
    requires from <= |xs|
    ensures |r| <= |xs| - from
    ensures forall m :: 0 <= m < |r| ==>
      from <= r[m].index < |xs| && xs[r[m].index] == Some(r[m].s) && Truthy(r[m].s)
    ensures forall m, n :: 0 <= m < n < |r| ==> r[m].index < r[n].index
    decreases |xs| - from
  {
    if from == |xs| then []
    else
      var rest := ArrayFilter(xs, from + 1);
      if xs[from].Some? && Truthy(xs[from].value) then
        var r := [Kept(from, xs[from].value)] + rest;
        assert forall m :: 0 < m < |r| ==> r[m] == rest[m - 1];
        r
      else rest
  }

  /** `array_filter` keeps every truthy string. */
  lemma {:induction false} ArrayFilterKeepsTruthy(xs: seq<Option<string>>, from: nat, j: nat)
    requires from <= j < |xs| && xs[j].Some? && Truthy(xs[j].value)
    ensures exists m :: 0 <= m < |ArrayFilter(xs, from)| && ArrayFilter(xs, from)[m] == Kept(j, xs[j].value)
    decreases j - from
  {
    var r := ArrayFilter(xs, from);
    var rest := ArrayFilter(xs, from + 1);
    if j == from {
      assert r[0] == Kept(j, xs[j].value);
    } else {
      ArrayFilterKeepsTruthy(xs, from + 1, j);
      var m :| 0 <= m < |rest| && rest[m] == Kept(j, xs[j].value);
      if xs[from].Some? && Truthy(xs[from].value) {
        assert r[m + 1] == rest[m];
      } else {
        assert r[m] == rest[m];
      }
    }
  }

  /** `array_values`: the kept strings, re-indexed from 0. */
  function ArrayValues(kept: seq<Kept>): (r: seq<string>)
    ensures |r| == |kept|
    ensures forall m :: 0 <= m < |kept| ==> r[m] == kept[m].s
  {
    seq(|kept|, m requires 0 <= m < |kept| => kept[m].s)
  }

  /** The seed list before the TLS rewrite. */
  function SeedList(env: Env): (r: seq<string>)
    ensures |r| <= 9
    ensures forall m :: 0 <= m < |r| ==> Truthy(r[m])
  {
    ArrayValues(ArrayFilter(Candidates(env), 0))
  }

  /** The `array_map` closure that prefixes every seed with `tls://`. */
  function WithScheme(seeds: seq<string>): (r: seq<string>)
    ensures |r| == |seeds|
    ensures forall m :: 0 <= m < |seeds| ==> r[m] == TlsScheme + seeds[m] && IsPrefix(TlsScheme, r[m])
  {
    seq(|seeds|, m requires 0 <= m < |seeds| => TlsScheme + seeds[m])
  }

  /** The seeds the cluster is given. */
  function Seeds(env: Env): (r: seq<string>)
    ensures |r| == |SeedList(env)|
    ensures forall m :: 0 <= m < |r| ==>
      r[m] == (if TlsEnabled(env) then TlsScheme else "") + SeedList(env)[m]
  {
    if TlsEnabled(env) then WithScheme(SeedList(env)) else SeedList(env)
  }

  /** `array_values(array_filter(xs))` is the truthy strings of `xs`, in
      order: `idx` gives the position each one came from. */
  lemma FilteredPositions(xs: seq<Option<string>>) returns (idx: seq<nat>)
    ensures |idx| == |ArrayValues(ArrayFilter(xs, 0))|
    ensures forall m :: 0 <= m < |idx| ==>
      idx[m] < |xs| && xs[idx[m]] == Some(ArrayValues(ArrayFilter(xs, 0))[m])
    ensures forall m, n :: 0 <= m < n < |idx| ==> idx[m] < idx[n]
    ensures forall j :: 0 <= j < |xs| && xs[j].Some? && Truthy(xs[j].value) ==> j in idx
  {
    var kept := ArrayFilter(xs, 0);
    idx := seq(|kept|, m requires 0 <= m < |kept| => kept[m].index);
    forall j | 0 <= j < |xs| && xs[j].Some? && Truthy(xs[j].value)
      ensures j in idx
    {
      ArrayFilterKeepsTruthy(xs, 0, j);
      var m :| 0 <= m < |kept| && kept[m] == Kept(j, xs[j].value);
      assert idx[m] == j;
    }
  }

  /** The seed list is exactly the `host:port` of the nodes 1..9 whose host
      and port are both set, in node order: `nodes` names the node behind
      each seed. */
  lemma SeedNodes(env: Env) returns (nodes: seq<nat>)
    ensures |nodes| == |SeedList(env)|
    ensures forall m :: 0 <= m < |nodes| ==>
      1 <= nodes[m] <= 9 && NodeSet(env, nodes[m]) && SeedList(env)[m] == HostPort(env, nodes[m])
    ensures forall m, n :: 0 <= m < n < |nodes| ==> nodes[m] < nodes[n]
    ensures forall i :: 1 <= i <= 9 && NodeSet(env, i) ==> i in nodes
  {
    var xs := Candidates(env);
    var idx := FilteredPositions(xs);
    nodes := seq(|idx|, m requires 0 <= m < |idx| => idx[m] + 1);
    forall m | 0 <= m < |nodes|
      ensures 1 <= nodes[m] <= 9 && NodeSet(env, nodes[m]) && SeedList(env)[m] == HostPort(env, nodes[m])
    {
      var j := idx[m];
      assert xs[j] == Candidate(env, j + 1) == Some(SeedList(env)[m]);
    }
    forall i | 1 <= i <= 9 && NodeSet(env, i)
      ensures i in nodes
    {
      assert xs[i - 1] == Some(HostPort(env, i));
      var m :| 0 <= m < |idx| && idx[m] == i - 1;
      assert nodes[m] == i;
    }
  }

  // ---------------------------------------------------------------------
  // Cluster
  // ---------------------------------------------------------------------

  function StrList(ss: seq<string>): (r: seq<Value>)
    ensures |r| == |ss|
    ensures forall m :: 0 <= m < |ss| ==> r[m] == Str(ss[m])
  {
    seq(|ss|, m requires 0 <= m < |ss| => Str(ss[m]))
  }

  const ClusterKeyNames: set<string> :=
    {"timeout", "read_timeout", "failover_mode", "seeds", "ssl", "password", "user"}

  /** The cluster array holds zero timeouts, the error failover mode and
      the given seeds always, and `ssl`, `password` and `user` exactly when
      TLS is on or their variable is set. */
  predicate ClusterConfig(env: Env, seeds: seq<string>, cfg: map<string, Value>)
  {
    && cfg.Keys <= ClusterKeyNames
    && "timeout" in cfg && cfg["timeout"] == Float(0.0)
    && "read_timeout" in cfg && cfg["read_timeout"] == Float(0.0)
    && "failover_mode" in cfg && cfg["failover_mode"] == FailoverError
    && "seeds" in cfg && cfg["seeds"] == List(StrList(seeds))
    && ("ssl" in cfg <==> TlsEnabled(env))
    && ("ssl" in cfg ==> cfg["ssl"] == SslOptions)
    && ("password" in cfg <==> IsSet(env, "REDIS_HOST_PASSWORD"))
    && ("password" in cfg ==> cfg["password"] == Str(env["REDIS_HOST_PASSWORD"]))
    && ("user" in cfg <==> IsSet(env, "REDIS_USER_AUTH"))
    && ("user" in cfg ==> cfg["user"] == Str(User(env)))
  }

  /** `$seeds`: the filtered list, rewritten in place when TLS is on. */
  method BuildSeeds(env: Env) returns (seeds: seq<string>)
    ensures seeds == Seeds(env)
  {
    seeds := SeedList(env);
    if TlsEnabled(env) {
      seeds := WithScheme(seeds);
    }
  }

  /** `$cluster_config`, built around the seeds by conditional assignments. */
  method BuildClusterConfig(env: Env, seeds: seq<string>) returns (cfg: map<string, Value>)
    ensures ClusterConfig(env, seeds, cfg)
  {
    cfg := map["timeout" := Float(0.0), "read_timeout" := Float(0.0),
               "failover_mode" := FailoverError, "seeds" := List(StrList(seeds))];
    if TlsEnabled(env) {
      cfg := cfg["ssl" := SslOptions];
    }
    if IsSet(env, "REDIS_HOST_PASSWORD") {
      cfg := cfg["password" := Str(env["REDIS_HOST_PASSWORD"])];
    }
    if IsSet(env, "REDIS_USER_AUTH") {
      cfg := cfg["user" := Str(User(env))];
    }
  }

  /** The cluster description leaves no freedom: one array meets it. */
  lemma ClusterConfigUnique(env: Env, seeds: seq<string>, a: map<string, Value>, b: map<string, Value>)
    requires ClusterConfig(env, seeds, a) && ClusterConfig(env, seeds, b)
    ensures a == b
  {
    assert a.Keys == b.Keys;
    forall k | k in a
      ensures a[k] == b[k]
    {
      assert k in ClusterKeyNames;
    }
  }

  // ---------------------------------------------------------------------
  // $CONFIG
  // ---------------------------------------------------------------------

  /** `$CONFIG`: the two memcache entries and either `redis` or
      `redis.cluster`, never both. */
  method BuildConfig(env: Env) returns (config: map<string, Value>)
    ensures config.Keys ==
      {DistributedKey, LockingKey, if ClusterMode(env) then "redis.cluster" else "redis"}
    ensures config[DistributedKey] == Str(RedisMemcache) && config[LockingKey] == Str(RedisMemcache)
    ensures !ClusterMode(env) ==> config["redis"].Assoc? && SingleNodeConfig(env, config["redis"].entries)
    ensures ClusterMode(env) ==>
      config["redis.cluster"].Assoc? && ClusterConfig(env, Seeds(env), config["redis.cluster"].entries)
  {
    if !ClusterMode(env) {
      config := map[DistributedKey := Str(RedisMemcache), LockingKey := Str(RedisMemcache)];
      var redis := BuildRedisConfig(env);
      config := config["redis" := Assoc(redis)];
    } else {
      var seeds := BuildSeeds(env);
      var cluster := BuildClusterConfig(env, seeds);
      config := map[DistributedKey := Str(RedisMemcache), LockingKey := Str(RedisMemcache),
                    "redis.cluster" := Assoc(cluster)];
    }
  }
}
