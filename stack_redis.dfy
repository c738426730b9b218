/** What the Nextcloud container's Redis configuration becomes under the
    environment the CDK stack gives it: the serverless cache's endpoint as
    the only node, TLS on, cluster mode, and the generated password. */
module StackRedis {
  import opened Php
  import opened RedisConfig

  /** The Redis variables the stack sets on the `nextcloud` container. */
  function StackEnvironment(host: string, port: string, password: string): (env: Env)
    ensures env.Keys == {"REDIS_HOST", "REDIS_PORT", "REDIS_TLS_ENABLED", "REDIS_MODE", "REDIS_HOST_PASSWORD"}
  {
    map["REDIS_HOST" := host, "REDIS_PORT" := port, "REDIS_TLS_ENABLED" := "true",
        "REDIS_MODE" := ClusterModeName, "REDIS_HOST_PASSWORD" := password]
  }

  /** Of the nine numbered nodes only the first is set by the stack. */
  lemma OnlyFirstNode(host: string, port: string, password: string, i: nat)
    requires 2 <= i <= 9
    ensures !NodeSet(StackEnvironment(host, port, password), i)
  {
    var env := StackEnvironment(host, port, password);
    assert |NodeVar("REDIS_HOST", i)| == 12;
    assert NodeVar("REDIS_HOST", i) !in env by {
      assert |"REDIS_HOST"| == 10 && |"REDIS_PORT"| == 10 && |"REDIS_MODE"| == 10;
      assert |"REDIS_TLS_ENABLED"| == 17 && |"REDIS_HOST_PASSWORD"| == 19;
    }
  }

  /** A strictly increasing list of naturals spreads at least one per
      element: its last element exceeds its first by its length less one. */
  lemma {:induction false} IncreasingSpread(nodes: seq<nat>)
    requires forall m, n :: 0 <= m < n < |nodes| ==> nodes[m] < nodes[n]
    ensures |nodes| > 0 ==> nodes[|nodes| - 1] >= nodes[0] + |nodes| - 1
  {
    if |nodes| > 1 {
      var prefix := nodes[..|nodes| - 1];
      IncreasingSpread(prefix);
      assert prefix[|prefix| - 1] < nodes[|nodes| - 1];
    }
  }

  /** The only seed is the endpoint, behind the TLS scheme. */
  lemma StackSeeds(host: string, port: string, password: string)
    requires Truthy(host) && Truthy(port)
    ensures Seeds(StackEnvironment(host, port, password)) == [TlsScheme + host + ":" + port]
  {
    var env := StackEnvironment(host, port, password);
    assert NodeSet(env, 1);
    var nodes := SeedNodes(env);
    forall i | 2 <= i <= 9
      ensures !NodeSet(env, i)
    {
      OnlyFirstNode(host, port, password, i);
    }
    assert 1 in nodes;
    IncreasingSpread(nodes);
    assert nodes[0] == 1 && nodes[|nodes| - 1] == 1;
    assert SeedList(env) == [host + ":" + port];
    assert TlsScheme + (host + ":" + port) == TlsScheme + host + ":" + port;
  }

  /** With an endpoint address and port and a password, the stack's
      environment selects cluster mode with a single `tls://host:port`
      seed, the peer-verifying ssl options and the password, and no user. */
  lemma StackClusterConfig(host: string, port: string, password: string, cfg: map<string, Value>)
    requires Truthy(host) && Truthy(port) && Truthy(password)
    requires ClusterConfig(StackEnvironment(host, port, password),
                           Seeds(StackEnvironment(host, port, password)), cfg)
    ensures ClusterMode(StackEnvironment(host, port, password))
    ensures cfg["seeds"] == List([Str(TlsScheme + host + ":" + port)])
    ensures "ssl" in cfg && cfg["ssl"] == SslOptions
    ensures "password" in cfg && cfg["password"] == Str(password)
    ensures "user" !in cfg
  {
    StackSeeds(host, port, password);
  }
}
