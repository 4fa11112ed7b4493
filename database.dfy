/** The database connection setup (src/db.js): the connection and SSL
    decision read from the environment (lines 5-27) and `connectWithRetry`
    with exponential backoff (lines 42-63). The environment maps each set
    variable to its text; `Number(text)` is an oracle; the outcome of each
    `testConnection` attempt is an input, and the waits are recorded. */
module Database {
  import opened Values
  import opened Strings

  type Env = map<string, string>

  /** A variable that is set to non-empty text, i.e. truthy. */
  predicate IsSet(env: Env, k: string)
  {
    k in env && env[k] != ""
  }

  /** `process.env.DATABASE_URL || process.env.DB_URL || null`. */
  function ConnectionString(env: Env): (cs: Option<string>)
    ensures cs.Some? ==> cs.value != ""
    ensures IsSet(env, "DATABASE_URL") ==> cs == Some(env["DATABASE_URL"])
    ensures !IsSet(env, "DATABASE_URL") && IsSet(env, "DB_URL") ==> cs == Some(env["DB_URL"])
    ensures cs.None? <==> !IsSet(env, "DATABASE_URL") && !IsSet(env, "DB_URL")
  {
    if IsSet(env, "DATABASE_URL") then Some(env["DATABASE_URL"])
    else if IsSet(env, "DB_URL") then Some(env["DB_URL"])
    else None
  }

  /** `connectionString && /sslmode=require/i.test(connectionString)`. */
  predicate SuggestsSsl(cs: Option<string>)
  {
    cs.Some? && ContainsIgnoreCase(cs.value, "sslmode=require")
  }

  /** `sslEnv === undefined ? Boolean(connectionStringSuggestsSSL) : sslEnv`,
      where `sslEnv` is defined whenever DB_SSL is set, even to ''. */
  predicate SslEnabled(env: Env)
    ensures "DB_SSL" in env && env["DB_SSL"] !in {"true", "1"} ==> !SslEnabled(env)
    ensures "DB_SSL" !in env && ConnectionString(env).None? ==> !SslEnabled(env)
  {
    if "DB_SSL" in env then env["DB_SSL"] == "true" || env["DB_SSL"] == "1"
    else SuggestsSsl(ConnectionString(env))
  }

  datatype SslOptions = SslOptions(rejectUnauthorized: bool)

  /** `ssl`: present exactly when SSL is enabled. */
  function Ssl(env: Env): (ssl: Option<SslOptions>)
    ensures ssl.Some? <==> SslEnabled(env)
    ensures ssl.Some? ==> (ssl.value.rejectUnauthorized <==> "DB_SSL_REJECT_UNAUTHORIZED" in env && env["DB_SSL_REJECT_UNAUTHORIZED"] == "true")
  {
    if SslEnabled(env) then
      Some(SslOptions("DB_SSL_REJECT_UNAUTHORIZED" in env && env["DB_SSL_REJECT_UNAUTHORIZED"] == "true"))
    else None
  }

  /** Where the pool connects: a connection string, or the separate
      `DB_*` settings (an unset one is undefined). */
  datatype Target =
    | ByUrl(connectionString: string)
    | ByParts(host: Option<string>, port: Value, database: Option<string>, user: Option<string>, password: Option<string>)

  function EnvValue(env: Env, k: string): Option<string>
  {
    if k in env then Some(env[k]) else None
  }

  /** The object literal at lines 15-23; `toNumber` is `Number(text)`. */
  function TargetOf(env: Env, toNumber: string -> Value): (t: Target)
    ensures t.ByUrl? <==> ConnectionString(env).Some?
    ensures t.ByParts? && !IsSet(env, "DB_PORT") ==> t.port == Num(5432)
  {
    var cs := ConnectionString(env);
    if cs.Some? then ByUrl(cs.value)
    else
      ByParts(EnvValue(env, "DB_HOST"),
              if IsSet(env, "DB_PORT") then toNumber(env["DB_PORT"]) else Num(5432),
              EnvValue(env, "DB_NAME"), EnvValue(env, "DB_USER"), EnvValue(env, "DB_PASS"))
  }

  const DefaultMax := 10
  const DefaultIdleTimeoutMillis := 30000

  /** `poolConfig`, whose fields lines 25-27 assign after its creation. */
  class PoolConfig {
    var target: Target
    var max: Value
    var idleTimeoutMillis: Value
    var ssl: Option<SslOptions>

    /** The object literal: neither `max`, `idleTimeoutMillis` nor `ssl`. */
    constructor(env: Env, toNumber: string -> Value)
      ensures target == TargetOf(env, toNumber)
      ensures max == Undefined && idleTimeoutMillis == Undefined && ssl.None?
    {
      target := TargetOf(env, toNumber);
      max := Undefined;
      idleTimeoutMillis := Undefined;
      ssl := None;
    }

    /** `poolConfig.max = poolConfig.max || 10;
        poolConfig.idleTimeoutMillis = poolConfig.idleTimeoutMillis || 30000;
        if (ssl) poolConfig.ssl = ssl;` */
    method ApplyDefaults(sslOptions: Option<SslOptions>)
      modifies this
      ensures target == old(target)
      ensures max == (if Truthy(old(max)) then old(max) else Num(DefaultMax))
      ensures idleTimeoutMillis == (if Truthy(old(idleTimeoutMillis)) then old(idleTimeoutMillis) else Num(DefaultIdleTimeoutMillis))
      ensures ssl == (if sslOptions.Some? then sslOptions else old(ssl))
    {
      if !Truthy(max) {
        max := Num(DefaultMax);
      }
      if !Truthy(idleTimeoutMillis) {
        idleTimeoutMillis := Num(DefaultIdleTimeoutMillis);
      }
      if sslOptions.Some? {
        ssl := sslOptions;
      }
    }
  }

  /** Lines 15-27: the configuration the pool is created with. */
  method NewPoolConfig(env: Env, toNumber: string -> Value) returns (config: PoolConfig)
    ensures fresh(config)
    ensures config.target == TargetOf(env, toNumber)
    ensures config.max == Num(DefaultMax) && config.idleTimeoutMillis == Num(DefaultIdleTimeoutMillis)
    ensures config.ssl == Ssl(env)
  {
    config := new PoolConfig(env, toNumber);
    config.ApplyDefaults(Ssl(env));
  }

  // ---------------------------------------------------------------- connectWithRetry

  datatype Outcome = Resolved | Rejected

  function Pow2(n: nat): (p: nat)
    ensures p >= 1
  {
    if n == 0 then 1 else 2 * Pow2(n - 1)
  }

  /** The delays passed to `setTimeout` for the first `n` retries:
      `initialDelay`, doubled each time. */
  function Backoff(delay: int, n: nat): (s: seq<int>)
    ensures |s| == n
    ensures forall i :: 0 <= i < n ==> s[i] == delay * Pow2(i)
  {
    if n == 0 then [] else Backoff(delay, n - 1) + [delay * Pow2(n - 1)]
  }

  /** Each wait doubles the one before. */
  lemma DoubleDelay(d: int, n: nat)
    ensures d * Pow2(n + 1) == 2 * (d * Pow2(n))
  {
  }

  function Sum(s: seq<int>): int
  {
    if s == [] then 0 else Sum(s[..|s| - 1]) + s[|s| - 1]
  }

  const DefaultRetries := 5
  const DefaultInitialDelay := 2000

  /** `connectWithRetry({ retries, initialDelay })`, an absent option taking
      its default. `succeeds(k)` is whether attempt k + 1 connects. Returns
      how the promise settles, the number of attempts and the waits. */
  method ConnectWithRetry(retries: Option<int>, initialDelay: Option<int>, succeeds: nat -> bool)
    returns (outcome: Outcome, attempts: nat, sleeps: seq<int>)
    ensures var r := if retries.Some? then retries.value else DefaultRetries;
      && (r <= 0 ==> outcome == Resolved && attempts == 0)
      && (r > 0 ==> 1 <= attempts <= r)
      && (forall k :: 0 <= k < attempts - 1 ==> !succeeds(k))
      && (outcome == Resolved && attempts > 0 ==> succeeds(attempts - 1))
      && (outcome == Rejected <==> (r > 0 && attempts == r && !succeeds(r - 1)))
    ensures var d := if initialDelay.Some? then initialDelay.value else DefaultInitialDelay;
      sleeps == Backoff(d, if attempts == 0 then 0 else attempts - 1)
  {
    var r := if retries.Some? then retries.value else DefaultRetries;
    var d := if initialDelay.Some? then initialDelay.value else DefaultInitialDelay;
    var attempt: nat := 0;
    var delay := d;
    sleeps := [];
    while attempt < r
      invariant attempt == 0 || attempt < r
      invariant forall k :: 0 <= k < attempt ==> !succeeds(k)
      invariant sleeps == Backoff(d, attempt)
      invariant delay == d * Pow2(attempt)
      decreases r - attempt
    {
      attempt := attempt + 1;
      assert sleeps == Backoff(d, attempt - 1);
      if succeeds(attempt - 1) {
        return Resolved, attempt, sleeps;
      }
      if attempt >= r {
        assert attempt == r;
        return Rejected, attempt, sleeps;
      }
      sleeps := sleeps + [delay];
      DoubleDelay(d, attempt - 1);
      delay := delay * 2;
    }
    return Resolved, attempt, sleeps;
  }

  // ---------------------------------------------------------------- lemmas

  /** The connection string wins over the separate settings: with one set,
      the DB_* variables do not matter. */
  lemma UrlTakesPrecedence(env: Env, toNumber: string -> Value, k: string, v: string)
    requires ConnectionString(env).Some?
    requires k != "DATABASE_URL" && k != "DB_URL"
    ensures TargetOf(env[k := v], toNumber) == TargetOf(env, toNumber) == ByUrl(ConnectionString(env).value)
  {
    assert ConnectionString(env[k := v]) == ConnectionString(env);
  }

  /** DB_SSL decides alone when it is set: SSL is on exactly for 'true' and
      '1', whatever the connection string says; otherwise SSL is on exactly
      when the connection string holds `sslmode=require` in any case. */
  lemma SslDecision(env: Env)
    ensures "DB_SSL" in env ==> (SslEnabled(env) <==> env["DB_SSL"] in {"true", "1"})
    ensures "DB_SSL" !in env ==>
      (SslEnabled(env) <==>
        (ConnectionString(env).Some? && exists i :: MatchesAt(ConnectionString(env).value, "sslmode=require", i)))
  {
    if ConnectionString(env).Some? {
      ContainsIgnoreCaseAt(ConnectionString(env).value, "sslmode=require");
    }
  }

  /** A DB_SSL other than 'true' or '1' turns SSL off even when the
      connection string asks for `sslmode=require`. */
  lemma DbSslOverridesUrl(env: Env)
    requires "DB_SSL" in env && env["DB_SSL"] != "true" && env["DB_SSL"] != "1"
    ensures Ssl(env).None?
  {
  }

  /** The total of the delays passed to `setTimeout` before the n + 1-th
      attempt. */
  lemma {:induction false} BackoffTotal(delay: int, n: nat)
    ensures Sum(Backoff(delay, n)) == delay * (Pow2(n) - 1)
  {
    if n > 0 {
      BackoffTotal(delay, n - 1);
      assert Backoff(delay, n)[..n - 1] == Backoff(delay, n - 1);
    }
  }

  /** With the defaults, the delays passed to `setTimeout` between the five
      attempts are 2, 4, 8 and 16 seconds, 30 seconds in all. */
  lemma DefaultSchedule()
    ensures Backoff(DefaultInitialDelay, DefaultRetries - 1) == [2000, 4000, 8000, 16000]
    ensures Sum(Backoff(DefaultInitialDelay, DefaultRetries - 1)) == 30000
  {
    BackoffTotal(DefaultInitialDelay, DefaultRetries - 1);
    assert Pow2(4) == 16;
  }
}
