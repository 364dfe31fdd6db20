/**
 * The environment loader's `get`: six optional environment values are
 * validated in a fixed order and either become one complete `Config` record
 * or produce exactly one of four errors, the first check that fails.
 */
module EnvConfig {
  import opened Wrappers
  import opened UrlPattern

  /**
   * `Number(process.env.PORT)`, seen only through the two tests the loader
   * applies to it (`isNaN` and `<= 0`). An unset or non-numeric PORT converts
   * to `NaN`, an empty one to `Finite(0.0)`; the string conversion itself is
   * not modelled.
   */
  datatype Num = NaN | PosInf | NegInf | Finite(r: real)

  /** The six variables as read from the process environment: any of them may be unset. */
  datatype Env = Env(
    port: Num,
    client: Option<string>,
    dbServer: Option<string>,
    dbName: Option<string>,
    dbAuthUser: Option<string>,
    dbAuthPass: Option<string>)

  /** The `EnvConfig` record the loader returns on success. */
  datatype Config = Config(
    port: Num,
    client: string,
    dbServer: string,
    dbName: string,
    dbAuthUser: string,
    dbAuthPass: string)

  /** The four errors `get` can throw, in the order their checks run. */
  datatype EnvError = InvalidPort | InvalidClient | MissingDbConfig | MissingCredentials {

    /** Position of the error's check in the validation order. */
    function Rank(): nat {
      match this
      case InvalidPort => 0
      case InvalidClient => 1
      case MissingDbConfig => 2
      case MissingCredentials => 3
    }

    /** The message of the thrown `Error`. */
    function Message(): string {
      match this
      case InvalidPort => "PORT must be a valid positive number"
      case InvalidClient => "CLIENT must be a valid URL"
      case MissingDbConfig => "DB_SERVER and DB_NAME are required"
      case MissingCredentials => "DB_AUTH_USER and DB_AUTH_PASS are required"
    }
  }

  /** Distinct checks throw distinct messages, so the thrown error names the failing check. */
  lemma MessagesIdentifyCheck(e: EnvError, d: EnvError)
    ensures e.Message() == d.Message() <==> e == d
  {
  }

  /** JavaScript's `isNaN` on an already converted number. */
  predicate IsNaN(n: Num) {
    n.NaN?
  }

  /** JavaScript's `n <= 0`, which is false for `NaN`. */
  predicate AtMostZero(n: Num) {
    match n
    case NaN => false
    case PosInf => false
    case NegInf => true
    case Finite(r) => r <= 0.0
  }

  /** A port the loader keeps: neither `NaN` nor at most zero. */
  predicate PortValid(n: Num) {
    !(IsNaN(n) || AtMostZero(n))
  }

  /** JavaScript truthiness of an optional string: set and not empty. */
  predicate Truthy(v: Option<string>) {
    v.Some? && v.value != ""
  }

  predicate ClientValid(v: Option<string>) {
    Truthy(v) && MatchesUrl(v.value)
  }

  /** Whether the check that reports error `e` passes on `env`. */
  predicate Passes(env: Env, e: EnvError) {
    match e
    case InvalidPort => PortValid(env.port)
    case InvalidClient => ClientValid(env.client)
    case MissingDbConfig => Truthy(env.dbServer) && Truthy(env.dbName)
    case MissingCredentials => Truthy(env.dbAuthUser) && Truthy(env.dbAuthPass)
  }

  /** `cfg` carries exactly the values of `env`, with nothing defaulted or rewritten. */
  predicate Mirrors(cfg: Config, env: Env) {
    && cfg.port == env.port
    && env.client == Some(cfg.client)
    && env.dbServer == Some(cfg.dbServer)
    && env.dbName == Some(cfg.dbName)
    && env.dbAuthUser == Some(cfg.dbAuthUser)
    && env.dbAuthPass == Some(cfg.dbAuthPass)
  }

  /** What a returned configuration guarantees to the rest of the server. */
  predicate ValidConfig(cfg: Config) {
    && PortValid(cfg.port)
    && MatchesUrl(cfg.client)
    && cfg.dbServer != ""
    && cfg.dbName != ""
    && cfg.dbAuthUser != ""
    && cfg.dbAuthPass != ""
  }

  /** The environment in which every variable is set to the corresponding field of `cfg`. */
  function EnvOf(cfg: Config): Env {
    Env(cfg.port, Some(cfg.client), Some(cfg.dbServer), Some(cfg.dbName),
        Some(cfg.dbAuthUser), Some(cfg.dbAuthPass))
  }

  /**
   * `get`: succeeds exactly when every check passes, returning the inputs
   * unchanged; otherwise fails with the earliest failing check's error.
   */
  function Get(env: Env): (r: Result<Config, EnvError>)
    ensures r.Success? <==> forall e: EnvError :: Passes(env, e)
    ensures r.Success? ==> Mirrors(r.value, env)
    ensures r.Failure? ==> !Passes(env, r.error)
    ensures r.Failure? ==>
      forall e: EnvError :: e.Rank() < r.error.Rank() ==> Passes(env, e)
  {
    if IsNaN(env.port) || AtMostZero(env.port) then
      assert !Passes(env, InvalidPort);
      Failure(InvalidPort)
    else if !Truthy(env.client) || !MatchesUrl(env.client.value) then
      assert !Passes(env, InvalidClient);
      Failure(InvalidClient)
    else if !Truthy(env.dbServer) || !Truthy(env.dbName) then
      assert !Passes(env, MissingDbConfig);
      Failure(MissingDbConfig)
    else if !Truthy(env.dbAuthUser) || !Truthy(env.dbAuthPass) then
      assert !Passes(env, MissingCredentials);
      Failure(MissingCredentials)
    else
      Success(Config(env.port, env.client.value, env.dbServer.value, env.dbName.value,
                     env.dbAuthUser.value, env.dbAuthPass.value))
  }

  /** A `NaN` or non-positive port is reported whatever the other variables hold. */
  lemma PortFailsFirst(env: Env)
    requires IsNaN(env.port) || AtMostZero(env.port)
    ensures Get(env) == Failure(InvalidPort)
  {
  }

  /** With a good port, an unset, empty or non-matching CLIENT is reported. */
  lemma ClientFails(env: Env)
    requires PortValid(env.port)
    requires env.client.None? || env.client == Some("") || !MatchesUrl(env.client.value)
    ensures Get(env) == Failure(InvalidClient)
  {
  }

  /** With port and client good, an unset or empty DB_SERVER or DB_NAME is reported. */
  lemma DbConfigFails(env: Env)
    requires PortValid(env.port) && ClientValid(env.client)
    requires !Truthy(env.dbServer) || !Truthy(env.dbName)
    ensures Get(env) == Failure(MissingDbConfig)
  {
  }

  /** With every earlier check passing, an unset or empty credential is reported. */
  lemma CredentialsFail(env: Env)
    requires PortValid(env.port) && ClientValid(env.client)
    requires Truthy(env.dbServer) && Truthy(env.dbName)
    requires !Truthy(env.dbAuthUser) || !Truthy(env.dbAuthPass)
    ensures Get(env) == Failure(MissingCredentials)
  {
  }

  /**
   * Of several failing checks the earliest one is reported: an error of
   * lower rank that fails always wins over a later one.
   */
  lemma FirstFailureWins(env: Env, e: EnvError)
    requires !Passes(env, e)
    ensures Get(env).Failure?
    ensures Get(env).error.Rank() <= e.Rank()
    ensures Get(env).error == e <==> forall d: EnvError :: d.Rank() < e.Rank() ==> Passes(env, d)
  {
  }

  /**
   * Only two outcomes exist: a success carries a record holding every value
   * unchanged and meeting every rule.
   */
  lemma SuccessIsValid(env: Env)
    requires Get(env).Success?
    ensures ValidConfig(Get(env).value)
    ensures EnvOf(Get(env).value) == env
  {
  }

  /** Round trip: a valid record, put into the environment, is read back unchanged. */
  lemma RoundTrip(cfg: Config)
    requires ValidConfig(cfg)
    ensures Get(EnvOf(cfg)) == Success(cfg)
  {
  }

  /**
   * The port check only excludes `NaN` and values at most zero: a fractional
   * port and `Infinity` are accepted.
   */
  lemma PortAcceptsNonIntegers()
    ensures PortValid(Finite(0.5))
    ensures PortValid(PosInf)
    ensures !PortValid(Finite(0.0))
    ensures !PortValid(NegInf)
    ensures !PortValid(NaN)
  {
  }
}
