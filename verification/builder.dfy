/**
  `NetmeraApi.NetmeraApiBuilder`: the fluent configuration builder.

  Every setter checks its argument before assigning it. A rejected argument
  throws a validation error and leaves the builder as it was; an accepted one
  changes that setter's own field and nothing else.
 */
module ApiBuilder {
  import opened Nullable
  import Interceptor

  /** Java `int`. */
  newtype int32 = x: int | -0x8000_0000 <= x < 0x8000_0000

  /** `Integer.MAX_VALUE`. */
  const IntMaxValue: int32 := 0x7FFF_FFFF

  /** Highest retry count `withMaxRetryCount` accepts. */
  const MaxRetryCountLimit: int32 := 50

  /** Defaults a builder starts from. */
  const DefaultMaxRetryCount: int32 := 3
  const DefaultTimeout: int32 := 30

  /** An OkHttp `ConnectionPool` object, known only by identity. */
  datatype ConnectionPool = BuilderDefaultPool | SuppliedPool(id: nat)

  /** A `NetmeraRetryPolicy` object, known only by identity. */
  datatype RetryPolicy = DefaultRetryPolicy | SuppliedRetryPolicy(id: nat)

  /** The error a failed `Assert` check raises, naming the rejected setting. */
  datatype ValidationError = ValidationError(subject: string)

  /** A Java call that returns a value or throws a validation error. */
  datatype Result<+T> = Success(value: T) | Failure(error: ValidationError)

  /** The builder's fields. */
  datatype Builder = Builder(
    netmeraRetryPolicy: Nullable<RetryPolicy>,
    maxRetryCount: int32,
    targetHost: Nullable<string>,
    apiKey: Nullable<string>,
    connectionTimeout: int32,
    readTimeout: int32,
    writeTimeout: int32,
    callTimeout: int32,
    connectionPool: ConnectionPool)

  /** Names of the builder's fields. */
  datatype Field =
    | RetryPolicyField | MaxRetryCountField | TargetHostField | ApiKeyField
    | ConnectionTimeoutField | ReadTimeoutField | WriteTimeoutField | CallTimeoutField
    | ConnectionPoolField

  /** True iff `b` and `c` hold the same value in field `f`. */
  predicate Agree(b: Builder, c: Builder, f: Field) {
    match f
    case RetryPolicyField => b.netmeraRetryPolicy == c.netmeraRetryPolicy
    case MaxRetryCountField => b.maxRetryCount == c.maxRetryCount
    case TargetHostField => b.targetHost == c.targetHost
    case ApiKeyField => b.apiKey == c.apiKey
    case ConnectionTimeoutField => b.connectionTimeout == c.connectionTimeout
    case ReadTimeoutField => b.readTimeout == c.readTimeout
    case WriteTimeoutField => b.writeTimeout == c.writeTimeout
    case CallTimeoutField => b.callTimeout == c.callTimeout
    case ConnectionPoolField => b.connectionPool == c.connectionPool
  }

  /** True iff `c` differs from `b` at most in field `f`. */
  predicate OnlyChanged(b: Builder, c: Builder, f: Field) {
    forall g: Field :: g != f ==> Agree(b, c, g)
  }

  /** The range invariant every setter's check keeps. */
  predicate Valid(b: Builder) {
    && 0 <= b.maxRetryCount <= MaxRetryCountLimit
    && b.connectionTimeout >= 0
    && b.readTimeout >= 0
    && b.writeTimeout >= 0
    && b.callTimeout >= 0
  }

  /**
    What a setter call leaves behind: the builder object, and the error it
    threw if it rejected its argument.
   */
  datatype SetterOutcome =
    | Applied(state: Builder)
    | Threw(error: ValidationError, state: Builder)

  /** The verdict of one `Assert` check. */
  datatype Check = Pass | Fail(error: ValidationError)

  /** `Assert.mustBetween`, an inclusive range check. */
  function MustBetween(low: int, high: int, value: int, subject: string): Check
  {
    if low <= value <= high then Pass else Fail(ValidationError(subject))
  }

  /** `Assert.notNull`. */
  function NotNull<T>(value: Nullable<T>, subject: string): Check
  {
    if value.NonNull? then Pass else Fail(ValidationError(subject))
  }

  /** Run a setter: the check first, the assignment only when it passes. */
  function Guarded(b: Builder, check: Check, updated: Builder): SetterOutcome
  {
    match check
    case Pass => Applied(updated)
    case Fail(e) => Threw(e, b)
  }

  /** `new NetmeraApiBuilder(targetHost, apiKey)`: the public constructor checks nothing. */
  function NewBuilder(targetHost: Nullable<string>, apiKey: Nullable<string>): (b: Builder)
    ensures Valid(b)
    ensures b.targetHost == targetHost && b.apiKey == apiKey
    ensures b.maxRetryCount == 3
    ensures b.connectionTimeout == 30 && b.readTimeout == 30
    ensures b.writeTimeout == 30 && b.callTimeout == 30
    ensures b.connectionPool == BuilderDefaultPool
    ensures b.netmeraRetryPolicy == NonNull(DefaultRetryPolicy)
  {
    Builder(NonNull(DefaultRetryPolicy), DefaultMaxRetryCount, targetHost, apiKey,
            DefaultTimeout, DefaultTimeout, DefaultTimeout, DefaultTimeout,
            BuilderDefaultPool)
  }

  /** The static factory `NetmeraApiBuilder.NetmeraApi(targetHost, restApiKey)`. */
  function NetmeraApi(targetHost: Nullable<string>, restApiKey: Nullable<string>): (r: Result<Builder>)
    ensures r.Success? <==> targetHost.NonNull? && restApiKey.NonNull?
    ensures targetHost.Null? ==> r.Failure? && r.error.subject == "Target Host"
    ensures targetHost.NonNull? && restApiKey.Null? ==>
              r.Failure? && r.error.subject == "Rest Api Key"
    ensures r.Success? ==> r.value == NewBuilder(targetHost, restApiKey)
  {
    if targetHost.Null? then Failure(ValidationError("Target Host"))
    else if restApiKey.Null? then Failure(ValidationError("Rest Api Key"))
    else Success(NewBuilder(targetHost, restApiKey))
  }

  /** `withNetmeraRetryPolicy`: no check at all, so even `null` is stored. */
  function WithNetmeraRetryPolicy(b: Builder, policy: Nullable<RetryPolicy>): (r: SetterOutcome)
    ensures r.Applied?
    ensures r.state.netmeraRetryPolicy == policy
    ensures OnlyChanged(b, r.state, RetryPolicyField)
  {
    Applied(b.(netmeraRetryPolicy := policy))
  }

  /** `withReadTimeout`: any Java `int` that is not negative. */
  function WithReadTimeout(b: Builder, readTimeout: int32): (r: SetterOutcome)
    ensures r.Applied? <==> readTimeout >= 0
    ensures r.Threw? ==> r.state == b && r.error.subject == "Read Timeout"
    ensures r.Applied? ==> r.state.readTimeout == readTimeout
    ensures OnlyChanged(b, r.state, ReadTimeoutField)
    ensures Valid(b) ==> Valid(r.state)
  {
    Guarded(b, MustBetween(0, IntMaxValue as int, readTimeout as int, "Read Timeout"),
            b.(readTimeout := readTimeout))
  }

  /** `withConnectionTimeout`: any Java `int` that is not negative. */
  function WithConnectionTimeout(b: Builder, connectionTimeout: int32): (r: SetterOutcome)
    ensures r.Applied? <==> connectionTimeout >= 0
    ensures r.Threw? ==> r.state == b && r.error.subject == "Connection Timeout"
    ensures r.Applied? ==> r.state.connectionTimeout == connectionTimeout
    ensures OnlyChanged(b, r.state, ConnectionTimeoutField)
    ensures Valid(b) ==> Valid(r.state)
  {
    Guarded(b, MustBetween(0, IntMaxValue as int, connectionTimeout as int, "Connection Timeout"),
            b.(connectionTimeout := connectionTimeout))
  }

  /** `withWriteTimeout`: any Java `int` that is not negative. */
  function WithWriteTimeout(b: Builder, writeTimeout: int32): (r: SetterOutcome)
    ensures r.Applied? <==> writeTimeout >= 0
    ensures r.Threw? ==> r.state == b && r.error.subject == "Write Timeout"
    ensures r.Applied? ==> r.state.writeTimeout == writeTimeout
    ensures OnlyChanged(b, r.state, WriteTimeoutField)
    ensures Valid(b) ==> Valid(r.state)
  {
    Guarded(b, MustBetween(0, IntMaxValue as int, writeTimeout as int, "Write Timeout"),
            b.(writeTimeout := writeTimeout))
  }

  /** `withCallTimeout`: any Java `int` that is not negative. */
  function WithCallTimeout(b: Builder, callTimeout: int32): (r: SetterOutcome)
    ensures r.Applied? <==> callTimeout >= 0
    ensures r.Threw? ==> r.state == b && r.error.subject == "Call Timeout"
    ensures r.Applied? ==> r.state.callTimeout == callTimeout
    ensures OnlyChanged(b, r.state, CallTimeoutField)
    ensures Valid(b) ==> Valid(r.state)
  {
    Guarded(b, MustBetween(0, IntMaxValue as int, callTimeout as int, "Call Timeout"),
            b.(callTimeout := callTimeout))
  }

  /** `withMaxRetryCount`: only 0 through 50. */
  function WithMaxRetryCount(b: Builder, maxRetryCount: int32): (r: SetterOutcome)
    ensures r.Applied? <==> 0 <= maxRetryCount <= MaxRetryCountLimit
    ensures r.Threw? ==> r.state == b && r.error.subject == "Max Retry Count"
    ensures r.Applied? ==> r.state.maxRetryCount == maxRetryCount
    ensures OnlyChanged(b, r.state, MaxRetryCountField)
    ensures Valid(b) ==> Valid(r.state)
  {
    Guarded(b, MustBetween(0, MaxRetryCountLimit as int, maxRetryCount as int, "Max Retry Count"),
            b.(maxRetryCount := maxRetryCount))
  }

  /** `withConnectionPool`: any pool, but not `null`. */
  function WithConnectionPool(b: Builder, pool: Nullable<ConnectionPool>): (r: SetterOutcome)
    ensures r.Applied? <==> pool.NonNull?
    ensures r.Threw? ==> r.state == b && r.error.subject == "Connection Pool"
    ensures r.Applied? ==> r.state.connectionPool == pool.value
    ensures OnlyChanged(b, r.state, ConnectionPoolField)
    ensures Valid(b) ==> Valid(r.state)
  {
    Guarded(b, NotNull(pool, "Connection Pool"),
            if pool.NonNull? then b.(connectionPool := pool.value) else b)
  }

  /** One call in a fluent chain of setters. */
  datatype Setting =
    | SetNetmeraRetryPolicy(policy: Nullable<RetryPolicy>)
    | SetReadTimeout(readTimeout: int32)
    | SetConnectionTimeout(connectionTimeout: int32)
    | SetWriteTimeout(writeTimeout: int32)
    | SetCallTimeout(callTimeout: int32)
    | SetMaxRetryCount(maxRetryCount: int32)
    | SetConnectionPool(pool: Nullable<ConnectionPool>)

  /** The field a setting writes. */
  function Target(s: Setting): Field {
    match s
    case SetNetmeraRetryPolicy(_) => RetryPolicyField
    case SetReadTimeout(_) => ReadTimeoutField
    case SetConnectionTimeout(_) => ConnectionTimeoutField
    case SetWriteTimeout(_) => WriteTimeoutField
    case SetCallTimeout(_) => CallTimeoutField
    case SetMaxRetryCount(_) => MaxRetryCountField
    case SetConnectionPool(_) => ConnectionPoolField
  }

  /** Whether a setting's argument passes its setter's check; the builder's state plays no part. */
  predicate Acceptable(s: Setting) {
    match s
    case SetNetmeraRetryPolicy(_) => true
    case SetReadTimeout(v) => v >= 0
    case SetConnectionTimeout(v) => v >= 0
    case SetWriteTimeout(v) => v >= 0
    case SetCallTimeout(v) => v >= 0
    case SetMaxRetryCount(v) => 0 <= v <= MaxRetryCountLimit
    case SetConnectionPool(p) => p.NonNull?
  }

  /** Dispatch one setting to its setter. */
  function Apply(b: Builder, s: Setting): SetterOutcome {
    match s
    case SetNetmeraRetryPolicy(p) => WithNetmeraRetryPolicy(b, p)
    case SetReadTimeout(v) => WithReadTimeout(b, v)
    case SetConnectionTimeout(v) => WithConnectionTimeout(b, v)
    case SetWriteTimeout(v) => WithWriteTimeout(b, v)
    case SetCallTimeout(v) => WithCallTimeout(b, v)
    case SetMaxRetryCount(v) => WithMaxRetryCount(b, v)
    case SetConnectionPool(p) => WithConnectionPool(b, p)
  }

  /** Every setter, seen through `Apply`, accepts exactly the acceptable settings. */
  lemma ApplyAcceptsIffAcceptable(b: Builder, s: Setting)
    ensures Apply(b, s).Applied? <==> Acceptable(s)
    ensures OnlyChanged(b, Apply(b, s).state, Target(s))
    ensures Apply(b, s).Threw? ==> Apply(b, s).state == b
    ensures Valid(b) ==> Valid(Apply(b, s).state)
  {
  }

  /**
    A fluent chain `builder.withX(..).withY(..)...` on one builder object.
    Each setter updates the object in place, so the first setter that throws
    ends the chain with its error and leaves the object holding every update
    made before it.
   */
  function Chain(b: Builder, settings: seq<Setting>): SetterOutcome
    decreases |settings|
  {
    if settings == [] then Applied(b)
    else
      match Apply(b, settings[0])
      case Threw(e, state) => Threw(e, state)
      case Applied(next) => Chain(next, settings[1..])
  }

  /** A chain completes iff every argument in it passes its check. */
  lemma {:induction false} ChainSucceedsIffAllAcceptable(b: Builder, settings: seq<Setting>)
    ensures Chain(b, settings).Applied? <==>
              forall i :: 0 <= i < |settings| ==> Acceptable(settings[i])
    decreases |settings|
  {
    if settings != [] {
      ApplyAcceptsIffAcceptable(b, settings[0]);
      if Acceptable(settings[0]) {
        ChainSucceedsIffAllAcceptable(Apply(b, settings[0]).state, settings[1..]);
        assert forall i :: 1 <= i < |settings| ==> settings[i] == settings[1..][i - 1];
      }
    }
  }

  /** A chain keeps the range invariant, whether it completes or throws part way. */
  lemma {:induction false} ChainPreservesValid(b: Builder, settings: seq<Setting>)
    requires Valid(b)
    ensures Valid(Chain(b, settings).state)
    decreases |settings|
  {
    if settings != [] {
      ApplyAcceptsIffAcceptable(b, settings[0]);
      if Apply(b, settings[0]).Applied? {
        ChainPreservesValid(Apply(b, settings[0]).state, settings[1..]);
      }
    }
  }

  /**
    A chain, completed or not, leaves every field that none of its settings
    writes untouched.
   */
  lemma {:induction false} ChainFramesUntouchedFields(b: Builder, settings: seq<Setting>, f: Field)
    requires forall i :: 0 <= i < |settings| ==> Target(settings[i]) != f
    ensures Agree(b, Chain(b, settings).state, f)
    decreases |settings|
  {
    if settings != [] {
      ApplyAcceptsIffAcceptable(b, settings[0]);
      if Apply(b, settings[0]).Applied? {
        var next := Apply(b, settings[0]).state;
        ChainFramesUntouchedFields(next, settings[1..], f);
        assert Target(settings[0]) != f;
      }
    }
  }

  /**
    A chain throws at its first unacceptable argument, with that setter's
    error; the builder keeps exactly what the settings before it made of it.
   */
  lemma {:induction false} ChainThrowsAtFirstRejected(b: Builder, settings: seq<Setting>, k: nat)
    requires k < |settings|
    requires forall i :: 0 <= i < k ==> Acceptable(settings[i])
    requires !Acceptable(settings[k])
    ensures Chain(b, settings).Threw?
    ensures Chain(b, settings).state == Chain(b, settings[..k]).state
    ensures Chain(b, settings).error == Apply(Chain(b, settings[..k]).state, settings[k]).error
    decreases k
  {
    ApplyAcceptsIffAcceptable(b, settings[0]);
    if k > 0 {
      var next := Apply(b, settings[0]).state;
      assert settings[1..][..k - 1] == settings[..k][1..];
      ChainThrowsAtFirstRejected(next, settings[1..], k - 1);
    }
  }

  /**
    `withReadTimeout(10).withMaxRetryCount(99)` on a fresh builder throws
    "Max Retry Count", and the builder keeps the read timeout of 10.
   */
  lemma PartialChainKeepsEarlierUpdates(targetHost: Nullable<string>, apiKey: Nullable<string>)
    ensures Chain(NewBuilder(targetHost, apiKey), [SetReadTimeout(10), SetMaxRetryCount(99)])
              == Threw(ValidationError("Max Retry Count"),
                       NewBuilder(targetHost, apiKey).(readTimeout := 10))
  {
  }

  /**
    `build()` hands the builder's retry count to the `NetmeraApi` constructor
    as the policy's `withMaxRetries`; within the accepted range the
    interceptor then makes at most 52 attempts per request.
   */
  lemma BuiltInterceptorAttemptsBounded(b: Builder, req: Interceptor.Request, headerKey: string,
                                         script: seq<Interceptor.Outcome>)
    requires Valid(b) && b.apiKey.NonNull? && b.netmeraRetryPolicy.NonNull?
    requires |script| >= b.maxRetryCount as nat + 2
    ensures |Interceptor.Intercept(req, headerKey, b.apiKey.value, b.maxRetryCount as nat, script).sent| <= 52
  {
  }
}
