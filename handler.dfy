/**
 * The client-side invocation handler of an EJB proxy: the locator it holds,
 * the update rules over that locator, its identity (equality and hash), and
 * the dispatch of one proxy method call.
 */
module InvocationHandler {
  import opened Wrappers
  import opened Locators
  import opened Exceptions
  import opened Invocation

  /** A sticky authentication configuration (opaque). */
  datatype AuthConfig = AuthConfig(id: nat)

  /** A sticky SSL context (opaque). */
  datatype SslContext = SslContext(id: nat)

  /** The EJB receiver the located action chose. */
  datatype ReceiverId = ReceiverId(id: nat)

  /** Usage and state errors the handler raises itself. */
  datatype HandlerError =
    | NullParameter(name: string)  // Assert.checkNotNullParam
    | AlreadyStateful              // the locator already holds a different session

  const MinInt64: int := -0x8000_0000_0000_0000
  const MaxInt64: int := 0x7fff_ffff_ffff_ffff

  type Int64 = x: int | MinInt64 <= x <= MaxInt64

  /** The invocation timeout meaning "use the global value". */
  const UseGlobalTimeout: Int64 := -1

  /**
   * What the located action passes to the business callback: the receiver,
   * the locator it started from, the affinity it resolved, and an
   * authentication configuration and SSL context, each possibly null.
   */
  datatype LocatedAction = LocatedAction(
    receiver: ReceiverId,
    originalLocator: Locator,
    newAffinity: Affinity,
    authConfig: Option<AuthConfig>,
    sslContext: Option<SslContext>)

  /**
   * What the client security configuration would derive for the resolved
   * affinity's URI, used when the callback receives null.
   */
  datatype SecurityDefaults = SecurityDefaults(authConfig: AuthConfig, sslContext: SslContext)

  /** What the business path puts into the invocation context before sending. */
  datatype InvocationRecord = InvocationRecord(
    receiver: ReceiverId,
    locator: Locator,
    authConfig: AuthConfig,
    sslContext: SslContext,
    weakAffinity: Affinity)

  /**
   * What the handler hands to the located action: the current locator, its
   * weak affinity and its sticky settings (None: derive per call).
   */
  datatype RunnerRequest = RunnerRequest(
    locator: Locator,
    weakAffinity: Affinity,
    authConfig: Option<AuthConfig>,
    sslContext: Option<SslContext>)

  /** A business call: the request to the located action, what it put into the context, and how it ended. */
  datatype Dispatch = Dispatch(request: RunnerRequest, record: InvocationRecord, post: PostSend)

  /** Which argument an `equals`/`isIdentical` call received. */
  datatype ProxyArg = NotAProxy | ForeignProxy | OurProxy(handler: EJBInvocationHandler)

  // ---------------------------------------------------------------------------
  // Update rules over the locator

  /** The weak affinity a new handler starts with: the session's node for a stateful locator. */
  function InitialWeakAffinity(l: Locator): (a: Affinity)
    ensures l.IsStateful() ==> a == l.affinity
    ensures !l.IsStateful() ==> a == NoAffinity
  {
    if l.IsStateful() then l.affinity else NoAffinity
  }

  /** The locator after `setStrongAffinity(a)`. */
  function AffinityUpdate(l: Locator, a: Affinity): (r: Locator)
    ensures r.affinity == a
    ensures WithNewAffinity(r, l.affinity) == l
    ensures l.affinity == a ==> r == l
  {
    if l.affinity == a then l else WithNewAffinity(l, a)
  }

  /** The locator after `setSessionID(id)`, or the error it raises. */
  function SessionUpdate(l: Locator, id: SessionId): (r: Result<Locator, HandlerError>)
    ensures r.Failure? <==> l.IsStateful() && l.sessionId != Some(id)
    ensures r.Failure? ==> r.error == AlreadyStateful
    ensures r.Success? ==> r.value.sessionId == Some(id) && WithNewAffinity(r.value, l.affinity) == r.value
    ensures r.Success? && !l.IsStateful() ==> r.value.(sessionId := None) == l
    ensures r.Success? && l.IsStateful() ==> r.value == l
  {
    if l.IsStateful() then
      if l.sessionId.value == id then Success(l) else Failure(AlreadyStateful)
    else
      Success(WithSession(l, id))
  }

  /** The result and locator of `compareAndSetStrongAffinity(expected, newAffinity)`, run alone. */
  function CasAffinityUpdate(l: Locator, expected: Option<Affinity>, newAffinity: Option<Affinity>)
    : (r: (Result<bool, HandlerError>, Locator))
    ensures expected.None? ==> r == (Failure(NullParameter("expectedAffinity")), l)
    ensures expected.Some? && newAffinity.None? ==> r == (Failure(NullParameter("newAffinity")), l)
    ensures r.0.Success? ==> expected.Some? && newAffinity.Some?
    ensures r.0.Success? ==> (r.0.value <==> l.affinity == expected.value)
    ensures expected.Some? && newAffinity.Some? ==> r.0 == Success(l.affinity == expected.value)
    ensures r.0 == Success(true) ==> r.1 == WithNewAffinity(l, newAffinity.value)
    ensures r.0 != Success(true) ==> r.1 == l
  {
    if expected.None? then (Failure(NullParameter("expectedAffinity")), l)
    else if newAffinity.None? then (Failure(NullParameter("newAffinity")), l)
    else if l.affinity != expected.value then (Success(false), l)
    else (Success(true), WithNewAffinity(l, newAffinity.value))
  }

  /** Once a locator holds a session, it keeps that session. */
  predicate KeepsSession(before: Locator, after: Locator)
  {
    before.IsStateful() ==> after.sessionId == before.sessionId
  }

  // ---------------------------------------------------------------------------
  // Identity

  /** The handler's hash: the locator's hash, plus one (in 32-bit arithmetic) for an async handler. */
  function HandlerHash(l: Locator, async: bool): (h: Int32)
    ensures !async ==> h == LocatorHash(l)
    ensures async ==> h != LocatorHash(l)
    ensures async && LocatorHash(l) < MaxInt32 ==> h == LocatorHash(l) + 1
    ensures async && LocatorHash(l) == MaxInt32 ==> h == MinInt32
  {
    if async then Wrap32(LocatorHash(l) + 1) else LocatorHash(l)
  }

  /**
   * The local calls that format the proxy string: `toString` itself, and the
   * two error paths whose message concatenates the proxy.
   */
  predicate UsesProxyText(t: MethodType, l: Locator)
  {
    t == ToStringMethod || (t == GetPrimaryKeyMethod && !l.isEntity) || (t == GetHomeHandleMethod && !l.isHome)
  }

  function HandlerText(l: Locator): string
  {
    "Proxy invocation handler for " + Describe(l)
  }

  function ProxyText(l: Locator): string
  {
    "Proxy for remote EJB " + Describe(l)
  }

  // ---------------------------------------------------------------------------

  class EJBInvocationHandler {
    const async: bool
    var locator: Locator
    var weakAffinity: Affinity
    var invocationTimeout: Int64
    const authenticationConfiguration: Option<AuthConfig>
    const sslContext: Option<SslContext>
    var toStringCache: Option<string>
    var toStringProxyCache: Option<string>

    /** A new synchronous handler for `locator` with the given sticky settings (None: derive per call). */
    constructor (locator: Locator, authenticationConfiguration: Option<AuthConfig>, sslContext: Option<SslContext>)
      ensures !async && this.locator == locator
      ensures this.authenticationConfiguration == authenticationConfiguration && this.sslContext == sslContext
      ensures weakAffinity == InitialWeakAffinity(locator)
      ensures invocationTimeout == UseGlobalTimeout
      ensures toStringCache == None && toStringProxyCache == None
    {
      this.async := false;
      this.locator := locator;
      this.authenticationConfiguration := authenticationConfiguration;
      this.sslContext := sslContext;
      this.invocationTimeout := UseGlobalTimeout;
      this.toStringCache := None;
      this.toStringProxyCache := None;
      this.weakAffinity := InitialWeakAffinity(locator);
    }

    /**
     * The asynchronous twin of `other`: its current locator and sticky settings,
     * but weak affinity, timeout and caches of its own, initialised afresh.
     */
    constructor AsyncTwin(other: EJBInvocationHandler)
      ensures async && locator == other.locator
      ensures authenticationConfiguration == other.authenticationConfiguration
      ensures sslContext == other.sslContext
      ensures weakAffinity == InitialWeakAffinity(other.locator)
      ensures invocationTimeout == UseGlobalTimeout
      ensures toStringCache == None && toStringProxyCache == None
    {
      this.async := true;
      this.locator := other.locator;
      this.authenticationConfiguration := other.authenticationConfiguration;
      this.sslContext := other.sslContext;
      this.invocationTimeout := UseGlobalTimeout;
      this.toStringCache := None;
      this.toStringProxyCache := None;
      this.weakAffinity := InitialWeakAffinity(other.locator);
    }

    /** `equals(EJBInvocationHandler)`: the same object, or equal locators and the same mode. */
    predicate Equals(other: EJBInvocationHandler?)
      reads this, other
    {
      this == other || (other != null && locator == other.locator && async == other.async)
    }

    /** `hashCode()` */
    function HashCode(): Int32
      reads this
    {
      HandlerHash(locator, async)
    }

    /** This handler if it is asynchronous, else a new asynchronous twin of it. */
    method GetAsyncHandler() returns (h: EJBInvocationHandler)
      ensures async ==> h == this
      ensures !async ==> fresh(h) && h.async && h.locator == locator
      ensures !async ==> h.authenticationConfiguration == authenticationConfiguration && h.sslContext == sslContext
      ensures !async ==> h.weakAffinity == InitialWeakAffinity(locator) && h.invocationTimeout == UseGlobalTimeout
      ensures !h.Equals(this) <==> !async
    {
      if async {
        h := this;
      } else {
        h := new EJBInvocationHandler.AsyncTwin(this);
      }
    }

    method SetWeakAffinity(a: Affinity)
      modifies this`weakAffinity
      ensures weakAffinity == a
    {
      weakAffinity := a;
    }

    method SetInvocationTimeout(t: Int64)
      modifies this`invocationTimeout
      ensures invocationTimeout == t
    {
      invocationTimeout := t;
    }

    /** `toString()`: formatted from the locator on the first call, then served from the cache. */
    method ToString() returns (s: string)
      modifies this`toStringCache
      ensures old(toStringCache).Some? ==> s == old(toStringCache).value
      ensures old(toStringCache).None? ==> s == HandlerText(locator)
      ensures toStringCache == Some(s)
    {
      match toStringCache
      case Some(c) => s := c;
      case None =>
        s := HandlerText(locator);
        toStringCache := Some(s);
    }

    /** The proxy's own `toString()`, which also reaches the handler: cached the same way. */
    method ProxyToString() returns (s: string)
      modifies this`toStringProxyCache
      ensures old(toStringProxyCache).Some? ==> s == old(toStringProxyCache).value
      ensures old(toStringProxyCache).None? ==> s == ProxyText(locator)
      ensures toStringProxyCache == Some(s)
    {
      match toStringProxyCache
      case Some(c) => s := c;
      case None =>
        s := ProxyText(locator);
        toStringProxyCache := Some(s);
    }

    /**
     * `AtomicReference.compareAndSet` on the locator.  Run alone, nothing
     * replaces the locator between the read and this step, so the value read
     * is the value held.
     */
    method CompareAndSetLocator(expected: Locator, update: Locator) returns (ok: bool)
      modifies this`locator
      ensures ok <==> old(locator) == expected
      ensures locator == if ok then update else old(locator)
    {
      ok := locator == expected;
      if ok {
        locator := update;
      }
    }

    /** `setStrongAffinity(a)`: a retry loop that leaves an already matching locator alone. */
    method SetStrongAffinity(a: Affinity)
      modifies this`locator
      ensures locator == AffinityUpdate(old(locator), a)
      ensures KeepsSession(old(locator), locator)
    {
      var done := false;
      while !done
        invariant !done ==> locator == old(locator)
        invariant done ==> locator == WithNewAffinity(old(locator), a)
        decreases if done then 0 else 1
      {
        var oldVal := locator;
        if oldVal.affinity == a {
          return;
        }
        var newVal := WithNewAffinity(oldVal, a);
        done := CompareAndSetLocator(oldVal, newVal);
      }
    }

    /** `setSessionID(id)`: stateless becomes stateful; the same id again is harmless; another id fails. */
    method SetSessionID(id: SessionId) returns (r: Outcome<HandlerError>)
      modifies this`locator
      ensures SessionUpdate(old(locator), id).Success? ==> r == Pass && locator == SessionUpdate(old(locator), id).value
      ensures SessionUpdate(old(locator), id).Failure? ==> r == Fail(AlreadyStateful) && locator == old(locator)
      ensures KeepsSession(old(locator), locator)
    {
      var done := false;
      while !done
        invariant !done ==> locator == old(locator)
        invariant done ==> !old(locator).IsStateful() && locator == WithSession(old(locator), id)
        decreases if done then 0 else 1
      {
        var oldVal := locator;
        if oldVal.IsStateful() {
          if oldVal.sessionId.value == id {
            return Pass;
          }
          return Fail(AlreadyStateful);
        }
        var newVal := WithSession(oldVal, id);
        done := CompareAndSetLocator(oldVal, newVal);
      }
      r := Pass;
    }

    /** `compareAndSetStrongAffinity(expected, newAffinity)`: one attempt, no retry. */
    method CompareAndSetStrongAffinity(expected: Option<Affinity>, newAffinity: Option<Affinity>)
      returns (r: Result<bool, HandlerError>)
      modifies this`locator
      ensures (r, locator) == CasAffinityUpdate(old(locator), expected, newAffinity)
      ensures KeepsSession(old(locator), locator)
    {
      if expected.None? {
        return Failure(NullParameter("expectedAffinity"));
      }
      if newAffinity.None? {
        return Failure(NullParameter("newAffinity"));
      }
      var oldVal := locator;
      if oldVal.affinity != expected.value {
        return Success(false);
      }
      var newVal := WithNewAffinity(oldVal, newAffinity.value);
      var ok := CompareAndSetLocator(oldVal, newVal);
      return Success(ok);
    }

    /**
     * The business-call callback: it configures the invocation context with
     * the CURRENT locator re-targeted to the resolved affinity (not the
     * callback's original locator), sends, and then follows the post-send
     * branch, translating any failure for the method's signature.
     */
    method InvokeBusiness(info: MethodInfo, action: LocatedAction, defaults: SecurityDefaults, script: ContextScript)
      returns (r: CallResult, d: Dispatch)
      ensures d.request == RunnerRequest(locator, weakAffinity, authenticationConfiguration, sslContext)
      ensures d.record.receiver == action.receiver
      ensures d.record.locator == WithNewAffinity(locator, action.newAffinity)
      ensures d.record.authConfig == (if action.authConfig.Some? then action.authConfig.value else defaults.authConfig)
      ensures d.record.sslContext == (if action.sslContext.Some? then action.sslContext.value else defaults.sslContext)
      ensures d.record.weakAffinity == weakAffinity
      ensures d.post == AfterSend(async, info, script) && r == d.post.result
    {
      var auth := if action.authConfig.None? then defaults.authConfig else action.authConfig.value;
      var ssl := if action.sslContext.None? then defaults.sslContext else action.sslContext.value;
      var request := RunnerRequest(locator, weakAffinity, authenticationConfiguration, sslContext);
      var record := InvocationRecord(action.receiver, WithNewAffinity(locator, action.newAffinity), auth, ssl, weakAffinity);
      var awaits := 0;
      var failure: Option<Throwable> := script.sendFailure;
      if failure.None? && !async && !info.clientAsync {
        awaits := 1;
        match script.response {
          case Completed(v) =>
            r := Returned(v);
            d := Dispatch(request, record, PostSend(r, 1, true, false, None));
            return;
          case Threw(e) =>
            failure := Some(e);
          case ProceedAsync =>
            // proceed asynchronously
        }
      }
      if failure.Some? {
        var t := TranslateThrown(failure.value, info.exceptionTypes);
        r := Raised(t);
        d := Dispatch(request, record, PostSend(r, awaits, true, false, None));
        return;
      }
      // the blocking-caller flag is cleared and the call is forced asynchronous
      var post: PostSend;
      match info.returnShape {
        case ReturnsFuture =>
          post := PostSend(Returned(FutureOf(script.future)), awaits, false, false, None);
        case ReturnsVoid =>
          // the result is discarded
          post := PostSend(Returned(NullValue), awaits, false, true, None);
        case ReturnsOther =>
          // the future is stored for the caller's async convention
          post := PostSend(Returned(NullValue), awaits, false, false, Some(script.future));
      }
      r := post.result;
      d := Dispatch(request, record, post);
    }

    /**
     * `invoke`: the local methods are answered by the handler itself; a
     * business method is dispatched through the located action.
     */
    method Invoke(info: MethodInfo, arg: ProxyArg, action: LocatedAction, defaults: SecurityDefaults, script: ContextScript)
      returns (r: CallResult, sent: Option<Dispatch>)
      modifies this`toStringProxyCache
      ensures sent.Some? <==> info.methodType == BusinessMethod
      ensures info.methodType == EqualsMethod || info.methodType == IsIdenticalMethod ==>
        r == Returned(BoolValue(arg.OurProxy? && Equals(arg.handler)))
      // the proxy's hash is the locator's, not the handler's
      ensures info.methodType == HashCodeMethod ==> r == Returned(IntValue(LocatorHash(locator)))
      // the proxy string is formatted at most once, and only where it is used
      ensures UsesProxyText(info.methodType, locator) ==>
        toStringProxyCache.Some?
        && (old(toStringProxyCache).Some? ==> toStringProxyCache == old(toStringProxyCache))
        && (old(toStringProxyCache).None? ==> toStringProxyCache == Some(ProxyText(locator)))
      ensures !UsesProxyText(info.methodType, locator) ==> toStringProxyCache == old(toStringProxyCache)
      ensures info.methodType == ToStringMethod ==> r == Returned(StringValue(toStringProxyCache.value))
      ensures info.methodType == GetPrimaryKeyMethod && locator.isEntity ==> r == Returned(PrimaryKeyOf(locator))
      ensures info.methodType == GetPrimaryKeyMethod && !locator.isEntity ==>
        r == Raised(Throwable(RemoteExceptionClass,
                                 Some("Cannot invoke getPrimaryKey() on " + toStringProxyCache.value), None))
      ensures info.methodType == GetHandleMethod ==> r == Returned(HandleFor(locator))
      ensures info.methodType == GetHomeHandleMethod && locator.isHome ==> r == Returned(HomeHandleFor(locator))
      ensures info.methodType == GetHomeHandleMethod && !locator.isHome ==>
        r == Raised(Throwable(RemoteExceptionClass,
                                 Some("Cannot invoke getHomeHandle() on " + toStringProxyCache.value), None))
      ensures info.methodType == BusinessMethod ==>
        sent.value.request == RunnerRequest(locator, weakAffinity, authenticationConfiguration, sslContext)
        && sent.value.record == InvocationRecord(
          action.receiver, WithNewAffinity(locator, action.newAffinity),
          if action.authConfig.Some? then action.authConfig.value else defaults.authConfig,
          if action.sslContext.Some? then action.sslContext.value else defaults.sslContext,
          weakAffinity)
        && sent.value.post == AfterSend(async, info, script) && r == sent.value.post.result
    {
      sent := None;
      match info.methodType
      case EqualsMethod =>
        r := Returned(BoolValue(arg.OurProxy? && Equals(arg.handler)));
      case IsIdenticalMethod =>
        r := Returned(BoolValue(arg.OurProxy? && Equals(arg.handler)));
      case HashCodeMethod =>
        r := Returned(IntValue(LocatorHash(locator)));
      case ToStringMethod =>
        var s := ProxyToString();
        r := Returned(StringValue(s));
      case GetPrimaryKeyMethod =>
        if locator.isEntity {
          r := Returned(PrimaryKeyOf(locator));
        } else {
          // the message concatenates the proxy, which goes through the proxy's toString
          var p := ProxyToString();
          r := Raised(Throwable(RemoteExceptionClass, Some("Cannot invoke getPrimaryKey() on " + p), None));
        }
      case GetHandleMethod =>
        r := Returned(HandleFor(locator));
      case GetHomeHandleMethod =>
        if locator.isHome {
          r := Returned(HomeHandleFor(locator));
        } else {
          var p := ProxyToString();
          r := Raised(Throwable(RemoteExceptionClass, Some("Cannot invoke getHomeHandle() on " + p), None));
        }
      case BusinessMethod =>
        var d;
        r, d := InvokeBusiness(info, action, defaults, script);
        sent := Some(d);
    }
  }

  // ---------------------------------------------------------------------------
  // Lemmas

  /** `equals` is an equivalence relation. */
  lemma EqualsReflexive(a: EJBInvocationHandler)
    ensures a.Equals(a)
  {
  }

  lemma EqualsSymmetric(a: EJBInvocationHandler, b: EJBInvocationHandler)
    ensures a.Equals(b) <==> b.Equals(a)
  {
  }

  lemma EqualsTransitive(a: EJBInvocationHandler, b: EJBInvocationHandler, c: EJBInvocationHandler)
    requires a.Equals(b) && b.Equals(c)
    ensures a.Equals(c)
  {
  }

  /** Equal handlers have equal hashes. */
  lemma EqualsImpliesSameHash(a: EJBInvocationHandler, b: EJBInvocationHandler)
    requires a.Equals(b)
    ensures a.HashCode() == b.HashCode()
  {
  }

  /** Two distinct handlers over the same locator are equal exactly when their modes agree. */
  lemma EqualsOverSameLocator(a: EJBInvocationHandler, b: EJBInvocationHandler)
    requires a != b && a.locator == b.locator
    ensures a.Equals(b) <==> a.async == b.async
    ensures a.async != b.async ==> a.HashCode() != b.HashCode()
  {
  }

  /** Setting the same strong affinity twice is the same as setting it once; the last value wins. */
  lemma AffinityUpdateLastWins(l: Locator, a: Affinity, b: Affinity)
    ensures AffinityUpdate(AffinityUpdate(l, a), b) == AffinityUpdate(l, b)
    ensures AffinityUpdate(AffinityUpdate(l, a), a) == AffinityUpdate(l, a)
  {
  }

  /** A repeated `setSessionID` with the same id leaves the locator as the first call left it. */
  lemma SessionUpdateIdempotent(l: Locator, id: SessionId)
    requires SessionUpdate(l, id).Success?
    ensures SessionUpdate(SessionUpdate(l, id).value, id) == SessionUpdate(l, id)
  {
  }

  /** After `setSessionID(id1)` succeeded, `setSessionID(id2)` with another id fails. */
  lemma SessionUpdateConflict(l: Locator, id1: SessionId, id2: SessionId)
    requires SessionUpdate(l, id1).Success? && id1 != id2
    ensures SessionUpdate(SessionUpdate(l, id1).value, id2) == Failure(AlreadyStateful)
  {
  }

  /** A failed compare-and-set leaves the affinity where it was. */
  lemma CasMismatchKeepsAffinity(l: Locator, expected: Affinity, newAffinity: Affinity)
    requires l.affinity != expected
    ensures CasAffinityUpdate(l, Some(expected), Some(newAffinity)) == (Success(false), l)
  {
  }

  /** A successful compare-and-set and `setStrongAffinity` to the same value agree. */
  lemma CasAgreesWithSetStrongAffinity(l: Locator, newAffinity: Affinity)
    ensures CasAffinityUpdate(l, Some(l.affinity), Some(newAffinity)) == (Success(true), AffinityUpdate(l, newAffinity))
  {
  }

  /** `toString` is computed once: a later change of affinity does not show in it. */
  method ToStringIsCached(h: EJBInvocationHandler, a: Affinity) returns (s1: string, s2: string)
    modifies h
    ensures s1 == s2
  {
    s1 := h.ToString();
    h.SetStrongAffinity(a);
    s2 := h.ToString();
  }
}
