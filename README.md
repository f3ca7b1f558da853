# EJB client invocation handler — a Dafny model

This project models `EJBInvocationHandler`, the client-side invocation handler behind every EJB proxy of the JBoss EJB client. A handler holds the proxy's current locator (the target EJB's identity, its strong affinity and, once stateful, its session id), a weak-affinity hint, an invocation-timeout override (-1: use the global value), sticky authentication and SSL settings ("null" meaning: derive per call), a sync/async mode fixed at construction, and two cached strings. The model covers:

- the update rules over the locator, as a class with `modifies`-framed methods: `setStrongAffinity`, `setSessionID`, `compareAndSetStrongAffinity`. Each is tied to a pure update function (`AffinityUpdate`, `SessionUpdate`, `CasAffinityUpdate`), and the lemmas are proved about those functions;
- identity: `equals` over (same object, or equal locator and equal mode) and `hashCode` (the locator hash, plus one in 32-bit arithmetic when async);
- the two constructors and `getAsyncHandler`;
- `invoke`: the local-method switch (equals, hash code, toString, primary key, handles) and the business path;
- for the business path: the post-send branch (sync wait, the PROCEED_ASYNC sentinel, dispatch on the return shape) and the translation of failures into the invoked method's declared exception vocabulary.

Modules: `Wrappers` (Option/Result/Outcome), `Locators` (locator values, `WithNewAffinity`, `WithSession`, 32-bit hashing), `Exceptions` (exception classes, `isAssignableFrom`, translation), `Invocation` (method descriptors, values, the post-send branch), `InvocationHandler` (the handler class and its update rules).

Modelling choices:

- The `AtomicReference` compare-and-set loops are modelled as sequential. `CompareAndSetLocator` succeeds exactly when the held locator is the one just read, so each do/while loop (a `while !done` loop here) finishes in one round. Java compares references; the model compares locator values, and in a sequential run the two agree for the value just read.
- The business path builds the per-call locator from the handler's current locator re-targeted to the resolved affinity (`EJBInvocationHandler.java:165`). The `originalLocator` handed to the callback is ignored, and the model ignores it too.
- Inside the business callback, the names `authenticationConfiguration` and `sslContext` are the callback's parameters, which shadow the handler's fields. The context therefore receives the value the located action passed back when that value is non-null, and otherwise the value the client security configuration derives (lines 168-169). The located action is given the sticky fields (line 213), but what it passes back is an input of the model (`LocatedAction`). The derived defaults are an input too (`SecurityDefaults`).
- The located action, the invocation context (send, await, future) and the security client are external collaborators. They appear as oracle values: `LocatedAction`, `ContextScript` (send failure, `Response = Completed | ProceedAsync | Threw`, the future) and `SecurityDefaults`. What the handler hands to the located action is recorded as a `RunnerRequest`, and what it configures on the context as an `InvocationRecord`. The effect of the post-send branch is returned as a `PostSend`: the result, the number of awaits, the final blocking-caller flag, whether the result was discarded, and the future stored through `EJBClient.setFutureResult`.
- Building the `getPrimaryKey`/`getHomeHandle` error message concatenates the proxy. That calls the proxy's `toString`, which comes back through the handler's toString case and fills the proxy-string cache. The model does the same.
- The copy constructor does not copy the timeout or the weak affinity. The field initialisers run again: timeout -1, weak affinity NONE, or the locator's affinity when the locator is stateful (lines 58-61, 103-106).
- Java `int` overflow in `hashCode` is written out (`Wrap32`). The timeout is a 64-bit `long` (`Int64`).
- Exception classes are given by their name and the names of all their superclasses. `isAssignableFrom` is a test on those names, and `RemoteException.class.equals(exception)` compares names. This assumes one class per name (a single class loader).

## Model

| member | source | states |
|---|---|---|
| `Locators.WithNewAffinity` | src/main/java/org/jboss/ejb/client/EJBInvocationHandler.java:304 | the re-targeted locator has the new affinity and keeps view type, identifier, session, entity and home kind |
| `Locators.WithSession` | src/main/java/org/jboss/ejb/client/EJBInvocationHandler.java:320 | the new locator is stateful with exactly the given session id and keeps every other component |
| `Locators.WithNewAffinityNoOp` | src/main/java/org/jboss/ejb/client/EJBInvocationHandler.java:301-304 | re-targeting gives back the same locator if and only if the affinity already matches |
| `Locators.WithNewAffinityLastWins` | src/main/java/org/jboss/ejb/client/EJBInvocationHandler.java:304 | two successive re-targetings equal the last one alone |
| `Locators.WithSessionCommutes` | src/main/java/org/jboss/ejb/client/EJBInvocationHandler.java:304-320 | attaching a session and re-targeting the affinity commute |
| `Locators.Wrap32` | src/main/java/org/jboss/ejb/client/EJBInvocationHandler.java:286-287 | 32-bit two's-complement wrap: identity inside the int range, congruent modulo 2^32 outside it |
| `Exceptions.Translated` | src/main/java/org/jboss/ejb/client/EJBInvocationHandler.java:197-211 | the caller only sees an unchecked failure or one the method declares; the result is the original failure or wraps it as cause; it is the original exactly when the original is unchecked or declared; a wrapped failure is a `RemoteException` exactly when the method declares `RemoteException`, and an `EJBException` otherwise |
| `Exceptions.TranslateThrown` | src/main/java/org/jboss/ejb/client/EJBInvocationHandler.java:197-211 | the catch clauses and the scan over the declared exception types compute `Translated` |
| `Exceptions.TranslatedIdempotent` | src/main/java/org/jboss/ejb/client/EJBInvocationHandler.java:197-211 | translating an already translated failure changes nothing |
| `Exceptions.TranslatedOrderIndependent` | src/main/java/org/jboss/ejb/client/EJBInvocationHandler.java:201-207 | the early-exit scan's outcome does not depend on the order of the declared exception types |
| `Exceptions.RemoteDeclaredWraps` | src/main/java/org/jboss/ejb/client/EJBInvocationHandler.java:204-209 | a checked failure that no declared type admits, on a method declaring `RemoteException` among any other types, comes back as a `RemoteException` whose cause is that failure |
| `Exceptions.UndeclaredWrapsAsEJBException` | src/main/java/org/jboss/ejb/client/EJBInvocationHandler.java:208-211 | such a failure on a method not declaring `RemoteException` comes back as an (unchecked) `EJBException` whose cause is that failure |
| `Invocation.AsyncReturn` | src/main/java/org/jboss/ejb/client/EJBInvocationHandler.java:184-196 | the async tail clears blocking-caller; a Future method returns the context's future; a void method discards the result and returns null; any other method stores the future for the caller and returns null |
| `Invocation.AfterSend` | src/main/java/org/jboss/ejb/client/EJBInvocationHandler.java:174-211 | at most one wait, and one exactly when the request was sent by a sync handler on a method that is not client-async; a completed sync call returns the response's value; blocking-caller stays set exactly when the call did not go async; a send failure, or a failure met while waiting, is raised as `Translated` of that failure, so it conforms to the method signature; a call that goes async ends as `AsyncReturn` says for the method's return shape; a call that does not go async neither discards its result nor stores a future |
| `Invocation.ProceedAsyncActsAsAsync` | src/main/java/org/jboss/ejb/client/EJBInvocationHandler.java:176-184 | PROCEED_ASYNC on the sync path ends exactly as the same call on an async handler, apart from the one wait already done |
| `Invocation.AsyncIgnoresResponse` | src/main/java/org/jboss/ejb/client/EJBInvocationHandler.java:176-196 | on the async path the response is never consulted |
| `InvocationHandler.InitialWeakAffinity` | src/main/java/org/jboss/ejb/client/EJBInvocationHandler.java:85-88 | a new handler's weak affinity is the locator's affinity for a stateful locator and NONE otherwise |
| `InvocationHandler.AffinityUpdate` | src/main/java/org/jboss/ejb/client/EJBInvocationHandler.java:296-306 | after setStrongAffinity the affinity is the new one, nothing else differs, and an already matching locator is left as it is |
| `InvocationHandler.SessionUpdate` | src/main/java/org/jboss/ejb/client/EJBInvocationHandler.java:308-322 | fails with "already stateful" exactly when the locator holds a different session; otherwise the locator holds the id; a stateless one gains only the session; a stateful one is unchanged |
| `InvocationHandler.CasAffinityUpdate` | src/main/java/org/jboss/ejb/client/EJBInvocationHandler.java:332-342 | a null argument is a usage error that changes nothing; otherwise the result is true exactly when the current affinity is the expected one, and only then is the locator re-targeted |
| `InvocationHandler.HandlerHash` | src/main/java/org/jboss/ejb/client/EJBInvocationHandler.java:285-289 | a sync handler hashes as its locator; an async one as the locator hash plus one (wrapping at the int maximum), so never equal to it |
| `InvocationHandler.EJBInvocationHandler.constructor` | src/main/java/org/jboss/ejb/client/EJBInvocationHandler.java:79-89 | a new handler is sync, holds the locator and the sticky settings, has timeout -1, the initial weak affinity and empty caches |
| `InvocationHandler.EJBInvocationHandler.AsyncTwin` | src/main/java/org/jboss/ejb/client/EJBInvocationHandler.java:96-107 | the twin is async, holds the other's current locator and sticky settings, and re-initialises timeout and weak affinity |
| `InvocationHandler.EJBInvocationHandler.GetAsyncHandler` | src/main/java/org/jboss/ejb/client/EJBInvocationHandler.java:238-240 | an async handler returns itself; a sync one returns a fresh async twin with the same locator and sticky settings, and the result is unequal to the original exactly when the original is sync |
| `InvocationHandler.EJBInvocationHandler.SetWeakAffinity` | src/main/java/org/jboss/ejb/client/EJBInvocationHandler.java:216-218 | the weak affinity becomes the given one; no other field changes |
| `InvocationHandler.EJBInvocationHandler.SetInvocationTimeout` | src/main/java/org/jboss/ejb/client/EJBInvocationHandler.java:328-330 | the timeout becomes the given one; no other field changes |
| `InvocationHandler.EJBInvocationHandler.ToString` | src/main/java/org/jboss/ejb/client/EJBInvocationHandler.java:291-294 | the first call formats from the current locator and caches; later calls return the cached string |
| `InvocationHandler.EJBInvocationHandler.ProxyToString` | src/main/java/org/jboss/ejb/client/EJBInvocationHandler.java:137-140 | the proxy string is formatted once from the locator and then served from its own cache |
| `InvocationHandler.EJBInvocationHandler.CompareAndSetLocator` | src/main/java/org/jboss/ejb/client/EJBInvocationHandler.java:305 | run alone, the locator is replaced exactly when it is the expected one |
| `InvocationHandler.EJBInvocationHandler.SetStrongAffinity` | src/main/java/org/jboss/ejb/client/EJBInvocationHandler.java:296-306 | the retry loop leaves the locator at `AffinityUpdate` of the old one and keeps its session; only the locator changes |
| `InvocationHandler.EJBInvocationHandler.SetSessionID` | src/main/java/org/jboss/ejb/client/EJBInvocationHandler.java:308-322 | the retry loop succeeds with `SessionUpdate`'s locator or fails with "already stateful" leaving the locator unchanged |
| `InvocationHandler.EJBInvocationHandler.CompareAndSetStrongAffinity` | src/main/java/org/jboss/ejb/client/EJBInvocationHandler.java:332-342 | result and new locator are those of `CasAffinityUpdate`; the session is kept |
| `InvocationHandler.EJBInvocationHandler.InvokeBusiness` | src/main/java/org/jboss/ejb/client/EJBInvocationHandler.java:162-213 | the located action is handed the current locator, the weak affinity and the sticky auth/SSL settings; the context gets the chosen receiver, the current locator re-targeted to the resolved affinity, the callback's auth/SSL values or the derived ones when null, and the current weak affinity; the call ends as `AfterSend` says |
| `InvocationHandler.EJBInvocationHandler.Invoke` | src/main/java/org/jboss/ejb/client/EJBInvocationHandler.java:119-162 | equals answers handler equality for our proxies and false otherwise; the hash case returns the locator's hash, not the handler's; toString is cached; getPrimaryKey on a non-entity and getHomeHandle on a non-home raise `RemoteException` whose message ends in the proxy string; the proxy-string cache is filled once, only by toString and those two error paths, and is otherwise untouched; only business methods reach a context, with the request and record of `InvokeBusiness` |
| `InvocationHandler.EqualsReflexive` | src/main/java/org/jboss/ejb/client/EJBInvocationHandler.java:277 | every handler equals itself |
| `InvocationHandler.EqualsSymmetric` | src/main/java/org/jboss/ejb/client/EJBInvocationHandler.java:277 | handler equality is symmetric |
| `InvocationHandler.EqualsTransitive` | src/main/java/org/jboss/ejb/client/EJBInvocationHandler.java:277 | handler equality is transitive |
| `InvocationHandler.EqualsImpliesSameHash` | src/main/java/org/jboss/ejb/client/EJBInvocationHandler.java:276-289 | equal handlers have equal hashes |
| `InvocationHandler.EqualsOverSameLocator` | src/main/java/org/jboss/ejb/client/EJBInvocationHandler.java:276-289 | two distinct handlers over one locator are equal exactly when their modes agree; a sync handler and its async twin hash differently |
| `InvocationHandler.AffinityUpdateLastWins` | src/main/java/org/jboss/ejb/client/EJBInvocationHandler.java:296-306 | setting one strong affinity twice equals setting it once; the last setting wins |
| `InvocationHandler.SessionUpdateIdempotent` | src/main/java/org/jboss/ejb/client/EJBInvocationHandler.java:313-317 | repeating setSessionID with the same id leaves the locator as the first call left it |
| `InvocationHandler.SessionUpdateConflict` | src/main/java/org/jboss/ejb/client/EJBInvocationHandler.java:313-318 | after a successful setSessionID(id1), setSessionID(id2) with id2 ≠ id1 fails with "already stateful" |
| `InvocationHandler.CasMismatchKeepsAffinity` | src/main/java/org/jboss/ejb/client/EJBInvocationHandler.java:337-339 | a compare-and-set whose expected affinity does not match returns false and leaves the locator alone |
| `InvocationHandler.CasAgreesWithSetStrongAffinity` | src/main/java/org/jboss/ejb/client/EJBInvocationHandler.java:332-342 | a compare-and-set from the current affinity succeeds and ends where setStrongAffinity would |
| `InvocationHandler.ToStringIsCached` | src/main/java/org/jboss/ejb/client/EJBInvocationHandler.java:291-294 | toString returns the same string before and after a change of strong affinity |

`equals(EJBInvocationHandler)` (lines 276-278) is the predicate `InvocationHandler.EJBInvocationHandler.Equals`, and `hashCode` (lines 285-289) is the function `InvocationHandler.EJBInvocationHandler.HashCode`, which computes `HandlerHash` of the current locator and mode. They carry no contract of their own; their properties are the rows for `HandlerHash` and the `Equals…` lemmas above.

The getters `getWeakAffinity`, `getInvocationTimeout`, `isAsyncHandler` and `getLocator` (lines 220-222, 242-248, 324-326) are the fields `weakAffinity`, `invocationTimeout`, `async` and `locator` of the class.

## Left out

- Concurrency: the atomicity of `AtomicReference`, volatile visibility and the retry of a failed compare-and-set under contention. Each update is one sequential step.
- Reflection and proxies: `invoke(Object, Method, Object...)`, `getProxyMethodInfo`, `forProxy`, `getViewType().cast`, `Proxy.getInvocationHandler`. A call arrives as a `MethodInfo` (type tag, return shape, client-async flag, declared exception types) and a `ProxyArg`.
- `EJBClientContext.performLocatedAction`, `EJBClientInvocationContext` and `EJBClient.setFutureResult` are external collaborators, given as oracle inputs. A failure of the located action itself is not modelled.
- `AuthenticationContext.captureCurrent` and the security client's derivation of a configuration and SSL context from the affinity's URI are foreign calls. Their results are the `SecurityDefaults` input.
- Invoke: `EJBHandle.create`, `EJBHomeHandle.create` and the entity's primary key become opaque values (`HandleFor`, `HomeHandleFor`, `PrimaryKeyOf`). A failing `narrowTo(EJBObject.class)` in the handle case is not modelled.
- InvocationHandler.EJBInvocationHandler.InvokeBusiness: the invocation context receives the handler itself (lines 163, 178) and may call back into its package-private setters (weak affinity, strong affinity, session id) while the call runs. Those callbacks are not modelled, so the contract's promise that a business call leaves every handler field unchanged holds only for the handler's own code.
- Serialization (`writeReplace`), logging, and the `Attachable` state copied by `super(other)`.
- The formats of `EJBLocator.toString` and `EJBLocator.hashCode` are not part of this model. `Describe` and `LocatorHash` stand in for them, and only their being functions of the locator value is relied on. Of `String.format` only the caching of the result is modelled.
- `EJBException`'s own message, derived from its cause, is not modelled.
- Null locators, null affinities passed to `setStrongAffinity`, and a null session id passed to `setSessionID` are excluded by the types. In the source, a null session id on a stateful locator fails with "already stateful" (lines 314-318), and on a stateless one it reaches `withSession(null)`. Only `compareAndSetStrongAffinity`'s explicit null checks are modelled, with `Option` parameters.
- `src/main/java/org/jboss/ejb/server/Request.java` is an interface with default accessors and documented obligations on its implementors. There is no algorithm in it to model.
