/**
 * The locator of a remote EJB: its identity, its current (strong) affinity and,
 * once it is stateful, its session identifier.  Locators are immutable values;
 * the handler replaces the one it holds instead of changing it.
 */
module Locators {
  import opened Wrappers

  /** A routing hint: no preference, the local node, a named node, a cluster or a URI. */
  datatype Affinity =
    | NoAffinity
    | LocalAffinity
    | NodeAffinity(nodeName: string)
    | ClusterAffinity(clusterName: string)
    | UriAffinity(uri: string)

  /** The opaque, byte-encoded identifier of a stateful session. */
  datatype SessionId = SessionId(encodedForm: seq<bv8>)

  /** Application, module, bean and distinct name of a deployed EJB. */
  datatype EJBIdentifier = EJBIdentifier(appName: string, moduleName: string, beanName: string, distinctName: string)

  /**
   * A locator.  `sessionId` is present exactly for a stateful locator;
   * `isEntity` marks an entity locator and `isHome` a home locator.
   */
  datatype Locator = Locator(
    viewType: string,
    identifier: EJBIdentifier,
    affinity: Affinity,
    sessionId: Option<SessionId>,
    isEntity: bool,
    isHome: bool)
  {
    predicate IsStateful() { sessionId.Some? }
  }

  /** The same locator with another affinity; every other component is kept. */
  function WithNewAffinity(l: Locator, a: Affinity): (r: Locator)
    ensures r.affinity == a
    ensures r.viewType == l.viewType && r.identifier == l.identifier
    ensures r.sessionId == l.sessionId && r.isEntity == l.isEntity && r.isHome == l.isHome
  {
    l.(affinity := a)
  }

  /** The same locator made stateful with session `id`; every other component is kept. */
  function WithSession(l: Locator, id: SessionId): (r: Locator)
    ensures r.IsStateful() && r.sessionId == Some(id)
    ensures r.viewType == l.viewType && r.identifier == l.identifier
    ensures r.affinity == l.affinity && r.isEntity == l.isEntity && r.isHome == l.isHome
  {
    l.(sessionId := Some(id))
  }

  /** Re-targeting a locator to the affinity it already has gives back the same locator, and only then. */
  lemma WithNewAffinityNoOp(l: Locator, a: Affinity)
    ensures WithNewAffinity(l, a) == l <==> l.affinity == a
  {
  }

  /** The last affinity set wins. */
  lemma WithNewAffinityLastWins(l: Locator, a: Affinity, b: Affinity)
    ensures WithNewAffinity(WithNewAffinity(l, a), b) == WithNewAffinity(l, b)
  {
  }

  /** Setting an affinity and attaching a session are independent of each other. */
  lemma WithSessionCommutes(l: Locator, id: SessionId, a: Affinity)
    ensures WithNewAffinity(WithSession(l, id), a) == WithSession(WithNewAffinity(l, a), id)
  {
  }

  // ---------------------------------------------------------------------------
  // 32-bit Java integers and hashing

  const MinInt32: int := -0x8000_0000
  const MaxInt32: int := 0x7fff_ffff

  type Int32 = x: int | MinInt32 <= x <= MaxInt32

  /** Two's-complement wrap-around of Java `int` arithmetic. */
  function Wrap32(x: int): (r: Int32)
    ensures MinInt32 <= x <= MaxInt32 ==> r == x
    ensures (x - r) % 0x1_0000_0000 == 0
  {
    (x + 0x8000_0000) % 0x1_0000_0000 - 0x8000_0000
  }

  /**
   * A hash in the style of `String.hashCode`: h = 31 * h + c over the
   * characters, in 32-bit arithmetic.  It folds over Unicode scalar values, not
   * UTF-16 code units, so it differs from Java's outside the Basic Multilingual Plane.
   */
  function StringHash(s: string): Int32
  {
    if s == [] then 0 else Wrap32(31 * StringHash(s[..|s| - 1]) + s[|s| - 1] as int)
  }

  /**
   * A textual rendering of a locator, standing in for `EJBLocator.toString`,
   * whose format is not part of this model.
   */
  function Describe(l: Locator): string
  {
    "Locator for \"" + l.identifier.appName + "/" + l.identifier.moduleName + "/"
      + l.identifier.distinctName + "/" + l.identifier.beanName + "\", view is " + l.viewType
      + (if l.IsStateful() then ", stateful" else "")
  }

  /**
   * The hash of a locator, standing in for `EJBLocator.hashCode`, which is not
   * part of this model: any function of the locator value keeps equal locators
   * at equal hashes, which is all the handler relies on.
   */
  function LocatorHash(l: Locator): Int32
  {
    Wrap32(31 * StringHash(Describe(l)) + StringHash(AffinityText(l.affinity)))
  }

  function AffinityText(a: Affinity): string
  {
    match a
    case NoAffinity => "none"
    case LocalAffinity => "local"
    case NodeAffinity(n) => "node:" + n
    case ClusterAffinity(c) => "cluster:" + c
    case UriAffinity(u) => "uri:" + u
  }
}
