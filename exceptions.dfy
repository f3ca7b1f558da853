/**
 * Exception kinds and the translation of a failure thrown by a remote
 * business call into the exception vocabulary of the invoked method.
 */
module Exceptions {
  import opened Wrappers

  /**
   * An exception class: its name and the names of all its proper superclasses.
   * `java.lang.Class.isAssignableFrom` becomes a test on these names.
   */
  datatype ExClass = ExClass(name: string, superclasses: seq<string>)

  /** A thrown exception: its class, its message and its cause. */
  datatype Throwable = Throwable(cls: ExClass, message: Option<string>, cause: Option<Throwable>)

  const ThrowableName: string := "java.lang.Throwable"
  const ExceptionName: string := "java.lang.Exception"
  const RuntimeExceptionName: string := "java.lang.RuntimeException"

  const RemoteExceptionName: string := "java.rmi.RemoteException"

  const RemoteExceptionClass: ExClass :=
    ExClass(RemoteExceptionName, ["java.io.IOException", ExceptionName, ThrowableName])
  const EJBExceptionClass: ExClass :=
    ExClass("javax.ejb.EJBException", [RuntimeExceptionName, ExceptionName, ThrowableName])

  /** `declared.isAssignableFrom(c)`: `c` is `declared` or one of its subclasses. */
  predicate IsAssignableFrom(declared: ExClass, c: ExClass)
  {
    IsSubclassOf(c, declared.name)
  }

  /** `c` is the class named `name` or one of its subclasses. */
  predicate IsSubclassOf(c: ExClass, name: string)
  {
    c.name == name || name in c.superclasses
  }

  /**
   * A failure the business path never re-shapes: a `RuntimeException`, which
   * the first catch clause rethrows, or a throwable that is not an `Exception`
   * at all (an `Error`), which neither catch clause catches.
   */
  predicate IsUnchecked(c: ExClass)
  {
    !IsSubclassOf(c, ExceptionName) || IsSubclassOf(c, RuntimeExceptionName)
  }

  /** Some type of `declared` is assignable from `c`. */
  predicate Declares(declared: seq<ExClass>, c: ExClass)
  {
    exists i :: 0 <= i < |declared| && IsAssignableFrom(declared[i], c)
  }

  /**
   * `RemoteException.class.equals(exception)`.  A class is identified by its
   * name: the model assumes one class per name.
   */
  predicate IsRemoteException(c: ExClass)
  {
    c.name == RemoteExceptionName
  }

  /** `RemoteException` is among the types of `declared`. */
  predicate DeclaresRemote(declared: seq<ExClass>)
  {
    exists i :: 0 <= i < |declared| && IsRemoteException(declared[i])
  }

  /** `new RemoteException("Error", e)` */
  function RemoteWrapping(e: Throwable): Throwable
  {
    Throwable(RemoteExceptionClass, Some("Error"), Some(e))
  }

  /** `new EJBException(e)`; the message it derives from `e` is not part of this model. */
  function EJBWrapping(e: Throwable): Throwable
  {
    Throwable(EJBExceptionClass, None, Some(e))
  }

  /**
   * What the caller of a business method observes when the call fails with `e`
   * and the method declares the exception types `declared`.
   */
  function Translated(e: Throwable, declared: seq<ExClass>): (r: Throwable)
    // the caller only ever sees an unchecked failure or one its signature declares
    ensures IsUnchecked(r.cls) || Declares(declared, r.cls)
    // the original failure is never lost
    ensures r == e || r.cause == Some(e)
    ensures r == e <==> IsUnchecked(e.cls) || Declares(declared, e.cls)
    // a wrapped failure is a RemoteException if the method declares one, else an EJBException
    ensures r != e ==> (r == RemoteWrapping(e) <==> DeclaresRemote(declared))
    ensures r != e && !DeclaresRemote(declared) ==> r == EJBWrapping(e)
  {
    if IsUnchecked(e.cls) then e
    else if Declares(declared, e.cls) then e
    else if DeclaresRemote(declared) then
      var i :| 0 <= i < |declared| && IsRemoteException(declared[i]);
      assert IsAssignableFrom(declared[i], RemoteExceptionClass);
      RemoteWrapping(e)
    else EJBWrapping(e)
  }

  /**
   * The catch clauses of the business path: rethrow an unchecked failure;
   * otherwise scan the declared exception types, rethrowing as soon as one is
   * assignable and remembering whether `RemoteException` was among them.
   */
  method TranslateThrown(e: Throwable, declared: seq<ExClass>) returns (r: Throwable)
    ensures r == Translated(e, declared)
  {
    if IsUnchecked(e.cls) {
      return e;
    }
    var remoteException := false;
    for i := 0 to |declared|
      invariant remoteException <==> DeclaresRemote(declared[..i])
      invariant forall j :: 0 <= j < i ==> !IsAssignableFrom(declared[j], e.cls)
    {
      if IsAssignableFrom(declared[i], e.cls) {
        return e;
      } else if IsRemoteException(declared[i]) {
        remoteException := true;
      }
      assert declared[..i + 1] == declared[..i] + [declared[i]];
    }
    assert declared[..|declared|] == declared;
    if remoteException {
      return RemoteWrapping(e);
    }
    return EJBWrapping(e);
  }

  /** Translating an already translated failure changes nothing. */
  lemma TranslatedIdempotent(e: Throwable, declared: seq<ExClass>)
    ensures Translated(Translated(e, declared), declared) == Translated(e, declared)
  {
  }

  /**
   * The order in which the method declares its exception types does not
   * matter, although the scan stops at the first assignable one.
   */
  lemma {:induction false} TranslatedOrderIndependent(e: Throwable, d1: seq<ExClass>, d2: seq<ExClass>)
    requires multiset(d1) == multiset(d2)
    ensures Translated(e, d1) == Translated(e, d2)
  {
    DeclaresByMultiset(e.cls, d1, d2);
    DeclaresByMultiset(e.cls, d2, d1);
    DeclaresRemoteByMultiset(d1, d2);
    DeclaresRemoteByMultiset(d2, d1);
  }

  lemma DeclaresByMultiset(c: ExClass, d1: seq<ExClass>, d2: seq<ExClass>)
    requires multiset(d1) == multiset(d2)
    ensures Declares(d1, c) ==> Declares(d2, c)
  {
    if Declares(d1, c) {
      var i :| 0 <= i < |d1| && IsAssignableFrom(d1[i], c);
      assert d1[i] in multiset(d2);
      var j :| 0 <= j < |d2| && d2[j] == d1[i];
    }
  }

  lemma DeclaresRemoteByMultiset(d1: seq<ExClass>, d2: seq<ExClass>)
    requires multiset(d1) == multiset(d2)
    ensures DeclaresRemote(d1) ==> DeclaresRemote(d2)
  {
    if DeclaresRemote(d1) {
      var i :| 0 <= i < |d1| && IsRemoteException(d1[i]);
      assert d1[i] in multiset(d2);
      var j :| 0 <= j < |d2| && d2[j] == d1[i];
    }
  }

  /**
   * A method that declares `RemoteException`, failing with a checked exception
   * that none of its declared types admits, raises a `RemoteException` whose
   * cause is that failure, whatever else it declares.
   */
  lemma RemoteDeclaredWraps(e: Throwable, declared: seq<ExClass>)
    requires !IsUnchecked(e.cls) && !Declares(declared, e.cls) && DeclaresRemote(declared)
    ensures Translated(e, declared) == RemoteWrapping(e)
    ensures Translated(e, declared).cls == RemoteExceptionClass && Translated(e, declared).cause == Some(e)
  {
  }

  /**
   * Without `RemoteException` among the declared types, such a failure is
   * raised as an `EJBException` whose cause is that failure.
   */
  lemma UndeclaredWrapsAsEJBException(e: Throwable, declared: seq<ExClass>)
    requires !IsUnchecked(e.cls) && !Declares(declared, e.cls) && !DeclaresRemote(declared)
    ensures Translated(e, declared) == EJBWrapping(e)
    ensures IsUnchecked(Translated(e, declared).cls)
  {
  }
}
