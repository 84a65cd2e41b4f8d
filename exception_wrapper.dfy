/**
 * ExceptionWrapper: runs a callable that may throw checked exceptions and
 * turns whatever it throws into an unchecked exception, for six callable
 * shapes, either at once (`Invoke…`) or later through a closure (`Wrap…`).
 *
 * A Java call either returns a value or completes abruptly with a thrown
 * object; `Outcome` records which. The six overloads of `invoke` share one
 * try/catch; it is modelled once, as `Normalize`.
 */
module ExceptionWrapper {
  import opened Throwables

  datatype Outcome<+R> = Returned(value: R) | Threw(thrown: Thrown)

  /** The six callable shapes that declare `throws Exception`, and the
      unchecked shapes (`java.util.function` and `Runnable`) that `wrap`
      produces. A `void` call returns `()`. */
  type FunctionWithException<!T, R> = T -> Outcome<R>
  type BiFunctionWithException<!T1, !T2, R> = (T1, T2) -> Outcome<R>
  type ConsumerWithException<!T> = T -> Outcome<()>
  type BiConsumerWithException<!T1, !T2> = (T1, T2) -> Outcome<()>
  type SupplierWithException<R> = () -> Outcome<R>
  type CallWithException = () -> Outcome<()>

  /** JLS 11.1.1: the unchecked exception classes are RuntimeException,
      Error and their subclasses. */
  predicate IsUnchecked(c: ClassRef)
  {
    SubclassOf(c, RuntimeException) || SubclassOf(c, Error)
  }

  /** What a callable declared `throws Exception` may throw: any Exception
      and any unchecked class. */
  predicate AllowedByThrowsException(c: ClassRef)
  {
    SubclassOf(c, Exception) || IsUnchecked(c)
  }

  /** A checked Exception that is not an IOException. */
  predicate IsOtherChecked(c: ClassRef)
  {
    SubclassOf(c, Exception) && !SubclassOf(c, RuntimeException) && !SubclassOf(c, IOException)
  }

  /** `new UncheckedException(cause)`: a RuntimeException recording
      `cause`, whose message is `cause.toString()`. */
  function UncheckedExceptionOf(cause: Thrown): (r: Thrown)
    ensures r.cls == UncheckedException && SubclassOf(r.cls, RuntimeException)
    ensures r.cause == Some(cause) && r != cause
    ensures cause.message.Some? ==> r.message.Some? && Contains(r.message.value, cause.message.value)
  {
    WithCause(UncheckedException, cause)
  }

  /** `new UncheckedIOException(cause)`; the JDK constructor accepts only an
      IOException. */
  function UncheckedIOExceptionOf(cause: Thrown): (r: Thrown)
    requires SubclassOf(cause.cls, IOException)
    ensures r.cls == UncheckedIOException && SubclassOf(r.cls, RuntimeException)
    ensures r.cause == Some(cause) && r != cause
    ensures cause.message.Some? ==> r.message.Some? && Contains(r.message.value, cause.message.value)
  {
    WithCause(UncheckedIOException, cause)
  }

  /** The catch clauses of every `invoke`, in source order. */
  const CatchClauses: seq<ClassRef> := [RuntimeException, IOException, Exception]

  /** JLS 14.20.1: a thrown object of class `c` is handled by the first
      clause whose type it is an instance of, or by none. */
  function FirstMatchingCatch(clauses: seq<ClassRef>, c: ClassRef): (r: Option<nat>)
    ensures r.Some? ==> r.value < |clauses| && SubclassOf(c, clauses[r.value])
    ensures r.Some? ==> forall j :: 0 <= j < r.value ==> !SubclassOf(c, clauses[j])
    ensures r.None? ==> forall j :: 0 <= j < |clauses| ==> !SubclassOf(c, clauses[j])
  {
    if clauses == [] then None
    else if SubclassOf(c, clauses[0]) then Some(0)
    else
      match FirstMatchingCatch(clauses[1..], c)
      case None => None
      case Some(i) => Some(i + 1)
  }

  /** What the try statement does with a thrown object. */
  datatype Handler = Rethrow | WrapUncheckedIO | WrapUnchecked | NotCaught

  /** The facts about the three clause types that make the catch order
      matter only once: the first two clauses are disjoint, and the last
      one covers both. */
  lemma CatchClauseCategories(c: ClassRef)
    ensures SubclassOf(c, RuntimeException) ==> SubclassOf(c, Exception)
    ensures SubclassOf(c, IOException) ==> SubclassOf(c, Exception)
    ensures !(SubclassOf(c, RuntimeException) && SubclassOf(c, IOException))
  {
    if SubclassOf(c, RuntimeException) {
      SubclassOfTransitive(c, RuntimeException, Exception);
    }
    if SubclassOf(c, IOException) {
      SubclassOfTransitive(c, IOException, Exception);
    }
    UnrelatedClassesAreDisjoint(RuntimeException, IOException, c);
  }

  /** The handler the catch clauses select. It is chosen by the category
      of the thrown class alone, in both directions, so exactly one handler
      applies to every class. */
  function Classify(c: ClassRef): (h: Handler)
    ensures h == Rethrow <==> SubclassOf(c, RuntimeException)
    ensures h == WrapUncheckedIO <==> SubclassOf(c, IOException)
    ensures h == WrapUnchecked <==> IsOtherChecked(c)
    ensures h == NotCaught <==> !SubclassOf(c, Exception)
  {
    CatchClauseCategories(c);
    assert |CatchClauses| == 3 && CatchClauses[1] == IOException && CatchClauses[2] == Exception;
    match FirstMatchingCatch(CatchClauses, c)
    case None => NotCaught
    case Some(i) =>
      if i == 0 then Rethrow
      else if i == 1 then WrapUncheckedIO
      else WrapUnchecked
  }

  /** The object that leaves the try statement when the callable threw `e`. */
  function Propagated(e: Thrown): (r: Thrown)
    ensures r == e || r.cause == Some(e)
  {
    match Classify(e.cls)
    case Rethrow => e
    case WrapUncheckedIO => UncheckedIOExceptionOf(e)
    case WrapUnchecked => UncheckedExceptionOf(e)
    case NotCaught => e
  }

  /** The contract stated by the doc comments of `wrap` and `invoke`, case by
      category: a normal return is passed back unchanged, a RuntimeException
      is rethrown as it is, an IOException becomes an UncheckedIOException
      and any other Exception an UncheckedException, each with the original
      as cause; a throwable that is no Exception is not caught. */
  ghost predicate Normalizes<R>(o: Outcome<R>, r: Outcome<R>)
    ensures Normalizes(o, r) ==> (r.Returned? <==> o.Returned?)
    ensures Normalizes(o, r) && o.Threw? ==> r.thrown == o.thrown || r.thrown.cause == Some(o.thrown)
  {
    match o
    case Returned(v) => r == Returned(v)
    case Threw(e) =>
      && (SubclassOf(e.cls, RuntimeException) ==> r == Threw(e))
      && (SubclassOf(e.cls, IOException) ==> r == Threw(UncheckedIOExceptionOf(e)))
      && (IsOtherChecked(e.cls) ==> r == Threw(UncheckedExceptionOf(e)))
      && (!SubclassOf(e.cls, Exception) ==> r == Threw(e))
  }

  /** The try/catch shared by all six `invoke` overloads. */
  function Normalize<R>(o: Outcome<R>): (r: Outcome<R>)
    ensures Normalizes(o, r)
  {
    match o
    case Returned(_) => o
    case Threw(e) => Threw(Propagated(e))
  }

  /** The contract leaves no choice: one category applies to every thrown
      class, so at most one outcome meets it. */
  lemma NormalizesIsDeterministic<R>(o: Outcome<R>, r1: Outcome<R>, r2: Outcome<R>)
    requires Normalizes(o, r1) && Normalizes(o, r2)
    ensures r1 == r2
  {
  }

  /** Whatever leaves `invoke` is unchecked, provided the callable threw only
      what its `throws Exception` clause allows. */
  lemma NormalizedThrowIsUnchecked<R>(o: Outcome<R>)
    requires o.Threw? && AllowedByThrowsException(o.thrown.cls)
    ensures Normalize(o).Threw? && IsUnchecked(Normalize(o).thrown.cls)
  {
  }

  /** The headline promise of the doc comments: an IOException comes out
      as an UncheckedIOException, any other checked Exception as an
      UncheckedException, each carrying the original as cause. */
  lemma CheckedExceptionsAreWrapped<R>(o: Outcome<R>)
    requires o.Threw? && SubclassOf(o.thrown.cls, Exception) && !SubclassOf(o.thrown.cls, RuntimeException)
    ensures Normalize(o).Threw? && Normalize(o).thrown.cause == Some(o.thrown)
    ensures SubclassOf(o.thrown.cls, IOException) ==> Normalize(o).thrown.cls == UncheckedIOException
    ensures !SubclassOf(o.thrown.cls, IOException) ==> Normalize(o).thrown.cls == UncheckedException
  {
  }

  /** No double wrapping: normalising a normalised outcome changes nothing. */
  lemma NormalizeIdempotent<R>(o: Outcome<R>)
    ensures Normalize(Normalize(o)) == Normalize(o)
  {
    if o.Threw? {
      var r := Propagated(o.thrown);
      if r != o.thrown {
        assert SubclassOf(r.cls, RuntimeException);
      }
    }
  }

  /** The original throwable is never lost: it is thrown again, or it is
      the cause of what is thrown, and its message survives in the
      message of what is thrown. */
  lemma NormalizeKeepsOriginal<R>(o: Outcome<R>)
    requires o.Threw?
    ensures Normalize(o).Threw?
    ensures Normalize(o).thrown == o.thrown || Normalize(o).thrown.cause == Some(o.thrown)
    ensures o.thrown.message.Some? ==>
      Normalize(o).thrown.message.Some? && Contains(Normalize(o).thrown.message.value, o.thrown.message.value)
  {
    var e := o.thrown;
    if e.message.Some? && Propagated(e) == e {
      var m := e.message.value;
      assert m <= m[0..];
    }
  }

  // The six `invoke` overloads: call now and normalise the outcome.

  function InvokeFunction<T, R>(function_: FunctionWithException<T, R>, t: T): (r: Outcome<R>)
    ensures Normalizes(function_(t), r)
  {
    Normalize(function_(t))
  }

  function InvokeBiFunction<T1, T2, R>(function_: BiFunctionWithException<T1, T2, R>, t1: T1, t2: T2): (r: Outcome<R>)
    ensures Normalizes(function_(t1, t2), r)
  {
    Normalize(function_(t1, t2))
  }

  function InvokeConsumer<T>(consumer: ConsumerWithException<T>, t: T): (r: Outcome<()>)
    ensures Normalizes(consumer(t), r)
  {
    Normalize(consumer(t))
  }

  function InvokeBiConsumer<T1, T2>(consumer: BiConsumerWithException<T1, T2>, t1: T1, t2: T2): (r: Outcome<()>)
    ensures Normalizes(consumer(t1, t2), r)
  {
    Normalize(consumer(t1, t2))
  }

  function InvokeSupplier<R>(supplier: SupplierWithException<R>): (r: Outcome<R>)
    ensures Normalizes(supplier(), r)
  {
    Normalize(supplier())
  }

  function InvokeCall(call: CallWithException): (r: Outcome<()>)
    ensures Normalizes(call(), r)
  {
    Normalize(call())
  }

  // The six `wrap` overloads: a closure that invokes later. Building it
  // applies nothing and cannot throw: its result is a function, not an
  // Outcome.

  function WrapFunction<T(!new), R>(function_: FunctionWithException<T, R>): (wrapped: T -> Outcome<R>)
    ensures forall t :: wrapped(t) == InvokeFunction(function_, t)
    ensures forall t :: Normalizes(function_(t), wrapped(t))
  {
    t => InvokeFunction(function_, t)
  }

  function WrapBiFunction<T1(!new), T2(!new), R>(function_: BiFunctionWithException<T1, T2, R>): (wrapped: (T1, T2) -> Outcome<R>)
    ensures forall t1, t2 :: wrapped(t1, t2) == InvokeBiFunction(function_, t1, t2)
    ensures forall t1, t2 :: Normalizes(function_(t1, t2), wrapped(t1, t2))
  {
    (t1, t2) => InvokeBiFunction(function_, t1, t2)
  }

  function WrapConsumer<T(!new)>(consumer: ConsumerWithException<T>): (wrapped: T -> Outcome<()>)
    ensures forall t :: wrapped(t) == InvokeConsumer(consumer, t)
    ensures forall t :: Normalizes(consumer(t), wrapped(t))
  {
    t => InvokeConsumer(consumer, t)
  }

  function WrapBiConsumer<T1(!new), T2(!new)>(consumer: BiConsumerWithException<T1, T2>): (wrapped: (T1, T2) -> Outcome<()>)
    ensures forall t1, t2 :: wrapped(t1, t2) == InvokeBiConsumer(consumer, t1, t2)
    ensures forall t1, t2 :: Normalizes(consumer(t1, t2), wrapped(t1, t2))
  {
    (t1, t2) => InvokeBiConsumer(consumer, t1, t2)
  }

  function WrapSupplier<R>(supplier: SupplierWithException<R>): (wrapped: () -> Outcome<R>)
    ensures wrapped() == InvokeSupplier(supplier)
    ensures Normalizes(supplier(), wrapped())
  {
    () => InvokeSupplier(supplier)
  }

  function WrapCall(call: CallWithException): (wrapped: () -> Outcome<()>)
    ensures wrapped() == InvokeCall(call)
    ensures Normalizes(call(), wrapped())
  {
    () => InvokeCall(call)
  }
}
