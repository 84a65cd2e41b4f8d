/**
 * The part of the Java platform the exception wrapper relies on: the
 * single-inheritance class hierarchy under java.lang.Throwable, the
 * `instanceof` test that a `catch` clause performs, and thrown objects
 * with their message and cause.
 */
module Throwables {

  datatype Option<+T> = None | Some(value: T)

  /** A throwable class. The classes the wrapper and its tests name are
      listed; every other class is `Extends(name, parent)`, with `name`
      its binary name and `parent` its direct superclass. */
  datatype ClassRef =
    | Throwable
    | Error
    | Exception
    | RuntimeException
    | IOException
    | ArithmeticException
    | UncheckedIOException
    | UncheckedException
    | Extends(name: string, parent: ClassRef)

  /** The direct superclass, within the throwable hierarchy. */
  function Parent(c: ClassRef): (r: Option<ClassRef>)
    ensures r.None? <==> c == Throwable
    ensures r.Some? ==> r.value != c
    ensures c == UncheckedException ==> r == Some(RuntimeException)
  {
    match c
    case Throwable => None
    case Error => Some(Throwable)
    case Exception => Some(Throwable)
    case RuntimeException => Some(Exception)
    case IOException => Some(Exception)
    case ArithmeticException => Some(RuntimeException)
    case UncheckedIOException => Some(RuntimeException)
    case UncheckedException => Some(RuntimeException)
    case Extends(_, p) => Some(p)
  }

  /** Distance from Throwable; it makes walks up the hierarchy terminate. */
  function Depth(c: ClassRef): nat
  {
    match c
    case Throwable => 0
    case Error => 1
    case Exception => 1
    case RuntimeException => 2
    case IOException => 2
    case ArithmeticException => 3
    case UncheckedIOException => 3
    case UncheckedException => 3
    case Extends(_, p) => Depth(p) + 1
  }

  lemma ParentIsShallower(c: ClassRef)
    ensures Parent(c).Some? ==> Depth(Parent(c).value) < Depth(c)
  {
  }

  /** `c` is `d` or a subclass of it: an object of class `c` is
      `instanceof d`, and `catch (d e)` catches it. */
  predicate SubclassOf(c: ClassRef, d: ClassRef)
    decreases Depth(c)
    ensures SubclassOf(c, d) ==> Depth(d) <= Depth(c)
    ensures SubclassOf(c, d) && Depth(d) == Depth(c) ==> c == d
  {
    ParentIsShallower(c);
    c == d || (Parent(c).Some? && SubclassOf(Parent(c).value, d))
  }

  /** The superclass chain of `c`: `c` itself, its parent, and so on up to
      Throwable. */
  function Superclasses(c: ClassRef): (chain: seq<ClassRef>)
    decreases Depth(c)
    ensures |chain| == Depth(c) + 1
    ensures chain[0] == c && chain[|chain| - 1] == Throwable
    ensures forall i :: 0 <= i < |chain| - 1 ==> Parent(chain[i]) == Some(chain[i + 1])
  {
    ParentIsShallower(c);
    match Parent(c)
    case None => [c]
    case Some(p) => [c] + Superclasses(p)
  }

  /** `instanceof` agrees with membership in the superclass chain. */
  lemma {:induction false} SubclassOfIffInChain(c: ClassRef, d: ClassRef)
    decreases Depth(c)
    ensures SubclassOf(c, d) <==> d in Superclasses(c)
  {
    ParentIsShallower(c);
    match Parent(c)
    case None =>
    case Some(p) => SubclassOfIffInChain(p, d);
  }

  lemma {:induction false} SubclassOfTransitive(a: ClassRef, b: ClassRef, c: ClassRef)
    requires SubclassOf(a, b) && SubclassOf(b, c)
    decreases Depth(a)
    ensures SubclassOf(a, c)
  {
    if a != b {
      ParentIsShallower(a);
      SubclassOfTransitive(Parent(a).value, b, c);
    }
  }

  /** Single inheritance: two superclasses of one class are themselves
      related, one being a subclass of the other. */
  lemma {:induction false} SuperclassesAreOrdered(c: ClassRef, a: ClassRef, b: ClassRef)
    requires SubclassOf(c, a) && SubclassOf(c, b)
    decreases Depth(c)
    ensures SubclassOf(a, b) || SubclassOf(b, a)
  {
    if c != a && c != b {
      ParentIsShallower(c);
      SuperclassesAreOrdered(Parent(c).value, a, b);
    }
  }

  /** No class lies below two unrelated classes. */
  lemma UnrelatedClassesAreDisjoint(a: ClassRef, b: ClassRef, c: ClassRef)
    requires !SubclassOf(a, b) && !SubclassOf(b, a)
    ensures !(SubclassOf(c, a) && SubclassOf(c, b))
  {
    if SubclassOf(c, a) && SubclassOf(c, b) {
      SuperclassesAreOrdered(c, a, b);
    }
  }

  /** A thrown object: its runtime class, its detail message
      (`getMessage()`, possibly null) and its cause (`getCause()`). */
  datatype Thrown = Thrown(cls: ClassRef, message: Option<string>, cause: Option<Thrown>)

  /** `Class.getName()`. */
  function BinaryName(c: ClassRef): string
  {
    match c
    case Throwable => "java.lang.Throwable"
    case Error => "java.lang.Error"
    case Exception => "java.lang.Exception"
    case RuntimeException => "java.lang.RuntimeException"
    case IOException => "java.io.IOException"
    case ArithmeticException => "java.lang.ArithmeticException"
    case UncheckedIOException => "java.io.UncheckedIOException"
    case UncheckedException => "ltd.clearsolutions.exceptionwrapper.ExceptionWrapper$UncheckedException"
    case Extends(name, _) => name
  }

  /** Among the listed classes the name tells which class it is. */
  lemma BinaryNameIdentifiesClass(a: ClassRef, b: ClassRef)
    requires !a.Extends? && !b.Extends? && BinaryName(a) == BinaryName(b)
    ensures a == b
  {
  }

  /** `Throwable.toString()`: the class name, then ": " and the message
      when there is one. */
  function ToString(e: Thrown): (s: string)
    ensures BinaryName(e.cls) <= s
    ensures e.message.Some? ==> Contains(s, e.message.value)
  {
    match e.message
    case None => BinaryName(e.cls)
    case Some(m) =>
      var prefix := BinaryName(e.cls) + ": ";
      assert (prefix + m)[|prefix|..] == m;
      prefix + m
  }

  /** `text.contains(part)`. */
  ghost predicate Contains(text: string, part: string)
  {
    exists i :: 0 <= i <= |text| && part <= text[i..]
  }

  /** The object built by a JDK constructor `X(Throwable cause)`: it
      records `cause` and takes `cause.toString()` as its message. */
  function WithCause(cls: ClassRef, cause: Thrown): (r: Thrown)
    ensures r.cls == cls && r.cause == Some(cause) && r != cause
    ensures r.message.Some? && BinaryName(cause.cls) <= r.message.value
    ensures cause.message.Some? ==> r.message.Some? && Contains(r.message.value, cause.message.value)
  {
    Thrown(cls, Some(ToString(cause)), Some(cause))
  }
}
