/**
 * The situations exercised by ExceptionWrapperTest, restated over the
 * model. Callables that read files or print are replaced by callables
 * that return, or throw a given exception; messages that come from the
 * JDK or the operating system are parameters.
 */
module ExceptionWrapperScenarios {
  import opened Throwables
  import opened ExceptionWrapper

  /** Java's `10 / o` on int: an ArithmeticException for 0, otherwise the
      quotient rounded toward zero, so the remainder has the sign of the
      dividend and is smaller than the divisor in magnitude. With a
      non-negative dividend, Dafny's Euclidean division agrees with Java's. */
  function DivideTenBy(o: int, byZero: Thrown): (r: Outcome<int>)
    ensures o == 0 <==> r.Threw?
    ensures r.Threw? ==> r.thrown == byZero
    ensures r.Returned? ==> 0 <= 10 - r.value * o < (if o < 0 then -o else o)
  {
    if o == 0 then Threw(byZero) else Returned(10 / o)
  }

  /** A callable that returns normally is transparent, through `invoke`
      and through `wrap`. */
  lemma ReturnedValueIsPassedBack()
    ensures InvokeFunction((o: int) => Returned(o == 10), 10) == Returned(true)
    ensures WrapFunction((o: int) => Returned(o == 0))(0) == Returned(true)
    ensures WrapBiFunction((t1: int, t2: int) => Returned(t1 == t2))(10, 10) == Returned(true)
    ensures InvokeSupplier(() => Returned(5)) == Returned(5)
    ensures WrapSupplier(() => Returned(5))() == Returned(5)
    ensures InvokeConsumer((o: string) => Returned(()), "Hello") == Returned(())
  {
  }

  /** Division by zero: the ArithmeticException reaches the caller as the
      very same object, message included. */
  lemma DivisionByZeroIsRethrownAsIs(message: string)
    ensures
      var byZero := Thrown(ArithmeticException, Some(message), None);
      var r := InvokeFunction((o: int) => DivideTenBy(o, byZero), 0);
      && r == Threw(byZero)
      && r == WrapFunction((o: int) => DivideTenBy(o, byZero))(0)
      && Contains(r.thrown.message.value, message)
  {
    assert message <= message[0..];
  }

  /** Reading a directory: the IOException arrives wrapped in an
      UncheckedIOException that records it as cause and whose message
      contains the IOException's message. */
  lemma ReadingDirectoryThrowsUncheckedIO(read: string -> Outcome<string>, message: string)
    requires read("/") == Threw(Thrown(IOException, Some(message), None))
    ensures
      var r := InvokeFunction(read, "/");
      && r == WrapFunction(read)("/")
      && r.Threw? && r.thrown.cls == UncheckedIOException
      && r.thrown.cause == Some(read("/").thrown)
      && r.thrown.message.Some? && Contains(r.thrown.message.value, message)
  {
    NormalizeKeepsOriginal(read("/"));
  }

  /** A callable that throws `new Exception("incorrect path")` for "/":
      the caller sees an UncheckedException whose message contains
      "incorrect path", in every shape the tests use. */
  lemma CheckedExceptionBecomesUnchecked()
    ensures
      var e := Thrown(Exception, Some("incorrect path"), None);
      var f := (path: string) => if path == "/" then Threw(e) else Returned(path);
      var c := (path: string) => if path == "/" then Threw(e) else Returned(());
      var r := InvokeFunction(f, "/");
      && r.Threw? && r.thrown.cls == UncheckedException && r.thrown.cause == Some(e)
      && r.thrown.message.Some? && Contains(r.thrown.message.value, "incorrect path")
      && WrapFunction(f)("/") == r
      && InvokeConsumer(c, "/") == Threw(r.thrown)
      && WrapBiConsumer((p1: string, p2: string) => c(p1))("/", "/") == Threw(r.thrown)
      && InvokeCall(() => c("/")) == Threw(r.thrown)
  {
    var e := Thrown(Exception, Some("incorrect path"), None);
    var o: Outcome<string> := Threw(e);
    NormalizeKeepsOriginal(o);
  }
}
