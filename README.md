# exception-wrapper, modelled in Dafny

`ExceptionWrapper` lets Java code call lambdas that declare `throws Exception`
from places that accept only unchecked exceptions. For six callable shapes
(Function, BiFunction, Consumer, BiConsumer, Supplier and a no-argument
Call), `invoke` calls the lambda at once and `wrap` returns a closure that
calls `invoke` later. Every `invoke` shares one try/catch:

- a normal return is passed back unchanged;
- a `RuntimeException` is rethrown as it is;
- an `IOException` is rethrown as `new UncheckedIOException(e)`;
- any other `Exception` is rethrown as `new UncheckedException(e)`;
- anything that is not an `Exception` (an `Error`) is not caught.

The model has three modules:

- `Throwables` (throwables.dfy): the part of the Java platform the wrapper
  relies on. Throwable classes form a single-inheritance tree (`ClassRef`,
  `Parent`). `SubclassOf` is the `instanceof` test a `catch` clause performs.
  A thrown object (`Thrown`) has a class, an optional message and an
  optional cause. `WithCause` is the JDK constructor `X(Throwable cause)`,
  which takes `cause.toString()` as its message.
- `ExceptionWrapper` (exception_wrapper.dfy): the wrapper itself.
  - `Outcome` is a call's result: it returned a value or threw an object.
  - `FirstMatchingCatch` is Java's first-match rule for catch clauses.
    It is applied to the three catch clauses in their order (`Classify`).
  - `Propagated` says what leaves the try statement. `Normalize` lifts it
    to outcomes.
  - The six `Invoke…` and six `Wrap…` functions are the overloads.
  - Each of them is proved against `Normalizes`. This is the contract of
    the doc comments, stated one exception category at a time.
- `ExceptionWrapperScenarios` (scenarios.dfy): the situations that
  ExceptionWrapperTest.java checks, stated over the model.

The doc comments (ExceptionWrapper.java:77, :88) name only the Exception
cases. The code has a fourth case: a throwable that is no `Exception` (an
`Error`) matches no clause and is not caught. The model follows the code (`Classify`
returns `NotCaught`). The caller sees the same thing as with a pass-through:
the object propagates unchanged.

## Model

| member | source | states |
|---|---|---|
| `Throwables.Parent` | src/main/java/ltd/clearsolutions/exceptionwrapper/ExceptionWrapper.java:47 | Every class except Throwable has a direct superclass, different from the class itself. UncheckedException's superclass is RuntimeException. |
| `Throwables.Superclasses` | src/main/java/ltd/clearsolutions/exceptionwrapper/ExceptionWrapper.java:47 | The superclass chain starts at the class, steps to the direct parent each time, and ends at Throwable. Its length is the class's depth plus one. |
| `Throwables.SubclassOf` | src/main/java/ltd/clearsolutions/exceptionwrapper/ExceptionWrapper.java:96-100 | The `instanceof` test of a catch clause. A superclass is never deeper in the hierarchy than its subclass, and a superclass at the same depth is the class itself. |
| `Throwables.SubclassOfIffInChain` | src/main/java/ltd/clearsolutions/exceptionwrapper/ExceptionWrapper.java:96-100 | The `instanceof` test of a catch clause holds exactly when the clause's class is on the thrown class's superclass chain. |
| `Throwables.SubclassOfTransitive` | src/main/java/ltd/clearsolutions/exceptionwrapper/ExceptionWrapper.java:96-101 | Subclassing is transitive. So a RuntimeException or IOException is also an Exception, and the last clause would catch it. |
| `Throwables.SuperclassesAreOrdered` | src/main/java/ltd/clearsolutions/exceptionwrapper/ExceptionWrapper.java:96-99 | Single inheritance: any two superclasses of one class are related by subclassing. |
| `Throwables.UnrelatedClassesAreDisjoint` | src/main/java/ltd/clearsolutions/exceptionwrapper/ExceptionWrapper.java:96-99 | No class is below two unrelated classes. So no exception is both a RuntimeException and an IOException. |
| `Throwables.BinaryNameIdentifiesClass` | src/main/java/ltd/clearsolutions/exceptionwrapper/ExceptionWrapper.java:47 | `Class.getName()` tells the listed classes apart, UncheckedException's nested name included. |
| `Throwables.ToString` | src/main/java/ltd/clearsolutions/exceptionwrapper/ExceptionWrapper.java:63-65 | `toString()` starts with the class name, and when the throwable has a message it contains that message. |
| `Throwables.WithCause` | src/main/java/ltd/clearsolutions/exceptionwrapper/ExceptionWrapper.java:63-65 | A `super(cause)` constructor builds a new object of the given class, distinct from the cause. It records the cause. Its message starts with the cause's class name and contains the cause's message. |
| `ExceptionWrapper.UncheckedExceptionOf` | src/main/java/ltd/clearsolutions/exceptionwrapper/ExceptionWrapper.java:47-65 | `new UncheckedException(e)` is an object of class UncheckedException, so a RuntimeException. It is distinct from `e` and has cause `e`. Its message contains `e`'s message. |
| `ExceptionWrapper.UncheckedIOExceptionOf` | src/main/java/ltd/clearsolutions/exceptionwrapper/ExceptionWrapper.java:98-99 | `new UncheckedIOException(e)` takes only an IOException. The result is of class UncheckedIOException, so a RuntimeException. It is distinct from `e` and has cause `e`. Its message contains `e`'s message. |
| `ExceptionWrapper.FirstMatchingCatch` | src/main/java/ltd/clearsolutions/exceptionwrapper/ExceptionWrapper.java:94-102 | Java's catch rule: the chosen clause matches the thrown class and no earlier clause does. With no choice, no clause matches. |
| `ExceptionWrapper.CatchClauseCategories` | src/main/java/ltd/clearsolutions/exceptionwrapper/ExceptionWrapper.java:96-101 | No class is both a RuntimeException and an IOException, and both are Exceptions. So the first two clauses never compete, and the last one would catch either. |
| `ExceptionWrapper.Classify` | src/main/java/ltd/clearsolutions/exceptionwrapper/ExceptionWrapper.java:94-102 | The handler the catch clauses select depends on the category alone, in both directions. RuntimeException gives rethrow and IOException gives the UncheckedIOException wrap. Any other Exception gives the UncheckedException wrap, and a non-Exception is not caught. So every class falls under exactly one handler. |
| `ExceptionWrapper.Propagated` | src/main/java/ltd/clearsolutions/exceptionwrapper/ExceptionWrapper.java:96-101 | What leaves the try statement is the original throwable, or a new one whose cause is the original. |
| `ExceptionWrapper.Normalizes` | src/main/java/ltd/clearsolutions/exceptionwrapper/ExceptionWrapper.java:75-92 | The doc-comment contract, one category at a time. Under it, the call completes normally exactly when the callable does. A throw is the original throwable or a new one whose cause is the original. |
| `ExceptionWrapper.Normalize` | src/main/java/ltd/clearsolutions/exceptionwrapper/ExceptionWrapper.java:93-103 | The shared try/catch meets the doc-comment contract `Normalizes`, one category at a time. |
| `ExceptionWrapper.NormalizesIsDeterministic` | src/main/java/ltd/clearsolutions/exceptionwrapper/ExceptionWrapper.java:77-88 | The doc-comment contract allows at most one outcome for each callable outcome. |
| `ExceptionWrapper.NormalizedThrowIsUnchecked` | src/main/java/ltd/clearsolutions/exceptionwrapper/ExceptionWrapper.java:94-102 | Suppose the callable throws only what `throws Exception` allows. Then whatever `invoke` throws is unchecked: a RuntimeException or an Error. |
| `ExceptionWrapper.CheckedExceptionsAreWrapped` | src/main/java/ltd/clearsolutions/exceptionwrapper/ExceptionWrapper.java:98-101 | A checked IOException comes out as an UncheckedIOException, and any other checked Exception as an UncheckedException. Each has the original as cause. |
| `ExceptionWrapper.NormalizeIdempotent` | src/main/java/ltd/clearsolutions/exceptionwrapper/ExceptionWrapper.java:96-97 | No double wrapping: normalising an already normalised outcome changes nothing. |
| `ExceptionWrapper.NormalizeKeepsOriginal` | src/main/java/ltd/clearsolutions/exceptionwrapper/ExceptionWrapper.java:96-101 | The original throwable is thrown again or becomes the cause. Its message is contained in the message of what is thrown. |
| `ExceptionWrapper.InvokeFunction` | src/main/java/ltd/clearsolutions/exceptionwrapper/ExceptionWrapper.java:93-103 | `invoke(function, t)` meets the doc-comment contract for the outcome of `function.apply(t)`. |
| `ExceptionWrapper.InvokeBiFunction` | src/main/java/ltd/clearsolutions/exceptionwrapper/ExceptionWrapper.java:123-133 | `invoke(function, t1, t2)` meets the same contract for `function.apply(t1, t2)`. |
| `ExceptionWrapper.InvokeConsumer` | src/main/java/ltd/clearsolutions/exceptionwrapper/ExceptionWrapper.java:164-174 | `invoke(consumer, t)` meets the same contract. It completes normally exactly when `consumer.apply(t)` does. |
| `ExceptionWrapper.InvokeBiConsumer` | src/main/java/ltd/clearsolutions/exceptionwrapper/ExceptionWrapper.java:182-192 | `invoke(consumer, t1, t2)` meets the same contract for `consumer.apply(t1, t2)`. |
| `ExceptionWrapper.InvokeSupplier` | src/main/java/ltd/clearsolutions/exceptionwrapper/ExceptionWrapper.java:211-221 | `invoke(supplier)` meets the same contract for `supplier.get()`. |
| `ExceptionWrapper.InvokeCall` | src/main/java/ltd/clearsolutions/exceptionwrapper/ExceptionWrapper.java:240-250 | `invoke(call)` meets the same contract for `call.apply()`. |
| `ExceptionWrapper.WrapFunction` | src/main/java/ltd/clearsolutions/exceptionwrapper/ExceptionWrapper.java:82-84 | For every argument, the wrapped Function gives exactly what `invoke` gives, so it meets the doc-comment contract too. |
| `ExceptionWrapper.WrapBiFunction` | src/main/java/ltd/clearsolutions/exceptionwrapper/ExceptionWrapper.java:112-114 | For all arguments, the wrapped BiFunction agrees with `invoke` and meets the contract. |
| `ExceptionWrapper.WrapConsumer` | src/main/java/ltd/clearsolutions/exceptionwrapper/ExceptionWrapper.java:142-144 | For every argument, the wrapped Consumer agrees with `invoke` and meets the contract. |
| `ExceptionWrapper.WrapBiConsumer` | src/main/java/ltd/clearsolutions/exceptionwrapper/ExceptionWrapper.java:154-156 | For all arguments, the wrapped BiConsumer agrees with `invoke` and meets the contract. |
| `ExceptionWrapper.WrapSupplier` | src/main/java/ltd/clearsolutions/exceptionwrapper/ExceptionWrapper.java:201-203 | The wrapped Supplier agrees with `invoke` and meets the contract. |
| `ExceptionWrapper.WrapCall` | src/main/java/ltd/clearsolutions/exceptionwrapper/ExceptionWrapper.java:230-232 | The wrapped Runnable agrees with `invoke` and meets the contract. |
| `ExceptionWrapperScenarios.ReturnedValueIsPassedBack` | src/test/java/ltd/clearsolutions/exceptionwrapper/ExceptionWrapperTest.java:73-81 | The values from the tests come back unchanged. `o == 10` at 10 and `Integer::equals` at (10, 10) give true, and the supplier `() -> 5` gives 5. A consumer completes normally. |
| `ExceptionWrapperScenarios.DivideTenBy` | src/test/java/ltd/clearsolutions/exceptionwrapper/ExceptionWrapperTest.java:85 | Java's `10 / o`: it throws exactly when `o` is 0. Otherwise the quotient is rounded toward zero: the remainder is non-negative and smaller than `o` in magnitude. |
| `ExceptionWrapperScenarios.DivisionByZeroIsRethrownAsIs` | src/test/java/ltd/clearsolutions/exceptionwrapper/ExceptionWrapperTest.java:83-88 | For `10 / 0`, `invoke` and `wrap` rethrow the ArithmeticException itself. Its message is kept. |
| `ExceptionWrapperScenarios.ReadingDirectoryThrowsUncheckedIO` | src/test/java/ltd/clearsolutions/exceptionwrapper/ExceptionWrapperTest.java:90-98 | Take a read of "/" that throws an IOException. `invoke` and `wrap` throw an UncheckedIOException with that cause, and its message contains the IOException's message. |
| `ExceptionWrapperScenarios.CheckedExceptionBecomesUnchecked` | src/test/java/ltd/clearsolutions/exceptionwrapper/ExceptionWrapperTest.java:100-111 | `throw new Exception("incorrect path")` reaches the caller as an UncheckedException. The function, consumer, biconsumer and call shapes all do this. Its message contains "incorrect path". |

## Left out

- Object identity is value equality. "Rethrown as the same instance" is shown as equality of values. A new wrapper is shown distinct from its cause, but not from other live objects with equal contents.
- The side effects of the lambdas are not modelled: the tests print to a redirected `System.out` and read files. A callable is a function from its arguments to an `Outcome`. Its side effects happen only when it is applied. Applying it is what `Invoke…` does, and what the closures from `Wrap…` do when they are called.
- The exact texts of JDK and operating-system messages ("/ by zero", "Is a directory") are parameters of the scenarios.
- Stack traces, suppressed exceptions and `writableStackTrace` are not modelled. Nor are the unused constructors of `UncheckedException` (ExceptionWrapper.java:49-61 and 67-72). Only `UncheckedException(Throwable cause)` is used.
- `toString()` follows the JDK default: the class name, then ": " and the message. Subclasses that override `getMessage`, `getLocalizedMessage` or `toString` are not modelled.
- A throwable that is neither an Exception nor an Error could only be thrown past the compiler, for example by a "sneaky throw". The model lets it propagate unchanged, as the code does. `ExceptionWrapper.NormalizedThrowIsUnchecked` therefore requires that the thrown class be one `throws Exception` allows.
- Non-termination of a callable is not modelled: every callable is a total function.
- The functional-interface declarations (ExceptionWrapper.java:13-41) are represented only by the arrow types of each arity.
