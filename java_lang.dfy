/** The parts of Java's semantics the modelled utilities rely on: references that may be
    null, statements that complete normally or by throwing, the classes of the throwables
    they throw or catch, and how a try statement picks the clause that catches. */
module JavaLang {

  /** A Java reference that may be null. */
  datatype Option<+T> = None | Some(value: T)

  /** How a Java call ends: it returns a value, or a throwable escapes from it. */
  datatype Completion<+T> = Normal(value: T) | Abrupt(thrown: Throwable)

  /** The throwable classes that the modelled code throws or names in a catch clause, together
      with the classes between them and java.lang.Throwable. A throwable of a class outside
      this list is represented by its nearest listed ancestor (for instance an
      IllegalStateException by RuntimeExceptionClass, a StackOverflowError by ErrorClass). */
  datatype JavaClass =
    | ThrowableClass                        // java.lang.Throwable
    | ErrorClass                            // java.lang.Error
    | ExceptionClass                        // java.lang.Exception
    | ReflectiveOperationExceptionClass     // java.lang.ReflectiveOperationException
    | NoSuchMethodExceptionClass            // java.lang.NoSuchMethodException
    | RuntimeExceptionClass                 // java.lang.RuntimeException
    | IllegalArgumentExceptionClass         // java.lang.IllegalArgumentException
    | UtilNoSuchElementExceptionClass       // java.util.NoSuchElementException
    | WebDriverExceptionClass               // org.openqa.selenium.WebDriverException
    | TimeoutExceptionClass                 // org.openqa.selenium.TimeoutException
    | NotFoundExceptionClass                // org.openqa.selenium.NotFoundException
    | NoSuchElementExceptionClass           // org.openqa.selenium.NoSuchElementException
    | InvalidElementStateExceptionClass     // org.openqa.selenium.InvalidElementStateException
    | ElementNotInteractableExceptionClass  // org.openqa.selenium.ElementNotInteractableException

  /** The direct superclass; None for java.lang.Throwable. */
  function Parent(c: JavaClass): Option<JavaClass>
  {
    match c
    case ThrowableClass => None
    case ErrorClass => Some(ThrowableClass)
    case ExceptionClass => Some(ThrowableClass)
    case ReflectiveOperationExceptionClass => Some(ExceptionClass)
    case NoSuchMethodExceptionClass => Some(ReflectiveOperationExceptionClass)
    case RuntimeExceptionClass => Some(ExceptionClass)
    case IllegalArgumentExceptionClass => Some(RuntimeExceptionClass)
    case UtilNoSuchElementExceptionClass => Some(RuntimeExceptionClass)
    case WebDriverExceptionClass => Some(RuntimeExceptionClass)
    case TimeoutExceptionClass => Some(WebDriverExceptionClass)
    case NotFoundExceptionClass => Some(WebDriverExceptionClass)
    case NoSuchElementExceptionClass => Some(NotFoundExceptionClass)
    case InvalidElementStateExceptionClass => Some(WebDriverExceptionClass)
    case ElementNotInteractableExceptionClass => Some(InvalidElementStateExceptionClass)
  }

  /** The number of superclass steps from a class up to java.lang.Throwable. */
  function Depth(c: JavaClass): (d: nat)
    ensures Parent(c).None? <==> d == 0
  {
    match c
    case ThrowableClass => 0
    case ErrorClass => 1
    case ExceptionClass => 1
    case ReflectiveOperationExceptionClass => 2
    case NoSuchMethodExceptionClass => 3
    case RuntimeExceptionClass => 2
    case IllegalArgumentExceptionClass => 3
    case UtilNoSuchElementExceptionClass => 3
    case WebDriverExceptionClass => 3
    case TimeoutExceptionClass => 4
    case NotFoundExceptionClass => 4
    case NoSuchElementExceptionClass => 5
    case InvalidElementStateExceptionClass => 4
    case ElementNotInteractableExceptionClass => 5
  }

  /** A superclass is one step nearer to java.lang.Throwable. */
  lemma ParentShallower(c: JavaClass)
    ensures Parent(c).Some? ==> Depth(c) == Depth(Parent(c).value) + 1
  {
  }


  /** The classes from c up to java.lang.Throwable, listed outright. */
  function Ancestors(c: JavaClass): set<JavaClass>
  {
    match c
    case ThrowableClass => {ThrowableClass}
    case ErrorClass => {ErrorClass, ThrowableClass}
    case ExceptionClass => {ExceptionClass, ThrowableClass}
    case ReflectiveOperationExceptionClass => {ReflectiveOperationExceptionClass, ExceptionClass, ThrowableClass}
    case NoSuchMethodExceptionClass =>
      {NoSuchMethodExceptionClass, ReflectiveOperationExceptionClass, ExceptionClass, ThrowableClass}
    case RuntimeExceptionClass => {RuntimeExceptionClass, ExceptionClass, ThrowableClass}
    case IllegalArgumentExceptionClass =>
      {IllegalArgumentExceptionClass, RuntimeExceptionClass, ExceptionClass, ThrowableClass}
    case UtilNoSuchElementExceptionClass =>
      {UtilNoSuchElementExceptionClass, RuntimeExceptionClass, ExceptionClass, ThrowableClass}
    case WebDriverExceptionClass => {WebDriverExceptionClass, RuntimeExceptionClass, ExceptionClass, ThrowableClass}
    case TimeoutExceptionClass =>
      {TimeoutExceptionClass, WebDriverExceptionClass, RuntimeExceptionClass, ExceptionClass, ThrowableClass}
    case NotFoundExceptionClass =>
      {NotFoundExceptionClass, WebDriverExceptionClass, RuntimeExceptionClass, ExceptionClass, ThrowableClass}
    case NoSuchElementExceptionClass =>
      {NoSuchElementExceptionClass, NotFoundExceptionClass, WebDriverExceptionClass, RuntimeExceptionClass,
       ExceptionClass, ThrowableClass}
    case InvalidElementStateExceptionClass =>
      {InvalidElementStateExceptionClass, WebDriverExceptionClass, RuntimeExceptionClass, ExceptionClass,
       ThrowableClass}
    case ElementNotInteractableExceptionClass =>
      {ElementNotInteractableExceptionClass, InvalidElementStateExceptionClass, WebDriverExceptionClass,
       RuntimeExceptionClass, ExceptionClass, ThrowableClass}
  }

  /** A class's ancestors are the class itself and its superclass's ancestors. */
  lemma AncestorsOfParent(c: JavaClass)
    ensures Parent(c).None? ==> Ancestors(c) == {c}
    ensures Parent(c).Some? ==> Ancestors(c) == {c} + Ancestors(Parent(c).value)
  {
    match c
    case ThrowableClass =>
    case ErrorClass =>
    case ExceptionClass =>
    case ReflectiveOperationExceptionClass =>
    case NoSuchMethodExceptionClass =>
    case RuntimeExceptionClass =>
    case IllegalArgumentExceptionClass =>
    case UtilNoSuchElementExceptionClass =>
    case WebDriverExceptionClass =>
    case TimeoutExceptionClass =>
    case NotFoundExceptionClass =>
    case NoSuchElementExceptionClass =>
    case InvalidElementStateExceptionClass =>
    case ElementNotInteractableExceptionClass =>
  }

  /** c is d or a (direct or indirect) subclass of d. */
  predicate IsSubclassOf(c: JavaClass, d: JavaClass)
  {
    d in Ancestors(c)
  }

  lemma {:induction false} SubclassTransitive(a: JavaClass, b: JavaClass, c: JavaClass)
    requires IsSubclassOf(a, b) && IsSubclassOf(b, c)
    ensures IsSubclassOf(a, c)
    decreases Depth(a)
  {
    AncestorsOfParent(a);
    if a != b {
      ParentShallower(a);
      SubclassTransitive(Parent(a).value, b, c);
    }
  }

  /** A strict subclass lies deeper in the hierarchy than its superclass. */
  lemma {:induction false} SubclassDeeper(c: JavaClass, d: JavaClass)
    requires IsSubclassOf(c, d) && c != d
    ensures Depth(c) > Depth(d)
    decreases Depth(c)
  {
    AncestorsOfParent(c);
    ParentShallower(c);
    if Parent(c).value != d {
      SubclassDeeper(Parent(c).value, d);
    }
  }

  /** Every class is a Throwable, and no class is both an Exception and an Error. */
  lemma ThrowableRoot(c: JavaClass)
    ensures IsSubclassOf(c, ThrowableClass)
    ensures !(IsSubclassOf(c, ExceptionClass) && IsSubclassOf(c, ErrorClass))
  {
  }

  /** Every class below java.lang.Throwable is an Exception or an Error. */
  lemma ExceptionOrError(c: JavaClass)
    ensures c == ThrowableClass || IsSubclassOf(c, ExceptionClass) || IsSubclassOf(c, ErrorClass)
  {
  }

  /** A thrown object: its run-time class and its message. */
  datatype Throwable = Throwable(cls: JavaClass, message: string)

  /** Java's `t instanceof D`. */
  predicate InstanceOf(t: Throwable, d: JavaClass)
  {
    IsSubclassOf(t.cls, d)
  }

  /** The clause a Java try statement with catch clauses of the given classes, in this order,
      hands a throwable to: the first one whose class the throwable is an instance of; None
      when no clause matches and the throwable escapes the statement. */
  function Catch(clauses: seq<JavaClass>, t: Throwable): (r: Option<nat>)
    ensures r.Some? ==> r.value < |clauses| && InstanceOf(t, clauses[r.value])
    ensures r.Some? ==> forall j :: 0 <= j < r.value ==> !InstanceOf(t, clauses[j])
    ensures r.None? <==> forall j :: 0 <= j < |clauses| ==> !InstanceOf(t, clauses[j])
  {
    if |clauses| == 0 then None
    else if InstanceOf(t, clauses[0]) then Some(0)
    else match Catch(clauses[1..], t)
      case None => None
      case Some(i) => Some(i + 1)
  }

  /** No clause names a subclass of an earlier clause's class: Java rejects such a clause as
      unreachable, so every catch list of a compiling try statement has this shape. */
  predicate ReachableClauses(clauses: seq<JavaClass>)
  {
    forall i, j :: 0 <= i < j < |clauses| ==> !IsSubclassOf(clauses[j], clauses[i])
  }

  /** The clause that catches is determined by the class tests alone. */
  lemma CatchIs(clauses: seq<JavaClass>, t: Throwable, i: nat)
    requires i < |clauses| && InstanceOf(t, clauses[i])
    requires forall j :: 0 <= j < i ==> !InstanceOf(t, clauses[j])
    ensures Catch(clauses, t) == Some(i)
  {
  }

  /** When every clause names a subclass of Exception and one of them names Exception itself,
      exactly the throwables that are Exceptions are caught. */
  lemma CatchExceptions(clauses: seq<JavaClass>, t: Throwable)
    requires forall j :: 0 <= j < |clauses| ==> IsSubclassOf(clauses[j], ExceptionClass)
    requires ExceptionClass in clauses
    ensures Catch(clauses, t).Some? <==> InstanceOf(t, ExceptionClass)
  {
    var r := Catch(clauses, t);
    if r.Some? {
      SubclassTransitive(t.cls, clauses[r.value], ExceptionClass);
    } else {
      var k :| 0 <= k < |clauses| && clauses[k] == ExceptionClass;
      assert !InstanceOf(t, clauses[k]);
    }
  }
}
