/** WaitUtil: the explicit and fluent waits. Each wait reads the calling thread's driver from
    the registry, hands a condition and a waiting policy to Selenium's `until`, and turns what
    `until` does into a returned element, null, or an escaping throwable. Selenium's polling
    is not modelled: `until` is an oracle, a function from the call it receives (driver,
    policy, condition) to how it completes. */
module WaitUtil {
  import opened JavaLang
  import opened Enums
  import ConsoleUtil
  import DriverUtil

  /** java.time.Duration, to the second. */
  datatype Duration = Duration(seconds: int)

  /** DEFAULT_IMPLICIT_WAIT_TIME. */
  const DefaultImplicitWaitTime: Duration := Duration(30)

  /** getDefaultImplicitWaitTime: always thirty seconds. */
  function GetDefaultImplicitWaitTime(): (d: Duration)
    ensures d.seconds == 30
  {
    DefaultImplicitWaitTime
  }

  /** An opaque reference to an element of the page. */
  datatype WebElement = WebElement(ref: nat)

  /** An opaque locator (By.id, By.xpath, ...). */
  datatype By = By(strategy: string, value: string)

  /** The ExpectedConditions the waits pass to `until`, and the page-load condition. */
  datatype Condition =
    | VisibilityOf(element: WebElement)
    | VisibilityOfElementLocated(locator: By)
    | ElementToBeClickable(element: WebElement)
    | ElementToBeClickableLocated(locator: By)
    | DocumentReadyStateComplete

  /** How a wait was configured: a WebDriverWait with its timeout, or a FluentWait with its
      timeout, polling interval, timeout message and ignored exception classes. */
  datatype WaitPolicy =
    | Explicit(timeout: Duration)
    | Fluent(timeout: Duration, pollingEvery: Duration, message: string, ignoring: seq<JavaClass>)

  /** What `until` is given: the waiting object's driver and policy, and the condition. */
  datatype WaitCall = WaitCall(driver: DriverUtil.WebDriver, policy: WaitPolicy, condition: Condition)

  /** `until` on an element condition: it returns the (non-null) element or throws. */
  type ElementUntil = WaitCall -> Completion<WebElement>

  /** `until` on the page-load condition: it returns the condition's value or throws. */
  type PageUntil = WaitCall -> Completion<bool>

  // The catch clauses of each try statement, in source order. The class
  // NoSuchElementException in them is java.util.NoSuchElementException, the class the file
  // imports by name, not Selenium's.

  const VisibilityClauses: seq<JavaClass> :=
    [TimeoutExceptionClass, UtilNoSuchElementExceptionClass, WebDriverExceptionClass,
     IllegalArgumentExceptionClass, ExceptionClass]

  const ClickableClauses: seq<JavaClass> :=
    [TimeoutExceptionClass, UtilNoSuchElementExceptionClass, ElementNotInteractableExceptionClass,
     WebDriverExceptionClass, IllegalArgumentExceptionClass, ExceptionClass]

  const FluentClauses: seq<JavaClass> :=
    [TimeoutExceptionClass, WebDriverExceptionClass, ExceptionClass]

  /** A list whose classes are distinct and never deeper than an earlier clause's class has no
      clause below an earlier one. */
  lemma ReachableByDepth(clauses: seq<JavaClass>)
    requires forall i, j :: 0 <= i < j < |clauses| ==>
      clauses[i] != clauses[j] && Depth(clauses[j]) <= Depth(clauses[i])
    ensures ReachableClauses(clauses)
  {
    forall i, j | 0 <= i < j < |clauses|
      ensures !IsSubclassOf(clauses[j], clauses[i])
    {
      if IsSubclassOf(clauses[j], clauses[i]) {
        SubclassDeeper(clauses[j], clauses[i]);
      }
    }
  }

  /** The catch list of the visibility waits is legal Java, catches Exceptions only, and ends in
      the last-resort Exception clause. */
  lemma VisibilityCatchList()
    ensures ReachableClauses(VisibilityClauses) && CatchesExceptions(VisibilityClauses)
    ensures VisibilityClauses[|VisibilityClauses| - 1] == ExceptionClass
  {
    ReachableByDepth(VisibilityClauses);
  }

  /** The same for the clickable waits. ElementNotInteractableException is deeper than the two
      clauses before it but not below either of them. */
  lemma ClickableCatchList()
    ensures ReachableClauses(ClickableClauses) && CatchesExceptions(ClickableClauses)
    ensures ClickableClauses[|ClickableClauses| - 1] == ExceptionClass
  {
    var cs := ClickableClauses;
    ReachableByDepth(cs[3..]);
    forall i, j | 0 <= i < j < |cs|
      ensures !IsSubclassOf(cs[j], cs[i])
    {
      if 3 <= i {
        assert cs[j] == cs[3..][j - 3] && cs[i] == cs[3..][i - 3];
      } else if j == 2 {
        LeafClass(cs[i], ElementNotInteractableExceptionClass);
        assert !IsSubclassOf(ElementNotInteractableExceptionClass, cs[i]);
      } else if IsSubclassOf(cs[j], cs[i]) {
        SubclassDeeper(cs[j], cs[i]);
      }
    }
  }

  /** The same for fluentWait. */
  lemma FluentCatchList()
    ensures ReachableClauses(FluentClauses) && CatchesExceptions(FluentClauses)
    ensures FluentClauses[|FluentClauses| - 1] == ExceptionClass
  {
    ReachableByDepth(FluentClauses);
  }

  /** Clauses that catch Exceptions only, the last resort being Exception itself. */
  predicate CatchesExceptions(clauses: seq<JavaClass>)
  {
    (forall j :: 0 <= j < |clauses| ==> IsSubclassOf(clauses[j], ExceptionClass))
    && ExceptionClass in clauses
  }

  /** What an element wait on a thread with a driver comes to, stated without catch clauses:
      the element `until` returned; null for anything `until` throws that is an Exception;
      and any other throwable (an Error) escapes. */
  function Settle(outcome: Completion<WebElement>): (r: Completion<Option<WebElement>>)
    ensures r.Normal? && r.value.Some? <==> outcome.Normal?
    ensures r.Normal? && r.value.Some? ==> r.value.value == outcome.value
    ensures r == Normal(None) <==> outcome.Abrupt? && InstanceOf(outcome.thrown, ExceptionClass)
    ensures r.Abrupt? ==> outcome.Abrupt? && r.thrown == outcome.thrown
    ensures r.Abrupt? ==> r.thrown.cls == ThrowableClass || InstanceOf(r.thrown, ErrorClass)
  {
    match outcome
    case Normal(e) => Normal(Some(e))
    case Abrupt(t) => ExceptionOrError(t.cls); if InstanceOf(t, ExceptionClass) then Normal(None) else Abrupt(t)
  }

  /** The shape the four element waits share: getDriverInstance() outside the try (so a thread
      without a driver throws instead of returning null), a null check that is never taken,
      then `until` inside a try whose clauses all end in `return null`. */
  function ElementWait(drivers: map<DriverUtil.ThreadId, DriverUtil.WebDriver>, thread: DriverUtil.ThreadId,
                       condition: Condition, timeout: int, clauses: seq<JavaClass>, until: ElementUntil)
    : (r: Completion<Option<WebElement>>)
    requires CatchesExceptions(clauses)
    ensures thread !in drivers ==> r == Abrupt(DriverUtil.DriverNotSet())
    ensures thread in drivers ==> r == Settle(until(WaitCall(drivers[thread], Explicit(Duration(timeout)), condition)))
  {
    match DriverUtil.DriverInstance(drivers, thread)
    case Abrupt(t) => Abrupt(t)
    case Normal(driver) =>
      if driver == None then Normal(None)
      else
        match until(WaitCall(driver.value, Explicit(Duration(timeout)), condition))
        case Normal(e) => Normal(Some(e))
        case Abrupt(t) =>
          CatchExceptions(clauses, t);
          if Catch(clauses, t).Some? then Normal(None) else Abrupt(t)
  }

  /** waitForVisibility(WebElement, int). */
  function WaitForVisibility(drivers: map<DriverUtil.ThreadId, DriverUtil.WebDriver>, thread: DriverUtil.ThreadId,
                             element: WebElement, timeout: int, until: ElementUntil)
    : (r: Completion<Option<WebElement>>)
    ensures thread !in drivers ==> r == Abrupt(DriverUtil.DriverNotSet())
    ensures thread in drivers ==>
      r == Settle(until(WaitCall(drivers[thread], Explicit(Duration(timeout)), VisibilityOf(element))))
  {
    ElementWait(drivers, thread, VisibilityOf(element), timeout, VisibilityClauses, until)
  }

  /** waitForVisibility(By, int). */
  function WaitForVisibilityLocated(drivers: map<DriverUtil.ThreadId, DriverUtil.WebDriver>, thread: DriverUtil.ThreadId,
                                    locator: By, timeout: int, until: ElementUntil)
    : (r: Completion<Option<WebElement>>)
    ensures thread !in drivers ==> r == Abrupt(DriverUtil.DriverNotSet())
    ensures thread in drivers ==>
      r == Settle(until(WaitCall(drivers[thread], Explicit(Duration(timeout)), VisibilityOfElementLocated(locator))))
  {
    ElementWait(drivers, thread, VisibilityOfElementLocated(locator), timeout, VisibilityClauses, until)
  }

  /** waitForClickableElement(WebElement, int). */
  function WaitForClickableElement(drivers: map<DriverUtil.ThreadId, DriverUtil.WebDriver>, thread: DriverUtil.ThreadId,
                                   element: WebElement, timeout: int, until: ElementUntil)
    : (r: Completion<Option<WebElement>>)
    ensures thread !in drivers ==> r == Abrupt(DriverUtil.DriverNotSet())
    ensures thread in drivers ==>
      r == Settle(until(WaitCall(drivers[thread], Explicit(Duration(timeout)), ElementToBeClickable(element))))
  {
    ElementWait(drivers, thread, ElementToBeClickable(element), timeout, ClickableClauses, until)
  }

  /** waitForClickableElement(By, int). */
  function WaitForClickableElementLocated(drivers: map<DriverUtil.ThreadId, DriverUtil.WebDriver>, thread: DriverUtil.ThreadId,
                                          locator: By, timeout: int, until: ElementUntil)
    : (r: Completion<Option<WebElement>>)
    ensures thread !in drivers ==> r == Abrupt(DriverUtil.DriverNotSet())
    ensures thread in drivers ==>
      r == Settle(until(WaitCall(drivers[thread], Explicit(Duration(timeout)), ElementToBeClickableLocated(locator))))
  {
    ElementWait(drivers, thread, ElementToBeClickableLocated(locator), timeout, ClickableClauses, until)
  }

  /** The FluentWait that fluentWait builds: the given timeout and polling interval, the
      informational timeout message, and java.util.NoSuchElementException as the only ignored
      class, so Selenium's NoSuchElementException is not ignored. */
  function FluentPolicy(timeoutInSeconds: int, pollEverySecond: int): (p: WaitPolicy)
    ensures p.Fluent? && p.timeout.seconds == timeoutInSeconds && p.pollingEvery.seconds == pollEverySecond
    ensures forall c :: c in p.ignoring <==> c == UtilNoSuchElementExceptionClass
    ensures forall c :: c in p.ignoring ==> !IsSubclassOf(NoSuchElementExceptionClass, c)
    ensures p.message == ConsoleUtil.InformationalMessageSymbol + " Waiting for element to appear..."
  {
    var symbol, text := ConsoleUtil.GetTextFormat(INFORMATIONAL_MESSAGE_SYMBOL), " " + "Waiting for element to appear...";
    assert symbol == ConsoleUtil.InformationalMessageSymbol;
    assert text == " Waiting for element to appear...";
    Fluent(Duration(timeoutInSeconds), Duration(pollEverySecond), symbol + text, [UtilNoSuchElementExceptionClass])
  }

  /** fluentWait(By, int, int): `element` starts null and is assigned by `until`; after the
      try, a null element returns null and any other is returned unchanged. */
  function FluentWait(drivers: map<DriverUtil.ThreadId, DriverUtil.WebDriver>, thread: DriverUtil.ThreadId,
                      locator: By, timeoutInSeconds: int, pollEverySecond: int, until: ElementUntil)
    : (r: Completion<Option<WebElement>>)
    ensures thread !in drivers ==> r == Abrupt(DriverUtil.DriverNotSet())
    ensures thread in drivers ==>
      r == Settle(until(WaitCall(drivers[thread], FluentPolicy(timeoutInSeconds, pollEverySecond),
                                 VisibilityOfElementLocated(locator))))
  {
    match DriverUtil.DriverInstance(drivers, thread)
    case Abrupt(t) => Abrupt(t)
    case Normal(driver) =>
      if driver == None then Normal(None)
      else
        var tried := until(WaitCall(driver.value, FluentPolicy(timeoutInSeconds, pollEverySecond),
                                    VisibilityOfElementLocated(locator)));
        var element: Option<WebElement> := if tried.Normal? then Some(tried.value) else None;
        if tried.Abrupt? && (CatchExceptions(FluentClauses, tried.thrown); Catch(FluentClauses, tried.thrown).None?)
        then Abrupt(tried.thrown)
        else if element == None then Normal(None)
        else Normal(element)
  }

  /** What JavascriptExecutor.executeScript can hand back for "return document.readyState". */
  datatype ScriptValue = JsNull | JsString(text: string) | JsOther

  /** Objects.equals(value, s) for a String s. */
  function ObjectsEquals(value: ScriptValue, s: string): (b: bool)
    ensures b <==> value == JsString(s)
  {
    value.JsString? && value.text == s
  }

  /** The lambda of the page-load condition on its own: document.readyState is the string
      "complete". The page-load `until` oracle receives the condition as the tag
      DocumentReadyStateComplete, so this function states what that tag stands for. */
  function PageLoadCondition(readyState: ScriptValue): (b: bool)
    ensures b <==> readyState == JsString("complete")
  {
    ObjectsEquals(readyState, "complete")
  }

  /** waitForFullPageLoad(int). The try catches every Throwable; the catch block calls
      getDriverInstance() again, so on a thread without a driver that call throws out of the
      catch block, and on a thread with one every failure is swallowed. */
  function WaitForFullPageLoad(drivers: map<DriverUtil.ThreadId, DriverUtil.WebDriver>, thread: DriverUtil.ThreadId,
                               secondsToTimeout: int, until: PageUntil)
    : (r: Completion<()>)
    ensures thread !in drivers ==> r == Abrupt(DriverUtil.DriverNotSet())
    ensures thread in drivers ==> r == Normal(())
  {
    var tried: Completion<()> :=
      match DriverUtil.DriverInstance(drivers, thread)
      case Abrupt(t) => Abrupt(t)
      case Normal(driver) =>
        if driver == None then Normal(())
        else
          match until(WaitCall(driver.value, Explicit(Duration(secondsToTimeout)), DocumentReadyStateComplete))
          case Normal(_) => Normal(())
          case Abrupt(t) => Abrupt(t);
    if tried.Normal? then Normal(())
    else if (ThrowableRoot(tried.thrown.cls); Catch([ThrowableClass], tried.thrown).None?) then Abrupt(tried.thrown)
    else match DriverUtil.DriverInstance(drivers, thread)
      case Abrupt(t) => Abrupt(t)
      case Normal(_) => Normal(())
  }

  // Which clause catches what.

  /** The clickable waits catch ElementNotInteractableException in its own clause, placed before
      the WebDriverException clause; the visibility waits, which have no such clause, catch it
      as a WebDriverException. */
  lemma NotInteractableHandlers(t: Throwable)
    requires InstanceOf(t, ElementNotInteractableExceptionClass)
    ensures Catch(ClickableClauses, t) == Some(2) && ClickableClauses[2] == ElementNotInteractableExceptionClass
    ensures Catch(VisibilityClauses, t) == Some(2) && VisibilityClauses[2] == WebDriverExceptionClass
  {
    assert t.cls == ElementNotInteractableExceptionClass by {
      if t.cls != ElementNotInteractableExceptionClass {
        LeafClass(t.cls, ElementNotInteractableExceptionClass);
      }
    }
    CatchIs(ClickableClauses, t, 2);
    CatchIs(VisibilityClauses, t, 2);
  }

  /** Selenium's NoSuchElementException is not the java.util class the waits name: it is caught
      by the WebDriverException clause, while java.util's is caught by its own clause. */
  lemma NoSuchElementHandlers(t: Throwable)
    requires InstanceOf(t, NoSuchElementExceptionClass)
    ensures !InstanceOf(t, UtilNoSuchElementExceptionClass)
    ensures Catch(VisibilityClauses, t) == Some(2) && VisibilityClauses[2] == WebDriverExceptionClass
    ensures Catch(ClickableClauses, t) == Some(3) && ClickableClauses[3] == WebDriverExceptionClass
  {
    assert t.cls == NoSuchElementExceptionClass by {
      if t.cls != NoSuchElementExceptionClass {
        LeafClass(t.cls, NoSuchElementExceptionClass);
      }
    }
    CatchIs(VisibilityClauses, t, 2);
    CatchIs(ClickableClauses, t, 3);
  }

  /** No modelled class lies strictly below ElementNotInteractableException or Selenium's
      NoSuchElementException. */
  lemma LeafClass(c: JavaClass, leaf: JavaClass)
    requires leaf == ElementNotInteractableExceptionClass || leaf == NoSuchElementExceptionClass
    requires c != leaf
    ensures !IsSubclassOf(c, leaf)
    decreases Depth(c)
  {
    if Parent(c).Some? {
      ParentShallower(c);
      if Parent(c).value != leaf {
        LeafClass(Parent(c).value, leaf);
      }
    }
  }

  /** The java.util NoSuchElementException is caught by the clause naming it in the element
      waits, and by the last-resort Exception clause in fluentWait. */
  lemma UtilNoSuchElementHandlers(message: string)
    ensures var t := Throwable(UtilNoSuchElementExceptionClass, message);
      Catch(VisibilityClauses, t) == Some(1) && Catch(ClickableClauses, t) == Some(1)
      && Catch(FluentClauses, t) == Some(2)
  {
    var t := Throwable(UtilNoSuchElementExceptionClass, message);
    CatchIs(VisibilityClauses, t, 1);
    CatchIs(ClickableClauses, t, 1);
    CatchIs(FluentClauses, t, 2);
  }

  // Waits made against the registry's state, as a test would make them.

  /** A wait on a thread that just acquired a driver hands `until` that fresh driver. */
  method WaitAfterSet(reg: DriverUtil.Registry, thread: DriverUtil.ThreadId, browser: BrowserType,
                      element: WebElement, timeout: int, until: ElementUntil)
    returns (r: Completion<Option<WebElement>>)
    requires reg.Valid() && thread !in reg.drivers
    modifies reg
    ensures reg.Valid()
    ensures var driver := DriverUtil.WebDriver(old(reg.launched), DriverUtil.DriverFor(browser).0, DriverUtil.DriverFor(browser).1);
      r == Settle(until(WaitCall(driver, Explicit(Duration(timeout)), VisibilityOf(element))))
  {
    var acquired, line := reg.SetDriverInstance(thread, browser, DriverUtil.Launched);
    r := WaitForVisibility(reg.drivers, thread, element, timeout, until);
  }

  /** Once a thread's driver is quit, every wait on that thread throws "Driver instance not set."
      and `until` is not consulted. */
  method WaitAfterQuit(reg: DriverUtil.Registry, thread: DriverUtil.ThreadId, locator: By, timeout: int,
                       until: ElementUntil, page: PageUntil)
    returns (visible: Completion<Option<WebElement>>, clickable: Completion<Option<WebElement>>,
             fluent: Completion<Option<WebElement>>, loaded: Completion<()>)
    requires reg.Valid() && thread in reg.drivers
    modifies reg
    ensures reg.Valid() && thread !in reg.drivers
    ensures visible == clickable == fluent == Abrupt(DriverUtil.DriverNotSet())
    ensures loaded == Abrupt(DriverUtil.DriverNotSet())
  {
    var q, line := reg.QuitDriver(thread, None);
    visible := WaitForVisibilityLocated(reg.drivers, thread, locator, timeout, until);
    clickable := WaitForClickableElementLocated(reg.drivers, thread, locator, timeout, until);
    fluent := FluentWait(reg.drivers, thread, locator, timeout, 1, until);
    loaded := WaitForFullPageLoad(reg.drivers, thread, timeout, page);
  }
}
