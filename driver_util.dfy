/** DriverUtil: the per-thread WebDriver registry. The ThreadLocal DRIVER becomes a map from
    the calling thread's id to the driver bound to it (a thread without an entry reads null),
    operated on one call at a time; the static browserName is one field shared by all threads.
    Driver construction, quit() and window maximisation are calls into Selenium: the model
    takes their outcome as a parameter and represents a constructed driver by a fresh handle. */
module DriverUtil {
  import opened JavaLang
  import opened Enums
  import ConsoleUtil

  /** Identifies the calling thread. */
  type ThreadId = nat

  /** The driver classes initDriver constructs. */
  datatype Engine = ChromeDriver | FirefoxDriver | EdgeDriver | SafariDriver | InternetExplorerDriver

  /** An opaque WebDriver handle. The serial number tells constructed drivers apart; engine and
      headless record how initDriver constructed it. */
  datatype WebDriver = WebDriver(serial: nat, engine: Engine, headless: bool)

  /** What became of the foreign calls in initDriver: the driver was constructed and its
      window maximised; the constructor threw; or the driver was constructed but maximise() threw. */
  datatype Launch = Launched | ConstructorThrows(thrown: Throwable) | MaximiseThrows(thrown: Throwable)

  /** The switch of initDriver: the driver class and whether "--headless" is passed, for each
      browser type. Every BrowserType has a case, so the default branch that throws
      "Driver definition unclear" cannot be reached. */
  function DriverFor(browser: BrowserType): (r: (Engine, bool))
    ensures r.1 <==> browser in {CHROME_HEADLESS, FIREFOX_HEADLESS, EDGE_HEADLESS}
    ensures r.0 == InternetExplorerDriver <==> browser == EXPLORER
    ensures r.0 == SafariDriver <==> browser == SAFARI
  {
    match browser
    case CHROME => (ChromeDriver, false)
    case FIREFOX => (FirefoxDriver, false)
    case EDGE => (EdgeDriver, false)
    case SAFARI => (SafariDriver, false)
    case EXPLORER => (InternetExplorerDriver, false)
    case CHROME_HEADLESS => (ChromeDriver, true)
    case FIREFOX_HEADLESS => (FirefoxDriver, true)
    case EDGE_HEADLESS => (EdgeDriver, true)
  }

  /** The browser type a constructed driver was asked for, read back from how it was built. */
  function BrowserOf(engine: Engine, headless: bool): Option<BrowserType>
  {
    match (engine, headless)
    case (ChromeDriver, false) => Some(CHROME)
    case (FirefoxDriver, false) => Some(FIREFOX)
    case (EdgeDriver, false) => Some(EDGE)
    case (SafariDriver, false) => Some(SAFARI)
    case (InternetExplorerDriver, false) => Some(EXPLORER)
    case (ChromeDriver, true) => Some(CHROME_HEADLESS)
    case (FirefoxDriver, true) => Some(FIREFOX_HEADLESS)
    case (EdgeDriver, true) => Some(EDGE_HEADLESS)
    case _ => None
  }

  /** Different browser types get differently built drivers: the type can be read back. */
  lemma DriverForRoundTrip(browser: BrowserType)
    ensures BrowserOf(DriverFor(browser).0, DriverFor(browser).1) == Some(browser)
  {
  }

  /** The exception getDriverInstance throws on a thread with no driver. */
  function DriverNotSet(): (t: Throwable)
    ensures t.cls == RuntimeExceptionClass && !InstanceOf(t, WebDriverExceptionClass)
  {
    Throwable(RuntimeExceptionClass, "Driver instance not set.")
  }

  /** DRIVER.get() on the calling thread: null when nothing is bound to it. */
  function Get(drivers: map<ThreadId, WebDriver>, thread: ThreadId): (r: Option<WebDriver>)
    ensures r.None? <==> thread !in drivers
    ensures r.Some? ==> r.value == drivers[thread]
  {
    if thread in drivers then Some(drivers[thread]) else None
  }

  /** getDriverInstance on a snapshot of the registry: throws "Driver instance not set." exactly
      when the thread has no driver, and otherwise returns its driver, which is never null. */
  function DriverInstance(drivers: map<ThreadId, WebDriver>, thread: ThreadId): (r: Completion<Option<WebDriver>>)
    ensures r.Abrupt? <==> thread !in drivers
    ensures r.Abrupt? ==> r.thrown == DriverNotSet()
    ensures r.Normal? ==> r.value == Some(drivers[thread])
  {
    if Get(drivers, thread) == None then Abrupt(DriverNotSet())
    else Normal(Get(drivers, thread))
  }

  /** Java's string conversion of a String reference that may be null. */
  function JavaString(s: Option<string>): (r: string)
    ensures s.Some? ==> r == s.value
    ensures s.None? ==> r == "null"
  {
    match s
    case None => "null"
    case Some(v) => v
  }

  /** The line quitDriver prints after quitting a driver: the success symbol, the browser
      name (or "null"), then the fixed text. */
  function QuitMessage(browserName: Option<string>): (r: string)
    ensures var symbol, name, text := ConsoleUtil.SuccessMessageSymbol, JavaString(browserName), " driver successfully quit.";
      |r| == |symbol| + |name| + |text| && r[..|symbol|] == symbol
      && r[|symbol|..|symbol| + |name|] == name && r[|symbol| + |name|..] == text
  {
    ConsoleUtil.GetTextFormat(SUCCESS_MESSAGE_SYMBOL) + JavaString(browserName) + " driver successfully quit."
  }

  /** The line initDriver prints once the driver is constructed and bound: the success
      symbol, the browser type's name, then the fixed text. */
  function InitMessage(browser: BrowserType): (r: string)
    ensures var symbol, name, text := ConsoleUtil.SuccessMessageSymbol, browser.Name(), " driver successfully initialised.";
      |r| == |symbol| + |name| + |text| && r[..|symbol|] == symbol
      && r[|symbol|..|symbol| + |name|] == name && r[|symbol| + |name|..] == text
  {
    var text := " " + "driver successfully initialised.";
    assert text == " driver successfully initialised.";
    ConsoleUtil.GetTextFormat(SUCCESS_MESSAGE_SYMBOL) + browser.Name() + text
  }

  /** The line quitDriver prints when the thread has no driver: the error symbol, then the text. */
  function NoDriverMessage(): (r: string)
    ensures var symbol := ConsoleUtil.ErrorMessageSymbol;
      |symbol| <= |r| && r[..|symbol|] == symbol
      && r[|symbol|..] == " " + "DRIVER is null. Please set a driver instance."
  {
    ConsoleUtil.GetTextFormat(ERROR_MESSAGE_SYMBOL) + " " + "DRIVER is null. Please set a driver instance."
  }

  /** The quit line names the browser: two quit lines for browser types are equal exactly
      when the types are. */
  lemma QuitNamesBrowser(a: BrowserType, b: BrowserType)
    ensures QuitMessage(Some(a.Name())) == QuitMessage(Some(b.Name())) <==> a == b
  {
    var ma, mb := QuitMessage(Some(a.Name())), QuitMessage(Some(b.Name()));
    var symbol, text := ConsoleUtil.SuccessMessageSymbol, " driver successfully quit.";
    if ma == mb {
      assert ma[|symbol|..|ma| - |text|] == a.Name();
      assert mb[|symbol|..|mb| - |text|] == b.Name();
      BrowserNameInjective(a, b);
    }
  }

  /** The init line names the browser: two init lines are equal exactly when the types are. */
  lemma InitNamesBrowser(a: BrowserType, b: BrowserType)
    ensures InitMessage(a) == InitMessage(b) <==> a == b
  {
    var ma, mb := InitMessage(a), InitMessage(b);
    var symbol, text := ConsoleUtil.SuccessMessageSymbol, " driver successfully initialised.";
    if ma == mb {
      assert ma[|symbol|..|ma| - |text|] == a.Name();
      assert mb[|symbol|..|mb| - |text|] == b.Name();
      BrowserNameInjective(a, b);
    }
  }

  /** The missing-driver line is never mistaken for a quit line: its symbol is the error
      symbol, which differs from the success symbol in its third character. */
  lemma NoDriverNotQuit(browserName: Option<string>)
    ensures NoDriverMessage() != QuitMessage(browserName)
  {
    assert NoDriverMessage()[2] == ConsoleUtil.ErrorMessageSymbol[2];
    assert QuitMessage(browserName)[2] == ConsoleUtil.SuccessMessageSymbol[2];
  }

  /** The registry's static state. `launched` counts the drivers constructed so far and
      provides the next fresh serial; `quit` holds the serials of drivers that were quit and
      `maximised` those whose window was maximised. */
  class Registry {
    var drivers: map<ThreadId, WebDriver>
    var browserName: Option<string>
    var launched: nat
    var quit: set<nat>
    var maximised: set<nat>

    /** Every bound driver was constructed and has not been quit; no driver is bound to two
        threads; a driver is bound only after some thread has set browserName; only
        constructed drivers are quit. */
    ghost predicate Valid()
      reads this
    {
      && (forall t :: t in drivers ==> drivers[t].serial < launched && drivers[t].serial !in quit)
      && (forall t, u :: t in drivers && u in drivers && t != u ==> drivers[t].serial != drivers[u].serial)
      && (drivers != map[] ==> browserName.Some?)
      && (forall s :: s in quit ==> s < launched)
    }

    /** Class load: no thread has a driver and browserName is null. */
    constructor ()
      ensures Valid()
      ensures drivers == map[] && browserName == None
      ensures launched == 0 && quit == {} && maximised == {}
    {
      drivers := map[];
      browserName := None;
      launched := 0;
      quit := {};
      maximised := {};
    }

    /** setDriverInstance(browser) called on `thread`. browserName is overwritten first, in every
        case. A thread that already has a driver keeps it, whatever browser is asked for, and
        nothing is constructed; otherwise initDriver runs. No other thread's binding changes. */
    method SetDriverInstance(thread: ThreadId, browser: BrowserType, launch: Launch)
      returns (r: Completion<()>, line: Option<string>)
      requires Valid()
      modifies this
      ensures Valid()
      ensures browserName == Some(browser.Name())
      ensures forall u :: u != thread ==> Get(drivers, u) == Get(old(drivers), u)
      ensures thread in old(drivers) ==>
        && r == Normal(()) && line.None?
        && drivers == old(drivers)
        && launched == old(launched) && quit == old(quit) && maximised == old(maximised)
      ensures thread !in old(drivers) ==>
        && InitDriverDone(thread, browser, launch, r)
        && line == (if launch.ConstructorThrows? then None else Some(InitMessage(browser)))
    {
      browserName := Some(browser.Name());
      if Get(drivers, thread) == None {
        r, line := InitDriver(thread, browser, launch);
      } else {
        r, line := Normal(()), None;
      }
    }

    /** The state initDriver leaves behind on a thread that had no driver: unless the constructor
        threw, a fresh driver of the requested kind is bound, before maximise() is called; the
        window is maximised unless maximise() threw; a throwable from either call escapes. */
    twostate predicate InitDriverDone(thread: ThreadId, browser: BrowserType, launch: Launch, new r: Completion<()>)
      reads this
    {
      && quit == old(quit)
      && match launch
        case ConstructorThrows(t) =>
          r == Abrupt(t) && drivers == old(drivers)
          && launched == old(launched) && maximised == old(maximised)
        case MaximiseThrows(t) =>
          r == Abrupt(t) && launched == old(launched) + 1 && maximised == old(maximised)
          && drivers == old(drivers)[thread := WebDriver(old(launched), DriverFor(browser).0, DriverFor(browser).1)]
        case Launched =>
          r == Normal(()) && launched == old(launched) + 1 && maximised == old(maximised) + {old(launched)}
          && drivers == old(drivers)[thread := WebDriver(old(launched), DriverFor(browser).0, DriverFor(browser).1)]
    }

    /** initDriver(browser): construct the driver the switch selects, bind it to the thread,
        print the success line, then maximise its window. `line` is what is printed, if anything. */
    method InitDriver(thread: ThreadId, browser: BrowserType, launch: Launch)
      returns (r: Completion<()>, line: Option<string>)
      requires Valid() && thread !in drivers && browserName.Some?
      modifies this
      ensures Valid() && browserName == old(browserName)
      ensures InitDriverDone(thread, browser, launch, r)
      ensures line == (if launch.ConstructorThrows? then None else Some(InitMessage(browser)))
    {
      if launch.ConstructorThrows? {
        return Abrupt(launch.thrown), None;
      }
      var (engine, headless) := DriverFor(browser);
      var driver := WebDriver(launched, engine, headless);
      launched := launched + 1;
      drivers := drivers[thread := driver];
      line := Some(InitMessage(browser));
      // DRIVER.get() below reads the binding just made, so it is never null.
      var bound := Get(drivers, thread);
      assert bound == Some(driver);
      if launch.MaximiseThrows? {
        return Abrupt(launch.thrown), line;
      }
      maximised := maximised + {bound.value.serial};
      r := Normal(());
    }

    /** getDriverInstance() called on `thread`; changes nothing. */
    method GetDriverInstance(thread: ThreadId) returns (r: Completion<Option<WebDriver>>)
      ensures r == DriverInstance(drivers, thread)
    {
      if Get(drivers, thread) == None {
        return Abrupt(DriverNotSet());
      }
      return Normal(Get(drivers, thread));
    }

    /** quitDriver() called on `thread`, where `quitFault` is what quit() throws, if anything.
        With a driver bound, the driver is quit and the binding removed, and the success line
        names the shared browserName. With none, the NoSuchMethodException thrown inside the
        try is caught, the error line is printed and nothing changes. A throwable from quit()
        escapes unless it is a NoSuchMethodException, the only class caught, and either way
        leaves the binding in place. `line` is what is printed, if anything. */
    method QuitDriver(thread: ThreadId, quitFault: Option<Throwable>) returns (r: Completion<()>, line: Option<string>)
      requires Valid()
      modifies this
      ensures Valid()
      ensures browserName == old(browserName) && launched == old(launched) && maximised == old(maximised)
      ensures forall u :: u != thread ==> Get(drivers, u) == Get(old(drivers), u)
      ensures thread !in old(drivers) ==>
        r == Normal(()) && line == Some(NoDriverMessage()) && drivers == old(drivers) && quit == old(quit)
      ensures thread in old(drivers) && quitFault.None? ==>
        && r == Normal(()) && line == Some(QuitMessage(browserName))
        && drivers == old(drivers) - {thread} && quit == old(quit) + {old(drivers)[thread].serial}
      ensures thread in old(drivers) && quitFault.Some? && !InstanceOf(quitFault.value, NoSuchMethodExceptionClass) ==>
        r == Abrupt(quitFault.value) && line.None? && drivers == old(drivers) && quit == old(quit)
      ensures thread in old(drivers) && quitFault.Some? && InstanceOf(quitFault.value, NoSuchMethodExceptionClass) ==>
        r == Normal(()) && line == Some(NoDriverMessage()) && drivers == old(drivers) && quit == old(quit)
    {
      var tried: Completion<()>;
      line := None;
      var current := Get(drivers, thread);
      if current != None {
        if quitFault.Some? {
          tried := Abrupt(quitFault.value);
        } else {
          quit := quit + {current.value.serial};
          drivers := drivers - {thread};
          line := Some(QuitMessage(browserName));
          return Normal(()), line;
        }
      } else {
        tried := Abrupt(Throwable(NoSuchMethodExceptionClass, ""));
      }
      // catch (NoSuchMethodException e)
      if Catch([NoSuchMethodExceptionClass], tried.thrown).Some? {
        line := Some(NoDriverMessage());
        r := Normal(());
      } else {
        r := tried;
      }
    }
  }

  // Call sequences on one registry, as a test class would make them.

  /** Asking twice on one thread constructs one driver: the second call keeps the first
      driver (of the first browser type) but still overwrites browserName. */
  method SetTwiceConstructsOnce(reg: Registry, thread: ThreadId, first: BrowserType, second: BrowserType)
    requires reg.Valid() && thread !in reg.drivers
    modifies reg
    ensures reg.Valid()
    ensures reg.launched == old(reg.launched) + 1
    ensures thread in reg.drivers && reg.drivers[thread].serial == old(reg.launched)
    ensures BrowserOf(reg.drivers[thread].engine, reg.drivers[thread].headless) == Some(first)
    ensures reg.browserName == Some(second.Name())
  {
    var r1, line1 := reg.SetDriverInstance(thread, first, Launched);
    var r2, line2 := reg.SetDriverInstance(thread, second, Launched);
    DriverForRoundTrip(first);
  }

  /** After a successful quit the thread has no driver, so getDriverInstance throws. */
  method QuitThenGet(reg: Registry, thread: ThreadId) returns (r: Completion<Option<WebDriver>>)
    requires reg.Valid() && thread in reg.drivers
    modifies reg
    ensures reg.Valid() && thread !in reg.drivers
    ensures r == Abrupt(DriverNotSet())
  {
    var q, line := reg.QuitDriver(thread, None);
    r := reg.GetDriverInstance(thread);
  }

  /** quitDriver twice in a row: no throwable escapes either call, and the second changes nothing. */
  method QuitTwice(reg: Registry, thread: ThreadId) returns (r1: Completion<()>, r2: Completion<()>)
    requires reg.Valid()
    modifies reg
    ensures reg.Valid()
    ensures r1 == Normal(()) && r2 == Normal(())
    ensures reg.drivers == old(reg.drivers) - {thread}
  {
    var line1, line2;
    r1, line1 := reg.QuitDriver(thread, None);
    ghost var between := reg.drivers;
    r2, line2 := reg.QuitDriver(thread, None);
    assert reg.drivers == between;
  }

  /** Two threads that each set a driver get two different drivers, and the second call
      leaves the first thread's driver alone; browserName ends up naming the second request,
      so the first thread's quit line names the other thread's browser. */
  method TwoThreads(reg: Registry, t1: ThreadId, t2: ThreadId, b1: BrowserType, b2: BrowserType)
    requires reg.Valid() && t1 != t2 && t1 !in reg.drivers && t2 !in reg.drivers
    modifies reg
    ensures reg.Valid()
    ensures t1 in reg.drivers && t2 in reg.drivers && reg.drivers[t1] != reg.drivers[t2]
    ensures BrowserOf(reg.drivers[t1].engine, reg.drivers[t1].headless) == Some(b1)
    ensures BrowserOf(reg.drivers[t2].engine, reg.drivers[t2].headless) == Some(b2)
    ensures QuitMessage(reg.browserName) == QuitMessage(Some(b2.Name()))
    ensures b1 != b2 ==> QuitMessage(reg.browserName) != QuitMessage(Some(b1.Name()))
  {
    var r1, line1 := reg.SetDriverInstance(t1, b1, Launched);
    var r2, line2 := reg.SetDriverInstance(t2, b2, Launched);
    DriverForRoundTrip(b1);
    DriverForRoundTrip(b2);
    QuitNamesBrowser(b2, b1);
  }
}
