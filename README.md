# Test utilities of the eCommerce UI test framework, in Dafny

This project models three utility classes behind the framework's Selenium tests.

- **DriverUtil** is the per-thread WebDriver registry. `setDriverInstance` records the requested browser name and constructs a driver only when the calling thread has none. `getDriverInstance` returns that thread's driver or throws "Driver instance not set.". `quitDriver` quits and unbinds the driver, or prints an error line when there is none.
- **WaitUtil** holds the explicit and fluent waits. Each one reads the thread's driver, passes a condition and a waiting policy to Selenium's `until`, and turns the outcome into an element, `null`, or an escaping throwable, according to its catch clauses.
- **ConsoleUtil** maps every `TextFormat` to its ANSI escape sequence or message symbol, and builds formatted log lines.

Modules:

- `JavaLang` (java_lang.dfy) provides the Java semantics the utilities rely on:
  - null references (`Option`);
  - normal and abrupt completion (`Completion`);
  - the class hierarchy of the throwables involved;
  - how a try statement picks the catch clause that handles a throwable.
- `Enums` (enums.dfy) holds `BrowserType`, `TextFormat` and `LogType`.
- `ConsoleUtil`, `DriverUtil` and `WaitUtil` model the three classes.

How the model is built:

- The `ThreadLocal` registry is the `drivers` map of the class `DriverUtil.Registry`, keyed by thread id. The static `browserName` is one field of it, shared by every thread.
- Calls into Selenium are parameters:
  - driver construction, `quit()` and `maximize()` are given by a `Launch` value or a `quitFault`;
  - `until` is an oracle from the call it receives to how that call completes.
- The waits are functions of a snapshot of the registry's map.
- The timestamp of a log line is a parameter of `Log`. `LondonTime` is the one formatted time a run writes, because LONDON_TIME is read from the clock only once.

## Model

| member | source | states |
|---|---|---|
| JavaLang.Catch | src/test/java/utilities/WaitUtil.java:286-300 | the clause chosen is the first one whose class the throwable is an instance of; no earlier clause matches; the throwable escapes exactly when no clause matches |
| JavaLang.CatchExceptions | src/test/java/utilities/WaitUtil.java:298-300 | when every clause names a subclass of Exception and one names Exception itself, exactly the Exceptions are caught |
| JavaLang.SubclassTransitive | src/test/java/utilities/WaitUtil.java:286-300 | subclassing is transitive, so a catch clause also catches subclasses of subclasses |
| JavaLang.AncestorsOfParent | src/test/java/utilities/WaitUtil.java:286-300 | the table of ancestors the catch tests consult agrees with following the superclass chain: a class's ancestors are itself and its superclass's ancestors |
| JavaLang.SubclassDeeper | src/test/java/utilities/WaitUtil.java:286-300 | a strict subclass is deeper in the hierarchy than its superclass, so a catch list ordered from deep to shallow never names a subclass after its superclass |
| JavaLang.ThrowableRoot | src/test/java/utilities/WaitUtil.java:154 | every class is a Throwable, so `catch (Throwable error)` catches everything; no class is both an Exception and an Error |
| JavaLang.ExceptionOrError | src/test/java/utilities/WaitUtil.java:298-300 | every class below Throwable is an Exception or an Error, so a throwable that escapes the last-resort Exception clause is an Error or a bare Throwable |
| Enums.BrowserType.Name | src/test/java/utilities/enums/BrowserType.java:48-55 | the name of a browser type is non-empty and made of capital letters and underscores |
| Enums.BrowserNameInjective | src/test/java/utilities/enums/BrowserType.java:48-55 | different browser types have different names, so the stored browserName identifies the type |
| ConsoleUtil.GetTextFormat | src/test/java/utilities/ConsoleUtil.java:227-346 | every non-null TextFormat has a case, so the throwing default branch is unreachable; a message symbol never starts with ESC; every other format is an SGR sequence ESC `[` … `m` |
| ConsoleUtil.Styled | src/test/java/utilities/enums/TextFormat.java:43-99 | each style and colour picks a colour format, never a symbol and never RESET |
| ConsoleUtil.Unstyle | src/test/java/utilities/enums/TextFormat.java:43-99 | every format that is neither a message symbol nor RESET is `Styled` of some style and colour, so the SGR description covers all 44 colour formats |
| ConsoleUtil.UnstyleColour | src/test/java/utilities/enums/TextFormat.java:43-99 | within one style, each format is `Styled` of that style and its colour |
| ConsoleUtil.GetTextFormatIsSgr | src/test/java/utilities/ConsoleUtil.java:22-82 | each colour constant is the SGR sequence its style and colour determine (30-37 or 40-47, `38;5;n` or `48;5;n` palette codes, prefix `1;` for bold and `4;` for underline), except plain pink (95) and plain lime (92) |
| ConsoleUtil.PlainStandardIsSgr | src/test/java/utilities/ConsoleUtil.java:33-40 | the plain constants of the eight standard colours match their SGR parameters |
| ConsoleUtil.PlainPaletteIsSgr | src/test/java/utilities/ConsoleUtil.java:41-43 | the plain orange, pink and lime constants match their SGR parameters |
| ConsoleUtil.BoldStandardIsSgr | src/test/java/utilities/ConsoleUtil.java:46-53 | the bold constants of the eight standard colours match their SGR parameters |
| ConsoleUtil.BoldPaletteIsSgr | src/test/java/utilities/ConsoleUtil.java:54-56 | the bold orange, pink and lime constants match their SGR parameters |
| ConsoleUtil.UnderlineStandardIsSgr | src/test/java/utilities/ConsoleUtil.java:59-66 | the underline constants of the eight standard colours match their SGR parameters |
| ConsoleUtil.UnderlinePaletteIsSgr | src/test/java/utilities/ConsoleUtil.java:67-69 | the underline orange, pink and lime constants match their SGR parameters |
| ConsoleUtil.BackgroundStandardIsSgr | src/test/java/utilities/ConsoleUtil.java:72-79 | the background constants of the eight standard colours match their SGR parameters |
| ConsoleUtil.BackgroundPaletteIsSgr | src/test/java/utilities/ConsoleUtil.java:80-82 | the background orange, pink and lime constants match their SGR parameters |
| ConsoleUtil.SymbolFormat | src/test/java/utilities/ConsoleUtil.java:376-409 | a log type is always written with a message symbol |
| ConsoleUtil.ColourFormat | src/test/java/utilities/ConsoleUtil.java:379-406 | each log type is written in a bold colour format: SUCCESS in bold green, WARNING in bold orange, ERROR in bold red, INFO in bold blue |
| ConsoleUtil.Header | src/test/java/utilities/ConsoleUtil.java:381-383 | what precedes the message: the symbol, then the colour code, then the timestamp in brackets followed by a colon, then one space |
| ConsoleUtil.Log | src/test/java/utilities/ConsoleUtil.java:376-409 | a log line is the header (symbol, bold colour, bracketed timestamp), then the message unchanged, then the reset code; every log type is handled, so the empty initial string is never returned |
| ConsoleUtil.LogStartsWithSymbol | src/test/java/utilities/ConsoleUtil.java:376-409 | a log line starts with its type's message symbol |
| ConsoleUtil.LogTimestampField | src/test/java/utilities/ConsoleUtil.java:381-383 | the bracketed timestamp sits right after the symbol and the colour code, whatever the message |
| ConsoleUtil.LogTimestampShared | src/test/java/utilities/ConsoleUtil.java:17-19 | LONDON_TIME is computed once, so every line log writes in a run carries the same bracketed timestamp field, whatever its type and message |
| ConsoleUtil.LogRoundTrip | src/test/java/utilities/ConsoleUtil.java:376-409 | the log type and the message can both be read back from a log line |
| ConsoleUtil.LogInjective | src/test/java/utilities/ConsoleUtil.java:376-409 | two lines with the same timestamp are equal only when their types and messages are |
| DriverUtil.DriverFor | src/test/java/utilities/DriverUtil.java:173-218 | the switch passes `--headless` exactly for the three headless types; it builds an InternetExplorerDriver exactly for EXPLORER and a SafariDriver exactly for SAFARI; every type has a case, so the default branch is unreachable |
| DriverUtil.DriverForRoundTrip | src/test/java/utilities/DriverUtil.java:173-218 | the requested browser type can be read back from how the driver was built, so no two types get the same driver |
| DriverUtil.DriverNotSet | src/test/java/utilities/DriverUtil.java:91-96 | the exception for a missing driver is a RuntimeException and not a WebDriverException |
| DriverUtil.Get | src/test/java/utilities/DriverUtil.java:22 | `DRIVER.get()` is null exactly when the thread has no binding, and otherwise returns the bound driver |
| DriverUtil.DriverInstance | src/test/java/utilities/DriverUtil.java:91-96 | getDriverInstance throws "Driver instance not set." exactly when the thread has no driver, and otherwise returns that driver, never null |
| DriverUtil.JavaString | src/test/java/utilities/DriverUtil.java:112 | Java string conversion of the browserName reference: its text, or "null" when it is null |
| DriverUtil.QuitMessage | src/test/java/utilities/DriverUtil.java:110-114 | the quit line is the success symbol, the browser name or "null", then " driver successfully quit." |
| DriverUtil.InitMessage | src/test/java/utilities/DriverUtil.java:162-164 | the init line is the success symbol, the browser type's name, then " driver successfully initialised." |
| DriverUtil.NoDriverMessage | src/test/java/utilities/DriverUtil.java:119-123 | the missing-driver line is the error symbol followed by " DRIVER is null. Please set a driver instance." |
| DriverUtil.QuitNamesBrowser | src/test/java/utilities/DriverUtil.java:110-114 | the quit line identifies the browser: quit lines for two browser types are equal exactly when the types are |
| DriverUtil.InitNamesBrowser | src/test/java/utilities/DriverUtil.java:162-164 | the init line identifies the browser: init lines for two browser types are equal exactly when the types are |
| DriverUtil.NoDriverNotQuit | src/test/java/utilities/DriverUtil.java:110-123 | the missing-driver line differs from every quit line, because the error symbol differs from the success symbol |
| DriverUtil.Registry.constructor | src/test/java/utilities/DriverUtil.java:22-30 | when the class is loaded, no thread has a driver and browserName is null |
| DriverUtil.Registry.SetDriverInstance | src/test/java/utilities/DriverUtil.java:73-78 | browserName is overwritten in every case; a thread that already has a driver keeps it and nothing is constructed; otherwise initDriver runs; other threads are unaffected; the registry invariant is preserved |
| DriverUtil.Registry.InitDriver | src/test/java/utilities/DriverUtil.java:161-223 | unless the constructor throws, a fresh driver of the selected kind is bound to the thread and the success line is printed; the binding happens before maximise(), so it survives a throwing maximise(); a throwable from either call escapes |
| DriverUtil.Registry.GetDriverInstance | src/test/java/utilities/DriverUtil.java:91-96 | the same outcome as DriverInstance, read from the registry without changing it |
| DriverUtil.Registry.QuitDriver | src/test/java/utilities/DriverUtil.java:105-125 | a bound driver is quit, its binding removed, and the success line names the shared browserName; with no driver the thrown NoSuchMethodException is caught, the error line is printed and nothing changes; a throwable from quit() escapes unless it is a NoSuchMethodException, and the binding stays either way; other threads are unaffected |
| DriverUtil.SetTwiceConstructsOnce | src/test/java/utilities/DriverUtil.java:73-78 | two requests on one thread construct exactly one driver, of the first browser type, while browserName names the second |
| DriverUtil.QuitThenGet | src/test/java/utilities/DriverUtil.java:91-125 | after a successful quit the thread has no driver, and getDriverInstance throws |
| DriverUtil.QuitTwice | src/test/java/utilities/DriverUtil.java:105-125 | two quits in a row complete normally; the second changes nothing |
| DriverUtil.TwoThreads | src/test/java/utilities/DriverUtil.java:30 | two threads get distinct drivers of their own browser types; the shared browserName ends up naming the second request, so when the two types differ the first thread's quit line names the second thread's browser and not its own |
| WaitUtil.GetDefaultImplicitWaitTime | src/test/java/utilities/WaitUtil.java:31 | the default implicit wait is thirty seconds |
| WaitUtil.VisibilityCatchList | src/test/java/utilities/WaitUtil.java:286-300 | the visibility waits' catch list is legal Java (no clause below an earlier one), catches Exceptions only, and ends with the Exception clause |
| WaitUtil.ClickableCatchList | src/test/java/utilities/WaitUtil.java:419-441 | the same for the clickable waits' catch list, including the ElementNotInteractableException clause placed third |
| WaitUtil.FluentCatchList | src/test/java/utilities/WaitUtil.java:218-226 | the same for fluentWait's catch list |
| WaitUtil.ReachableByDepth | src/test/java/utilities/WaitUtil.java:286-300 | a catch list of distinct classes that never gets deeper has no clause below an earlier one |
| WaitUtil.Settle | src/test/java/utilities/WaitUtil.java:274-302 | what the catch lists come to: an element returned by `until` is returned; null exactly when `until` threw an Exception; otherwise the same throwable escapes, and it is an Error or a bare Throwable |
| WaitUtil.ElementWait | src/test/java/utilities/WaitUtil.java:274-302 | a thread without a driver throws "Driver instance not set."; otherwise `until` receives the thread's driver and the timeout, and the wait returns the element, returns null for every Exception, and lets anything else escape |
| WaitUtil.WaitForVisibility | src/test/java/utilities/WaitUtil.java:274-302 | as ElementWait, for visibilityOf(element) |
| WaitUtil.WaitForVisibilityLocated | src/test/java/utilities/WaitUtil.java:342-370 | as ElementWait, for visibilityOfElementLocated(locator) |
| WaitUtil.WaitForClickableElement | src/test/java/utilities/WaitUtil.java:410-443 | as ElementWait, for elementToBeClickable(element) |
| WaitUtil.WaitForClickableElementLocated | src/test/java/utilities/WaitUtil.java:483-516 | as ElementWait, for elementToBeClickable(locator) |
| WaitUtil.FluentPolicy | src/test/java/utilities/WaitUtil.java:207-214 | the fluent wait uses the given timeout and polling interval and the message made of the informational symbol and " Waiting for element to appear..."; it ignores only java.util's NoSuchElementException, not Selenium's |
| WaitUtil.FluentWait | src/test/java/utilities/WaitUtil.java:200-235 | a thread without a driver throws instead of reaching the null check; otherwise `until` receives the fluent policy, a found element is returned, every Exception gives null, and anything else escapes |
| WaitUtil.ObjectsEquals | src/test/java/utilities/WaitUtil.java:143-146 | `Objects.equals` of the script's value with a string holds exactly when the value is that string |
| WaitUtil.PageLoadCondition | src/test/java/utilities/WaitUtil.java:140-147 | the page counts as loaded exactly when the script returns the string "complete" |
| WaitUtil.WaitForFullPageLoad | src/test/java/utilities/WaitUtil.java:139-160 | with a driver, every failure is caught and swallowed; without one, the second getDriverInstance call inside the catch block throws "Driver instance not set." out of the method |
| WaitUtil.NotInteractableHandlers | src/test/java/utilities/WaitUtil.java:427-433 | the clickable waits catch ElementNotInteractableException in its own clause, before the WebDriverException clause; the visibility waits catch it as a WebDriverException |
| WaitUtil.NoSuchElementHandlers | src/test/java/utilities/WaitUtil.java:11 | Selenium's NoSuchElementException is not the java.util class the waits import, so it falls through to the WebDriverException clause |
| WaitUtil.LeafClass | src/test/java/utilities/WaitUtil.java:427 | no modelled class is a strict subclass of ElementNotInteractableException or of Selenium's NoSuchElementException |
| WaitUtil.UtilNoSuchElementHandlers | src/test/java/utilities/WaitUtil.java:218-226 | java.util's NoSuchElementException is caught by its own clause in the element waits and by the Exception clause in fluentWait |
| WaitUtil.WaitAfterSet | src/test/java/utilities/WaitUtil.java:274-302 | after a thread acquires a driver, a wait on that thread hands `until` the freshly constructed driver |
| WaitUtil.WaitAfterQuit | src/test/java/utilities/WaitUtil.java:139-160 | after a thread's driver is quit, every wait on that thread throws "Driver instance not set." without consulting `until` |

## Left out

- WaitUtil.hardWaitForSeconds: Thread.sleep and thread interruption have no counterpart in a sequential model without a clock.
- Selenium's polling inside `until`, the timing of the waits, and the behaviour of the drivers: `until` and the driver calls are oracles.
- ThreadGuard.protect, the driver options objects, and the log output of the waits and of LoggerUtil. The waits' LOGGER calls are treated as never throwing, and the lines they write are not modelled.
- LoggerUtil, ConfigReader, ActionsUtil, ElementUtils, FormUtil, GenericElementUtils and SwitchContextUtils are not part of this model. Neither is the older duplicate utilities/TextFormat.java.
- ConsoleUtil.printStylingOptions: it is console printing of the same constants that GetTextFormat returns, together with DEBUG_MESSAGE_SYMBOL; it prints the constants directly and does not call getTextFormat.
- ConsoleUtil.getFormattedDateTime: date formatting in the London time zone is not modelled. LONDON_TIME is computed once, when the class loads, so the model passes that formatted time as the `timestamp` parameter of Log. `LondonTime` names it without fixing its value.
- ConsoleUtil.Log: the output is not checked against a terminal's rendering. The symbol constants are the code points exactly as they appear in the source text, which reads as Mac Roman rendered emoji.
- Real concurrency: registry calls run one at a time, each on the thread it names. Visibility across threads and the ThreadLocal's memory behaviour are not modelled.
- ConsoleUtil.GetTextFormat: a null argument is not modelled, because the model's enumerations have no null. In the source, `getTextFormat(null)` throws NullPointerException at the switch.
- ConsoleUtil.Log: null arguments are not modelled. `log(m, null)` throws NullPointerException at the switch, and `log(null, t)` writes the text "null" in place of the message.
- DriverUtil.Registry.SetDriverInstance: a null browser is not modelled. `setDriverInstance(null)` throws NullPointerException at `browser.toString()`.
- DriverUtil.java names `TextFormat` and `BrowserType` without importing `utilities.enums`. Inside package `utilities`, `TextFormat` would resolve to the duplicate utilities/TextFormat.java enum, which `getTextFormat` does not accept. The model reads both names as the `utilities.enums` types.
- Throwable classes outside the listed hierarchy are represented by their nearest listed ancestor, for example IllegalStateException by RuntimeException.
- The second getDriverInstance call inside each wait's try is taken to return the same driver as the first. Nothing changes the map between the two calls.
- DriverUtil.Registry.InitDriver: the line printed before maximise() is returned as `line`. The window state is recorded only as the set of maximised driver serials.
