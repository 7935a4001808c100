# OpenRemote logging facade: a Dafny model

This project models the core of `org.openremote.logging.LogService`. That class is
OpenRemote's logging facade over `java.util.logging` (JUL). The model has five parts:

- **Naming.** A logger's name is the root `OpenRemote`, then an optional application
  segment, then the caller's category, joined by dots (`InternalHierarchy`).
- **Registration.** The facade either finds the logger already registered under that name or
  creates one. To create one, it loads the provider class of the chosen `ProviderType`
  reflectively and adds the provider to the LogManager registry (`registerLogger`,
  `ProviderType.loadInstance`). A provider whose class cannot be loaded is replaced by the
  internal JUL logger, and an error report is written.
- **Consumers.** The internal JUL logger (`InternalLogger.addLogConsumer`) attaches a rotating
  file handler or a standard output handler. The file handler is configured from a
  `FileConfiguration` property bag.
- **Configuration bags.** `FileConfiguration` and `ConsoleConfiguration` are string maps with
  getters that fall back to defaults.
- **Formatting.** `SingleLineFormatter.format` renders a log record as a header line. When the
  record carries a throwable, the header is followed by two more parts:
  - a short form of the throwable's cause chain, innermost first;
  - the stack traces, in full for the innermost throwable and only the top frames for each
    wrapping one.

Modules:

- `JavaLang`: the Java platform pieces the code relies on. A `null` string is `None`, and
  appending it renders `"null"`. The module also has `Integer.parseInt`/`toString` on 32-bit
  values, `startsWith` and ASCII `equalsIgnoreCase`.
- `Hierarchies`: `InternalHierarchy`, and the canonical name with its inverse (splitting at
  dots).
- `Configuration`: the two consumer configuration classes and their getters.
- `Providers`: `ProviderType`, the plugin loader, `Provider` and `addLogConsumer`.
- `Service`: `LogRuntime` and `LogService`.
  - `LogRuntime` holds the static defaults, the LogManager registry of loggers by name, and
    the reports written to the ErrorManager.
  - `LogService` is the facade class: its constructors, `register`, `setProvider`,
    `setApplicationHierarchy` and `registerLogger`.
- `Formatter`: `SingleLineFormatter`.
  - Throwables live in a heap (a sequence), and each one's cause is an index into that heap,
    so cyclic cause chains can be expressed.
  - Each output-building method is proved equal to a specification function. The functions
    append text in the same order as the Java `StringBuilder` calls.

Java exceptions are modelled as results. The `Outcome`/`Result` failure value names the
exception that escapes: `NullPointerException`, `ClassCastException`, the `Error` thrown for
an unimplemented consumer, or a throwable the loader does not catch.

Where the source's Javadoc and its code differ, the model follows the code. For example, the
Javadoc of `loadInstance` says that "in case of any errors" it falls back to the internal JUL
provider (LogService.java:178), yet some errors escape. The cases where the code does something
a reader of the Javadoc would not expect include:

- `loadInstance` catches exactly eight kinds of failure. Anything else propagates out of the
  facade's constructor, for example a `NoClassDefFoundError` or a missing context class
  loader.
- With a `null` default provider type, registering a name that is not yet in the registry
  throws `NullPointerException`.
- `getFileBackupCount` and `getFileSizeLimit` call `getFileIdentifier` to build the error
  report for a malformed value. They therefore throw when the identifier is missing.
- `addLogConsumer(TEXT_FILE, …)` with something other than a `FileConfiguration` reads an
  empty bag. It then throws for the missing identifier.
- A wrapping throwable with an empty stack trace makes `printStackTraces` index past the end
  of the array. `format` catches that, and the whole entry becomes
  `Log Implementation Error: java.lang.ArrayIndexOutOfBoundsException: 0`.
- The Javadoc of `printStackTraces` promises "a single-line top of the stack for wrapping
  exceptions" (LogService.java:1094). For a wrapper with three or more frames, the code prints
  three frames followed by `...` (LogService.java:1160-1196). See `Formatter.AppendWrapperStack`
  and `Formatter.WrapperShowsTopThreeFrames`.
- The Javadoc of `setDefaultProvider` says that a change "will not affect existing instances,
  only new ones" (LogService.java:344-347). Two cases contradict it:
  - A facade built with `register == false` that has no provider type of its own reads the
    default when `register()` is called later (`Service.LogService.Register`).
  - A new facade whose name is already registered keeps the provider registered earlier,
    whatever the default now is (`Service.RegistrationEffect`).

## Model

| member | source | states |
|---|---|---|
| JavaLang.ParseIntToString | src/main/java/org/openremote/logging/LogService.java:1311-1318 | `Integer.toString` of any 32-bit value parses back to the same value, which is what the settings constructor relies on |
| Hierarchies.CanonicalNameOf | src/main/java/org/openremote/logging/LogService.java:654-675 | the name starts with the root; a present category is its last dot-separated suffix; with no present segment the name is the root alone |
| Hierarchies.CanonicalNameIsDottedPath | src/main/java/org/openremote/logging/LogService.java:654-675 | the name is the root joined by dots with the present segments, where null and empty segments are skipped |
| Hierarchies.CanonicalNameSplits | src/main/java/org/openremote/logging/LogService.java:654-675 | when no part contains a dot, splitting the name at dots gives back the root and the present segments |
| Hierarchies.CanonicalNameInjective | src/main/java/org/openremote/logging/LogService.java:654-675 | under one dot-free root, two hierarchies with dot-free segments get the same name only when their present segments are equal |
| Hierarchies.DefaultApplicationName | src/main/java/org/openremote/logging/LogService.java:417-429 | application "manna" and category "custom" give `OpenRemote.manna.custom`; an empty or null application gives `OpenRemote.custom` |
| Hierarchies.InternalHierarchy.Root | src/main/java/org/openremote/logging/LogService.java:642-645 | a root hierarchy's canonical name is the root string |
| Hierarchies.InternalHierarchy.Nested | src/main/java/org/openremote/logging/LogService.java:647-652 | the new hierarchy's root is the parent's canonical name; the application segment and the category are kept as given |
| Hierarchies.InternalHierarchy.SetApplicationHierarchy | src/main/java/org/openremote/logging/LogService.java:677-680 | only the application segment changes; the canonical name is recomputed from the new segment |
| Configuration.FileIdentifier | src/main/java/org/openremote/logging/LogService.java:1325-1332 | returns the stored identifier exactly when one is present, and throws `NullPointerException` when it is missing |
| Configuration.IntSetting | src/main/java/org/openremote/logging/LogService.java:1356-1406 | a missing value gives the default; a value that parses is returned; a malformed value gives the default when the identifier is present; the getter throws exactly when the value is malformed and the identifier is missing |
| Configuration.FileBackupCount | src/main/java/org/openremote/logging/LogService.java:1356-1380 | `getFileBackupCount`: 1 when missing; the parsed value when it parses; 1 for a malformed value when the identifier is set; throws exactly when the value is malformed and the identifier is missing |
| Configuration.FileSizeLimit | src/main/java/org/openremote/logging/LogService.java:1382-1406 | `getFileSizeLimit`: 10000000 when missing; the parsed value when it parses; 10000000 for a malformed value when the identifier is set; throws exactly when the value is malformed and the identifier is missing |
| Configuration.FileAppendSetting | src/main/java/org/openremote/logging/LogService.java:1408-1431 | true exactly when the value is present and equals "true" ignoring case |
| Configuration.SettingsReadableWithIdentifier | src/main/java/org/openremote/logging/LogService.java:1356-1406 | once the identifier is set, the backup-count and size-limit getters never throw |
| Configuration.FileSettingsRoundTrip | src/main/java/org/openremote/logging/LogService.java:1311-1431 | the getters return the identifier, backup count, size limit and append flag that the four-argument constructor stored |
| Configuration.FileConfiguration.Empty | src/main/java/org/openremote/logging/LogService.java:1301-1304 | starts with an empty bag |
| Configuration.FileConfiguration.constructor | src/main/java/org/openremote/logging/LogService.java:1306-1309 | the bag holds only the file identifier |
| Configuration.FileConfiguration.WithSettings | src/main/java/org/openremote/logging/LogService.java:1311-1318 | the bag holds the four settings as strings, and the getters read them back |
| Configuration.FileConfiguration.SetProperty | src/main/java/org/openremote/logging/LogService.java:1433-1441 | `getProperty(name)` now returns the new value; every other property is unchanged |
| Configuration.ConsoleConfiguration.constructor | src/main/java/org/openremote/logging/LogService.java:1273-1282 | the bag holds the level's name under LEVEL, which `getLevel` returns |
| Configuration.ConsoleConfiguration.SetProperty | src/main/java/org/openremote/logging/LogService.java:1284-1292 | `getProperty(name)` now returns the new value; every other property is unchanged |
| Providers.LoadFailureMessage | src/main/java/org/openremote/logging/LogService.java:202-288 | each caught failure's report, which always ends with the notice that the loader falls back to the internal JUL logger |
| Providers.LoadInstance | src/main/java/org/openremote/logging/LogService.java:184-289 | success gives a fresh provider of the type's class; a caught failure gives a fresh internal logger plus that failure's report; both are named by the hierarchy's canonical name and start with no handlers; an uncaught throwable propagates |
| Providers.TextFileHandler | src/main/java/org/openremote/logging/LogService.java:804-870 | throws exactly when the identifier is missing; otherwise it gives the file handler exactly when the file opens and the count is at least 1 and the limit at least 0, carrying the configured identifier, count, limit and append flag, and the console fallback otherwise |
| Providers.Provider.constructor | src/main/java/org/openremote/logging/LogService.java:706-711 | the JUL logger's name is the hierarchy's canonical name at construction; the provider shares the hierarchy object and starts with no handlers |
| Providers.Provider.AddLogConsumer | src/main/java/org/openremote/logging/LogService.java:770-788 | TEXT_FILE appends the file handler or throws; STANDARD_OUTPUT appends the standard output handler and then throws "Unimplemented log consumer option STANDARD_OUTPUT"; XML_FILE throws and changes nothing |
| Providers.Provider.AddLogConsumerWithBreak | src/main/java/org/openremote/logging/LogService.java:770-788 | same as AddLogConsumer, except that STANDARD_OUTPUT returns normally after appending its handler |
| Providers.Provider.CreateStandardOutput | src/main/java/org/openremote/logging/LogService.java:790-793 | appends exactly one standard output handler at INFO, whatever the configuration |
| Providers.Provider.CreateTextFileLog | src/main/java/org/openremote/logging/LogService.java:804-870 | appends the handler TextFileHandler describes; when that throws, the handlers are unchanged |
| Providers.StandardOutputFallsThrough | src/main/java/org/openremote/logging/LogService.java:780-787 | on a fresh internal logger, STANDARD_OUTPUT throws as written and succeeds with the break |
| Service.ResolveProviderType | src/main/java/org/openremote/logging/LogService.java:594-597 | a requested type wins; null means the process default |
| Service.RegistrationOnlyAdds | src/main/java/org/openremote/logging/LogService.java:592-628 | registration never removes or replaces a registered logger; the registry grows by exactly one entry when a new name registers successfully |
| Service.RegistrationYieldsRegisteredProvider | src/main/java/org/openremote/logging/LogService.java:592-628 | registration succeeds exactly when the registry then holds a provider under the name, and the delegate is that provider |
| Service.LogRuntime.constructor | src/main/java/org/openremote/logging/LogService.java:99-317 | initial statics: root `OpenRemote`, empty application segment, JUL provider type, empty registry |
| Service.LogRuntime.SetDefaultApplicationLogHierarchy | src/main/java/org/openremote/logging/LogService.java:337-340 | sets the default application segment and changes nothing else |
| Service.LogRuntime.SetDefaultProvider | src/main/java/org/openremote/logging/LogService.java:351-358 | sets the default provider type and changes nothing else |
| Service.LogRuntime.AddProvider | src/main/java/org/openremote/logging/LogService.java:603-607 | adds the loaded provider under its name and records its loading report, keeping every registered provider under its own name |
| Service.LogService.Unregistered | src/main/java/org/openremote/logging/LogService.java:417-429 | the facade's hierarchy is the root, the current default application segment and the category; nothing is registered |
| Service.LogService.RegisterLogger | src/main/java/org/openremote/logging/LogService.java:592-628 | an existing provider is reused; an existing plain logger gives ClassCastException with its class name and an error report; otherwise the resolved type's provider, or its fallback, is added under the canonical name and becomes the delegate; a null type gives NPE |
| Service.LogService.Register | src/main/java/org/openremote/logging/LogService.java:442-445 | registers with the facade's own provider type, or the default when none was set |
| Service.LogService.SetProvider | src/main/java/org/openremote/logging/LogService.java:463-468 | records the type, then registers with it |
| Service.LogService.SetApplicationHierarchy | src/main/java/org/openremote/logging/LogService.java:475-478 | replaces the application segment of the facade's hierarchy and leaves the registry alone |
| Service.NewLogService | src/main/java/org/openremote/logging/LogService.java:397-429 | the one-argument constructor names the hierarchy from the current defaults and registers it with the default provider type |
| Service.SameCategorySharesProvider | src/main/java/org/openremote/logging/LogService.java:600-627 | two facades for one category delegate to the same provider |
| Service.PlainLoggerBlocksRegistration | src/main/java/org/openremote/logging/LogService.java:610-622 | when a plain JUL logger already holds the facade's name, constructing the facade throws ClassCastException naming that logger's class, leaves no delegate, and the registry keeps the plain logger |
| Service.DeferredRegistration | src/main/java/org/openremote/logging/LogService.java:417-445 | constructing with `register == false` adds nothing; the later `register()` adds exactly the facade's provider |
| Service.DefaultApplicationSnapshot | src/main/java/org/openremote/logging/LogService.java:337-340 | the application segment is copied at construction, so a later change of the default does not rename existing facades |
| Formatter.CauseChain | src/main/java/org/openremote/logging/LogService.java:1051-1082 | the chain ends with the thrown exception, and has at most 102 entries; it stops at an exception without a cause or at the hop limit |
| Formatter.NestedExceptions | src/main/java/org/openremote/logging/LogService.java:1051-1082 | empty exactly for a null throwable; otherwise innermost first, with each entry the cause of the next and the thrown exception last, at most 102 long, and ending (at the front) at an exception without a cause unless the 102-entry limit is reached |
| Formatter.CauseChainUnique | src/main/java/org/openremote/logging/LogService.java:1051-1082 | any cause-linked list ending at the exception and complete in the same sense is the resolved list |
| Formatter.CyclicCausesTruncated | src/main/java/org/openremote/logging/LogService.java:1073-1078 | when every exception has a cause (a cycle), the list is cut off at the 101-cause limit |
| Formatter.CompleteChainHasNoRepeats | src/main/java/org/openremote/logging/LogService.java:1051-1082 | a chain that reaches an exception without a cause lists no exception twice |
| Formatter.ResolveNestedExceptions | src/main/java/org/openremote/logging/LogService.java:1051-1082 | the loop builds exactly NestedExceptions |
| Formatter.ShortFormUpToGrows | src/main/java/org/openremote/logging/LogService.java:1242-1255 | each wrapping exception only appends to the short form |
| Formatter.ShortFormEndsWithCaught | src/main/java/org/openremote/logging/LogService.java:1247-1258 | with three or more exceptions, the short form ends with the "Wrapped by" entry of the outermost, caught exception |
| Formatter.ShortFormExtends | src/main/java/org/openremote/logging/LogService.java:1220-1258 | the short form of any inner part of the chain, two or more long, is a prefix of the short form of the whole chain |
| Formatter.MessageText | src/main/java/org/openremote/logging/LogService.java:1029-1040 | `printExceptionMessage`: the message, or `<no message>` for a null one, followed by a blank line |
| Formatter.PrintNestedExceptionsShortForm | src/main/java/org/openremote/logging/LogService.java:1220-1258 | the text is the short form: empty for no exception, the EXCEPTION/MESSAGE block for one, and otherwise a ROOT EXCEPTION block followed by one "Wrapped by" entry per wrapper; a null message prints `<no message>` |
| Formatter.AppendWrapperStack | src/main/java/org/openremote/logging/LogService.java:1134-1198 | a wrapping exception's entry fails exactly when its stack trace is empty |
| Formatter.WrapperShowsTopThreeFrames | src/main/java/org/openremote/logging/LogService.java:1141-1197 | a wrapper's entry depends only on its top three frames |
| Formatter.StackTracesFailure | src/main/java/org/openremote/logging/LogService.java:1096-1205 | printing fails exactly when some wrapping exception, and not the innermost one, has an empty stack trace |
| Formatter.StackTracesShowInnermostInFull | src/main/java/org/openremote/logging/LogService.java:1100-1132 | the output starts with the CALLSTACK header, followed by every frame of the innermost exception in order, each marked `->` when it starts with `org.openremote` |
| Formatter.StackTracesStayFailed | src/main/java/org/openremote/logging/LogService.java:1141-1143 | once one wrapper has failed, printing more wrappers does not recover |
| Formatter.PrintStackTraces | src/main/java/org/openremote/logging/LogService.java:1096-1205 | the nested loops build exactly StackTraces, and fail where the source indexes an empty stack |
| Formatter.FormatMessage | src/main/java/org/openremote/logging/LogService.java:994-1018 | without parameters the message is unchanged; with parameters it is the substitution, or `[FORMATTING ERROR] ` plus the message when substitution throws, including for a null message |
| Formatter.FormatRecordShape | src/main/java/org/openremote/logging/LogService.java:946-982 | without a throwable the entry is the header alone; with one it is the header, then the short form, then the stack traces, unless a wrapper has no stack trace, in which case the whole entry is the implementation-error line |
| Formatter.Format | src/main/java/org/openremote/logging/LogService.java:946-983 | the method builds exactly FormatRecord |
| Formatter.ExampleClearedWrapper | src/main/java/org/openremote/logging/LogService.java:974-982 | an IOException wrapped by an exception with a cleared stack trace is logged as the implementation-error line |
| Formatter.ExampleCycle | src/main/java/org/openremote/logging/LogService.java:1065-1079 | two exceptions that are each other's cause resolve to a list of exactly 102 entries, 101 causes and the thrown one |

## Left out

- JUL runtime internals are not modelled: `loadConfiguration`, `LogManager.reset`, `setLevel`,
  `getLevel`, handler publishing and weak references. The registry is a map that never loses
  entries.
- `addFileLog`, `addConsoleOutput`, `addRootConsoleOutput` and `configure` are not part of
  this model. They are thin wrappers over `addLogConsumer` and JUL configuration.
- File and console sink I/O is abstracted. `fileOpened` says whether the `FileHandler` could
  be opened. That requires three things:
  - the identifier is an absolute `file:` URI that `new File(URI)` accepts (a relative
    identifier such as `logs/app.log` is rejected at LogService.java:827, and the rejection
    is caught at :864);
  - the security manager allows the access;
  - the I/O succeeds.

  When `fileOpened` is false the model attaches the console handler, as the source does. The
  model's handlers record their settings rather than writing anything.
- Reflection is abstracted. The loader is a function from provider type to how construction
  ended.
- URI parsing and the temporary-file fallback of `getFileIdentifier` are not modelled. A
  stored identifier is taken as is.
- `SimpleDateFormat` and `MessageFormat` are abstracted. The timestamp is given already
  rendered, and substitution is a parameter that returns nothing when it throws.
- The ErrorManager is not modelled as output. Only the registration reports are kept, in a
  ghost sequence.
- Reports written by `getFileBackupCount`, `getFileSizeLimit` and `getFileAppendSetting` are
  not modelled. The same applies to the reports of `createTextFileLog`'s fallbacks.
- Thread safety and class-loader scoping of the statics are not modelled.
- The `Logger` facade subclasses and plugin providers' own `addLogConsumer` are not part of
  this model.
- Plugin providers are assumed to pass the given hierarchy to the `Provider` constructor. The
  model therefore names every loaded provider by the hierarchy's canonical name.
- `LogManager.addLogger` can attach handlers configured under `<name>.handlers`. This is not
  modelled, so a newly registered provider starts with no handlers.
- Several null arguments that throw `NullPointerException` in the source are not modelled:
  - `addLogConsumer(null, …)`;
  - `new FileConfiguration((URI) null)`, and null boxed arguments to the four-argument
    constructor;
  - `new ConsoleConfiguration(null)`.
  Property names are never null in the model, although `HashMap` accepts a null key.
- A `getCause()` override that returns the throwable itself is excluded by `WellFormed`.
- Passing a `null` `Hierarchy` object to the constructors is not modelled. The category is
  the hierarchy's name, which may be null.
- JavaLang.ParseIntToString: `Integer.parseInt` is modelled for ASCII digits with an optional
  sign; it leaves out Unicode digits.
- Configuration.FileAppendSetting: `equalsIgnoreCase` is modelled with ASCII case folding
  only.
- Formatter.FormatRecordShape: the text of the caught exception is modelled as Java 8's
  `ArrayIndexOutOfBoundsException: 0`. Later JDKs word the message differently.
- Formatter.ResolveNestedExceptions: the source increments the count and then breaks when it
  exceeds 100. The model tests `count <= 100` in the loop guard instead, which stops after
  the same number of steps.

## Findings

| source | as written | input that shows it | evidently intended | confidence | as-written member | corrected member |
|---|---|---|---|---|---|---|
| src/main/java/org/openremote/logging/LogService.java:780-787 | the `STANDARD_OUTPUT` case has no `break`, so it attaches the handler and then falls into `default`, which throws `Error("Unimplemented log consumer option STANDARD_OUTPUT")` | `addLogConsumer(STANDARD_OUTPUT, null)` on the internal JUL logger | attach the standard output handler and return normally | high (not executed) | Providers.Provider.AddLogConsumer | Providers.Provider.AddLogConsumerWithBreak |
