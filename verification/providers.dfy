/**
 * Log service providers (LogService.Provider and its default implementation
 * LogService.InternalLogger), the plugin loader (ProviderType.loadInstance)
 * and the attachment of log consumers (InternalLogger.addLogConsumer).
 */
module Providers {
  import opened JavaLang
  import opened Hierarchies
  import opened Configuration

  const InternalLoggerClass: string := "org.openremote.logging.LogService$InternalLogger"
  const RedirectorClass: string := "org.openremote.logging.log4j.Redirector"

  /** The name of java.util.logging.Level.INFO. */
  const InfoLevel: string := "INFO"

  /** The provider implementations the facade knows, each named by its class. */
  datatype ProviderType = JUL | LOG4J
  {
    function ClassName(): string
    {
      match this
      case JUL => InternalLoggerClass
      case LOG4J => RedirectorClass
    }
  }

  /**
   * How the reflective construction of a provider class ended: loaded and
   * constructed, one of the eight failures the loader catches (each with the
   * caught exception's message where the report shows it), or a throwable it
   * does not catch.
   */
  datatype LoadOutcome =
    | Constructed
    | ConstructorThrew(message: JString)   // InvocationTargetException
    | MissingConstructor                   // NoSuchMethodException
    | NotAProvider                         // ClassCastException from asSubclass
    | ClassNotFound                        // ClassNotFoundException
    | NotInstantiable(message: JString)    // InstantiationException
    | NotAccessible(message: JString)      // IllegalAccessException
    | InitializerFailed(message: JString)  // ExceptionInInitializerError
    | SecurityDenied(message: JString)     // SecurityException
    | NotCaught(description: string)       // anything else, e.g. a NoClassDefFoundError
  {
    predicate IsCaughtFailure()
    {
      !Constructed? && !NotCaught?
    }
  }

  const Fallback: string := ". Defaulting to internal JUL logger instead..."

  /** The error report loadInstance writes before falling back to the internal logger. */
  function LoadFailureMessage(className: string, outcome: LoadOutcome): (message: string)
    requires outcome.IsCaughtFailure()
    ensures |message| >= |Fallback| && message[|message| - |Fallback|..] == Fallback
  {
    var report := LoadFailureReport(className, outcome);
    assert (report + Fallback)[|report|..] == Fallback;
    report + Fallback
  }

  /** What went wrong, per kind of caught failure. */
  function LoadFailureReport(className: string, outcome: LoadOutcome): string
    requires outcome.IsCaughtFailure()
  {
    match outcome
      case ConstructorThrew(m) =>
        "The constructor of log service provider implementation '" + className +
        "' encountered an error (" + Render(m) + ")"
      case MissingConstructor =>
        "The log service provider implementation '" + className +
        "' is missing mandatory constructor Provider(Hierarchy)"
      case NotAProvider =>
        "The log service provider implementation '" + className + "' does not extend Provider class"
      case ClassNotFound =>
        "The log service provider implementation '" + className + "' was not found in classpath"
      case NotInstantiable(m) =>
        "The configured log service provider '" + className + "' cannot be instantiated: " + Render(m)
      case NotAccessible(m) =>
        "The configured log service provider '" + className + "' cannot be accessed: " + Render(m)
      case InitializerFailed(m) =>
        "Error initializing log service provider class '" + className + "': " + Render(m)
      case SecurityDenied(m) =>
        "Security manager prevented instantiating log service provider class '" + className + "': " + Render(m)
  }

  datatype ConsumerType = TEXT_FILE | XML_FILE | STANDARD_OUTPUT
  {
    /** The enum constant's name, as `toString` gives it. */
    function Name(): string
    {
      match this
      case TEXT_FILE => "TEXT_FILE"
      case XML_FILE => "XML_FILE"
      case STANDARD_OUTPUT => "STANDARD_OUTPUT"
    }
  }

  /** A JUL handler attached to a provider. */
  datatype Handler =
      /** A rotating file sink: the file's identifier, size limit, file count and append flag. */
    | FileHandler(fileId: string, limit: Int32, count: Int32, append: bool)
      /** The standard error console sink the file consumer falls back to. */
    | ConsoleHandler
      /** LogService.StandardOutputHandler, at the given threshold level. */
    | StandardOutputHandler(level: string)

  /** The configuration passed with a consumer: none (null), or one of the two bags. */
  datatype ConsumerConfiguration =
    | NoConfiguration
    | FileConsumer(file: FileConfiguration)
    | ConsoleConsumer(console: ConsoleConfiguration)

  /** The properties createTextFileLog reads: the file bag, or an empty one for any other configuration. */
  function FilePropertiesOf(config: ConsumerConfiguration): Properties
    reads if config.FileConsumer? then {config.file} else {}
  {
    if config.FileConsumer? then config.file.properties else map[]
  }

  /**
   * The handler createTextFileLog attaches. A missing file identifier throws;
   * otherwise the file sink is attached when its count and limit are legal
   * and the file can be opened (`fileOpened`: the URI names a local file,
   * the security manager allows it and the I/O succeeds), and the console
   * sink is attached instead when not.
   */
  function TextFileHandler(properties: Properties, fileOpened: bool): (r: Result<Handler, Failure>)
    ensures r.Err? <==> Lookup(properties, FileIdentifierKey).None?
    ensures r.Err? ==> r.error == NullPointerException
    ensures r.Ok? ==> r.value.FileHandler? || r.value.ConsoleHandler?
    ensures r.Ok? ==>
              (r.value.FileHandler? <==>
                 fileOpened && FileBackupCount(properties).value >= 1 && FileSizeLimit(properties).value >= 0)
    ensures r.Ok? && r.value.FileHandler? ==>
              && fileOpened && r.value.count >= 1 && r.value.limit >= 0
              && Some(r.value.fileId) == Lookup(properties, FileIdentifierKey)
              && Ok(r.value.count) == FileBackupCount(properties)
              && Ok(r.value.limit) == FileSizeLimit(properties)
              && r.value.append == FileAppendSetting(properties)
  {
    match FileIdentifier(properties)
    case Err(e) => Err(e)
    case Ok(fileId) =>
      SettingsReadableWithIdentifier(properties);
      var count := FileBackupCount(properties).value;
      var limit := FileSizeLimit(properties).value;
      var append := FileAppendSetting(properties);
      if fileOpened && limit >= 0 && count >= 1 then Ok(FileHandler(fileId, limit, count, append))
      else Ok(ConsoleHandler)
  }

  /** The error the default branch of addLogConsumer throws. */
  function Unimplemented(logType: ConsumerType): Failure
  {
    UnimplementedError("Unimplemented log consumer option " + logType.Name())
  }

  /**
   * A log service provider: a JUL logger registered under `name`, sharing
   * its hierarchy object with the facade that created it.
   */
  class Provider {
    /** The JUL logger name, fixed when the provider is constructed. */
    const name: string
    const hierarchy: InternalHierarchy
    /** The provider's implementation class. */
    const className: string
    var handlers: seq<Handler>

    constructor (hierarchy: InternalHierarchy, className: string)
      ensures name == hierarchy.CanonicalName()
      ensures this.hierarchy == hierarchy && this.className == className && handlers == []
    {
      name := hierarchy.CanonicalName();
      this.hierarchy := hierarchy;
      this.className := className;
      handlers := [];
    }

    /**
     * InternalLogger.addLogConsumer as written: the STANDARD_OUTPUT case has
     * no `break`, so after attaching the console handler it falls through to
     * the default case and throws.
     */
    method AddLogConsumer(logType: ConsumerType, config: ConsumerConfiguration, fileOpened: bool)
      returns (r: Outcome<Failure>)
      requires className == InternalLoggerClass
      modifies this
      ensures logType == TEXT_FILE ==>
                match TextFileHandler(FilePropertiesOf(config), fileOpened)
                case Ok(h) => r == Pass && handlers == old(handlers) + [h]
                case Err(e) => r == Fail(e) && handlers == old(handlers)
      ensures logType == STANDARD_OUTPUT ==>
                r == Fail(Unimplemented(STANDARD_OUTPUT)) && handlers == old(handlers) + [StandardOutputHandler(InfoLevel)]
      ensures logType == XML_FILE ==> r == Fail(Unimplemented(XML_FILE)) && handlers == old(handlers)
    {
      match logType
      case TEXT_FILE =>
        r := CreateTextFileLog(config, fileOpened);
      case STANDARD_OUTPUT =>
        CreateStandardOutput(config);
        // no break: control continues into the default case
        r := Fail(Unimplemented(logType));
      case XML_FILE =>
        r := Fail(Unimplemented(logType));
    }

    /** addLogConsumer with the `break` the STANDARD_OUTPUT case evidently lacks. */
    method AddLogConsumerWithBreak(logType: ConsumerType, config: ConsumerConfiguration, fileOpened: bool)
      returns (r: Outcome<Failure>)
      requires className == InternalLoggerClass
      modifies this
      ensures logType == TEXT_FILE ==>
                match TextFileHandler(FilePropertiesOf(config), fileOpened)
                case Ok(h) => r == Pass && handlers == old(handlers) + [h]
                case Err(e) => r == Fail(e) && handlers == old(handlers)
      ensures logType == STANDARD_OUTPUT ==> r == Pass && handlers == old(handlers) + [StandardOutputHandler(InfoLevel)]
      ensures logType == XML_FILE ==> r == Fail(Unimplemented(XML_FILE)) && handlers == old(handlers)
    {
      match logType
      case TEXT_FILE =>
        r := CreateTextFileLog(config, fileOpened);
      case STANDARD_OUTPUT =>
        CreateStandardOutput(config);
        r := Pass;
      case XML_FILE =>
        r := Fail(Unimplemented(logType));
    }

    /** Attaches a standard output handler at INFO; the configuration is not consulted. */
    method CreateStandardOutput(config: ConsumerConfiguration)
      modifies this
      ensures handlers == old(handlers) + [StandardOutputHandler(InfoLevel)]
    {
      handlers := handlers + [StandardOutputHandler(InfoLevel)];
    }

    /**
     * Attaches a file handler configured from a FileConfiguration (an empty
     * one when `config` is anything else), or the console fallback.
     */
    method CreateTextFileLog(config: ConsumerConfiguration, fileOpened: bool) returns (r: Outcome<Failure>)
      modifies this
      ensures match TextFileHandler(FilePropertiesOf(config), fileOpened)
              case Ok(h) => r == Pass && handlers == old(handlers) + [h]
              case Err(e) => r == Fail(e) && handlers == old(handlers)
    {
      var fileConfig: FileConfiguration;
      if config.FileConsumer? {
        fileConfig := config.file;
      } else {
        fileConfig := new FileConfiguration.Empty();
      }
      var logFileId := FileIdentifier(fileConfig.properties);
      if logFileId.Err? {
        return Fail(logFileId.error);
      }
      var backupCount := FileBackupCount(fileConfig.properties).value;
      var fileSizeLimit := FileSizeLimit(fileConfig.properties).value;
      var append := FileAppendSetting(fileConfig.properties);
      if fileOpened && fileSizeLimit >= 0 && backupCount >= 1 {
        handlers := handlers + [FileHandler(logFileId.value, fileSizeLimit, backupCount, append)];
      } else {
        // security denial, I/O failure or illegal count/limit: log to the console instead
        handlers := handlers + [ConsoleHandler];
      }
      r := Pass;
    }
  }

  /**
   * The missing `break`: asking a fresh internal provider for a standard
   * output consumer attaches the handler and still throws, while the
   * corrected dispatch returns normally.
   */
  method StandardOutputFallsThrough(hierarchy: InternalHierarchy)
    returns (asWritten: Outcome<Failure>, corrected: Outcome<Failure>)
    ensures asWritten == Fail(Unimplemented(STANDARD_OUTPUT))
    ensures corrected == Pass
  {
    var provider := new Provider(hierarchy, InternalLoggerClass);
    asWritten := provider.AddLogConsumer(STANDARD_OUTPUT, NoConfiguration, true);
    assert provider.handlers == [StandardOutputHandler(InfoLevel)];
    var fixedProvider := new Provider(hierarchy, InternalLoggerClass);
    corrected := fixedProvider.AddLogConsumerWithBreak(STANDARD_OUTPUT, NoConfiguration, true);
  }

  /**
   * ProviderType.loadInstance: constructs the provider class of `providerType`
   * for `hierarchy`. Each caught failure is reported (`diagnostic`) and
   * replaced by an internal logger for the same hierarchy; only a throwable
   * the loader does not catch escapes.
   */
  method LoadInstance(providerType: ProviderType, hierarchy: InternalHierarchy, outcome: LoadOutcome)
    returns (r: Result<Provider, Failure>, diagnostic: Option<string>)
    ensures outcome.NotCaught? ==> r == Err(Uncaught(outcome.description)) && diagnostic == None
    ensures !outcome.NotCaught? ==>
              && r.Ok? && fresh(r.value)
              && r.value.name == hierarchy.CanonicalName()
              && r.value.hierarchy == hierarchy
              && r.value.handlers == []
    ensures outcome.Constructed? ==> r.Ok? && r.value.className == providerType.ClassName() && diagnostic == None
    ensures outcome.IsCaughtFailure() ==>
              && r.Ok? && r.value.className == InternalLoggerClass
              && diagnostic == Some(LoadFailureMessage(providerType.ClassName(), outcome))
  {
    if outcome.NotCaught? {
      return Err(Uncaught(outcome.description)), None;
    }
    var provider: Provider;
    if outcome.Constructed? {
      provider := new Provider(hierarchy, providerType.ClassName());
      diagnostic := None;
    } else {
      diagnostic := Some(LoadFailureMessage(providerType.ClassName(), outcome));
      provider := new Provider(hierarchy, InternalLoggerClass);
    }
    r := Ok(provider);
  }
}
