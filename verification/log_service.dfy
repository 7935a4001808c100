/**
 * The logging facade (LogService) and the process-wide state it works on:
 * the default application segment, the default provider type, and the JUL
 * LogManager's registry of loggers by name.
 */
module Service {
  import opened JavaLang
  import opened Hierarchies
  import opened Providers

  /** A logger in the LogManager's registry. */
  datatype RegisteredLogger =
    | ProviderLogger(provider: Provider)
      /** A plain JUL logger that other code registered, of the given class. */
    | PlainLogger(className: string)

  /** The provider type registerLogger uses: the requested one, or the process default when null. */
  function ResolveProviderType(requested: Option<ProviderType>, default: Option<ProviderType>): (t: Option<ProviderType>)
    ensures requested.Some? ==> t == requested
    ensures requested.None? ==> t == default
  {
    if requested.Some? then requested else default
  }

  /**
   * The state registerLogger leaves behind for logger `name`. `before` and
   * `delegateBefore` are the registry and the facade's delegate before the
   * call, `after` and `delegate` after it, `r` how the call ended.
   */
  ghost predicate RegistrationEffect(
    before: map<string, RegisteredLogger>, name: string, providerType: Option<ProviderType>,
    loader: ProviderType -> LoadOutcome, delegateBefore: Provider?,
    after: map<string, RegisteredLogger>, delegate: Provider?, r: Outcome<Failure>)
  {
    if name in before then
      // an existing logger is reused and the provider type is ignored
      && after == before
      && match before[name]
         case ProviderLogger(p) => delegate == p && r == Pass
         case PlainLogger(c) =>
           delegate == delegateBefore && r == Fail(ClassCastException("Cannot create log provider instance from " + c))
    else if providerType.None? then
      // `providerType.loadInstance(...)` on null
      after == before && delegate == delegateBefore && r == Fail(NullPointerException)
    else if loader(providerType.value).NotCaught? then
      after == before && delegate == delegateBefore && r == Fail(Uncaught(loader(providerType.value).description))
    else
      && delegate != null
      && after == before[name := ProviderLogger(delegate)]
      && r == Pass
      && delegate.name == name
      && delegate.className ==
           (if loader(providerType.value).Constructed? then providerType.value.ClassName() else InternalLoggerClass)
  }

  /** The error reports registerLogger writes. */
  function RegistrationDiagnostics(
    before: map<string, RegisteredLogger>, name: string, providerType: Option<ProviderType>,
    loader: ProviderType -> LoadOutcome): seq<string>
  {
    if name in before then
      (if before[name].PlainLogger? then ["Expected Log Provider instance, got " + before[name].className] else [])
    else if providerType.Some? && loader(providerType.value).IsCaughtFailure() then
      [LoadFailureMessage(providerType.value.ClassName(), loader(providerType.value))]
    else []
  }

  /** Registration never removes or replaces a logger, and adds at most the one requested. */
  lemma RegistrationOnlyAdds(
    before: map<string, RegisteredLogger>, name: string, providerType: Option<ProviderType>,
    loader: ProviderType -> LoadOutcome, delegateBefore: Provider?,
    after: map<string, RegisteredLogger>, delegate: Provider?, r: Outcome<Failure>)
    requires RegistrationEffect(before, name, providerType, loader, delegateBefore, after, delegate, r)
    ensures before.Keys <= after.Keys <= before.Keys + {name}
    ensures forall n | n in before :: after[n] == before[n]
    ensures |after| == |before| + (if r.Pass? && name !in before then 1 else 0)
  {
  }

  /** After a successful registration the delegate is the provider the registry holds under the name. */
  lemma RegistrationYieldsRegisteredProvider(
    before: map<string, RegisteredLogger>, name: string, providerType: Option<ProviderType>,
    loader: ProviderType -> LoadOutcome, delegateBefore: Provider?,
    after: map<string, RegisteredLogger>, delegate: Provider?, r: Outcome<Failure>)
    requires RegistrationEffect(before, name, providerType, loader, delegateBefore, after, delegate, r)
    ensures r.Pass? <==> name in after && after[name].ProviderLogger?
    ensures r.Pass? ==> after[name] == ProviderLogger(delegate)
  {
  }

  /**
   * The process-wide state: LogService's static defaults, the root
   * hierarchy, the LogManager's logger registry and the ErrorManager's output.
   */
  class LogRuntime {
    /** DEFAULT_ROOT_LOG_HIERARCHY. */
    const rootHierarchy: InternalHierarchy
    var defaultApplicationLogHierarchy: JString
    var defaultProviderType: Option<ProviderType>
    /** The LogManager's loggers by name; entries are never removed. */
    var loggers: map<string, RegisteredLogger>
    /** The reports written to the ErrorManager, oldest first. */
    ghost var diagnostics: seq<string>

    ghost predicate Valid()
      reads this, rootHierarchy
    {
      && rootHierarchy.CanonicalName() == DefaultRootName
      && forall n | n in loggers && loggers[n].ProviderLogger? :: loggers[n].provider.name == n
    }

    /** The state when the classes are loaded: no application segment, the JUL provider. */
    constructor ()
      ensures Valid() && fresh(rootHierarchy)
      ensures defaultApplicationLogHierarchy == Some("") && defaultProviderType == Some(JUL)
      ensures loggers == map[] && diagnostics == []
    {
      rootHierarchy := new InternalHierarchy.Root(DefaultRootName);
      defaultApplicationLogHierarchy := Some("");
      defaultProviderType := Some(JUL);
      loggers := map[];
      diagnostics := [];
    }

    /** setDefaultApplicationLogHierarchy: affects facades constructed afterwards only. */
    method SetDefaultApplicationLogHierarchy(appLogHierarchyName: JString)
      requires Valid()
      modifies this
      ensures Valid()
      ensures defaultApplicationLogHierarchy == appLogHierarchyName
      ensures defaultProviderType == old(defaultProviderType) && loggers == old(loggers)
      ensures diagnostics == old(diagnostics)
    {
      defaultApplicationLogHierarchy := appLogHierarchyName;
    }

    /** setDefaultProvider: affects registrations made afterwards only. */
    method SetDefaultProvider(providerType: Option<ProviderType>)
      requires Valid()
      modifies this
      ensures Valid()
      ensures defaultProviderType == providerType
      ensures defaultApplicationLogHierarchy == old(defaultApplicationLogHierarchy) && loggers == old(loggers)
      ensures diagnostics == old(diagnostics)
    {
      defaultProviderType := providerType;
    }

    /** LogManager.addLogger for a newly loaded provider, with the report its loading wrote. */
    method AddProvider(provider: Provider, diagnostic: Option<string>)
      requires Valid() && provider.name !in loggers
      modifies this
      ensures Valid()
      ensures loggers == old(loggers)[provider.name := ProviderLogger(provider)]
      ensures diagnostics == old(diagnostics) + (if diagnostic.Some? then [diagnostic.value] else [])
      ensures defaultApplicationLogHierarchy == old(defaultApplicationLogHierarchy)
      ensures defaultProviderType == old(defaultProviderType)
    {
      loggers := loggers[provider.name := ProviderLogger(provider)];
      if diagnostic.Some? {
        diagnostics := diagnostics + [diagnostic.value];
      }
    }

    /** LogManager.addLogger for a plain logger created by other code; false if the name is taken. */
    method AddPlainLogger(name: string, className: string) returns (added: bool)
      requires Valid()
      modifies this
      ensures Valid()
      ensures added <==> name !in old(loggers)
      ensures loggers == if added then old(loggers)[name := PlainLogger(className)] else old(loggers)
      ensures defaultApplicationLogHierarchy == old(defaultApplicationLogHierarchy)
      ensures defaultProviderType == old(defaultProviderType) && diagnostics == old(diagnostics)
    {
      added := name !in loggers;
      if added {
        loggers := loggers[name := PlainLogger(className)];
      }
    }
  }

  /**
   * A logging facade: a hierarchy under the root, the provider type chosen
   * for it, and the provider it delegates to once registered.
   */
  class LogService {
    const runtime: LogRuntime
    const hierarchy: InternalHierarchy
    var providerType: Option<ProviderType>
    var logDelegate: Provider?

    ghost predicate Valid()
      reads this, runtime, runtime.rootHierarchy
    {
      runtime.Valid() && hierarchy != runtime.rootHierarchy
    }

    /**
     * LogService(Hierarchy, false): the hierarchy is the root, the current
     * default application segment and the category; nothing is registered.
     */
    constructor Unregistered(runtime: LogRuntime, category: JString)
      requires runtime.Valid()
      ensures Valid() && fresh(hierarchy) && this.runtime == runtime
      ensures hierarchy.root == DefaultRootName
      ensures hierarchy.app == runtime.defaultApplicationLogHierarchy && hierarchy.internal == category
      ensures hierarchy.CanonicalName() ==
                CanonicalNameOf(DefaultRootName, runtime.defaultApplicationLogHierarchy, category)
      ensures providerType == None && logDelegate == null
    {
      this.runtime := runtime;
      hierarchy := new InternalHierarchy.Nested(runtime.rootHierarchy, runtime.defaultApplicationLogHierarchy, category);
      providerType := None;
      logDelegate := null;
    }

    /**
     * registerLogger: looks the canonical name up in the registry, reuses
     * what is there, or loads a provider of the resolved type and adds it.
     */
    method RegisterLogger(requested: Option<ProviderType>, loader: ProviderType -> LoadOutcome)
      returns (r: Outcome<Failure>)
      requires Valid()
      modifies this, runtime
      ensures Valid()
      ensures RegistrationEffect(
                old(runtime.loggers), hierarchy.CanonicalName(),
                ResolveProviderType(requested, old(runtime.defaultProviderType)), loader,
                old(logDelegate), runtime.loggers, logDelegate, r)
      ensures runtime.diagnostics == old(runtime.diagnostics) + RegistrationDiagnostics(
                old(runtime.loggers), hierarchy.CanonicalName(),
                ResolveProviderType(requested, old(runtime.defaultProviderType)), loader)
      ensures r.Pass? && hierarchy.CanonicalName() !in old(runtime.loggers) ==>
                fresh(logDelegate) && logDelegate.hierarchy == hierarchy && logDelegate.handlers == []
      ensures providerType == old(providerType)
      ensures runtime.defaultApplicationLogHierarchy == old(runtime.defaultApplicationLogHierarchy)
      ensures runtime.defaultProviderType == old(runtime.defaultProviderType)
    {
      var name := hierarchy.CanonicalName();
      var resolved := ResolveProviderType(requested, runtime.defaultProviderType);
      if name in runtime.loggers {
        match runtime.loggers[name]
        case PlainLogger(c) =>
          runtime.diagnostics := runtime.diagnostics + ["Expected Log Provider instance, got " + c];
          r := Fail(ClassCastException("Cannot create log provider instance from " + c));
        case ProviderLogger(p) =>
          logDelegate := p;
          r := Pass;
      } else if resolved.None? {
        r := Fail(NullPointerException);
      } else {
        var loaded, diagnostic := LoadInstance(resolved.value, hierarchy, loader(resolved.value));
        if loaded.Err? {
          r := Fail(loaded.error);
        } else {
          runtime.AddProvider(loaded.value, diagnostic);
          logDelegate := loaded.value;
          r := Pass;
        }
      }
    }

    /** register(): registers with this facade's provider type, or the default when none was set. */
    method Register(loader: ProviderType -> LoadOutcome) returns (r: Outcome<Failure>)
      requires Valid()
      modifies this, runtime
      ensures Valid()
      ensures RegistrationEffect(
                old(runtime.loggers), hierarchy.CanonicalName(),
                ResolveProviderType(providerType, old(runtime.defaultProviderType)), loader,
                old(logDelegate), runtime.loggers, logDelegate, r)
      ensures runtime.diagnostics == old(runtime.diagnostics) + RegistrationDiagnostics(
                old(runtime.loggers), hierarchy.CanonicalName(),
                ResolveProviderType(providerType, old(runtime.defaultProviderType)), loader)
      ensures r.Pass? && hierarchy.CanonicalName() !in old(runtime.loggers) ==>
                fresh(logDelegate) && logDelegate.hierarchy == hierarchy && logDelegate.handlers == []
      ensures providerType == old(providerType)
      ensures runtime.defaultApplicationLogHierarchy == old(runtime.defaultApplicationLogHierarchy)
      ensures runtime.defaultProviderType == old(runtime.defaultProviderType)
    {
      r := RegisterLogger(providerType, loader);
    }

    /** setProvider: records the type and registers with it (null meaning the default). */
    method SetProvider(newType: Option<ProviderType>, loader: ProviderType -> LoadOutcome)
      returns (r: Outcome<Failure>)
      requires Valid()
      modifies this, runtime
      ensures Valid()
      ensures providerType == newType
      ensures RegistrationEffect(
                old(runtime.loggers), hierarchy.CanonicalName(),
                ResolveProviderType(newType, old(runtime.defaultProviderType)), loader,
                old(logDelegate), runtime.loggers, logDelegate, r)
      ensures runtime.diagnostics == old(runtime.diagnostics) + RegistrationDiagnostics(
                old(runtime.loggers), hierarchy.CanonicalName(),
                ResolveProviderType(newType, old(runtime.defaultProviderType)), loader)
      ensures runtime.defaultApplicationLogHierarchy == old(runtime.defaultApplicationLogHierarchy)
      ensures runtime.defaultProviderType == old(runtime.defaultProviderType)
    {
      providerType := newType;
      r := RegisterLogger(newType, loader);
    }

    /**
     * setApplicationHierarchy: replaces the application segment of this
     * facade's hierarchy (shared with the provider created for it), leaving
     * the registry as it is.
     */
    method SetApplicationHierarchy(applicationHierarchyName: JString)
      requires Valid()
      modifies hierarchy
      ensures Valid()
      ensures hierarchy.app == applicationHierarchyName
      ensures hierarchy.CanonicalName() ==
                CanonicalNameOf(hierarchy.root, applicationHierarchyName, hierarchy.internal)
    {
      hierarchy.SetApplicationHierarchy(applicationHierarchyName);
    }
  }

  /**
   * LogService(Hierarchy): constructs the facade and registers it with the
   * default provider type. When `r` is a failure the constructor threw and
   * no caller sees `service`.
   */
  method NewLogService(runtime: LogRuntime, category: JString, loader: ProviderType -> LoadOutcome)
    returns (service: LogService, r: Outcome<Failure>)
    requires runtime.Valid()
    modifies runtime
    ensures fresh(service) && service.Valid() && service.runtime == runtime
    ensures service.hierarchy.CanonicalName() ==
              CanonicalNameOf(DefaultRootName, old(runtime.defaultApplicationLogHierarchy), category)
    ensures service.providerType == None
    ensures RegistrationEffect(
              old(runtime.loggers), service.hierarchy.CanonicalName(), old(runtime.defaultProviderType), loader,
              null, runtime.loggers, service.logDelegate, r)
    ensures runtime.defaultApplicationLogHierarchy == old(runtime.defaultApplicationLogHierarchy)
    ensures runtime.defaultProviderType == old(runtime.defaultProviderType)
  {
    service := new LogService.Unregistered(runtime, category);
    r := service.RegisterLogger(runtime.defaultProviderType, loader);
  }

  /** Two facades for the same category share one provider. */
  method SameCategorySharesProvider(runtime: LogRuntime, category: JString, loader: ProviderType -> LoadOutcome)
    returns (first: LogService, second: LogService)
    requires runtime.Valid()
    modifies runtime
    ensures first.logDelegate != null ==> second.logDelegate == first.logDelegate
  {
    var r1, r2;
    first, r1 := NewLogService(runtime, category, loader);
    second, r2 := NewLogService(runtime, category, loader);
  }

  /** The deferred constructor adds nothing to the registry until register() is called. */
  method DeferredRegistration(runtime: LogRuntime, category: JString, loader: ProviderType -> LoadOutcome)
    returns (service: LogService, r: Outcome<Failure>)
    requires runtime.Valid()
    requires runtime.defaultProviderType.Some?
    requires !loader(runtime.defaultProviderType.value).NotCaught?
    requires CanonicalNameOf(DefaultRootName, runtime.defaultApplicationLogHierarchy, category) !in runtime.loggers
    modifies runtime
    ensures r == Pass && service.logDelegate != null
    ensures runtime.loggers == old(runtime.loggers)[service.hierarchy.CanonicalName() := ProviderLogger(service.logDelegate)]
  {
    service := new LogService.Unregistered(runtime, category);
    assert runtime.loggers == old(runtime.loggers);
    r := service.Register(loader);
  }

  /** The default application segment is copied at construction: later changes leave existing facades alone. */
  method DefaultApplicationSnapshot(runtime: LogRuntime, loader: ProviderType -> LoadOutcome)
    returns (before: LogService, after: LogService)
    requires runtime.Valid()
    modifies runtime
    ensures before.hierarchy.CanonicalName() == "OpenRemote.manna.custom"
    ensures after.hierarchy.CanonicalName() == "OpenRemote.custom"
  {
    runtime.SetDefaultApplicationLogHierarchy(Some("manna"));
    var r;
    before, r := NewLogService(runtime, Some("custom"), loader);
    runtime.SetDefaultApplicationLogHierarchy(Some(""));
    after, r := NewLogService(runtime, Some("custom"), loader);
    DefaultApplicationName();
  }

  /**
   * A plain JUL logger that other code registered under the facade's name
   * makes the facade's constructor throw ClassCastException, and the
   * registry keeps the plain logger.
   */
  method PlainLoggerBlocksRegistration(runtime: LogRuntime, category: JString, loader: ProviderType -> LoadOutcome)
    returns (service: LogService, r: Outcome<Failure>)
    requires runtime.Valid()
    requires CanonicalNameOf(DefaultRootName, runtime.defaultApplicationLogHierarchy, category) !in runtime.loggers
    modifies runtime
    ensures r == Fail(ClassCastException("Cannot create log provider instance from " + PlainLoggerClass))
    ensures service.logDelegate == null
    ensures service.hierarchy.CanonicalName() in runtime.loggers
    ensures runtime.loggers[service.hierarchy.CanonicalName()] == PlainLogger(PlainLoggerClass)
  {
    var name := CanonicalNameOf(DefaultRootName, runtime.defaultApplicationLogHierarchy, category);
    var added := runtime.AddPlainLogger(name, PlainLoggerClass);
    service, r := NewLogService(runtime, category, loader);
  }

  /** The class of a logger created through `java.util.logging.Logger.getLogger`. */
  const PlainLoggerClass: string := "java.util.logging.Logger"
}
