/**
 * `org.fossnova.finder.FactoryFinder`: finds the implementation class name of
 * a factory interface (system property, then the first line of
 * `META-INF/services/<interface>`, then a caller's fallback) and constructs
 * an instance of it. The class has no fields, so every call is a function of
 * its arguments and of the platform.
 */
module FactoryFinder {
  import opened JavaString
  import opened Platform

  /** A non-null factory interface class: its name and its class loader. */
  datatype Interface = Interface(name: string, loader: Loader)

  /**
   * Why `find` failed. The three middle kinds are all `RuntimeException`s in
   * the source, told apart by their messages; `Propagated` is a throwable
   * that leaves `find` unwrapped.
   */
  datatype Failure =
    | IllegalArgument(message: string)
    | NoImplementation(message: string)
    | ImplementationNotFound(message: string, cause: Throwable)
    | NotInstantiated(message: string, cause: Throwable)
    | Propagated(thrown: Throwable)

  datatype Outcome = Instance(instance: InstanceId) | Failure(failure: Failure)

  /** An implementation name, no name (`null`), or an exception on the way. */
  datatype NameLookup = Found(name: string) | Absent | Raised(thrown: Throwable)

  const ServicesPrefix: string := "META-INF/services/"
  const NullInterfaceMessage: string := "Factory interface class cannot be null"

  function NoImplementationMessage(ifaceName: string): string {
    "Factory implementation for interface '" + ifaceName + "' not found"
  }

  function ClassNotFoundMessage(implName: string): string {
    "Factory '" + implName + "' not found"
  }

  // the spelling is the source's
  function NotInstantiatedMessage(implName: string): string {
    "Factory '" + implName + "' not instatiated"
  }

  /** `isDefined`: non-null and non-empty. */
  predicate IsDefined(s: Option<string>) {
    s.Some? && |s.value| > 0
  }

  function ServiceResourceName(ifaceName: string): string {
    ServicesPrefix + ifaceName
  }

  function GetFactoryImplFromSystemProperty(env: Env, ifaceName: string): Option<string> {
    Lookup(env.properties, ifaceName)
  }

  /** `getResource`: the system class loader first, then the interface's loader. */
  function GetResource(env: Env, resource: string, loader: Loader): Option<ReadOutcome> {
    if resource in env.systemResources then Some(env.systemResources[resource])
    else Lookup(loader.resources, resource)
  }

  /**
   * `newInstance`: `ClassNotFoundException` (from loading, or rethrown by the
   * constructor) becomes the "not found" error, any other `Exception` the
   * "not instatiated" error; an `Error` is caught by neither handler.
   */
  function NewInstance(implName: string, loader: Loader): Outcome {
    match LoadAndConstruct(implName, loader)
    case Constructs(o) => Instance(o)
    case Throws(ClassNotFoundException) =>
      Failure(ImplementationNotFound(ClassNotFoundMessage(implName), ClassNotFoundException))
    case Throws(JavaError(e)) => Failure(Propagated(JavaError(e)))
    case Throws(t) => Failure(NotInstantiated(NotInstantiatedMessage(implName), t))
  }

  /**
   * What `getFactoryImplClassNameFromServiceProvider` yields, by the resource
   * found: the trimmed first line when that is non-empty; nothing when there
   * is no resource, reading fails or the line is blank; and the
   * `NullPointerException` of `readLine().trim()` on an empty resource.
   */
  function ServiceProviderLookup(env: Env, ifaceName: string, loader: Loader): NameLookup {
    match GetResource(env, ServiceResourceName(ifaceName), loader)
    case None => Absent
    case Some(ReadFails) => Absent
    case Some(FirstLine(None)) => Raised(NullPointerException)
    case Some(FirstLine(Some(line))) => if Trim(line) == [] then Absent else Found(Trim(line))
  }

  /** The name `find` settles on, in the order property, resource, fallback. */
  function ImplementationName(iface: Interface, fallback: Option<string>, env: Env): NameLookup {
    match GetFactoryImplFromSystemProperty(env, iface.name)
    case Some(p) => Found(p)
    case None =>
      match ServiceProviderLookup(env, iface.name, iface.loader)
      case Absent => if fallback.Some? then Found(fallback.value) else Absent
      case other => other
  }

  /** What `find(factoryIface, fallbackFactoryImplName)` returns or throws. */
  function Resolution(iface: Option<Interface>, fallback: Option<string>, env: Env): Outcome {
    match iface
    case None => Failure(IllegalArgument(NullInterfaceMessage))
    case Some(i) =>
      match ImplementationName(i, fallback, env)
      case Found(n) => NewInstance(n, i.loader)
      case Absent => Failure(NoImplementation(NoImplementationMessage(i.name)))
      case Raised(t) => Failure(Propagated(t))
  }

  /** `safeClose`: closes a non-null reader; an `IOException` from `close` is ignored. */
  method SafeClose(c: BufferedReader?)
    modifies if c != null then {c.source} else {}
    ensures c != null ==> !c.source.open
  {
    if c != null {
      c.Close();
    }
  }

  /**
   * `getFactoryImplClassNameFromServiceProvider`. `stream` is the stream
   * `getResource` returned: it exists exactly when the resource was found,
   * and it is closed whatever the outcome, the exception included.
   */
  method GetFactoryImplClassNameFromServiceProvider(env: Env, ifaceName: string, loader: Loader)
    returns (result: NameLookup, ghost stream: InputStream?)
    ensures result == ServiceProviderLookup(env, ifaceName, loader)
    ensures stream == null <==> GetResource(env, ServiceResourceName(ifaceName), loader).None?
    ensures stream != null ==> fresh(stream)
    ensures stream != null ==>
      !stream.open && stream.content == GetResource(env, ServiceResourceName(ifaceName), loader).value
  {
    var resourceName := ServiceResourceName(ifaceName);
    var resourceStream := OpenStream(GetResource(env, resourceName, loader));
    stream := resourceStream;
    var factoryImplName: Option<string> := None;
    var thrown: Option<Throwable> := None;
    var reader: BufferedReader? := null;
    if resourceStream != null {
      // try
      reader := new BufferedReader(resourceStream);
      var read := reader.ReadLine();
      match read {
        case ReadFails =>
          // the IOException is ignored
        case FirstLine(None) =>
          thrown := Some(NullPointerException);
        case FirstLine(Some(line)) =>
          factoryImplName := Some(Trim(line));
      }
      // finally
      SafeClose(reader);
    }
    if thrown.Some? {
      result := Raised(thrown.value);
      return;
    }
    result := if IsDefined(factoryImplName) then Found(factoryImplName.value) else Absent;
  }

  /** `find(factoryIface, fallbackFactoryImplName)`. */
  method Find(iface: Option<Interface>, fallback: Option<string>, env: Env) returns (r: Outcome)
    ensures r == Resolution(iface, fallback, env)
  {
    if iface.None? {
      return Failure(IllegalArgument(NullInterfaceMessage));
    }
    var loader := iface.value.loader;
    var factoryImplClassName := GetFactoryImplFromSystemProperty(env, iface.value.name);
    if factoryImplClassName.None? {
      var fromProvider, stream := GetFactoryImplClassNameFromServiceProvider(env, iface.value.name, loader);
      match fromProvider {
        case Raised(t) =>
          return Failure(Propagated(t));
        case Found(n) =>
          factoryImplClassName := Some(n);
        case Absent =>
      }
    }
    if factoryImplClassName.None? {
      factoryImplClassName := fallback;
    }
    if factoryImplClassName.None? {
      return Failure(NoImplementation(NoImplementationMessage(iface.value.name)));
    }
    r := NewInstance(factoryImplClassName.value, loader);
  }

  /** `find(factoryIface)`: the same as a `null` fallback. */
  method FindWithoutFallback(iface: Option<Interface>, env: Env) returns (r: Outcome)
    ensures r == Resolution(iface, None, env)
  {
    r := Find(iface, None, env);
  }
}
