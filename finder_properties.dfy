/**
 * What `FactoryFinder.find` promises, proved of its specification
 * `Resolution`: the order of the three name sources, how the service file's
 * first line is treated, when the fallback is used, and how each failure is
 * reported.
 */
module FinderProperties {
  import opened JavaString
  import opened Platform
  import opened FactoryFinder

  /** The platform with the service file of `ifaceName` taken from the system loader. */
  function WithoutSystemServiceFile(env: Env, ifaceName: string): Env {
    env.(systemResources := env.systemResources - {ServiceResourceName(ifaceName)})
  }

  /** The interface with its service file taken from its own loader. */
  function WithoutLoaderServiceFile(iface: Interface): Interface {
    iface.(loader := iface.loader.(resources := iface.loader.resources - {ServiceResourceName(iface.name)}))
  }

  /** A blank first line (only characters `trim` removes) or a failed read. */
  predicate Unusable(content: ReadOutcome) {
    content.ReadFails? || (content.FirstLine? && content.line.Some? && AllTrimmable(content.line.value))
  }

  /** A `null` interface is refused with the same error whatever the platform and fallback. */
  lemma NullInterfaceRefused(fallback: Option<string>, env: Env, fallback': Option<string>, env': Env)
    ensures Resolution(None, fallback, env) == Failure(IllegalArgument(NullInterfaceMessage))
    ensures Resolution(None, fallback, env) == Resolution(None, fallback', env')
  {
  }

  /**
   * A property for the interface name names the class, even when it is empty;
   * no resource and no fallback changes the outcome.
   */
  lemma PropertyTakesPrecedence(iface: Interface, fallback: Option<string>, env: Env,
                                systemResources': map<string, ReadOutcome>,
                                loaderResources': map<string, ReadOutcome>,
                                fallback': Option<string>)
    requires iface.name in env.properties
    ensures Resolution(Some(iface), fallback, env) == NewInstance(env.properties[iface.name], iface.loader)
    ensures Resolution(Some(iface.(loader := iface.loader.(resources := loaderResources'))),
                       fallback', env.(systemResources := systemResources'))
         == Resolution(Some(iface), fallback, env)
  {
  }

  /** An empty property value is not skipped: it is the name looked up. */
  lemma EmptyPropertyIsUsed(iface: Interface, fallback: Option<string>, env: Env)
    requires iface.name in env.properties && env.properties[iface.name] == ""
    requires "" !in iface.loader.classes
    ensures Resolution(Some(iface), fallback, env)
         == Failure(ImplementationNotFound("Factory '' not found", ClassNotFoundException))
  {
    assert ClassNotFoundMessage("") == "Factory '' not found";
  }

  /** The resource path is the services prefix followed by the interface name. */
  lemma ServiceResourceNameParts(ifaceName: string)
    ensures ServiceResourceName(ifaceName)[..|ServicesPrefix|] == "META-INF/services/"
    ensures ServiceResourceName(ifaceName)[|ServicesPrefix|..] == ifaceName
  {
  }

  /** Different interfaces never share a service file. */
  lemma ServiceResourceNameInjective(a: string, b: string)
    requires ServiceResourceName(a) == ServiceResourceName(b)
    ensures a == b
  {
    ServiceResourceNameParts(a);
    ServiceResourceNameParts(b);
  }

  /**
   * The system loader's copy of a resource hides the interface loader's; the
   * interface loader is asked only when the system loader has none.
   */
  lemma GetResourcePrefersSystemLoader(env: Env, resource: string, loader: Loader, loader': Loader)
    ensures resource in env.systemResources ==>
      GetResource(env, resource, loader) == GetResource(env, resource, loader')
                                         == Some(env.systemResources[resource])
    ensures resource !in env.systemResources ==>
      GetResource(env, resource, loader) == GetResource(env.(systemResources := map[]), resource, loader)
    ensures GetResource(env, resource, loader).None?
        <==> resource !in env.systemResources && resource !in loader.resources
  {
  }

  /**
   * The service file yields a name exactly when its first line exists and is
   * not blank; the name is that line trimmed, so it is non-empty and neither
   * starts nor ends with a character `trim` removes.
   */
  lemma ServiceProviderFound(env: Env, ifaceName: string, loader: Loader)
    ensures var content := GetResource(env, ServiceResourceName(ifaceName), loader);
      ServiceProviderLookup(env, ifaceName, loader).Found?
      <==> content.Some? && content.value.FirstLine? && content.value.line.Some?
           && !AllTrimmable(content.value.line.value)
    ensures var content := GetResource(env, ServiceResourceName(ifaceName), loader);
      var found := ServiceProviderLookup(env, ifaceName, loader);
      found.Found? ==>
        && found.name == Trim(content.value.line.value)
        && found.name != []
        && !IsTrimmable(found.name[0])
        && !IsTrimmable(found.name[|found.name| - 1])
  {
    var content := GetResource(env, ServiceResourceName(ifaceName), loader);
    if content.Some? && content.value.FirstLine? && content.value.line.Some? {
      TrimEmptyIff(content.value.line.value);
      TrimEnds(content.value.line.value);
    }
  }

  /** The resource step throws only on an empty service file, and then a `NullPointerException`. */
  lemma ServiceProviderRaises(env: Env, ifaceName: string, loader: Loader)
    ensures ServiceProviderLookup(env, ifaceName, loader).Raised?
        <==> GetResource(env, ServiceResourceName(ifaceName), loader) == Some(FirstLine(None))
    ensures ServiceProviderLookup(env, ifaceName, loader).Raised?
        ==> ServiceProviderLookup(env, ifaceName, loader).thrown == NullPointerException
  {
  }

  /**
   * A service file whose first line is blank, or that cannot be read, counts
   * as no service file at all: the outcome is the one without it.
   */
  lemma UnusableServiceFileIsIgnored(iface: Interface, fallback: Option<string>, env: Env)
    requires var content := GetResource(env, ServiceResourceName(iface.name), iface.loader);
      content.Some? && Unusable(content.value)
    ensures Resolution(Some(iface), fallback, env)
         == Resolution(Some(WithoutLoaderServiceFile(iface)), fallback, WithoutSystemServiceFile(env, iface.name))
  {
    var content := GetResource(env, ServiceResourceName(iface.name), iface.loader);
    if content.value.FirstLine? {
      TrimEmptyIff(content.value.line.value);
    }
    assert ServiceProviderLookup(env, iface.name, iface.loader) == Absent;
    var iface', env' := WithoutLoaderServiceFile(iface), WithoutSystemServiceFile(env, iface.name);
    ServiceFileRemoved(iface, env);
    assert ImplementationName(iface, fallback, env) == ImplementationName(iface', fallback, env');
    assert iface'.loader.classes == iface.loader.classes;
  }

  /** With the service file taken from both loaders, the resource step yields nothing. */
  lemma ServiceFileRemoved(iface: Interface, env: Env)
    ensures var iface' := WithoutLoaderServiceFile(iface);
      ServiceProviderLookup(WithoutSystemServiceFile(env, iface.name), iface'.name, iface'.loader) == Absent
  {
    var path := ServiceResourceName(iface.name);
    assert path !in WithoutSystemServiceFile(env, iface.name).systemResources;
    assert path !in WithoutLoaderServiceFile(iface).loader.resources;
  }

  /** An empty service file makes `find` throw, whatever the fallback. */
  lemma EmptyServiceFileThrows(iface: Interface, fallback: Option<string>, env: Env)
    requires iface.name !in env.properties
    requires GetResource(env, ServiceResourceName(iface.name), iface.loader) == Some(FirstLine(None))
    ensures Resolution(Some(iface), fallback, env) == Failure(Propagated(NullPointerException))
  {
  }

  /** With no property and nothing from the service file, the fallback is used as given. */
  lemma FallbackUsedVerbatim(iface: Interface, fallback: string, env: Env)
    requires iface.name !in env.properties
    requires ServiceProviderLookup(env, iface.name, iface.loader) == Absent
    ensures Resolution(Some(iface), Some(fallback), env) == NewInstance(fallback, iface.loader)
  {
  }

  /** Otherwise the fallback does not matter. */
  lemma FallbackIgnoredOtherwise(iface: Interface, fallback: Option<string>, fallback': Option<string>, env: Env)
    requires iface.name in env.properties || ServiceProviderLookup(env, iface.name, iface.loader) != Absent
    ensures Resolution(Some(iface), fallback, env) == Resolution(Some(iface), fallback', env)
  {
  }

  /**
   * `find` reports that no implementation is configured exactly when no
   * source yields a name, and the message names the interface.
   */
  lemma NoImplementationIff(iface: Interface, fallback: Option<string>, env: Env)
    ensures var r := Resolution(Some(iface), fallback, env);
      (r.Failure? && r.failure.NoImplementation?)
      <==> iface.name !in env.properties
           && ServiceProviderLookup(env, iface.name, iface.loader) == Absent
           && fallback.None?
    ensures var r := Resolution(Some(iface), fallback, env);
      r.Failure? && r.failure.NoImplementation? ==>
        r.failure.message == NoImplementationMessage(iface.name) && Contains(r.failure.message, iface.name)
  {
    ContainsInfix("Factory implementation for interface '", iface.name, "' not found");
  }

  /** Each message carries the name it is about. */
  lemma MessagesNameTheirSubject(name: string)
    ensures Contains(NoImplementationMessage(name), name)
    ensures Contains(ClassNotFoundMessage(name), name)
    ensures Contains(NotInstantiatedMessage(name), name)
  {
    ContainsInfix("Factory implementation for interface '", name, "' not found");
    ContainsInfix("Factory '", name, "' not found");
    ContainsInfix("Factory '", name, "' not instatiated");
  }

  /**
   * How loading and constructing the named class maps to the outcome of
   * `find`: an instance, "not found" for `ClassNotFoundException`, "not
   * instatiated" for every other `Exception`, and an `Error` unchanged.
   */
  lemma NewInstanceOutcomes(implName: string, loader: Loader)
    ensures NewInstance(implName, loader).Instance?
        <==> LoadAndConstruct(implName, loader).Constructs?
    ensures NewInstance(implName, loader).Instance?
        ==> NewInstance(implName, loader).instance == LoadAndConstruct(implName, loader).instance
    ensures implName !in loader.classes ==>
      NewInstance(implName, loader)
      == Failure(ImplementationNotFound(ClassNotFoundMessage(implName), ClassNotFoundException))
    ensures var r := NewInstance(implName, loader);
      r.Failure? && r.failure.ImplementationNotFound?
      <==> LoadAndConstruct(implName, loader) == Throws(ClassNotFoundException)
    ensures var r := NewInstance(implName, loader);
      r.Failure? && r.failure.ImplementationNotFound? ==>
        r.failure == ImplementationNotFound(ClassNotFoundMessage(implName), ClassNotFoundException)
    ensures var r := NewInstance(implName, loader);
      var c := LoadAndConstruct(implName, loader);
      r.Failure? && r.failure.NotInstantiated?
      <==> c.Throws? && c.thrown != ClassNotFoundException && !c.thrown.JavaError?
    ensures var r := NewInstance(implName, loader);
      var c := LoadAndConstruct(implName, loader);
      r.Failure? && r.failure.NotInstantiated? ==>
        && r.failure.message == NotInstantiatedMessage(implName)
        && r.failure.cause == c.thrown
        && Contains(r.failure.message, implName)
    ensures var r := NewInstance(implName, loader);
      var c := LoadAndConstruct(implName, loader);
      r.Failure? && r.failure.Propagated? <==> c.Throws? && c.thrown.JavaError?
    ensures var r := NewInstance(implName, loader);
      var c := LoadAndConstruct(implName, loader);
      r.Failure? && r.failure.Propagated? ==> r.failure.thrown == c.thrown
  {
    MessagesNameTheirSubject(implName);
  }

  /**
   * Padding a name with characters `trim` removes does not change what the
   * service file names: a first line `  SpanishGreeter  ` constructs
   * `SpanishGreeter` when no property is set.
   */
  lemma PaddedServiceFileName(iface: Interface, fallback: Option<string>, env: Env,
                              before: string, name: string, after: string)
    requires iface.name !in env.properties
    requires AllTrimmable(before) && AllTrimmable(after)
    requires name != [] && !IsTrimmable(name[0]) && !IsTrimmable(name[|name| - 1])
    requires GetResource(env, ServiceResourceName(iface.name), iface.loader)
          == Some(FirstLine(Some(before + name + after)))
    ensures Resolution(Some(iface), fallback, env) == NewInstance(name, iface.loader)
  {
    TrimPadded(before, name, after);
    assert ServiceProviderLookup(env, iface.name, iface.loader) == Found(name);
    assert ImplementationName(iface, fallback, env) == Found(name);
  }
}
