# FactoryFinder, modelled in Dafny

`org.fossnova.finder.FactoryFinder` is a class-loader-leak-free replacement
for `java.util.ServiceLoader`. `find(factoryIface, fallbackFactoryImplName)`
first rejects a `null` interface. It then picks the name of an
implementation class from three sources, in order:

1. the system property named after the interface;
2. the trimmed first line of the resource `META-INF/services/<interface>`,
   looked up in the system class loader and then in the interface's own
   loader;
3. the caller's fallback.

It then loads and constructs that class through the interface's loader.
`find(factoryIface)` is `find(factoryIface, null)`.

The project has four modules:

- `JavaString` (`java_string.dfy`) holds `String.trim`, which removes every
  character at or below U+0020 from both ends. `TrimBounds`/`IsTrimOf` is an
  independent description of a trim, and `Trim` is proved to be the one
  string that meets it. A `Contains` predicate, used only to state facts
  about the error messages, is here too.
- `Platform` (`platform.dfy`) holds what the JVM decides, given as input
  values. These are the property store, the system loader's resources, and
  for each loader its resources and what loading and constructing each class
  it knows does. It also has the resource stream, a class with an
  open/closed state, and the `BufferedReader`, a class that reads from that
  stream and closes it.
- `FactoryFinder` (`factory_finder.dfy`) has the source's members. The pure
  ones are functions. `getFactoryImplClassNameFromServiceProvider`,
  `safeClose` and both `find` overloads are methods that follow the source
  step by step. The resource step and the two `find` methods are proved
  equal to specification functions (`ServiceProviderLookup`, `Resolution`).
  `safeClose` is specified by the state it leaves: the reader's stream is
  closed.
- `FinderProperties` (`finder_properties.dfy`) proves what `find` promises
  about those specification functions.

The class has no fields and no statics: its constructor is private and empty
(`FactoryFinder.java:38-40`). Every call is therefore a function of its
arguments and the platform, and nothing is kept between calls. The model
shows this by being functions over explicit inputs.

In these places the code does something a quick reading misses, and the
model follows the code:

- An empty property value is not skipped. Only `null` is checked
  (line 66), so `""` becomes the class name.
- An empty service file is not "nothing found". `readLine()` returns
  `null`, and `.trim()` on it throws a `NullPointerException`. Only
  `IOException` is caught, so the exception leaves `find` after the reader
  is closed. The fallback is not tried.
- The fallback is used verbatim, `""` included.
- `java.lang.Error`s are caught by neither handler of `newInstance`
  (`catch (Exception)` at line 106). Examples are `ExceptionInInitializerError`
  from the class's initialiser, or an `Error` from its constructor. They
  leave `find` unwrapped (`Failure.Propagated`).
- The handler at line 104 is keyed on the type of the exception. So a
  `ClassNotFoundException` that the constructor itself throws
  (`Class.newInstance` rethrows it) is reported as "not found" too.

## Model

| member | source | states |
|---|---|---|
| `FactoryFinder.IsDefined` | src/main/java/org/fossnova/finder/FactoryFinder.java:129-131 | no contract of its own: it is the test `s != null && s.length() > 0`; see `TrimEmptyIff` and `ServiceProviderFound` for what it rejects |
| `FactoryFinder.ServiceResourceName` | src/main/java/org/fossnova/finder/FactoryFinder.java:83 | no contract of its own; see `ServiceResourceNameParts` and `ServiceResourceNameInjective` |
| `FactoryFinder.GetFactoryImplFromSystemProperty` | src/main/java/org/fossnova/finder/FactoryFinder.java:78-80 | no contract of its own: the property store's value for the interface name, `None` for `null`; see `PropertyTakesPrecedence` |
| `FactoryFinder.GetResource` | src/main/java/org/fossnova/finder/FactoryFinder.java:111-117 | no contract of its own; see `GetResourcePrefersSystemLoader` |
| `FactoryFinder.NewInstance` | src/main/java/org/fossnova/finder/FactoryFinder.java:100-108 | no contract of its own; see `NewInstanceOutcomes` |
| `FactoryFinder.ServiceProviderLookup` | src/main/java/org/fossnova/finder/FactoryFinder.java:82-98 | no contract of its own: the specification of the resource step; see `ServiceProviderFound`, `ServiceProviderRaises` and the method `GetFactoryImplClassNameFromServiceProvider`, proved equal to it |
| `FactoryFinder.ImplementationName` | src/main/java/org/fossnova/finder/FactoryFinder.java:65-71 | no contract of its own: the name chosen in the order property, resource, fallback; see `PropertyTakesPrecedence`, `FallbackUsedVerbatim` and `FallbackIgnoredOtherwise` |
| `FactoryFinder.Resolution` | src/main/java/org/fossnova/finder/FactoryFinder.java:60-76 | no contract of its own: the specification of `find`; see the method `Find`, proved equal to it, and the lemmas of `FinderProperties` |
| `Platform.LoadAndConstruct` | src/main/java/org/fossnova/finder/FactoryFinder.java:102-103 | no contract of its own: the loader's registered outcome, `ClassNotFoundException` for an unknown name; see `NewInstanceOutcomes` |
| `JavaString.Trim` | src/main/java/org/fossnova/finder/FactoryFinder.java:90 | no contract of its own; see `TrimIsTrimOf`, `IsTrimOfUnique`, `TrimEmptyIff`, `TrimIdempotent` and `TrimEnds` |
| `FactoryFinder.Find` | src/main/java/org/fossnova/finder/FactoryFinder.java:60-76 | the step-by-step method returns exactly `Resolution(iface, fallback, env)`, which is `find`'s result or the exception it throws |
| `FactoryFinder.FindWithoutFallback` | src/main/java/org/fossnova/finder/FactoryFinder.java:48-50 | `find(iface)` gives the same outcome as `find(iface, null)` |
| `FactoryFinder.GetFactoryImplClassNameFromServiceProvider` | src/main/java/org/fossnova/finder/FactoryFinder.java:82-98 | the method's result is `ServiceProviderLookup`; a stream is newly opened exactly when the resource exists, and that stream is closed on every exit, the thrown `NullPointerException` included |
| `FactoryFinder.SafeClose` | src/main/java/org/fossnova/finder/FactoryFinder.java:119-127 | a non-null reader's stream is closed afterwards; nothing else is touched |
| `Platform.BufferedReader.ReadLine` | src/main/java/org/fossnova/finder/FactoryFinder.java:89-90 | an open stream gives its first line, or `null` when it is empty; a closed one throws `IOException` |
| `Platform.BufferedReader.Close` | src/main/java/org/fossnova/finder/FactoryFinder.java:94 | closing the reader closes the underlying resource stream |
| `Platform.OpenStream` | src/main/java/org/fossnova/finder/FactoryFinder.java:84 | a resource that was found gives a new open stream over its content; a missing one gives `null` |
| `FinderProperties.NullInterfaceRefused` | src/main/java/org/fossnova/finder/FactoryFinder.java:61-63 | a `null` interface fails with `IllegalArgumentException("Factory interface class cannot be null")`, whatever the properties, resources, classes and fallback |
| `FinderProperties.PropertyTakesPrecedence` | src/main/java/org/fossnova/finder/FactoryFinder.java:65-67 | a property set for the interface name is the class name; changing the resources of either loader or the fallback does not change the outcome |
| `FinderProperties.EmptyPropertyIsUsed` | src/main/java/org/fossnova/finder/FactoryFinder.java:66 | an empty property value is not skipped: with no class named `""`, `find` fails with "Factory '' not found" |
| `FinderProperties.ServiceResourceNameParts` | src/main/java/org/fossnova/finder/FactoryFinder.java:83 | the resource path is `META-INF/services/` followed by the interface name |
| `FinderProperties.ServiceResourceNameInjective` | src/main/java/org/fossnova/finder/FactoryFinder.java:83 | two different interface names never share a resource path |
| `FinderProperties.GetResourcePrefersSystemLoader` | src/main/java/org/fossnova/finder/FactoryFinder.java:111-117 | the system loader's resource hides the interface loader's; the interface loader is asked only when the system loader has none; the result is absent exactly when both lack the resource |
| `FinderProperties.ServiceProviderFound` | src/main/java/org/fossnova/finder/FactoryFinder.java:88-97 | the resource step yields a name if and only if the first line exists and is not blank; the name is that line trimmed, is non-empty, and neither starts nor ends with a character `trim` removes |
| `FinderProperties.ServiceProviderRaises` | src/main/java/org/fossnova/finder/FactoryFinder.java:90-91 | the resource step throws if and only if the resource is empty, and what it throws is a `NullPointerException` |
| `FinderProperties.UnusableServiceFileIsIgnored` | src/main/java/org/fossnova/finder/FactoryFinder.java:91-97 | a service file whose first line is blank, or whose read throws `IOException`, gives the same outcome as no service file in either loader |
| `FinderProperties.EmptyServiceFileThrows` | src/main/java/org/fossnova/finder/FactoryFinder.java:90-95 | with no property set, an empty service file makes `find` throw `NullPointerException`, whatever the fallback |
| `FinderProperties.FallbackUsedVerbatim` | src/main/java/org/fossnova/finder/FactoryFinder.java:69-71 | with no property and nothing from the service file, the fallback, untrimmed and unchecked, is the class name |
| `FinderProperties.FallbackIgnoredOtherwise` | src/main/java/org/fossnova/finder/FactoryFinder.java:65-71 | when the property is set or the resource step yields a name or throws, the fallback does not affect the outcome |
| `FinderProperties.NoImplementationIff` | src/main/java/org/fossnova/finder/FactoryFinder.java:72-74 | `find` fails with "no implementation" if and only if there is no property, the resource step yields nothing and the fallback is `null`; the message is "Factory implementation for interface '<name>' not found" and contains the interface name |
| `FinderProperties.MessagesNameTheirSubject` | src/main/java/org/fossnova/finder/FactoryFinder.java:73-107 | each of the three runtime error messages contains the interface or class name it is about |
| `FinderProperties.NewInstanceOutcomes` | src/main/java/org/fossnova/finder/FactoryFinder.java:100-108 | a constructed object is returned as it is; a `ClassNotFoundException`, an unknown name included, gives exactly the failure "Factory '<name>' not found" with that cause; any other `Exception` gives the message "Factory '<name>' not instatiated" with that exception as cause; an `Error` propagates as the same `Error`; each kind is an if-and-only-if |
| `FinderProperties.PaddedServiceFileName` | src/main/java/org/fossnova/finder/FactoryFinder.java:90 | with no property set, a first line that is a name padded on both sides with characters `trim` removes (such as `  SpanishGreeter  `) constructs exactly that name |
| `JavaString.TrimLeading` | src/main/java/org/fossnova/finder/FactoryFinder.java:90 | the result is a suffix of the input, everything dropped is at or below U+0020, and the result does not start with such a character |
| `JavaString.TrimTrailing` | src/main/java/org/fossnova/finder/FactoryFinder.java:90 | the result is a prefix of the input, everything dropped is at or below U+0020, and the result does not end with such a character |
| `JavaString.TrimIsTrimOf` | src/main/java/org/fossnova/finder/FactoryFinder.java:90 | `Trim(s)` is a slice of `s`: only trimmable characters lie outside it, and its ends are not trimmable |
| `JavaString.TrimBoundsUnique` | src/main/java/org/fossnova/finder/FactoryFinder.java:90 | two slices that both meet that description are equal |
| `JavaString.IsTrimOfUnique` | src/main/java/org/fossnova/finder/FactoryFinder.java:90 | any string that meets the description is `Trim(s)` |
| `JavaString.TrimEmptyIff` | src/main/java/org/fossnova/finder/FactoryFinder.java:90-97 | a line trims to `""`, and so fails `isDefined`, if and only if all of its characters are at or below U+0020 |
| `JavaString.TrimIdempotent` | src/main/java/org/fossnova/finder/FactoryFinder.java:90 | trimming twice gives the same as trimming once |
| `JavaString.TrimEnds` | src/main/java/org/fossnova/finder/FactoryFinder.java:90 | a non-empty trimmed string starts and ends with a character above U+0020 |
| `JavaString.TrimPadded` | src/main/java/org/fossnova/finder/FactoryFinder.java:90 | padding a string whose ends are above U+0020 with characters at or below U+0020 and trimming gives the string back |
| `JavaString.ContainsInfix` | src/main/java/org/fossnova/finder/FactoryFinder.java:73 | a string built as `a + b + c` contains `b`, as the message concatenations do |

## Left out

- Reflection is left out. `Class.forName(name, true, loader)` and
  `newInstance()` (lines 102-103) are an oracle: each loader has a map from
  class name to what loading and constructing does. The model does not say
  which JVM conditions lead to which exception.
- `System.getProperty` and the class-loader resource lookups are input maps.
  A missing key stands for the `null` they return.
- A `SecurityException` from `System.getProperty` (line 79) is not modelled.
  Under a security manager that denies the read, it would leave `find`
  unwrapped. The model's total property map always answers.
- Interface names are assumed non-empty, since `Class.getName` never returns
  `""`. The model's `Interface.name` may be `""`, and for it
  `System.getProperty("")` would throw `IllegalArgumentException`; that path
  is not modelled.
- UTF-8 decoding and line splitting (line 89) are left out. A resource is
  given directly as the outcome of its first `readLine()`: an `IOException`,
  `null`, or a line. Only that first read is modelled, because the source
  reads only once.
- `Platform.BufferedReader.Close`: an `IOException` from `close()` is not
  modelled. `safeClose` ignores it (lines 123-125), and the stream is taken
  to be closed afterwards.
- The unchecked cast to `T` (line 75) has no behaviour and is left out. A
  constructed object is an `InstanceId`, and the same registry entry gives
  the same id on every call.
- A `null` class loader (bootstrap classes) is left out. There,
  `loader.getResourceAsStream` at line 114 would throw and `Class.forName`
  would use the bootstrap loader. Every `Interface` carries a loader value.
- The class-loader-leak guarantee (lines 28-33) is about garbage-collection
  reachability. It is not expressible over values. The model only reflects
  that the class keeps no state.
- Thread safety needs no modelling: there is no shared state.
