/**
 * The host platform as the factory finder sees it: the system property store,
 * the resources of the system class loader and of the interface's class
 * loader, the classes a loader can load and construct, and the stream and
 * reader objects through which a resource's first line is read.
 *
 * Everything the JVM decides (property values, resource contents, what
 * loading and constructing a class does) is an input value here.
 */
module Platform {

  datatype Option<+T> = None | Some(value: T)

  function Lookup<K, V>(m: map<K, V>, key: K): Option<V> {
    if key in m then Some(m[key]) else None
  }

  /** The throwables the finder can meet, by the handlers that catch them. */
  datatype Throwable =
    | ClassNotFoundException
    | NullPointerException
      /** any other subclass of `java.lang.Exception`, by class name */
    | OtherException(className: string)
      /** a `java.lang.Error`, which is not an `Exception`, by class name */
    | JavaError(className: string)

  /**
   * What `readLine()` on a provider-configuration resource gives: an
   * `IOException`, or the first line, `None` being the `null` an empty
   * resource gives.
   */
  datatype ReadOutcome = ReadFails | FirstLine(line: Option<string>)

  /** The identity of an object a loaded class constructed. */
  type InstanceId = nat

  /**
   * What `Class.forName(name, true, loader)` followed by `newInstance()`
   * does: throws (while loading, initialising or constructing) or
   * returns a new instance.
   */
  datatype ClassOutcome = Throws(thrown: Throwable) | Constructs(instance: InstanceId)

  /**
   * A class loader: the resources `getResourceAsStream` finds and what
   * loading and constructing each class it knows does. A name it does not
   * know makes `Class.forName` throw `ClassNotFoundException`.
   */
  datatype Loader = Loader(resources: map<string, ReadOutcome>, classes: map<string, ClassOutcome>)

  /**
   * The process-wide lookups: `System.getProperty` (a missing key is the
   * `null` it returns) and `ClassLoader.getSystemResourceAsStream`.
   */
  datatype Env = Env(properties: map<string, string>, systemResources: map<string, ReadOutcome>)

  /** `Class.forName(name, true, loader).newInstance()`. */
  function LoadAndConstruct(name: string, loader: Loader): ClassOutcome {
    if name in loader.classes then loader.classes[name] else Throws(ClassNotFoundException)
  }

  /** A resource stream, open until closed. */
  class InputStream {
    const content: ReadOutcome
    var open: bool

    constructor (content: ReadOutcome)
      ensures this.content == content && open
    {
      this.content := content;
      open := true;
    }
  }

  /**
   * A `BufferedReader` over an `InputStreamReader` decoding an `InputStream`
   * as UTF-8; closing it closes the stream.
   */
  class BufferedReader {
    const source: InputStream

    constructor (source: InputStream)
      ensures this.source == source
    {
      this.source := source;
    }

    /** The first `readLine()`: a closed stream makes it throw `IOException`. */
    method ReadLine() returns (r: ReadOutcome)
      ensures r == if source.open then source.content else ReadFails
    {
      if source.open {
        r := source.content;
      } else {
        r := ReadFails;
      }
    }

    method Close()
      modifies source
      ensures !source.open
    {
      source.open := false;
    }
  }

  /** Opens the stream of a resource that was found; `null` when it was not. */
  method OpenStream(resource: Option<ReadOutcome>) returns (stream: InputStream?)
    ensures stream == null <==> resource.None?
    ensures stream != null ==> fresh(stream) && stream.open && stream.content == resource.value
  {
    if resource.Some? {
      stream := new InputStream(resource.value);
    } else {
      stream := null;
    }
  }
}
