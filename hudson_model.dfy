/**
 * The host objects the report reads, as plain values. Each accessor of the
 * server (`getDisplayName`, `isOnline`, `getNumExecutors`, `getUrl`, ...) is a
 * field; an accessor that may return null (a collection, the plugin manager)
 * has an `Option` type.
 */
module HudsonModel {
  import opened Wrappers

  /** A Java `int`. */
  newtype int32 = x: int | -0x8000_0000 <= x < 0x8000_0000

  /** A node (`hudson.model.Computer`). */
  datatype Computer = Computer(displayName: string, online: bool, numExecutors: int32, url: string)

  /** A JDK tool installation (`hudson.model.JDK`). */
  datatype Jdk = Jdk(name: string, home: string)

  /** An installed plugin (`hudson.PluginWrapper`). */
  datatype Plugin = Plugin(longName: string, version: string, url: string)

  /** `hudson.PluginManager`, of which only `getPlugins()` is read. */
  datatype PluginManager = PluginManager(plugins: Option<seq<Plugin>>)

  /**
   * What `Hudson.getInstance()` and the static `Hudson.getVersion()` give the
   * report: the server's name, version and root URL, and its nodes, JDKs and
   * plugin manager.
   */
  datatype Hudson = Hudson(
    displayName: string,
    version: string,
    rootUrl: string,
    computers: Option<seq<Computer>>,
    jdks: Option<seq<Jdk>>,
    pluginManager: Option<PluginManager>)

  /** Number of elements of a collection that may be null (null counts as empty). */
  function Count<T>(xs: Option<seq<T>>): nat
  {
    match xs
    case None => 0
    case Some(s) => |s|
  }
}
