/**
 * `hudson.plugins.dumpinfo.HudsonUtils`: the message-based dump routines, its
 * own `format` overloads and its own node-URL builder.
 *
 * The singleton `Hudson.getInstance()` is the `hudson` parameter; the
 * localized templates are the `catalog` parameter.
 */
module HudsonUtils {
  import opened Wrappers
  import opened HudsonModel
  import opened Messages
  import opened Lines
  import ComputerUtils

  /** How a Java call ends here: with a value, or by dereferencing null. */
  datatype Outcome<T> = Returned(value: T) | NullPointerException

  /**
   * `getRootUrl(Computer)`: root URL, slash and the node's URL. Unlike
   * `ComputerUtils.getRootUrl` it has no null check, so a null node throws.
   */
  function GetRootUrl(rootUrl: string, computer: Option<Computer>): (r: Outcome<string>)
    ensures computer.None? <==> r.NullPointerException?
  {
    match computer
    case None => NullPointerException
    case Some(c) => Returned(rootUrl + "/" + c.url)
  }

  /** The two node-URL builders agree on every node; on null one returns null and the other throws. */
  lemma GetRootUrlAgrees(rootUrl: string, computer: Option<Computer>)
    ensures computer.Some? ==> GetRootUrl(rootUrl, computer) == Returned(ComputerUtils.GetRootUrl(rootUrl, computer).value)
    ensures computer.None? ==> ComputerUtils.GetRootUrl(rootUrl, computer).None? && GetRootUrl(rootUrl, computer).NullPointerException?
  {
  }

  /**
   * `format(Computer)`: null for a null node; otherwise the Online template
   * for an online node and the Offline one for any other, with the node's
   * name, executor count and this module's `getRootUrl` URL.
   */
  function FormatComputer(rootUrl: string, computer: Option<Computer>): (r: Option<Message>)
    ensures computer.None? <==> r.None?
    ensures computer.Some? ==>
      && (r.value.ComputerOnline? || r.value.ComputerOffline?)
      && (r.value.ComputerOnline? <==> computer.value.online)
      && r.value.name == computer.value.displayName
      && r.value.executors == computer.value.numExecutors
      && r.value.url == rootUrl + "/" + computer.value.url
  {
    match computer
    case None => None
    case Some(c) =>
      if c.online then
        Some(ComputerOnline(c.displayName, c.numExecutors, GetRootUrl(rootUrl, computer).value))
      else
        Some(ComputerOffline(c.displayName, c.numExecutors, GetRootUrl(rootUrl, computer).value))
  }

  /** `format(Hudson)`: null for null; otherwise the server template with name and version. */
  function FormatHudson(hudson: Option<Hudson>): (r: Option<Message>)
    ensures hudson.None? <==> r.None?
    ensures hudson.Some? ==>
      && r.value.HudsonInfo?
      && r.value.name == hudson.value.displayName
      && r.value.version == hudson.value.version
  {
    match hudson
    case None => None
    case Some(h) => Some(HudsonInfo(h.displayName, h.version))
  }

  /** `format(JDK)`: null for null; otherwise the JDK template with name and home. */
  function FormatJdk(jdk: Option<Jdk>): (r: Option<Message>)
    ensures jdk.None? <==> r.None?
    ensures jdk.Some? ==>
      && r.value.ToolJdk?
      && r.value.name == jdk.value.name
      && r.value.home == jdk.value.home
  {
    match jdk
    case None => None
    case Some(j) => Some(ToolJdk(j.name, j.home))
  }

  /** `format(PluginWrapper)`: null for null; otherwise the plugin template with long name, version and URL. */
  function FormatPlugin(plugin: Option<Plugin>): (r: Option<Message>)
    ensures plugin.None? <==> r.None?
    ensures plugin.Some? ==>
      && r.value.PluginInfo?
      && r.value.longName == plugin.value.longName
      && r.value.version == plugin.value.version
      && r.value.url == plugin.value.url
  {
    match plugin
    case None => None
    case Some(p) => Some(PluginInfo(p.longName, p.version, p.url))
  }

  // ---- What each dump routine writes

  /** The lines `dumpComputers` writes: one rendered `format(computer)` per node; none for a null array. */
  function ComputerLines(rootUrl: string, catalog: Catalog, computers: Option<seq<Computer>>): seq<string> {
    match computers
    case None => []
    case Some(cs) => Each(cs, c => Render(catalog, FormatComputer(rootUrl, Some(c))))
  }

  function JdkLines(catalog: Catalog, jdks: Option<seq<Jdk>>): seq<string> {
    match jdks
    case None => []
    case Some(js) => Each(js, j => Render(catalog, FormatJdk(Some(j))))
  }

  function PluginLines(catalog: Catalog, plugins: Option<seq<Plugin>>): seq<string> {
    match plugins
    case None => []
    case Some(ps) => Each(ps, p => Render(catalog, FormatPlugin(Some(p))))
  }

  /** `dumpPlugins(PluginManager)`: nothing for a null manager, else its plugin list. */
  function PluginManagerLines(catalog: Catalog, pluginManager: Option<PluginManager>): seq<string> {
    match pluginManager
    case None => []
    case Some(pm) => PluginLines(catalog, pm.plugins)
  }

  /**
   * Line `i` of the node dump is the catalog's text for the template chosen
   * by node `i`'s state, with that node's name, count and URL.
   */
  lemma ComputerLinesAt(rootUrl: string, catalog: Catalog, cs: seq<Computer>, i: nat)
    requires i < |cs|
    ensures |ComputerLines(rootUrl, catalog, Some(cs))| == |cs|
    ensures ComputerLines(rootUrl, catalog, Some(cs))[i] ==
      catalog(if cs[i].online
              then ComputerOnline(cs[i].displayName, cs[i].numExecutors, rootUrl + "/" + cs[i].url)
              else ComputerOffline(cs[i].displayName, cs[i].numExecutors, rootUrl + "/" + cs[i].url))
  {
  }

  lemma JdkLinesAt(catalog: Catalog, js: seq<Jdk>, i: nat)
    requires i < |js|
    ensures |JdkLines(catalog, Some(js))| == |js|
    ensures JdkLines(catalog, Some(js))[i] == catalog(ToolJdk(js[i].name, js[i].home))
  {
  }

  lemma PluginLinesAt(catalog: Catalog, ps: seq<Plugin>, i: nat)
    requires i < |ps|
    ensures |PluginLines(catalog, Some(ps))| == |ps|
    ensures PluginLines(catalog, Some(ps))[i] == catalog(PluginInfo(ps[i].longName, ps[i].version, ps[i].url))
  {
  }

  // ---- The dump routines

  /** `dumpComputers`: nothing without a logger or nodes, else one line per node in array order. */
  method DumpComputers(logger: PrintStream?, hudson: Hudson, catalog: Catalog, computers: Option<seq<Computer>>)
    modifies logger
    ensures logger != null ==> logger.lines == old(logger.lines) + ComputerLines(hudson.rootUrl, catalog, computers)
  {
    if logger == null {
      return;
    }
    if computers.None? {
      return;
    }
    var cs := computers.value;
    for i := 0 to |cs|
      invariant logger.lines == old(logger.lines) + ComputerLines(hudson.rootUrl, catalog, Some(cs[..i]))
    {
      logger.Println(Render(catalog, FormatComputer(hudson.rootUrl, Some(cs[i]))));
      EachSnoc(cs, i, c => Render(catalog, FormatComputer(hudson.rootUrl, Some(c))));
    }
    assert cs[..|cs|] == cs;
  }

  /** `dumpHudson`: nothing without a logger, else the server line. */
  method DumpHudson(logger: PrintStream?, hudson: Hudson, catalog: Catalog)
    modifies logger
    ensures logger != null ==> logger.lines == old(logger.lines) + [catalog(HudsonInfo(hudson.displayName, hudson.version))]
  {
    if logger == null {
      return;
    }
    logger.Println(Render(catalog, FormatHudson(Some(hudson))));
  }

  /** `dumpJdks`: nothing without a logger or list, else one line per JDK in list order. */
  method DumpJdks(logger: PrintStream?, catalog: Catalog, jdks: Option<seq<Jdk>>)
    modifies logger
    ensures logger != null ==> logger.lines == old(logger.lines) + JdkLines(catalog, jdks)
  {
    if logger == null {
      return;
    }
    if jdks.None? {
      return;
    }
    var js := jdks.value;
    for i := 0 to |js|
      invariant logger.lines == old(logger.lines) + JdkLines(catalog, Some(js[..i]))
    {
      logger.Println(Render(catalog, FormatJdk(Some(js[i]))));
      EachSnoc(js, i, j => Render(catalog, FormatJdk(Some(j))));
    }
    assert js[..|js|] == js;
  }

  /** `dumpPlugins(List)`: nothing without a logger or list, else one line per plugin in list order. */
  method DumpPlugins(logger: PrintStream?, catalog: Catalog, plugins: Option<seq<Plugin>>)
    modifies logger
    ensures logger != null ==> logger.lines == old(logger.lines) + PluginLines(catalog, plugins)
  {
    if logger == null {
      return;
    }
    if plugins.None? {
      return;
    }
    var ps := plugins.value;
    for i := 0 to |ps|
      invariant logger.lines == old(logger.lines) + PluginLines(catalog, Some(ps[..i]))
    {
      logger.Println(Render(catalog, FormatPlugin(Some(ps[i]))));
      EachSnoc(ps, i, p => Render(catalog, FormatPlugin(Some(p))));
    }
    assert ps[..|ps|] == ps;
  }

  /** `dumpPlugins(PluginManager)`: nothing for a null manager, else `dumpPlugins` of its list. */
  method DumpPluginManager(logger: PrintStream?, catalog: Catalog, pluginManager: Option<PluginManager>)
    modifies logger
    ensures logger != null ==> logger.lines == old(logger.lines) + PluginManagerLines(catalog, pluginManager)
  {
    if pluginManager.None? {
      return;
    }
    DumpPlugins(logger, catalog, pluginManager.value.plugins);
  }
}
