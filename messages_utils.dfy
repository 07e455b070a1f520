/** `hudson.plugins.dumpinfo.MessagesUtils`: each host object to its message. */
module MessagesUtils {
  import opened Wrappers
  import opened HudsonModel
  import opened Messages
  import ComputerUtils

  /**
   * `format(Computer)`: null for a null node; otherwise the Online template
   * for an online node and the Offline one for any other, both given the
   * node's name, executor count and `ComputerUtils.getRootUrl` URL.
   */
  function FormatComputer(rootUrl: string, computer: Option<Computer>): (r: Option<Message>)
    ensures computer.None? <==> r.None?
    ensures computer.Some? ==>
      && (r.value.ComputerOnline? || r.value.ComputerOffline?)
      && (r.value.ComputerOnline? <==> computer.value.online)
      && r.value.name == computer.value.displayName
      && r.value.executors == computer.value.numExecutors
      && r.value.url == rootUrl + "/" + computer.value.url
  {
    match computer
    case None => None
    case Some(c) =>
      if c.online then
        Some(ComputerOnline(c.displayName, c.numExecutors, ComputerUtils.GetRootUrl(rootUrl, computer).value))
      else
        Some(ComputerOffline(c.displayName, c.numExecutors, ComputerUtils.GetRootUrl(rootUrl, computer).value))
  }

  /** `format(Hudson)`: null for null; otherwise the server template with name and version. */
  function FormatHudson(hudson: Option<Hudson>): (r: Option<Message>)
    ensures hudson.None? <==> r.None?
    ensures hudson.Some? ==>
      && r.value.HudsonInfo?
      && r.value.name == hudson.value.displayName
      && r.value.version == hudson.value.version
  {
    match hudson
    case None => None
    case Some(h) => Some(HudsonInfo(h.displayName, h.version))
  }

  /** `format(JDK)`: null for null; otherwise the JDK template with name and home. */
  function FormatJdk(jdk: Option<Jdk>): (r: Option<Message>)
    ensures jdk.None? <==> r.None?
    ensures jdk.Some? ==>
      && r.value.ToolJdk?
      && r.value.name == jdk.value.name
      && r.value.home == jdk.value.home
  {
    match jdk
    case None => None
    case Some(j) => Some(ToolJdk(j.name, j.home))
  }

  /** `format(PluginWrapper)`: null for null; otherwise the plugin template with long name, version and URL. */
  function FormatPlugin(plugin: Option<Plugin>): (r: Option<Message>)
    ensures plugin.None? <==> r.None?
    ensures plugin.Some? ==>
      && r.value.PluginInfo?
      && r.value.longName == plugin.value.longName
      && r.value.version == plugin.value.version
      && r.value.url == plugin.value.url
  {
    match plugin
    case None => None
    case Some(p) => Some(PluginInfo(p.longName, p.version, p.url))
  }
}
