/**
 * How the three layers relate. `MessagesUtils` and `HudsonUtils` pick the
 * same template with the same arguments for every object, although they
 * build node URLs with different helpers; and the message-based dump routines
 * of `HudsonUtils` write exactly the lines of the build wrapper under a
 * catalog that renders each message as the wrapper's line.
 */
module Layers {
  import opened Wrappers
  import opened HudsonModel
  import opened Messages
  import opened Lines
  import Decimal
  import MessagesUtils
  import HudsonUtils
  import DumpInfo

  lemma FormatComputerAgrees(rootUrl: string, computer: Option<Computer>)
    ensures MessagesUtils.FormatComputer(rootUrl, computer) == HudsonUtils.FormatComputer(rootUrl, computer)
  {
  }

  lemma FormatOthersAgree(hudson: Option<Hudson>, jdk: Option<Jdk>, plugin: Option<Plugin>)
    ensures MessagesUtils.FormatHudson(hudson) == HudsonUtils.FormatHudson(hudson)
    ensures MessagesUtils.FormatJdk(jdk) == HudsonUtils.FormatJdk(jdk)
    ensures MessagesUtils.FormatPlugin(plugin) == HudsonUtils.FormatPlugin(plugin)
  {
  }

  /** A catalog that renders each message as the build wrapper's hand-built line. */
  function WrapperCatalog(m: Message): string {
    match m
    case ComputerOnline(name, n, url) =>
      Append([DumpInfo.ComputerPrefix, name, " (", "ONLINE", ")", " with ", Decimal.IntToString(n as int), " executors - "]) + url
    case ComputerOffline(name, n, url) =>
      Append([DumpInfo.ComputerPrefix, name, " (", "OFFLINE", ")", " with ", Decimal.IntToString(n as int), " executors - "]) + url
    case HudsonInfo(name, version) => Append([DumpInfo.HudsonPrefix, name, " ", "v", version])
    case ToolJdk(name, home) => Append([DumpInfo.JdkPrefix, name, " at ", home])
    case PluginInfo(longName, version, url) => Append([DumpInfo.PluginPrefix, longName, " v", version, " - ", url])
  }

  /** Under those templates a node's message is the wrapper's node line. */
  lemma ComputerMessageIsWrapperLine(rootUrl: string, c: Computer)
    ensures Render(WrapperCatalog, HudsonUtils.FormatComputer(rootUrl, Some(c))) == DumpInfo.ComputerLine(rootUrl, c)
  {
    DumpInfo.ComputerLineUrl(rootUrl, c);
  }

  /** The `HudsonUtils` server line is the wrapper's server line. */
  lemma HudsonMessageIsWrapperLine(hudson: Hudson)
    ensures Render(WrapperCatalog, HudsonUtils.FormatHudson(Some(hudson))) == DumpInfo.HudsonLine(hudson)
  {
  }

  /** Node by node and in the same order, both node dumps write the same lines. */
  lemma ComputerLinesAgree(rootUrl: string, computers: Option<seq<Computer>>)
    ensures HudsonUtils.ComputerLines(rootUrl, WrapperCatalog, computers) == DumpInfo.ComputerLines(rootUrl, computers)
  {
    if computers.Some? {
      var cs := computers.value;
      forall i | 0 <= i < |cs|
        ensures Render(WrapperCatalog, HudsonUtils.FormatComputer(rootUrl, Some(cs[i]))) == DumpInfo.ComputerLine(rootUrl, cs[i])
      {
        ComputerMessageIsWrapperLine(rootUrl, cs[i]);
      }
      EachPointwise(cs, c => Render(WrapperCatalog, HudsonUtils.FormatComputer(rootUrl, Some(c))), c => DumpInfo.ComputerLine(rootUrl, c));
    }
  }

  lemma JdkLinesAgree(jdks: Option<seq<Jdk>>)
    ensures HudsonUtils.JdkLines(WrapperCatalog, jdks) == DumpInfo.JdkLines(jdks)
  {
    if jdks.Some? {
      EachPointwise(jdks.value, j => Render(WrapperCatalog, HudsonUtils.FormatJdk(Some(j))), DumpInfo.JdkLine);
    }
  }

  lemma PluginLinesAgree(pluginManager: Option<PluginManager>)
    ensures HudsonUtils.PluginManagerLines(WrapperCatalog, pluginManager) == DumpInfo.PluginManagerLines(pluginManager)
  {
    if pluginManager.Some? && pluginManager.value.plugins.Some? {
      EachPointwise(pluginManager.value.plugins.value, p => Render(WrapperCatalog, HudsonUtils.FormatPlugin(Some(p))), DumpInfo.PluginLine);
    }
  }
}
