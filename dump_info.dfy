/**
 * `org.jvnet.hudson.plugins.DumpInfoBuildWrapper`: the build hook that writes
 * the report into the job log when a build is set up. Its lines are built by
 * explicit concatenation, without the message catalog.
 *
 * The singleton `Hudson.getInstance()` is the `hudson` parameter and the
 * listener's logger is the `logger` parameter (null when there is none).
 */
module DumpInfo {
  import opened Wrappers
  import opened HudsonModel
  import opened Lines
  import Decimal
  import ComputerUtils

  // ---- The text of each line

  const HudsonPrefix := "Found Hudson: "
  const ComputerPrefix := "Found computer: "
  const JdkPrefix := "Found JDK: "
  const PluginPrefix := "Found plugin: "

  function HudsonLine(hudson: Hudson): string {
    Append([HudsonPrefix, hudson.displayName, " ", "v", hudson.version])
  }

  function Marker(online: bool): string {
    if online then "ONLINE" else "OFFLINE"
  }

  /** The line for one node; `rootUrl` is the root URL read once before the loop. */
  function ComputerLine(rootUrl: string, c: Computer): string {
    Append([ComputerPrefix, c.displayName, " (", Marker(c.online), ")", " with ",
            Decimal.IntToString(c.numExecutors as int), " executors - ", rootUrl, "/", c.url])
  }

  function JdkLine(jdk: Jdk): string {
    Append([JdkPrefix, jdk.name, " at ", jdk.home])
  }

  function PluginLine(plugin: Plugin): string {
    Append([PluginPrefix, plugin.longName, " v", plugin.version, " - ", plugin.url])
  }

  // ---- The lines of each section; a null collection gives none

  function ComputerLines(rootUrl: string, computers: Option<seq<Computer>>): seq<string> {
    match computers
    case None => []
    case Some(cs) => Each(cs, c => ComputerLine(rootUrl, c))
  }

  function JdkLines(jdks: Option<seq<Jdk>>): seq<string> {
    match jdks
    case None => []
    case Some(js) => Each(js, JdkLine)
  }

  function PluginLines(plugins: Option<seq<Plugin>>): seq<string> {
    match plugins
    case None => []
    case Some(ps) => Each(ps, PluginLine)
  }

  function PluginManagerLines(pluginManager: Option<PluginManager>): seq<string> {
    match pluginManager
    case None => []
    case Some(pm) => PluginLines(pm.plugins)
  }

  /** Number of plugins behind a plugin manager that may be null. */
  function PluginCount(pluginManager: Option<PluginManager>): nat {
    match pluginManager
    case None => 0
    case Some(pm) => Count(pm.plugins)
  }

  /** A section's lines when its flag is set, else none. */
  function Gate(flag: bool, lines: seq<string>): seq<string> {
    if flag then lines else []
  }

  /**
   * Everything `setUp` writes: the server line, then the node, JDK and plugin
   * sections in that order, each only when its flag is set.
   */
  function Report(hudson: Hudson, dumpComputers: bool, dumpJdks: bool, dumpPlugins: bool): seq<string> {
    [HudsonLine(hudson)]
      + Gate(dumpComputers, ComputerLines(hudson.rootUrl, hudson.computers))
      + Gate(dumpJdks, JdkLines(hudson.jdks))
      + Gate(dumpPlugins, PluginManagerLines(hudson.pluginManager))
  }

  // ---- The build wrapper

  class DumpInfoBuildWrapper {
    var dumpComputers: bool
    var dumpJdks: bool
    var dumpPlugins: bool

    constructor (dumpComputers: bool, dumpJdks: bool, dumpPlugins: bool)
      ensures this.dumpComputers == dumpComputers
      ensures this.dumpJdks == dumpJdks
      ensures this.dumpPlugins == dumpPlugins
    {
      this.dumpComputers := dumpComputers;
      this.dumpJdks := dumpJdks;
      this.dumpPlugins := dumpPlugins;
    }

    /** `dumpComputers`: nothing without a logger or nodes, else one line per node in array order. */
    static method DumpComputers(logger: PrintStream?, hudson: Hudson, computers: Option<seq<Computer>>)
      modifies logger
      ensures logger != null ==> logger.lines == old(logger.lines) + ComputerLines(hudson.rootUrl, computers)
    {
      if logger == null {
        return;
      }
      if computers.None? {
        return;
      }
      var cs := computers.value;
      var url := hudson.rootUrl;
      for i := 0 to |cs|
        invariant logger.lines == old(logger.lines) + ComputerLines(url, Some(cs[..i]))
      {
        var computer := cs[i];
        logger.Println(ComputerLine(url, computer));
        EachSnoc(cs, i, c => ComputerLine(url, c));
      }
      assert cs[..|cs|] == cs;
    }

    /** `dumpHudson`: nothing without a logger, else the server line. */
    static method DumpHudson(logger: PrintStream?, hudson: Hudson)
      modifies logger
      ensures logger != null ==> logger.lines == old(logger.lines) + [HudsonLine(hudson)]
    {
      if logger == null {
        return;
      }
      logger.Println(HudsonLine(hudson));
    }

    /** `dumpJdks`: nothing without a logger or list, else one line per JDK in list order. */
    static method DumpJdks(logger: PrintStream?, jdks: Option<seq<Jdk>>)
      modifies logger
      ensures logger != null ==> logger.lines == old(logger.lines) + JdkLines(jdks)
    {
      if logger == null {
        return;
      }
      if jdks.None? {
        return;
      }
      var js := jdks.value;
      for i := 0 to |js|
        invariant logger.lines == old(logger.lines) + JdkLines(Some(js[..i]))
      {
        var jdk := js[i];
        logger.Println(JdkLine(jdk));
        EachSnoc(js, i, JdkLine);
      }
      assert js[..|js|] == js;
    }

    /** `dumpPlugins(List)`: nothing without a logger or list, else one line per plugin in list order. */
    static method DumpPlugins(logger: PrintStream?, plugins: Option<seq<Plugin>>)
      modifies logger
      ensures logger != null ==> logger.lines == old(logger.lines) + PluginLines(plugins)
    {
      if logger == null {
        return;
      }
      if plugins.None? {
        return;
      }
      var ps := plugins.value;
      for i := 0 to |ps|
        invariant logger.lines == old(logger.lines) + PluginLines(Some(ps[..i]))
      {
        var plugin := ps[i];
        logger.Println(PluginLine(plugin));
        EachSnoc(ps, i, PluginLine);
      }
      assert ps[..|ps|] == ps;
    }

    /** `dumpPlugins(PluginManager)`: nothing for a null manager, else `dumpPlugins` of its list. */
    static method DumpPluginManager(logger: PrintStream?, pluginManager: Option<PluginManager>)
      modifies logger
      ensures logger != null ==> logger.lines == old(logger.lines) + PluginManagerLines(pluginManager)
    {
      if pluginManager.None? {
        return;
      }
      DumpPlugins(logger, pluginManager.value.plugins);
    }

    /**
     * `setUp`: appends the report selected by the three flags. With a null
     * logger nothing can change, since only the logger may be modified.
     */
    method SetUp(hudson: Hudson, logger: PrintStream?)
      modifies logger
      ensures logger != null ==> logger.lines == old(logger.lines) + Report(hudson, dumpComputers, dumpJdks, dumpPlugins)
    {
      ghost var start := if logger != null then logger.lines else [];
      ghost var server := [HudsonLine(hudson)];
      ghost var nodes := Gate(dumpComputers, ComputerLines(hudson.rootUrl, hudson.computers));
      ghost var tools := Gate(dumpJdks, JdkLines(hudson.jdks));
      ghost var plugins := Gate(dumpPlugins, PluginManagerLines(hudson.pluginManager));
      DumpHudson(logger, hudson);
      if dumpComputers {
        DumpComputers(logger, hudson, hudson.computers);
      }
      if dumpJdks {
        DumpJdks(logger, hudson.jdks);
      }
      if dumpPlugins {
        DumpPluginManager(logger, hudson.pluginManager);
      }
      AppendAssoc4(start, server, nodes, tools, plugins);
    }
  }

  // ---- What the report is

  /** Writing four parts one after another is writing their concatenation. */
  lemma AppendAssoc4<T>(start: seq<T>, a: seq<T>, b: seq<T>, c: seq<T>, d: seq<T>)
    ensures start + a + b + c + d == start + (a + b + c + d)
  {
  }

  /**
   * The node line is its head followed by the node URL that
   * `ComputerUtils.getRootUrl` builds.
   */
  lemma ComputerLineUrl(rootUrl: string, c: Computer)
    ensures ComputerLine(rootUrl, c) ==
      Append([ComputerPrefix, c.displayName, " (", Marker(c.online), ")", " with ",
              Decimal.IntToString(c.numExecutors as int), " executors - "])
        + ComputerUtils.GetRootUrl(rootUrl, Some(c)).value
  {
    var head := [ComputerPrefix, c.displayName, " (", Marker(c.online), ")", " with ",
                 Decimal.IntToString(c.numExecutors as int), " executors - "];
    var tail := [rootUrl, "/", c.url];
    assert head + tail == [ComputerPrefix, c.displayName, " (", Marker(c.online), ")", " with ",
                           Decimal.IntToString(c.numExecutors as int), " executors - ", rootUrl, "/", c.url];
    AppendSplit(head, tail);
    AppendCons(c.url, []);
    assert [c.url] == [c.url] + [];
    AppendCons("/", [c.url]);
    assert ["/", c.url] == ["/"] + [c.url];
    AppendCons(rootUrl, ["/", c.url]);
    assert tail == [rootUrl] + ["/", c.url];
    assert c.url + "" == c.url;
  }

  /** Where each of four consecutive parts lands in their concatenation. */
  lemma PartsAt<T>(first: T, b: seq<T>, c: seq<T>, d: seq<T>, k: nat)
    ensures var s := [first] + b + c + d;
      && |s| == 1 + |b| + |c| + |d|
      && s[0] == first
      && (k < |b| ==> s[1 + k] == b[k])
      && (k < |c| ==> s[1 + |b| + k] == c[k])
      && (k < |d| ==> s[1 + |b| + |c| + k] == d[k])
  {
  }

  /** Line count: the server line plus one line per element of every enabled section. */
  lemma ReportLength(hudson: Hudson, dumpComputers: bool, dumpJdks: bool, dumpPlugins: bool)
    ensures |Report(hudson, dumpComputers, dumpJdks, dumpPlugins)| ==
      1 + (if dumpComputers then Count(hudson.computers) else 0)
        + (if dumpJdks then Count(hudson.jdks) else 0)
        + (if dumpPlugins then PluginCount(hudson.pluginManager) else 0)
  {
  }

  /** With every flag off the report is the server line alone, whatever the server holds. */
  lemma ReportAllFlagsOff(hudson: Hudson)
    ensures Report(hudson, false, false, false) == [HudsonLine(hudson)]
  {
  }

  /** The server line always comes first. */
  lemma ReportFirst(hudson: Hudson, dumpComputers: bool, dumpJdks: bool, dumpPlugins: bool)
    ensures Report(hudson, dumpComputers, dumpJdks, dumpPlugins)[0] == HudsonLine(hudson)
  {
  }

  /** With nodes enabled, node `k` is written at line `1 + k`, right after the server line. */
  lemma ReportComputerAt(hudson: Hudson, dumpJdks: bool, dumpPlugins: bool, k: nat)
    requires k < Count(hudson.computers)
    ensures var r := Report(hudson, true, dumpJdks, dumpPlugins);
      1 + k < |r| && r[1 + k] == ComputerLine(hudson.rootUrl, hudson.computers.value[k])
  {
    PartsAt(HudsonLine(hudson),
      ComputerLines(hudson.rootUrl, hudson.computers),
      Gate(dumpJdks, JdkLines(hudson.jdks)),
      Gate(dumpPlugins, PluginManagerLines(hudson.pluginManager)), k);
  }

  /** With JDKs enabled, JDK `k` is written after the server line and the node section. */
  lemma ReportJdkAt(hudson: Hudson, dumpComputers: bool, dumpPlugins: bool, k: nat)
    requires k < Count(hudson.jdks)
    ensures var r := Report(hudson, dumpComputers, true, dumpPlugins);
      var nc := if dumpComputers then Count(hudson.computers) else 0;
      1 + nc + k < |r| && r[1 + nc + k] == JdkLine(hudson.jdks.value[k])
  {
    PartsAt(HudsonLine(hudson),
      Gate(dumpComputers, ComputerLines(hudson.rootUrl, hudson.computers)),
      JdkLines(hudson.jdks),
      Gate(dumpPlugins, PluginManagerLines(hudson.pluginManager)), k);
  }

  /** With plugins enabled, plugin `k` is written after the server line, the node and the JDK sections. */
  lemma ReportPluginAt(hudson: Hudson, dumpComputers: bool, dumpJdks: bool, k: nat)
    requires k < PluginCount(hudson.pluginManager)
    ensures var r := Report(hudson, dumpComputers, dumpJdks, true);
      var nc := if dumpComputers then Count(hudson.computers) else 0;
      var nj := if dumpJdks then Count(hudson.jdks) else 0;
      1 + nc + nj + k < |r| && r[1 + nc + nj + k] == PluginLine(hudson.pluginManager.value.plugins.value[k])
  {
    PartsAt(HudsonLine(hudson),
      Gate(dumpComputers, ComputerLines(hudson.rootUrl, hudson.computers)),
      Gate(dumpJdks, JdkLines(hudson.jdks)),
      PluginManagerLines(hudson.pluginManager), k);
  }

  // ---- Telling the sections apart

  /** The section a report line belongs to. */
  datatype LineKind = HudsonKind | ComputerKind | JdkKind | PluginKind

  predicate StartsWith(s: string, prefix: string) {
    |prefix| <= |s| && s[..|prefix|] == prefix
  }

  /** Classifies a log line by its leading words; None for a line of no section. */
  function KindOf(line: string): Option<LineKind> {
    if StartsWith(line, HudsonPrefix) then Some(HudsonKind)
    else if StartsWith(line, ComputerPrefix) then Some(ComputerKind)
    else if StartsWith(line, JdkPrefix) then Some(JdkKind)
    else if StartsWith(line, PluginPrefix) then Some(PluginKind)
    else None
  }

  /** A line opened by `prefix` does not start with a word that differs from `prefix` at position `k`. */
  lemma NotStartsWith(prefix: string, rest: string, other: string, k: nat)
    requires k < |prefix| && k < |other| && prefix[k] != other[k]
    ensures !StartsWith(prefix + rest, other)
  {
    var s := prefix + rest;
    if |other| <= |s| {
      assert s[..|other|][k] == prefix[k];
    }
  }

  lemma StartsWithPrefix(prefix: string, rest: string)
    ensures StartsWith(prefix + rest, prefix)
  {
    assert (prefix + rest)[..|prefix|] == prefix;
  }

  lemma KindOfHudsonLine(hudson: Hudson)
    ensures KindOf(HudsonLine(hudson)) == Some(HudsonKind)
  {
  }

  lemma KindOfComputerLine(rootUrl: string, c: Computer)
    ensures KindOf(ComputerLine(rootUrl, c)) == Some(ComputerKind)
  {
    var rest := [c.displayName, " (", Marker(c.online), ")", " with ",
                 Decimal.IntToString(c.numExecutors as int), " executors - ", rootUrl, "/", c.url];
    assert [ComputerPrefix] + rest == [ComputerPrefix, c.displayName, " (", Marker(c.online), ")", " with ",
             Decimal.IntToString(c.numExecutors as int), " executors - ", rootUrl, "/", c.url];
    AppendCons(ComputerPrefix, rest);
    NotStartsWith(ComputerPrefix, Append(rest), HudsonPrefix, 6);
    StartsWithPrefix(ComputerPrefix, Append(rest));
  }

  lemma KindOfJdkLine(jdk: Jdk)
    ensures KindOf(JdkLine(jdk)) == Some(JdkKind)
  {
    var rest := [jdk.name, " at ", jdk.home];
    assert [JdkPrefix] + rest == [JdkPrefix, jdk.name, " at ", jdk.home];
    AppendCons(JdkPrefix, rest);
    NotStartsWith(JdkPrefix, Append(rest), HudsonPrefix, 6);
    NotStartsWith(JdkPrefix, Append(rest), ComputerPrefix, 6);
    StartsWithPrefix(JdkPrefix, Append(rest));
  }

  lemma KindOfPluginLine(plugin: Plugin)
    ensures KindOf(PluginLine(plugin)) == Some(PluginKind)
  {
    var rest := [plugin.longName, " v", plugin.version, " - ", plugin.url];
    assert [PluginPrefix] + rest == [PluginPrefix, plugin.longName, " v", plugin.version, " - ", plugin.url];
    AppendCons(PluginPrefix, rest);
    NotStartsWith(PluginPrefix, Append(rest), HudsonPrefix, 6);
    NotStartsWith(PluginPrefix, Append(rest), ComputerPrefix, 6);
    NotStartsWith(PluginPrefix, Append(rest), JdkPrefix, 6);
    StartsWithPrefix(PluginPrefix, Append(rest));
  }

  /** Every line of a node section reads back as a node line. */
  lemma KindsOfComputerLines(rootUrl: string, computers: Option<seq<Computer>>)
    ensures Each(ComputerLines(rootUrl, computers), KindOf) == Repeat(Some(ComputerKind), Count(computers))
  {
    var kinds, want := Each(ComputerLines(rootUrl, computers), KindOf), Repeat(Some(ComputerKind), Count(computers));
    forall i | 0 <= i < |kinds| ensures kinds[i] == want[i] {
      KindOfComputerLine(rootUrl, computers.value[i]);
    }
  }

  lemma KindsOfJdkLines(jdks: Option<seq<Jdk>>)
    ensures Each(JdkLines(jdks), KindOf) == Repeat(Some(JdkKind), Count(jdks))
  {
    var kinds, want := Each(JdkLines(jdks), KindOf), Repeat(Some(JdkKind), Count(jdks));
    forall i | 0 <= i < |kinds| ensures kinds[i] == want[i] {
      KindOfJdkLine(jdks.value[i]);
    }
  }

  lemma KindsOfPluginLines(pluginManager: Option<PluginManager>)
    ensures Each(PluginManagerLines(pluginManager), KindOf) == Repeat(Some(PluginKind), PluginCount(pluginManager))
  {
    var kinds, want := Each(PluginManagerLines(pluginManager), KindOf), Repeat(Some(PluginKind), PluginCount(pluginManager));
    forall i | 0 <= i < |kinds| ensures kinds[i] == want[i] {
      KindOfPluginLine(pluginManager.value.plugins.value[i]);
    }
  }

  /**
   * Read back line by line, the report is one server line, then the node
   * lines, then the JDK lines, then the plugin lines: the sections never
   * interleave and each holds as many lines as its collection has elements.
   */
  lemma ReportSections(hudson: Hudson, dumpComputers: bool, dumpJdks: bool, dumpPlugins: bool)
    ensures Each(Report(hudson, dumpComputers, dumpJdks, dumpPlugins), KindOf) ==
      [Some(HudsonKind)]
        + Repeat(Some(ComputerKind), if dumpComputers then Count(hudson.computers) else 0)
        + Repeat(Some(JdkKind), if dumpJdks then Count(hudson.jdks) else 0)
        + Repeat(Some(PluginKind), if dumpPlugins then PluginCount(hudson.pluginManager) else 0)
  {
    var server := [HudsonLine(hudson)];
    var nodes := Gate(dumpComputers, ComputerLines(hudson.rootUrl, hudson.computers));
    var tools := Gate(dumpJdks, JdkLines(hudson.jdks));
    var plugins := Gate(dumpPlugins, PluginManagerLines(hudson.pluginManager));
    EachConcat(server + nodes + tools, plugins, KindOf);
    EachConcat(server + nodes, tools, KindOf);
    EachConcat(server, nodes, KindOf);
    KindOfHudsonLine(hudson);
    assert Each(server, KindOf) == [Some(HudsonKind)];
    if dumpComputers {
      KindsOfComputerLines(hudson.rootUrl, hudson.computers);
    }
    if dumpJdks {
      KindsOfJdkLines(hudson.jdks);
    }
    if dumpPlugins {
      KindsOfPluginLines(hudson.pluginManager);
    }
  }

  /**
   * An example: one online node, with only the node section enabled, gives
   * exactly two lines, the server line and the node line, whose pieces are
   * the literal words of the source with the node's values in between.
   */
  lemma ReportExample()
    ensures var c := Computer("agent-1", true, 2, "computer/agent-1");
      Report(Hudson("CI", "2.0", "http://ci", Some([c]), Some([]), None), true, false, false)
      == [Append(["Found Hudson: ", "CI", " ", "v", "2.0"]),
          Append(["Found computer: ", "agent-1", " (", "ONLINE", ")", " with ", "2", " executors - ",
                  "http://ci", "/", "computer/agent-1"])]
  {
  }

  /** The server line of the example above, as text. */
  lemma HudsonLineExample()
    ensures HudsonLine(Hudson("CI", "2.0", "http://ci", Some([Computer("agent-1", true, 2, "computer/agent-1")]), Some([]), None))
         == "Found Hudson: CI v2.0"
  {
    AppendCons("v", ["2.0"]);
    AppendCons(" ", ["v", "2.0"]);
    AppendCons("CI", [" ", "v", "2.0"]);
    AppendCons(HudsonPrefix, ["CI", " ", "v", "2.0"]);
    assert Append(["2.0"]) == "2.0";
    assert HudsonPrefix + ("CI" + (" " + ("v" + "2.0"))) == "Found Hudson: CI v2.0";
  }

  /** The node line of the example above, as text. */
  lemma ComputerLineExample()
    ensures ComputerLine("http://ci", Computer("agent-1", true, 2, "computer/agent-1"))
         == "Found computer: agent-1 (ONLINE) with 2 executors - http://ci/computer/agent-1"
  {
    var head := [ComputerPrefix, "agent-1", " (", "ONLINE", ")", " with ", "2"];
    var tail := [" executors - ", "http://ci", "/", "computer/agent-1"];
    ComputerLineExamplePieces();
    AppendSplit(head, tail);
    ComputerHeadExample();
    ComputerTailExample();
    ComputerLineJoin();
  }

  lemma ComputerLineJoin()
    ensures "Found computer: agent-1 (ONLINE) with 2" + " executors - http://ci/computer/agent-1"
         == "Found computer: agent-1 (ONLINE) with 2 executors - http://ci/computer/agent-1"
  {
  }

  lemma ComputerLineExamplePieces()
    ensures ComputerLine("http://ci", Computer("agent-1", true, 2, "computer/agent-1"))
         == Append([ComputerPrefix, "agent-1", " (", "ONLINE", ")", " with ", "2"]
                 + [" executors - ", "http://ci", "/", "computer/agent-1"])
  {
    assert Decimal.DigitChar(2) == '2';
    assert Decimal.IntToString(2) == "2";
    assert [ComputerPrefix, "agent-1", " (", Marker(true), ")", " with ",
            Decimal.IntToString(2), " executors - ", "http://ci", "/", "computer/agent-1"]
        == [ComputerPrefix, "agent-1", " (", "ONLINE", ")", " with ", "2"]
         + [" executors - ", "http://ci", "/", "computer/agent-1"];
  }

  lemma ComputerHeadExample()
    ensures Append([ComputerPrefix, "agent-1", " (", "ONLINE", ")", " with ", "2"])
         == "Found computer: agent-1 (ONLINE) with 2"
  {
    AppendCons("2", []);
    AppendCons(" with ", ["2"]);
    AppendCons(")", [" with ", "2"]);
    AppendCons("ONLINE", [")", " with ", "2"]);
    AppendCons(" (", ["ONLINE", ")", " with ", "2"]);
    AppendCons("agent-1", [" (", "ONLINE", ")", " with ", "2"]);
    AppendCons(ComputerPrefix, ["agent-1", " (", "ONLINE", ")", " with ", "2"]);
    assert ComputerPrefix + ("agent-1" + (" (" + ("ONLINE" + (")" + (" with " + ("2" + ""))))))
        == "Found computer: agent-1 (ONLINE) with 2";
  }

  lemma ComputerTailExample()
    ensures Append([" executors - ", "http://ci", "/", "computer/agent-1"])
         == " executors - http://ci/computer/agent-1"
  {
  }

  /** The whole report of the example above, as text. */
  lemma ReportExampleText()
    ensures var c := Computer("agent-1", true, 2, "computer/agent-1");
      Report(Hudson("CI", "2.0", "http://ci", Some([c]), Some([]), None), true, false, false)
      == ["Found Hudson: CI v2.0",
          "Found computer: agent-1 (ONLINE) with 2 executors - http://ci/computer/agent-1"]
  {
    var c := Computer("agent-1", true, 2, "computer/agent-1");
    var h := Hudson("CI", "2.0", "http://ci", Some([c]), Some([]), None);
    ReportExample();
    HudsonLineExample();
    ComputerLineExample();
    assert Report(h, true, false, false) == [HudsonLine(h), ComputerLine("http://ci", c)];
  }
}
