# Dump-info build wrapper, modelled in Dafny

The Hudson/Jenkins "dumpinfo" build wrapper writes a diagnostic report into a job's console log when a build is set up. The report is always the server line (`Found Hudson: <name> v<version>`). After it come up to three sections, in a fixed order, each switched on by its own flag:

- one line per node / computer (`Found computer: <name> (ONLINE|OFFLINE) with <n> executors - <root URL>/<node URL>`);
- one line per JDK installation (`Found JDK: <name> at <home>`);
- one line per installed plugin (`Found plugin: <long name> v<version> - <url>`).

Beside the wrapper, the repository has two parallel utility layers. `HudsonUtils` and `MessagesUtils` render the same objects through localized message templates, and `ComputerUtils` builds node URLs.

The model is made of these modules:

- `HudsonModel`: the host objects (`Computer`, `Jdk`, `Plugin`, `PluginManager`, `Hudson`) as immutable values. `Hudson` is the value of the `Hudson.getInstance()` singleton: display name, version, root URL, nodes, JDKs and plugin manager. Every Java reference the code tests for null is an `Option`. An executor count is a Java `int` (`int32`).
- `Lines`: the console log. It is a class `PrintStream` whose `lines: seq<string>` only ever grows by `Println`. A missing logger is a null `PrintStream?`. The module also holds `Each`, which renders every element of a sequence in order, and `Append`, which is a `StringBuilder.append(...)` chain.
- `Decimal`: how `StringBuilder.append(int)` writes an executor count. A parser serves as its inverse.
- `ComputerUtils`, `MessagesUtils`, `HudsonUtils`: one module per source class. Each `format` overload becomes its own function (`FormatComputer`, `FormatHudson`, `FormatJdk`, `FormatPlugin`). The localized templates are a symbolic `Messages.Message` value: which template was chosen, with which arguments. `Messages.Catalog` turns such a value into text, and it is left abstract.
- `DumpInfo`: the build wrapper. Its line functions state the literal words the source appends. `Report` is everything `setUp` writes. The class `DumpInfoBuildWrapper` keeps the three flags, and its static dump methods are loops that `Println` into the logger.
- `Layers`: lemmas that relate the three layers to each other.

A null logger is handled by the frame. Every dump method and `SetUp` may modify only `logger`. So when `logger` is null, the frame `modifies logger` alone guarantees that nothing at all changes. When it is not null, the `ensures` clause gives the exact lines appended.

The build wrapper writes its own literal lines: `Found Hudson: <name> v<version>`, `Found computer: <name> (ONLINE) with <n> executors - <root>/<url>` (or `OFFLINE`), `Found JDK: <name> at <home>` and `Found plugin: <long name> v<version> - <url>`. `HudsonUtils` and `MessagesUtils` instead go through the localized templates, whose text is not part of this model.

## Model

| member | source | states |
|---|---|---|
| `ComputerUtils.EncodeUrl` | src/main/java/hudson/plugins/dumpinfo/ComputerUtils.java:67-89 | The encoder returns its argument unchanged, and null stays null (the URL encoding is commented out). |
| `ComputerUtils.EncodeUrlIdempotent` | src/main/java/hudson/plugins/dumpinfo/ComputerUtils.java:67-89 | Encoding twice is the same as encoding once. |
| `ComputerUtils.EncodeComputer` | src/main/java/hudson/plugins/dumpinfo/ComputerUtils.java:47-57 | Null exactly for a null computer; otherwise the computer's own URL. |
| `ComputerUtils.GetRootUrl` | src/main/java/hudson/plugins/dumpinfo/ComputerUtils.java:99-110 | Null exactly for a null computer; otherwise root URL + "/" + the computer's URL. |
| `ComputerUtils.GetRootUrlParts` | src/main/java/hudson/plugins/dumpinfo/ComputerUtils.java:108-109 | The node URL splits back into the root URL, exactly one added slash and the unescaped node URL, with no slash normalization. |
| `ComputerUtils.GetRootUrlExample` | src/main/java/hudson/plugins/dumpinfo/ComputerUtils.java:108-109 | Root `http://ci.example.com` with node URL `computer/node1` gives `http://ci.example.com/computer/node1`. |
| `MessagesUtils.FormatComputer` | src/main/java/hudson/plugins/dumpinfo/MessagesUtils.java:50-67 | Null exactly for a null computer. Otherwise exactly one of the Online or Offline templates is chosen: Online iff the computer is online. It gets the name, the executor count and the `ComputerUtils.getRootUrl` URL. |
| `MessagesUtils.FormatHudson` | src/main/java/hudson/plugins/dumpinfo/MessagesUtils.java:78-89 | Null exactly for null; otherwise the server template with display name and version. |
| `MessagesUtils.FormatJdk` | src/main/java/hudson/plugins/dumpinfo/MessagesUtils.java:100-110 | Null exactly for null; otherwise the JDK template with name and home. |
| `MessagesUtils.FormatPlugin` | src/main/java/hudson/plugins/dumpinfo/MessagesUtils.java:121-132 | Null exactly for null; otherwise the plugin template with long name, version and URL. |
| `HudsonUtils.GetRootUrl` | src/main/java/hudson/plugins/dumpinfo/HudsonUtils.java:234-237 | This builder has no null check: a null computer throws a NullPointerException, and a non-null one returns a URL. |
| `HudsonUtils.GetRootUrlAgrees` | src/main/java/hudson/plugins/dumpinfo/HudsonUtils.java:234-237 | For every non-null computer it returns exactly what `ComputerUtils.getRootUrl` returns. On null, `ComputerUtils` returns null while this one throws. |
| `HudsonUtils.FormatComputer` | src/main/java/hudson/plugins/dumpinfo/HudsonUtils.java:169-186 | Null exactly for a null computer. Otherwise the Online template iff online, else the Offline one, with name, executor count and root URL + "/" + node URL. |
| `HudsonUtils.FormatHudson` | src/main/java/hudson/plugins/dumpinfo/HudsonUtils.java:188-199 | Null exactly for null; otherwise the server template with display name and version. |
| `HudsonUtils.FormatJdk` | src/main/java/hudson/plugins/dumpinfo/HudsonUtils.java:201-211 | Null exactly for null; otherwise the JDK template with name and home. |
| `HudsonUtils.FormatPlugin` | src/main/java/hudson/plugins/dumpinfo/HudsonUtils.java:213-224 | Null exactly for null; otherwise the plugin template with long name, version and URL. |
| `HudsonUtils.ComputerLinesAt` | src/main/java/hudson/plugins/dumpinfo/HudsonUtils.java:66-69 | The node dump has one line per node. Line i is the catalog text of the template chosen by node i's state, with node i's arguments. |
| `HudsonUtils.JdkLinesAt` | src/main/java/hudson/plugins/dumpinfo/HudsonUtils.java:113-116 | One line per JDK; line i is the JDK template of JDK i. |
| `HudsonUtils.PluginLinesAt` | src/main/java/hudson/plugins/dumpinfo/HudsonUtils.java:142-145 | One line per plugin; line i is the plugin template of plugin i. |
| `HudsonUtils.DumpComputers` | src/main/java/hudson/plugins/dumpinfo/HudsonUtils.java:51-70 | With no logger, nothing changes. With no computer array, the log is unchanged. Otherwise it appends the rendered `format(computer)` of every node, in array order. |
| `HudsonUtils.DumpHudson` | src/main/java/hudson/plugins/dumpinfo/HudsonUtils.java:78-88 | With no logger, nothing changes; otherwise it appends exactly the server template's text. |
| `HudsonUtils.DumpJdks` | src/main/java/hudson/plugins/dumpinfo/HudsonUtils.java:98-117 | With no logger, nothing changes. With no list, the log is unchanged. Otherwise it appends one rendered line per JDK, in list order. |
| `HudsonUtils.DumpPlugins` | src/main/java/hudson/plugins/dumpinfo/HudsonUtils.java:127-146 | With no logger, nothing changes. With no list, the log is unchanged. Otherwise it appends one rendered line per plugin, in list order. |
| `HudsonUtils.DumpPluginManager` | src/main/java/hudson/plugins/dumpinfo/HudsonUtils.java:156-167 | A null plugin manager writes nothing; otherwise it writes what `dumpPlugins` writes for its plugin list. |
| `Decimal.IntToString` | src/main/java/org/jvnet/hudson/plugins/DumpInfoBuildWrapper.java:102 | An executor count is written as a minus sign iff it is negative, then decimal digits with no leading zero: the first character is `0` exactly when the count is 0, and then the whole text is `0`. |
| `Decimal.IntToStringRoundTrip` | src/main/java/org/jvnet/hudson/plugins/DumpInfoBuildWrapper.java:102 | The written count parses back to the same number. |
| `Decimal.IntToStringInjective` | src/main/java/org/jvnet/hudson/plugins/DumpInfoBuildWrapper.java:102 | Distinct counts are written as distinct text. |
| `Lines.Each` | src/main/java/org/jvnet/hudson/plugins/DumpInfoBuildWrapper.java:97-105 | One output per element, in input order: same length, and position i holds the rendering of element i. |
| `Lines.AppendSplit` | src/main/java/org/jvnet/hudson/plugins/DumpInfoBuildWrapper.java:99-104 | A `StringBuilder` chain of two runs of pieces is the concatenation of the two chains. |
| `DumpInfo.DumpInfoBuildWrapper.constructor` | src/main/java/org/jvnet/hudson/plugins/DumpInfoBuildWrapper.java:236-243 | The three flags are stored unchanged. |
| `DumpInfo.DumpInfoBuildWrapper.DumpComputers` | src/main/java/org/jvnet/hudson/plugins/DumpInfoBuildWrapper.java:80-106 | With no logger, nothing changes. With no computer array, the log is unchanged. Otherwise it appends one node line per computer, in array order, all built with the root URL read once before the loop. |
| `DumpInfo.DumpInfoBuildWrapper.DumpHudson` | src/main/java/org/jvnet/hudson/plugins/DumpInfoBuildWrapper.java:114-128 | With no logger, nothing changes; otherwise it appends exactly the server line. |
| `DumpInfo.DumpInfoBuildWrapper.DumpJdks` | src/main/java/org/jvnet/hudson/plugins/DumpInfoBuildWrapper.java:138-159 | With no logger, nothing changes. With no list, the log is unchanged. Otherwise it appends one JDK line per JDK, in list order. |
| `DumpInfo.DumpInfoBuildWrapper.DumpPlugins` | src/main/java/org/jvnet/hudson/plugins/DumpInfoBuildWrapper.java:169-191 | With no logger, nothing changes. With no list, the log is unchanged. Otherwise it appends one plugin line per plugin, in list order. |
| `DumpInfo.DumpInfoBuildWrapper.DumpPluginManager` | src/main/java/org/jvnet/hudson/plugins/DumpInfoBuildWrapper.java:201-212 | A null plugin manager writes nothing; otherwise it writes what `dumpPlugins` writes for its list. |
| `DumpInfo.DumpInfoBuildWrapper.SetUp` | src/main/java/org/jvnet/hudson/plugins/DumpInfoBuildWrapper.java:245-279 | With no logger, nothing changes. Otherwise it appends exactly `Report` for the wrapper's three flags. |
| `DumpInfo.ComputerLineUrl` | src/main/java/org/jvnet/hudson/plugins/DumpInfoBuildWrapper.java:99-104 | The node line is its head (name, ONLINE/OFFLINE marker, executor count) followed by exactly the URL that `ComputerUtils.getRootUrl` builds. |
| `DumpInfo.ReportFirst` | src/main/java/org/jvnet/hudson/plugins/DumpInfoBuildWrapper.java:256 | The server line is always the first line, whatever the flags. |
| `DumpInfo.ReportLength` | src/main/java/org/jvnet/hudson/plugins/DumpInfoBuildWrapper.java:256-271 | Line count = 1 + the number of nodes, JDKs and plugins of the enabled sections. A null collection counts as none. |
| `DumpInfo.ReportAllFlagsOff` | src/main/java/org/jvnet/hudson/plugins/DumpInfoBuildWrapper.java:256-271 | With every flag off, the report is exactly the server line, whatever the server holds. |
| `DumpInfo.ReportComputerAt` | src/main/java/org/jvnet/hudson/plugins/DumpInfoBuildWrapper.java:258-261 | With nodes on, node k's line is at position 1 + k. |
| `DumpInfo.ReportJdkAt` | src/main/java/org/jvnet/hudson/plugins/DumpInfoBuildWrapper.java:263-266 | With JDKs on, JDK k's line sits right after the server line and the (possibly disabled) node section. |
| `DumpInfo.ReportPluginAt` | src/main/java/org/jvnet/hudson/plugins/DumpInfoBuildWrapper.java:268-271 | With plugins on, plugin k's line sits after the server line, the node section and the JDK section. |
| `DumpInfo.KindOfHudsonLine` | src/main/java/org/jvnet/hudson/plugins/DumpInfoBuildWrapper.java:125-127 | A server line is recognised by its leading words as a server line, whatever the name and version. |
| `DumpInfo.KindOfComputerLine` | src/main/java/org/jvnet/hudson/plugins/DumpInfoBuildWrapper.java:99-104 | A node line is recognised as a node line and as no other kind. |
| `DumpInfo.KindOfJdkLine` | src/main/java/org/jvnet/hudson/plugins/DumpInfoBuildWrapper.java:155-157 | A JDK line is recognised as a JDK line and as no other kind. |
| `DumpInfo.KindOfPluginLine` | src/main/java/org/jvnet/hudson/plugins/DumpInfoBuildWrapper.java:186-189 | A plugin line is recognised as a plugin line and as no other kind. |
| `DumpInfo.KindsOfComputerLines` | src/main/java/org/jvnet/hudson/plugins/DumpInfoBuildWrapper.java:97-105 | Every line of the node section reads back as a node line, one per computer. |
| `DumpInfo.KindsOfJdkLines` | src/main/java/org/jvnet/hudson/plugins/DumpInfoBuildWrapper.java:153-158 | Every line of the JDK section reads back as a JDK line, one per JDK. |
| `DumpInfo.KindsOfPluginLines` | src/main/java/org/jvnet/hudson/plugins/DumpInfoBuildWrapper.java:184-190 | Every line of the plugin section reads back as a plugin line, one per plugin, and there are none for a null manager. |
| `DumpInfo.ReportSections` | src/main/java/org/jvnet/hudson/plugins/DumpInfoBuildWrapper.java:256-271 | Classified line by line, the report is one server line, then the node lines, then the JDK lines, then the plugin lines. The sections never interleave, and each section has one line per element when its flag is on and none when it is off. |
| `DumpInfo.ReportExample` | src/main/java/org/jvnet/hudson/plugins/DumpInfoBuildWrapper.java:256-261 | Server "CI" v"2.0" with one online two-executor node and only nodes enabled gives exactly two lines. Their pieces are the source's literal words around the given values. |
| `DumpInfo.HudsonLineExample` | src/main/java/org/jvnet/hudson/plugins/DumpInfoBuildWrapper.java:125-127 | For server "CI" at version "2.0" the server line is exactly the text `Found Hudson: CI v2.0`. |
| `DumpInfo.ComputerLineExample` | src/main/java/org/jvnet/hudson/plugins/DumpInfoBuildWrapper.java:95-104 | For an online node "agent-1" with 2 executors under root "http://ci", the node line is exactly `Found computer: agent-1 (ONLINE) with 2 executors - http://ci/computer/agent-1`. |
| `DumpInfo.ReportExampleText` | src/main/java/org/jvnet/hudson/plugins/DumpInfoBuildWrapper.java:256-261 | The example report, written out as its two text lines. |
| `Layers.FormatComputerAgrees` | src/main/java/hudson/plugins/dumpinfo/MessagesUtils.java:59-66 | For every computer, null or not, `MessagesUtils.format` and `HudsonUtils.format` give the same message, although they use different URL builders. |
| `Layers.FormatOthersAgree` | src/main/java/hudson/plugins/dumpinfo/MessagesUtils.java:78-132 | The server, JDK and plugin `format` overloads of the two layers agree on every input. |
| `Layers.ComputerMessageIsWrapperLine` | src/main/java/hudson/plugins/dumpinfo/HudsonUtils.java:178-185 | With a catalog that renders each message as the wrapper's line, `HudsonUtils.format(computer)` reads exactly as the wrapper's node line. |
| `Layers.HudsonMessageIsWrapperLine` | src/main/java/hudson/plugins/dumpinfo/HudsonUtils.java:197-198 | With the same templates, the server message reads exactly as the wrapper's server line. |
| `Layers.ComputerLinesAgree` | src/main/java/hudson/plugins/dumpinfo/HudsonUtils.java:66-69 | With those templates, `HudsonUtils.dumpComputers` writes the same lines as the wrapper's `dumpComputers`, in the same order. |
| `Layers.JdkLinesAgree` | src/main/java/hudson/plugins/dumpinfo/HudsonUtils.java:113-116 | With those templates, the two JDK dumps write the same lines. |
| `Layers.PluginLinesAgree` | src/main/java/hudson/plugins/dumpinfo/HudsonUtils.java:159-166 | With those templates, the two plugin-manager dumps write the same lines, including none for a null manager. |

## Left out

- `JndiUtils` (a JNDI lookup of `java:comp/env` that logs and returns what it has on failure) is a query to an external naming service, and nothing in the core calls it.
- `SystemUtils` copies the environment and the system properties into a sorted map. The sorting comes from the Java library, not from this repository.
- The text of the localized `Messages` templates is generated from resources that are not part of this model. Each template is a symbolic `Message`, and its text is an abstract `Catalog`.
- The `DescriptorImpl` extension registration and the empty `Environment` that `setUp` returns are host plumbing with no logic.
- The commented-out `URLEncoder` call in `encode(String)` does not run, so only the identity behaviour is modelled.
- The host accessors `Hudson.getInstance()`, `getRootUrl()`, `getComputers()`, `getJDKs()`, `getPluginManager()`, `Hudson.getVersion()` and `listener.getLogger()` are inputs. `Hudson` is a value parameter and the logger is a `PrintStream?` parameter, so the singleton always exists.
- `PrintStream` output, `IOException` and `InterruptedException`: the log is a `seq<string>` that only grows, and nothing fails.
- Null elements inside a collection, null fields of a host object, a null root URL and a null `Hudson.getVersion()` are not modelled. The two layers treat them differently:
  - In the build wrapper, a null element throws a `NullPointerException` at its first getter: `computer.getDisplayName()` (src/main/java/org/jvnet/hudson/plugins/DumpInfoBuildWrapper.java:100), `jdk.getName()` (:156) or `plugin.getLongName()` (:187). A null `Hudson.getVersion()` throws at its `.toString()` (:127).
  - In `HudsonUtils`, a null element makes `format` return null (src/main/java/hudson/plugins/dumpinfo/HudsonUtils.java:171-174, 203-206, 215-218), and `println` then writes the text `null`. `Render` of a null message models this, but the modelled dump loops never reach it.
  - In the build wrapper, `StringBuilder` appends a null string field as the text `null`. In `HudsonUtils`, a null field is an argument to a `Messages.DumpInfo_*` template, so how it reads depends on the template text, which is not modelled. The exception is the node URL: the `+` in `getRootUrl` (src/main/java/hudson/plugins/dumpinfo/HudsonUtils.java:236) writes it as `null`.
- A log entry is one `println` call. A name or URL that contains a line separator prints as several console lines, so "one line per element" and the `KindOf` classification hold per `println` call, not per console line.
- The wrapper reads the root URL once before its node loop, while `HudsonUtils` reads it again for every node. With the server as an immutable value, the two cannot differ.
- `WrapperCatalog` writes the executor count with `Decimal.IntToString`. The real templates receive their arguments as `Object`s and are formatted by the host's localizer, which is not part of this model. Such a template may write a large count differently, for example with digit grouping, so the `Layers` lemmas hold only under that catalog.
- `HudsonUtils.GetRootUrl`: its own contract states only when it throws. The URL it returns is stated by `HudsonUtils.GetRootUrlAgrees`, against `ComputerUtils.GetRootUrl`.
