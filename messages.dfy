/**
 * The localized message catalog (`hudson.plugins.dumpinfo.Messages`). Its
 * template text is generated from resources outside this model, so each
 * message is a symbolic call that records which template was chosen and with
 * which arguments; a `Catalog` turns a call into text.
 */
module Messages {
  import opened Wrappers
  import opened HudsonModel

  datatype Message =
    | ComputerOnline(name: string, executors: int32, url: string)   // DumpInfo_Computer_Online
    | ComputerOffline(name: string, executors: int32, url: string)  // DumpInfo_Computer_Offline
    | HudsonInfo(name: string, version: string)                     // DumpInfo_Hudson
    | ToolJdk(name: string, home: string)                           // DumpInfo_Tool_JDK
    | PluginInfo(longName: string, version: string, url: string)    // DumpInfo_Plugin

  /** The template text of some locale, left abstract. */
  type Catalog = Message -> string

  /** What `PrintStream.println(String)` writes for a formatted message: `"null"` for null. */
  function Render(catalog: Catalog, m: Option<Message>): string
  {
    match m
    case None => "null"
    case Some(x) => catalog(x)
  }
}
