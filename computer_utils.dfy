/** `hudson.plugins.dumpinfo.ComputerUtils`: the node-URL builder and its encoder. */
module ComputerUtils {
  import opened Wrappers
  import opened HudsonModel

  /**
   * `encode(String)`. The URL encoding is switched off in the source, so what
   * runs is a null check followed by returning the argument.
   */
  function EncodeUrl(url: Option<string>): (r: Option<string>)
    ensures r == url
  {
    match url
    case None => None
    case Some(u) => Some(u)
  }

  /** `encode(Computer)`: the encoded URL of the node, null for a null node. */
  function EncodeComputer(computer: Option<Computer>): (r: Option<string>)
    ensures computer.None? <==> r.None?
    ensures computer.Some? ==> r == Some(computer.value.url)
  {
    match computer
    case None => None
    case Some(c) => EncodeUrl(Some(c.url))
  }

  /**
   * `getRootUrl(Computer)`: the server's root URL, a slash and the node's
   * encoded URL; null for a null node.
   */
  function GetRootUrl(rootUrl: string, computer: Option<Computer>): (r: Option<string>)
    ensures computer.None? <==> r.None?
    ensures computer.Some? ==> r.value == rootUrl + "/" + computer.value.url
  {
    match computer
    case None => None
    case Some(_) => Some(rootUrl + "/" + EncodeComputer(computer).value)
  }

  /** Encoding twice is encoding once. */
  lemma EncodeUrlIdempotent(url: Option<string>)
    ensures EncodeUrl(EncodeUrl(url)) == EncodeUrl(url)
  {
  }

  /**
   * The node URL splits back into the root URL, one slash and the node's own
   * URL: no slash is added or removed and nothing is escaped.
   */
  lemma GetRootUrlParts(rootUrl: string, c: Computer)
    ensures var u := GetRootUrl(rootUrl, Some(c)).value;
      && |u| == |rootUrl| + 1 + |c.url|
      && u[..|rootUrl|] == rootUrl
      && u[|rootUrl|] == '/'
      && u[|rootUrl| + 1..] == c.url
  {
  }

  /** Node-URL concatenation on concrete input. */
  lemma GetRootUrlExample()
    ensures GetRootUrl("http://ci.example.com", Some(Computer("node1", true, 1, "computer/node1")))
         == Some("http://ci.example.com/computer/node1")
  {
    assert "http://ci.example.com" + "/" + "computer/node1" == "http://ci.example.com/computer/node1";
  }
}
