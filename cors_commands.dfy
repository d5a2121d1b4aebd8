/** The cross-origin (CORS) help of the not-connected welcome screen: the fixed
    default origins, whether the page's own origin must be added to them, and the
    two `ipfs config` commands shown for each tab, each with that shell's quoting. */
module CorsCommands {

  import opened Optional
  import opened Text

  /** The tabs, one per shell (`TABS.UNIX`, `TABS.POWERSHELL`, `TABS.WINDOWS`). */
  datatype Tab = Unix | PowerShell | Windows

  /** The origins the node's API allows without extra configuration, in order. */
  const DefaultDomains: seq<string> := ["http://localhost:3000", "http://127.0.0.1:5001", "https://webui.ipfs.io"]

  /** The text every command starts with, and the two header keys it sets. */
  const ConfigPrefix: string := "ipfs config --json API.HTTPHeaders."
  const AllowOriginKey: string := "Access-Control-Allow-Origin"
  const AllowMethodsKey: string := "Access-Control-Allow-Methods"
  const AllowedMethods: seq<string> := ["PUT", "POST"]

  /** No element occurs twice. */
  predicate Distinct(xs: seq<string>)
  {
    forall i, j :: 0 <= i < j < |xs| ==> xs[i] != xs[j]
  }

  /** `addOrigin`: the page origin is not already one of the defaults. */
  function AddOrigin(origin: string): (r: bool)
    ensures r <==> origin !in DefaultDomains
  {
    IndexOf(DefaultDomains, origin) == -1
  }

  /** The origins the allow-origin command lists: the page origin first when it
      must be added, then the three defaults. */
  function OriginList(origin: string): (r: seq<string>)
    ensures |r| == if AddOrigin(origin) then 4 else 3
    ensures AddOrigin(origin) ==> r[0] == origin
    ensures r[|r| - 3..] == DefaultDomains
    ensures forall x :: x in r <==> x == origin || x in DefaultDomains
    ensures Distinct(r)
  {
    DefaultsDistinct();
    if AddOrigin(origin) then
      DistinctCons(origin, DefaultDomains);
      assert ([origin] + DefaultDomains)[1..] == DefaultDomains;
      [origin] + DefaultDomains
    else
      DefaultDomains
  }

  /** The three defaults are pairwise different. */
  lemma DefaultsDistinct()
    ensures Distinct(DefaultDomains)
  {
    assert DefaultDomains[0][7] != DefaultDomains[1][7];
    assert DefaultDomains[0][4] != DefaultDomains[2][4];
    assert DefaultDomains[1][4] != DefaultDomains[2][4];
  }

  /** A new element in front of a list without duplicates keeps it so. */
  lemma DistinctCons(x: string, xs: seq<string>)
    requires x !in xs && Distinct(xs)
    ensures Distinct([x] + xs)
  {
    var ys := [x] + xs;
    forall i, j | 0 <= i < j < |ys|
      ensures ys[i] != ys[j]
    {
      assert ys[j] == xs[j - 1];
      if 0 < i {
        assert ys[i] == xs[i - 1];
      }
    }
  }

  /** How a tab's shell quotes one element of the JSON array: `"` for Unix,
      `\"` for PowerShell, `"""` for CMD. Each ends with (so holds) a double
      quote, which is what lets a reader find where an element ends. */
  function Quote(tab: Tab): (r: string)
    ensures |r| > 0 && r[|r| - 1] == '"' && '"' in r
  {
    match tab
    case Unix => "\""
    case PowerShell => "\\\""
    case Windows => "\"\"\""
  }

  /** How a tab's shell delimits the whole JSON argument: one character, a double
      quote only for CMD (whose elements therefore triple theirs), else `'`. */
  function Delimiter(tab: Tab): (r: string)
    ensures |r| == 1 && (r[0] == '"' <==> tab == Windows) && (r[0] != '"' ==> r[0] == '\'')
  {
    match tab
    case Unix => "'"
    case PowerShell => "'"
    case Windows => "\""
  }

  /** The start of every command up to the array's opening bracket. */
  function CommandHead(tab: Tab, key: string): string
  {
    ConfigPrefix + key + " " + Delimiter(tab) + "["
  }

  /** The end of every command from the array's closing bracket. */
  function CommandTail(tab: Tab): string
  {
    "]" + Delimiter(tab)
  }

  /** Reference form of every command in the help: `ipfs config --json
      API.HTTPHeaders.<key>` followed by the JSON array of `items`, each element in
      the shell's quote, elements separated by ", ", the array in the shell's
      argument delimiter. */
  function ConfigCommand(tab: Tab, key: string, items: seq<string>): string
  {
    CommandHead(tab, key) + Join(Wrapped(Quote(tab), items), ", ") + CommandTail(tab)
  }

  /** Reads back the list of a command in reference form, or None. */
  function ParseConfigCommand(tab: Tab, key: string, cmd: string): Option<seq<string>>
  {
    var head, tail := CommandHead(tab, key), CommandTail(tab);
    if |cmd| >= |head| + |tail| && cmd[..|head|] == head && cmd[|cmd| - |tail|..] == tail then
      ParseList(Quote(tab), cmd[|head|..|cmd| - |tail|])
    else None
  }

  /** The allow-origin command as the page's template builds it for a tab:
      the origin in the shell's quote followed by ", " only when it must be added
      (a false `addOrigin` renders nothing), then the defaults joined with
      closing quote, ", ", opening quote, the whole wrapped in one more quote.
      It is the reference command over the origin list. */
  function AllowOriginCmd(tab: Tab, origin: string): (r: string)
    ensures r == ConfigCommand(tab, AllowOriginKey, OriginList(origin))
  {
    var q, d := Quote(tab), Delimiter(tab);
    OriginTemplateList(q, origin);
    ConfigPrefix + AllowOriginKey + " " + d + "["
    + ((if AddOrigin(origin) then q + origin + q + ", " else "") + (q + Join(DefaultDomains, q + ", " + q) + q))
    + ("]" + d)
  }

  /** The allow-methods command: PUT and POST, each in the shell's quote. It is
      the reference command over PUT, POST. */
  function AllowMethodsCmd(tab: Tab): (r: string)
    ensures r == ConfigCommand(tab, AllowMethodsKey, AllowedMethods)
  {
    var q, d := Quote(tab), Delimiter(tab);
    MethodsList(q);
    ConfigPrefix + AllowMethodsKey + " " + d + "["
    + (q + "PUT" + q + ", " + (q + "POST" + q))
    + ("]" + d)
  }

  /** The list the template puts between the brackets is the origin list, each
      origin in the shell's quote, joined by ", ". */
  lemma OriginTemplateList(q: string, origin: string)
    ensures (if AddOrigin(origin) then q + origin + q + ", " else "") + (q + Join(DefaultDomains, q + ", " + q) + q)
            == Join(Wrapped(q, OriginList(origin)), ", ")
  {
    JoinQuoted(q, DefaultDomains);
    if AddOrigin(origin) {
      assert OriginList(origin) == [origin] + DefaultDomains;
      JoinWrappedCons(q, origin, DefaultDomains);
    } else {
      assert OriginList(origin) == DefaultDomains;
    }
  }

  /** PUT then POST, each quoted, joined by ", ". */
  lemma MethodsList(q: string)
    ensures q + "PUT" + q + ", " + (q + "POST" + q) == Join(Wrapped(q, AllowedMethods), ", ")
  {
    assert AllowedMethods[1..] == ["POST"];
    assert Wrapped(q, AllowedMethods) == [q + "PUT" + q, q + "POST" + q];
  }

  /** Reading a reference command gives back its items, when none holds a double quote. */
  lemma ConfigCommandRoundTrip(tab: Tab, key: string, items: seq<string>)
    requires forall i :: 0 <= i < |items| ==> '"' !in items[i]
    ensures ParseConfigCommand(tab, key, ConfigCommand(tab, key, items)) == Some(items)
  {
    var q := Quote(tab);
    var head, tail := CommandHead(tab, key), CommandTail(tab);
    var body := Join(Wrapped(q, items), ", ");
    var cmd := ConfigCommand(tab, key, items);
    assert cmd[..|head|] == head;
    assert cmd[|cmd| - |tail|..] == tail;
    assert cmd[|head|..|cmd| - |tail|] == body;
    ParseListRoundTrip(q, items);
  }

  /** No default origin holds a double quote. */
  lemma DefaultsQuoteFree()
    ensures forall i :: 0 <= i < |DefaultDomains| ==> '"' !in DefaultDomains[i]
  {
    assert '"' !in "http://localhost:3000";
    assert '"' !in "http://127.0.0.1:5001";
    assert '"' !in "https://webui.ipfs.io";
  }

  /** The defaults hold no double quote, so the list holds one only if the origin does. */
  lemma OriginListQuoteFree(origin: string)
    requires '"' !in origin
    ensures forall i :: 0 <= i < |OriginList(origin)| ==> '"' !in OriginList(origin)[i]
  {
    DefaultsQuoteFree();
    var xs := OriginList(origin);
    assert xs == (if AddOrigin(origin) then [origin] else []) + DefaultDomains;
  }

  /** In every tab, stripping the quoting from the allow-origin command gives
      back the same origin list, for any origin free of double quotes (a browser
      origin is a scheme, host and port and never holds one). */
  lemma AllowOriginRoundTrip(tab: Tab, origin: string)
    requires '"' !in origin
    ensures ParseConfigCommand(tab, AllowOriginKey, AllowOriginCmd(tab, origin)) == Some(OriginList(origin))
  {
    OriginListQuoteFree(origin);
    ConfigCommandRoundTrip(tab, AllowOriginKey, OriginList(origin));
  }

  /** In every shell the allow-methods command lists PUT then POST. */
  lemma AllowMethodsRoundTrip(tab: Tab)
    ensures ParseConfigCommand(tab, AllowMethodsKey, AllowMethodsCmd(tab)) == Some(["PUT", "POST"])
  {
    assert '"' !in AllowedMethods[0] && '"' !in AllowedMethods[1];
    ConfigCommandRoundTrip(tab, AllowMethodsKey, AllowedMethods);
  }

  /** A foreign origin is listed first, ahead of the three defaults. */
  lemma ForeignOriginListed()
    ensures AddOrigin("https://example.com")
    ensures OriginList("https://example.com") ==
      ["https://example.com", "http://localhost:3000", "http://127.0.0.1:5001", "https://webui.ipfs.io"]
  {
    assert "https://example.com" != DefaultDomains[0] && "https://example.com" != DefaultDomains[1];
    assert "https://example.com" != DefaultDomains[2];
  }

  /** A default origin is not added again: the list is exactly the defaults. */
  lemma DefaultOriginNotRepeated()
    ensures !AddOrigin("http://localhost:3000")
    ensures OriginList("http://localhost:3000") == DefaultDomains
  {
    assert DefaultDomains[0] == "http://localhost:3000";
  }
}
