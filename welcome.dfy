/** The welcome page: a loading placeholder until the node has either started or
    failed to start, then the connection status. When the node is not connected
    and the page is served from another origin than the API, the status shows
    the CORS help with one shell tab's commands. The page origin
    (`window.location.origin`) is a parameter. */
module Welcome {

  import opened Optional
  import opened CorsCommands

  /** What the state store hands the page. */
  datatype Props = Props(
    apiUrl: string,
    ipfsInitFailed: bool,
    ipfsConnected: bool,
    ipfsReady: bool,
    toursEnabled: bool)

  /** What the page hands `ConnectionStatus`; `ipfsApiAddress` is None when the
      prop is not passed. */
  datatype StatusProps = StatusProps(connected: bool, sameOrigin: bool, ipfsApiAddress: Option<string>)

  /** The page: the loader, or the status with the tour overlay running or not. */
  datatype Page = Loading | Status(status: StatusProps, tourRunning: bool)

  /** One tab's command block. */
  datatype CommandBlock = CommandBlock(tab: Tab, allowOrigin: string, allowMethods: string)

  /** The connection status: the success panel, or the failure panel with the
      restart-daemon lines, the CORS command blocks when shown, and the default
      value of the address form. */
  datatype StatusView =
    | Success
    | Failure(daemonLines: seq<string>, cors: Option<seq<CommandBlock>>, formDefault: string)

  /** Which of the four screens is on display. */
  datatype Screen = LoadingPlaceholder | ConnectedView | NotConnectedView | NotConnectedCorsView

  /** The fixed lines of the "Any Shell" restart-daemon block. */
  const DaemonLines: seq<string> := ["ipfs daemon", "Initializing daemon...", "API server listening on /ip4/127.0.0.1/tcp/5001"]

  /** `WelcomePage`: the loader while the node has neither started nor failed,
      otherwise the status with `sameOrigin` computed from the page origin. */
  function WelcomePage(p: Props, pageOrigin: string): (r: Page)
    ensures r.Loading? <==> !p.ipfsInitFailed && !p.ipfsReady
    ensures r.Status? ==> r.status.connected == p.ipfsConnected && r.tourRunning == p.toursEnabled
    ensures r.Status? ==> (r.status.sameOrigin <==> pageOrigin == p.apiUrl)
    ensures r.Status? ==> r.status.ipfsApiAddress == None
  {
    if !p.ipfsInitFailed && !p.ipfsReady then Loading
    else Status(StatusProps(p.ipfsConnected, pageOrigin == p.apiUrl, None), p.toursEnabled)
  }

  /** `ipfsApiAddress || ''`: a missing or empty address gives the empty string. */
  function FormDefault(ipfsApiAddress: Option<string>): (r: string)
    ensures ipfsApiAddress.Some? ==> r == ipfsApiAddress.value
    ensures r == "" <==> ipfsApiAddress.None? || ipfsApiAddress.value == ""
  {
    if ipfsApiAddress.Some? && ipfsApiAddress.value != "" then ipfsApiAddress.value else ""
  }

  /** The command block of one tab. */
  function Block(tab: Tab, origin: string): CommandBlock
  {
    CommandBlock(tab, AllowOriginCmd(tab, origin), AllowMethodsCmd(tab))
  }

  /** `{activeTab === tab && <block>}`: the tab's block, rendered only when its
      tab is the active one. */
  function Guarded(activeTab: Tab, tab: Tab, origin: string): seq<CommandBlock>
  {
    if activeTab == tab then [Block(tab, origin)] else []
  }

  /** The three conditional command blocks in page order: exactly the active
      tab's is rendered. */
  function CommandBlocks(activeTab: Tab, origin: string): (r: seq<CommandBlock>)
    ensures r == [Block(activeTab, origin)]
  {
    GuardedOnly(activeTab, origin);
    Guarded(activeTab, Unix, origin) + Guarded(activeTab, PowerShell, origin) + Guarded(activeTab, Windows, origin)
  }

  /** Of the three guarded blocks, only the active tab's is there. */
  lemma GuardedOnly(activeTab: Tab, origin: string)
    ensures Guarded(activeTab, Unix, origin) + Guarded(activeTab, PowerShell, origin) + Guarded(activeTab, Windows, origin)
            == [Block(activeTab, origin)]
  {
    OnlyOne(Guarded(activeTab, Unix, origin), Guarded(activeTab, PowerShell, origin), Guarded(activeTab, Windows, origin),
            Block(activeTab, origin));
  }

  /** Three parts of which one is `[x]` and the others empty make up `[x]`. */
  lemma OnlyOne<T>(a: seq<T>, b: seq<T>, c: seq<T>, x: T)
    requires (a == [x] && b == [] && c == []) || (a == [] && b == [x] && c == []) || (a == [] && b == [] && c == [x])
    ensures a + b + c == [x]
  {
  }

  /** `ConnectionStatus` rendered with its current tab. */
  function ConnectionStatus(props: StatusProps, activeTab: Tab, origin: string): (r: StatusView)
    ensures r.Success? <==> props.connected
    ensures r.Failure? ==> r.daemonLines == DaemonLines && r.formDefault == FormDefault(props.ipfsApiAddress)
    ensures r.Failure? ==> (r.cors.Some? <==> !props.sameOrigin)
    ensures r.Failure? && r.cors.Some? ==> r.cors.value == [Block(activeTab, origin)]
  {
    if props.connected then Success
    else
      Failure(
        DaemonLines,
        if !props.sameOrigin then Some(CommandBlocks(activeTab, origin)) else None,
        FormDefault(props.ipfsApiAddress))
  }

  /** The screen the page shows, for any tab the status component is on. */
  function VisibleScreen(p: Props, pageOrigin: string, activeTab: Tab): (r: Screen)
    ensures r == LoadingPlaceholder <==> !p.ipfsInitFailed && !p.ipfsReady
    ensures r == ConnectedView <==> (p.ipfsInitFailed || p.ipfsReady) && p.ipfsConnected
    ensures r == NotConnectedView <==>
      (p.ipfsInitFailed || p.ipfsReady) && !p.ipfsConnected && pageOrigin == p.apiUrl
    ensures r == NotConnectedCorsView <==>
      (p.ipfsInitFailed || p.ipfsReady) && !p.ipfsConnected && pageOrigin != p.apiUrl
  {
    match WelcomePage(p, pageOrigin)
    case Loading => LoadingPlaceholder
    case Status(status, _) =>
      match ConnectionStatus(status, activeTab, pageOrigin)
      case Success => ConnectedView
      case Failure(_, None, _) => NotConnectedView
      case Failure(_, Some(_), _) => NotConnectedCorsView
  }

  /** The connected view depends on neither `sameOrigin`, the tab nor the origin. */
  lemma ConnectedIgnoresTabAndOrigin(p1: StatusProps, p2: StatusProps, t1: Tab, t2: Tab, o1: string, o2: string)
    requires p1.connected && p2.connected
    ensures ConnectionStatus(p1, t1, o1) == ConnectionStatus(p2, t2, o2) == Success
  {
  }

  /** The page never passes an address, so the form's default is always empty. */
  lemma WiredFormDefaultIsEmpty(p: Props, pageOrigin: string, activeTab: Tab)
    requires WelcomePage(p, pageOrigin).Status?
    requires ConnectionStatus(WelcomePage(p, pageOrigin).status, activeTab, pageOrigin).Failure?
    ensures ConnectionStatus(WelcomePage(p, pageOrigin).status, activeTab, pageOrigin).formDefault == ""
  {
  }

  /** The state of `ConnectionStatus`: the `activeTab` cell. */
  class ConnectionStatusState {

    var activeTab: Tab

    /** `useState(TABS.UNIX)`. */
    constructor ()
      ensures activeTab == Unix
    {
      activeTab := Unix;
    }

    /** A tab button's click handler, `setActiveTab(tab)`. */
    method SelectTab(tab: Tab)
      modifies this
      ensures activeTab == tab
    {
      activeTab := tab;
    }

    /** Renders the component with the current tab. */
    method Render(props: StatusProps, origin: string) returns (view: StatusView)
      ensures view.Success? <==> props.connected
      ensures view.Failure? && !props.sameOrigin ==> view.cors == Some([Block(activeTab, origin)])
      ensures view.Failure? && props.sameOrigin ==> view.cors.None?
      ensures view.Failure? ==> view.daemonLines == DaemonLines && view.formDefault == FormDefault(props.ipfsApiAddress)
    {
      view := ConnectionStatus(props, activeTab, origin);
    }
  }

  /** A worked scenario of the tab buttons and command blocks (src/welcome/WelcomePage.js,
      lines 109-137), proved from the contracts above alone.
      A not-connected, cross-origin page starts on the Unix commands, shows the
      PowerShell ones after that tab is clicked, keeps them after a second click,
      and returns to Unix when that tab is clicked. */
  method TabClicks(origin: string)
  {
    var props := StatusProps(false, false, None);
    var state := new ConnectionStatusState();
    var view := state.Render(props, origin);
    assert view.cors == Some([Block(Unix, origin)]);
    state.SelectTab(PowerShell);
    view := state.Render(props, origin);
    assert view.cors == Some([Block(PowerShell, origin)]);
    state.SelectTab(PowerShell);
    var again := state.Render(props, origin);
    assert again == view;
    state.SelectTab(Unix);
    view := state.Render(props, origin);
    assert view.cors == Some([Block(Unix, origin)]);
  }
}
