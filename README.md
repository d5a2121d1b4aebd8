# Welcome page decision logic

This project models the decision logic of the web UI's welcome screen,
`src/welcome/WelcomePage.js`. The screen shows one of four things:

- a loading placeholder while the IPFS node has neither started nor failed to start;
- a success panel when the node is connected;
- a failure panel with restart instructions when it is not connected;
- the same failure panel plus a cross-origin (CORS) help block, when the page is also
  served from another origin than the API.

The CORS block has three shell tabs: Unix & MacOS, Windows PowerShell and Windows CMD.
Only the active tab's two `ipfs config` commands are shown. The allow-origin command lists
the page origin (when it is not one of three default origins) and then the defaults; the
allow-methods command lists PUT and POST. Each shell quotes them its own way:

- Unix uses `"` inside `'[...]'`;
- PowerShell uses `\"` inside `'[...]'`;
- CMD uses `"""` inside `"[...]"`.

The page origin (`window.location.origin`) and every prop are parameters.

Files:

- `optional.dfy` (module `Optional`): the Option datatype.
- `text.dfy` (module `Text`): JavaScript's `join` and `indexOf`, per-element quoting, and a
  parser for quoted lists. The parser is the inverse the command builders are proved against.
- `cors_commands.dfy` (module `CorsCommands`): the default origins, `addOrigin`, the origin
  list, the three shells' quoting and the two commands.
- `welcome.dfy` (module `Welcome`): `WelcomePage`, `ConnectionStatus`, the form default, the
  visible screen, and the `activeTab` state as a class.

Modelling choices:

- `OriginList` is not a value in the source, which builds the command text directly. It is
  the list that text denotes. The contract of `AllowOriginCmd` states that the template text
  is exactly that list, each element quoted, inside the shell's brackets.
- The source writes the three templates out separately. The model writes them once,
  parameterised by the tab's element quote (`Quote`) and argument delimiter (`Delimiter`).
  Those two functions hold the literal characters of each line. The common text
  `ipfs config --json API.HTTPHeaders.` and the two header keys are constants.
- The tab type is named `Tab` (`Unix`, `PowerShell`, `Windows`), after the source's `TABS`.
- `Welcome.TabClicks` has no contract of its own. It is a worked scenario of the tab buttons
  and command blocks (src/welcome/WelcomePage.js, lines 109-137): a not-connected,
  cross-origin page starts on Unix, switches to PowerShell, stays there on a second click
  and returns to Unix. Its assertions follow from the contracts of the constructor,
  `SelectTab` and `Render` alone.
- JSX text does not process escapes, so `\"` in the PowerShell template is a backslash
  followed by a quote. Inside the JavaScript strings of that line, `\\"` is the same two characters.
- `{addOrigin && ...}` renders nothing when `addOrigin` is false, so that part of the
  template is the empty string.
- As wired, `WelcomePage` does not pass `ipfsApiAddress` to `ConnectionStatus`
  (line 34). So the address form's default is always `''`, although the component itself
  would show a supplied address. The model keeps both facts: `FormDefault` covers the
  component and `WiredFormDefaultIsEmpty` covers the page.

## Model

| member | source | states |
|---|---|---|
| `Text.JoinLength` | src/welcome/WelcomePage.js:122 | The result's length is the elements' total length plus one separator fewer than there are elements. Where the separators go comes from `Join`'s definition. |
| `Text.IndexOf` | src/welcome/WelcomePage.js:82 | `indexOf` gives -1 exactly when the element is absent. Otherwise it gives the first position holding it. |
| `Text.JoinQuoted` | src/welcome/WelcomePage.js:122-134 | Joining with "closing quote, `, `, opening quote" and quoting both ends equals quoting each element and joining with `, `. |
| `Text.ParseListRoundTrip` | src/welcome/WelcomePage.js:122-134 | Parsing a quoted, `, `-joined list gives back the list. This holds when the quote contains `"` and no element does. |
| `CorsCommands.AddOrigin` | src/welcome/WelcomePage.js:80-82 | `addOrigin` holds exactly when the origin is not one of the three defaults. |
| `CorsCommands.OriginList` | src/welcome/WelcomePage.js:80-82 | The listed origins are the origin then the defaults when `addOrigin` holds, else just the defaults. The list has 4 or 3 entries, ends with the defaults in fixed order, contains exactly the origin and the defaults, and has no duplicates. |
| `CorsCommands.ForeignOriginListed` | src/welcome/WelcomePage.js:80-82 | `https://example.com` is added, ahead of the three defaults in order. |
| `CorsCommands.DefaultOriginNotRepeated` | src/welcome/WelcomePage.js:80-82 | `http://localhost:3000` is not added, and the list is exactly the defaults. |
| `CorsCommands.Quote` | src/welcome/WelcomePage.js:122-135 | Each tab's element quote (`"`, `\"`, `"""`) is non-empty and ends with a double quote. |
| `CorsCommands.Delimiter` | src/welcome/WelcomePage.js:122-135 | Each tab's argument delimiter is one character: a double quote exactly for CMD, otherwise `'`. |
| `CorsCommands.AllowOriginCmd` | src/welcome/WelcomePage.js:122-134 | In every tab, the allow-origin template text equals the reference command: `ipfs config --json API.HTTPHeaders.Access-Control-Allow-Origin`, then the origin list, each element in the tab's quote, joined by `, `, in brackets, inside the tab's delimiter. The round trip back to the list is `AllowOriginRoundTrip`. |
| `CorsCommands.AllowMethodsCmd` | src/welcome/WelcomePage.js:123-135 | The allow-methods template text equals the reference command over PUT then POST. The round trip is `AllowMethodsRoundTrip`. |
| `CorsCommands.ConfigCommandRoundTrip` | src/welcome/WelcomePage.js:122-135 | Removing the tab's head, delimiter and quoting from a command gives back its items. This holds when no item contains `"`. |
| `CorsCommands.AllowOriginRoundTrip` | src/welcome/WelcomePage.js:122-134 | In all three tabs, removing the quoting from the allow-origin command gives the same origin list. |
| `CorsCommands.AllowMethodsRoundTrip` | src/welcome/WelcomePage.js:123-135 | In all three tabs, the allow-methods command lists PUT then POST. |
| `Welcome.WelcomePage` | src/welcome/WelcomePage.js:21-42 | The loader is shown exactly when the node has neither failed nor become ready. Otherwise the page passes `connected` as is and `sameOrigin` exactly when page origin equals `apiUrl`. It passes no address and runs the tour exactly when tours are enabled. |
| `Welcome.FormDefault` | src/welcome/WelcomePage.js:147 | A supplied address is the form default. The default is empty exactly when the address is missing or empty. |
| `Welcome.CommandBlocks` | src/welcome/WelcomePage.js:120-137 | Of the three conditional command blocks, exactly one is rendered: the active tab's. |
| `Welcome.ConnectionStatus` | src/welcome/WelcomePage.js:53-151 | The success panel is shown exactly when connected. The failure panel has the fixed daemon lines and the form default. It shows the CORS block exactly when not same-origin, and that block is the active tab's single block. |
| `Welcome.VisibleScreen` | src/welcome/WelcomePage.js:21-141 | Taken together, the two components show the loader, connected view, not-connected view or not-connected view with CORS help. Each of the four is stated as an exact condition on the inputs. |
| `Welcome.ConnectedIgnoresTabAndOrigin` | src/welcome/WelcomePage.js:56-78 | When connected, the view is the success panel whatever `sameOrigin`, the tab or the origin are. |
| `Welcome.WiredFormDefaultIsEmpty` | src/welcome/WelcomePage.js:145-148 | Because the page does not pass `ipfsApiAddress` (line 34), the form default is always `''`. |
| `Welcome.ConnectionStatusState.constructor` | src/welcome/WelcomePage.js:54 | `activeTab` starts as Unix. |
| `Welcome.ConnectionStatusState.SelectTab` | src/welcome/WelcomePage.js:109-115 | After a tab's button is clicked, `activeTab` is that tab whatever it was before, so a second click on the same tab changes nothing. |
| `Welcome.ConnectionStatusState.Render` | src/welcome/WelcomePage.js:56-151 | Rendering with the current `activeTab` gives the success panel exactly when connected. Otherwise it gives the fixed daemon lines and the form default, and the CORS help is exactly the current tab's single command block when not same-origin, and absent when same-origin. |

## Left out

- JSX markup, CSS classes, icons (`GlyphTick`, `GlyphAttention`), `Box`, `Shell` and the informational panels. These are presentation: the success panel is one constructor.
- The bold style on the active tab's button (`classNames(..., 'fw7')`): presentation.
- The `$ ` prompt before each command: it is a non-selectable `<b>` and not part of the command text.
- `Helmet` page title, the `ReactJoyride` steps, styles and locale, `welcomeTour.getSteps` and `getJoyrideLocales`: external libraries. Only the tour's `run` flag is modelled.
- Translation (`t`, `Trans`) and the translated paragraphs: foreign calls with opaque strings.
- `connect(...)` store selectors and the `withTour` and `withTranslation` wrappers: the selected values are the `Props` parameters.
- `ApiAddressForm` validation and persistence, and the `doUpdateIpfsApiAddress` callback: ApiAddressForm is not part of this model. Only the form's default value is modelled.
- `window.location`: the page origin is a parameter.
- The string values of `TABS` (`'unix'`, `'windowsPS'`, `'windowsCMD'`): they are used only in `===` comparisons, so they are modelled as the three constructors of `Tab`.
- React rendering and the event loop: `SelectTab` is the click handler's effect on state, and `Render` is one render with the current state.
- CorsCommands.AllowOriginRoundTrip: stated only for origins without a double quote. A browser origin is a scheme, host and port and never contains one. With a `"` in the origin, the quoted list would be ambiguous.
