# Messenger front-end runtime, modelled in Dafny

This project models the DOM-independent runtime of a browser messenger
front-end written in TypeScript, and proves properties of that model:

- the publish/subscribe **event bus** (`on`, `off`, `emit`);
- the dotted-path deep write **`set`** and the global **store** with its
  `connect` wrapper;
- the **component base class** (`Block`): the split of props from child
  components, the props bag whose every key write is one update, re-rendering
  gated by `componentDidUpdate`, the recursive mount dispatch and the parse of
  `"event@selector"` specs. Rendering is an abstract counter, not HTML;
- **Route** and **Router**: a singleton route table with exact, first-match
  lookup, the `/404` fallback, leaving the current route and lazily building
  the page of the new one;
- the **HTTP transport**'s query string, per-verb URL, default timeout and
  choice of request body;
- the **WebSocket service**: the socket slot, the heartbeat, the handler list
  and the filtering of inbound frames;
- the **field validators** and the form aggregation;
- the **start-up** of the application: route registration, then the redirect
  that depends on whether a user is signed in.

One module per source file:

| file | module | models |
|---|---|---|
| `event_bus.dfy` | `Events` | `src/core/event-bus.ts` |
| `mydash_set.dfy` | `MyDash` | `src/utils/mydash/set.ts` and the JavaScript value model |
| `store.dfy` | `Stores` | `src/core/store/store.ts` |
| `block.dfy` | `Blocks` | `src/core/block.ts` |
| `route.dfy` | `Routes` | `src/core/router/route.ts` |
| `router.dfy` | `Routers` | `src/core/router/router.ts` |
| `http_transport.dfy` | `Http` | `src/core/http-transport.ts` |
| `websocket_service.dfy` | `Sockets` | `src/services/websocket-service.ts` |
| `validation.dfy` | `Validation` | `src/utils/validation/validation.ts` |
| `form.dfy` | `Forms` | `src/utils/validation/form.ts` |
| `app.dfy` | `App` | `src/main.ts` |
| `wrappers.dfy`, `strings.dfy`, `lists.dfy` | `Wrappers`, `Strings`, `Lists` | shared helpers: `Option`/`Outcome`, `split`/`join` on a character, `filter(x => x !== y)` |

The classes of the source are classes here, with the fields that the source
updates in place:

- `EventBus`, `Store`, `Block`, `Route`, `Router`, `WebSocketService`;
- the browser `XMLHttpRequest` and `WebSocket` objects that the code
  configures, as `Xhr` and `Socket`;
- the static router instance, as `RouterSlot`.

Each method is specified against a pure function of the inputs or the old
state. Examples are `Resolve` for routing, `MyDash.Set` for the deep write,
`WriteProps`/`ApplySetProps` for prop writes, and `BodyFor`/`GetUrl` for
requests. The lemmas state what the source promises about those functions.

A listener is a closure in the source. Here it is an opaque value compared by
identity. An emission returns the sequence of invocations it performs, and
the caller carries out what each listener does. The store's listeners are the
connected components themselves, each with the projection it captured. Route
changes return their effects on the page as a list:

- `Detach(page)` for a page taken off screen;
- `Mount(root, page)` for a page rendered into the root.

In `_onRoute` (`src/core/router/router.ts:46-52`) the `/404` branch leaves
the current route even when it is the `/404` route itself, so every unknown
path builds a fresh 404 page (`Routers.ResolveUnknown`); a registered path
that is already current is not rebuilt (`Routers.ResolveRevisit`).

## Model

| member | source | states |
|---|---|---|
| Events.EventBus.constructor | src/core/event-bus.ts:4 | A new bus has no event lists. |
| Events.EventBus.On | src/core/event-bus.ts:6-11 | The callback is appended at the end of the event's list; an absent event gets a list first; no other event's list changes. |
| Events.EventBus.Off | src/core/event-bus.ts:13-20 | An event never registered fails with "Нет события: <event>" and changes nothing; otherwise every occurrence of the callback leaves that event's list, the rest keep their order, other events are untouched. |
| Events.EventBus.Emit | src/core/event-bus.ts:22-29 | No list means no calls; otherwise, when no listener throws, exactly one call per registered listener, in registration order, each with the same arguments. |
| Events.RunsPerRegistration | src/core/event-bus.ts:26-28 | The calls `emit` makes of a callback are exactly as many as its occurrences in the list. |
| Events.DoubleRegistration | src/core/event-bus.ts:10 | Registering a callback twice adds two occurrences (no de-duplication), so it runs twice per emission. |
| Events.OffRemovesOnly | src/core/event-bus.ts:17-19 | After removal the callback is absent, every other listener keeps its multiplicity, and the filter distributes over any split of the list, so survivors keep their order. |
| MyDash.SetPath | src/utils/mydash/set.ts:5-23 | The descent loop and the write compute `Set`: a non-object target comes back as it is, otherwise the split path is written with `{}` replacing non-object intermediates. |
| MyDash.SetWrites | src/utils/mydash/set.ts:6-21 | A non-object or null target is returned unchanged; on an object the result is an object and following the split path from it yields the value. |
| MyDash.WriteFieldsReaches | src/utils/mydash/set.ts:13-21 | Following the written keys from the written object yields the value. |
| MyDash.WriteFieldsKeepsOthers | src/utils/mydash/set.ts:13-21 | At every level of the path, the object reached keeps exactly the keys, with their values, that the original had there, apart from the next path segment; a missing or non-object intermediate contributes none. |
| MyDash.WriteFieldsOnlyPath | src/utils/mydash/set.ts:15-17 | Below an intermediate replaced by `{}`, each level holds only the path key. |
| MyDash.SetPlainKey | src/utils/mydash/set.ts:10-21 | A path with no '.' assigns the top-level key directly. |
| MyDash.SetTopLevelOthers | src/utils/mydash/set.ts:13-21 | A top-level key other than the path's first segment reads the same after the write. |
| Stores.ConnectedPropsOverride | src/core/store/store.ts:32 | The initial props of a connected component: a projected key holds its last projected value; any other key keeps its incoming value or stays absent. |
| Stores.Store.constructor | src/core/store/store.ts:12-13 | The state starts as the empty object, with no subscribers. |
| Stores.Store.GetState | src/core/store/store.ts:15-17 | Returns the current state value (a value, not a live reference). |
| Stores.Store.Set | src/core/store/store.ts:19-22 | The state becomes the deep write of the value at the path; one `updated` emission calls every subscriber once, in subscription order; each subscriber's component state becomes `setProps` of its selector's projection of the new state. |
| Stores.Store.Notify | src/core/store/store.ts:34-37 | Every subscriber, in turn, receives `setProps` with its own projection of the current state. |
| Stores.Store.Connect | src/core/store/store.ts:28-40 | The component is built from the incoming props overridden by the projection of the current state; exactly one `updated` listener, the new component, is appended and never removed; the state is untouched. |
| Blocks.SeparateProps | src/core/block.ts:47-60 | Children are exactly the entries that are a component or an array of components (an empty array included), props the others; the halves are disjoint and together give back the input. |
| Blocks.Block.constructor | src/core/block.ts:34-45 | Children are the component-valued entries, the bag is props plus children (the input again), `init` ran once and one render followed. |
| Blocks.Block.Init | src/core/block.ts:69-72 | The `init` hook runs once, then one render. |
| Blocks.Block.Render | src/core/block.ts:116-136 | A render re-derives the children from the bag and counts one render. |
| Blocks.Block.ComponentDidUpdate | src/core/block.ts:95-103 | Each update is recorded with its before and after props; it re-renders exactly when the hook returns true. |
| Blocks.Block.SetProp | src/core/block.ts:180-185 | One key write: a copy of the props before, the write, then one update carrying the copy and the props after. |
| Blocks.Block.DeleteProp | src/core/block.ts:186-188 | Deleting a prop always fails with "No access"; the component is untouched. |
| Blocks.Block.SetProps | src/core/block.ts:105-110 | `null`/`undefined` changes nothing; otherwise the component ends as the key-by-key writes of the entries leave it. |
| Blocks.WritePropsUpdates | src/core/block.ts:109 | k written keys are k updates: the i-th carries the props before and after the i-th key; the props end as `Object.assign` leaves them; renders grow by the number of updates the hook approves. |
| Blocks.AssignUntouched | src/core/block.ts:109 | A key no entry writes keeps its presence and value. |
| Blocks.AssignLastWins | src/core/block.ts:109 | A key written by several entries holds the value of the last one. |
| Blocks.DefaultHookAlwaysRenders | src/core/block.ts:101-103 | With the default hook every update re-renders. |
| Blocks.DecliningHookNeverRenders | src/core/block.ts:95-99 | A hook that always declines never renders and never changes the children. |
| Blocks.Block.ComponentDidMount | src/core/block.ts:77-82 | The mount hook runs once; nothing else changes. |
| Blocks.DispatchComponentDidMount | src/core/block.ts:84-93 | The hooks fire in the order: own hook, then each child slot in turn, each array element in turn, recursively. |
| Blocks.MountOrderCoversTree | src/core/block.ts:84-93 | The hooks that fire are exactly the components of the tree, as a multiset: each fires once per occurrence and nothing else fires; the root fires first. |
| Blocks.ParseEventSpec | src/core/block.ts:196-203 | The key splits at '@': the first piece is the event, a non-empty second piece a selector to delegate to, otherwise the root element; `ParseFormat` and `ParseEventSpecEdges` state this. |
| Blocks.ParseFormat | src/core/block.ts:195-203 | Parsing a well-formed "event" or "event@selector" spec recovers where the handler attaches. |
| Blocks.ParseEventSpecEdges | src/core/block.ts:196-203 | No '@' or an empty selector attaches to the root element; text after a second '@' is ignored. |
| Routes.Route.constructor | src/core/router/route.ts:17-22 | A route starts with its path, page class, root and props, and no page. |
| Routes.Route.Leave | src/core/router/route.ts:31-36 | A page on screen is detached and discarded; with none, nothing happens. |
| Routes.Route.Render | src/core/router/route.ts:42-48 | A page is built from the route's fixed props only when there is none, otherwise the existing one is reused; it is then mounted into the root. |
| Routes.Route.Navigate | src/core/router/route.ts:24-29 | A matching path renders; any other path changes nothing. |
| Routers.Resolve | src/core/router/router.ts:43-62 | Routing ignores a path exactly when neither it nor "/404" is registered; otherwise it shows the route for the path, or the "/404" route for an unknown path; it leaves a route only when one is current. |
| Routers.FirstMatch | src/core/router/router.ts:77-79 | The lookup finds the first route whose path equals the pathname, and none exactly when no route has it. |
| Routers.ResolveKnown | src/core/router/router.ts:56-61 | A registered path shows its first route; the current route is left exactly when it is another one; the page is rebuilt exactly when the target was not current. |
| Routers.ResolveUnknown | src/core/router/router.ts:46-53 | An unknown path with a `/404` route shows it, leaving any current route and rebuilding its page even when it was already current; without one nothing happens. |
| Routers.ResolveRevisit | src/core/router/router.ts:56-61 | Going to the current route's path again keeps its page. |
| Routers.ResolveLeavesOnlyOnChange | src/core/router/router.ts:43-62 | A route is left only for another route or for the 404 fallback. |
| Routers.Router.constructor | src/core/router/router.ts:9-25 | A new router has no routes, no current route and no history. |
| Routers.Router.Use | src/core/router/router.ts:27-32 | Exactly one fresh route, rendering into the router's root, is appended; the router itself is returned; nothing else changes. |
| Routers.Router.GetRoute | src/core/router/router.ts:77-79 | Returns the first route whose path is the pathname, or none exactly when no route has it. |
| Routers.Router.OnRoute | src/core/router/router.ts:43-62 | Routing does what `Resolve` says: nothing when it ignores; otherwise the target becomes current and is mounted, after the current page is detached when it is left, with a new page exactly when it is rebuilt. |
| Routers.Router.ShowRoute | src/core/router/router.ts:56-61 | Leaves the current route when asked, makes the target current and renders it, keeping its page when it was already current. |
| Routers.Router.Go | src/core/router/router.ts:64-67 | Exactly one history entry for the path is pushed, then the path is routed as `Resolve` says: when ignored nothing is mounted and no page changes; otherwise the old page is detached when left, the target is mounted, with a fresh page carrying the route's props when rebuilt and the same page when kept. |
| Routers.Router.Start | src/core/router/router.ts:34-41 | The `popstate` handler is installed and the current location is routed as `Resolve` says, with the same effects, rebuild and keep facts as `Go`; nothing is pushed. |
| Routers.Router.PopState | src/core/router/router.ts:35-38 | Before `start` the event changes nothing; after it the location is routed as `Resolve` says, with the same effects, rebuild and keep facts as `Go`; history is never pushed. |
| Routers.RouterSlot.constructor | src/core/router/router.ts:7 | No router exists yet. |
| Routers.RouterSlot.NewRouter | src/core/router/router.ts:17-25 | The first construction builds and records a router for its root; every later one returns that same router, whose root stays the first one given. |
| Http.PairTexts | src/core/http-transport.ts:20 | One `key=value` text per entry, in entry order, with the value's template-literal text and no encoding. |
| Http.QueryStringify | src/core/http-transport.ts:16-21 | A non-object or null gives ""; an object gives "?" followed by its pairs (just "?" when it has none or is a `FormData`). |
| Http.ParsePairText | src/core/http-transport.ts:20 | A pair text reads back into its key and value text when the key has no '='. |
| Http.QueryRoundTrip | src/core/http-transport.ts:16-21 | Reading the query string back yields every entry, in order, with its value's text, when no key holds '&' or '=' and no value text holds '&'. |
| Http.QueryNotEncoded | src/core/http-transport.ts:20 | Without encoding, a value holding '&' reads back as two pairs. |
| Http.TimeoutFor | src/core/http-transport.ts:47 | The timeout is 5000 when none is given, the caller's otherwise (0 included). |
| Http.GetUrl | src/core/http-transport.ts:30-32 | The GET URL: base and endpoint, followed by the query string only when the data is truthy, as `GetUrlRule` states. |
| Http.GetUrlRule | src/core/http-transport.ts:30-32 | With falsy data the GET URL is base plus endpoint; with record data a query string follows that reads back into the data. |
| Http.BodyFor | src/core/http-transport.ts:65-72 | The body sent: none for GET or falsy data, the form for `FormData`, JSON otherwise, as `BodyRule` states. |
| Http.BodyRule | src/core/http-transport.ts:65-72 | GET or falsy data sends no body; `FormData` goes as it is; anything else goes as JSON with a `Content-Type: application/json` header added. |
| Http.Xhr.constructor | src/core/http-transport.ts:51 | A new request has no headers, no timeout and nothing sent. |
| Http.Xhr.Open | src/core/http-transport.ts:52 | Records the verb and URL only. |
| Http.Xhr.SetRequestHeader | src/core/http-transport.ts:54-56 | Appends one header; nothing else changes. |
| Http.Xhr.Send | src/core/http-transport.ts:65-72 | Records the body sent; nothing else changes. |
| Http.Transport.constructor | src/core/http-transport.ts:26-28 | Keeps the base URL. |
| Http.Transport.Get | src/core/http-transport.ts:30-33 | A GET to `GetUrl`, with the caller's headers and timeout (or 5000), and no body. |
| Http.Transport.Send | src/core/http-transport.ts:35-45 | PUT/POST/DELETE go to base plus endpoint with the verb forced, the body `BodyFor` chooses, and the JSON content type added only for a JSON body. |
| Http.Transport.Request | src/core/http-transport.ts:47-74 | Opens with the verb and URL, sets the caller's headers in order, sets the timeout, then sends the chosen body. |
| Sockets.SocketUrlSegments | src/services/websocket-service.ts:23 | The socket URL is the base followed by exactly the user id, the chat id and the token as '/'-separated segments. |
| Sockets.Socket.constructor | src/services/websocket-service.ts:24 | A new socket is connecting, to its URL, with nothing sent. |
| Sockets.Socket.Close | src/services/websocket-service.ts:65 | Closing moves a connecting or open socket to closing; nothing is sent. |
| Sockets.Socket.Transmit | src/services/websocket-service.ts:88 | An open socket appends the frame to what it has sent. |
| Sockets.Delivered | src/services/websocket-service.ts:37-54 | What reaches the handlers is the parsed frame itself, never a malformed frame and never `null`. |
| Sockets.DeliveredRule | src/services/websocket-service.ts:37-54 | A frame reaches the handlers exactly when it parses, is not null and is not typed "pong" or "user connected", and then as the parsed value itself. |
| Sockets.WebSocketService.constructor | src/services/websocket-service.ts:12-16 | No socket, no heartbeat, no handlers. |
| Sockets.WebSocketService.Connect | src/services/websocket-service.ts:18-24 | An existing socket is closed through `disconnect` first; a fresh connecting socket for the user, chat and token takes the slot; the heartbeat is stopped and the handlers are kept. |
| Sockets.WebSocketService.Disconnect | src/services/websocket-service.ts:62-68 | The heartbeat stops, a socket is closed and cleared; with none it only stops the heartbeat, so a repeat changes nothing. |
| Sockets.WebSocketService.Send | src/services/websocket-service.ts:86-90 | A frame is transmitted only on an existing open socket, otherwise silently dropped. |
| Sockets.WebSocketService.SendMessage | src/services/websocket-service.ts:70-72 | Sends a chat message frame with the content, under the same rule. |
| Sockets.WebSocketService.GetOldMessages | src/services/websocket-service.ts:74-76 | Sends a "get old" frame whose content is the offset's decimal text, under the same rule. |
| Sockets.WebSocketService.StartPing | src/services/websocket-service.ts:92-96 | The heartbeat runs. |
| Sockets.WebSocketService.StopPing | src/services/websocket-service.ts:98-103 | The heartbeat stops; stopping a stopped one is harmless. |
| Sockets.WebSocketService.PingTick | src/services/websocket-service.ts:93-95 | Each heartbeat period sends one ping while the heartbeat runs and the socket is open; a closing socket drops it; an open socket's heartbeat is kept. |
| Sockets.WebSocketService.HandleOpen | src/services/websocket-service.ts:26-30 | On open the heartbeat starts and exactly one "get old" frame with content "0" is sent. |
| Sockets.WebSocketService.ServerClosing | src/services/websocket-service.ts:86-90 | The server begins closing the open socket: it is closing, nothing is sent, and the heartbeat keeps running until the 'close' event. |
| Sockets.WebSocketService.HandleClose | src/services/websocket-service.ts:32-35 | The closing socket is closed; the heartbeat stops when it is the socket in the slot and is otherwise unaffected, so an open socket in the slot that had a heartbeat keeps it. |
| Sockets.WebSocketService.HandleCloseAsWritten | src/services/websocket-service.ts:32-35 | The close listener as registered: the heartbeat stops whichever socket closed. |
| Sockets.WebSocketService.OnMessage | src/services/websocket-service.ts:78-80 | Appends the handler. |
| Sockets.WebSocketService.OffMessage | src/services/websocket-service.ts:82-84 | Removes every occurrence of the handler, keeping the others in order. |
| Sockets.WebSocketService.HandleMessage | src/services/websocket-service.ts:37-54 | A delivered frame calls every handler once, in registration order, with the parsed data; any other frame calls none. |
| Sockets.RetiredCloseScenario | src/services/websocket-service.ts:18-35 | Reconnect, open, then a late close of the replaced socket: as written, the open socket is left without a heartbeat; a heartbeat period sends no ping, while a chat message still goes out. |
| Sockets.RetiredCloseCorrected | src/services/websocket-service.ts:18-35 | The same sequence with the corrected close keeps the open socket's heartbeat. |
| Sockets.ClosingDropsPings | src/services/websocket-service.ts:86-96 | While the server closes the socket the heartbeat still runs, but its ping is dropped. |
| Validation.NameRule | src/utils/validation/validation.ts:12-13 | `^[А-ЯЁA-Z][а-яёa-z-]+$`: a capital Cyrillic or Latin letter, then at least one lower-case letter or '-'. |
| Validation.LoginRule | src/utils/validation/validation.ts:14 | 3 to 20 Latin letters, digits, '_' or '-', at least one a letter. |
| Validation.EmailRule | src/utils/validation/validation.ts:15 | The e-mail test at the first '@' and the last '.'; its language is the pattern's (`EmailRuleMatchesPattern`). |
| Validation.Utf16Length | src/utils/validation/validation.ts:16 | A string's JavaScript length: between its character count and twice it, equal to the character count exactly when no character is above U+FFFF and to twice it exactly when all are. |
| Validation.Utf16Append | src/utils/validation/validation.ts:16 | Code units add up over concatenation. |
| Validation.PasswordRule | src/utils/validation/validation.ts:16 | 8 to 40 UTF-16 code units, none a line terminator, with a Latin capital and a digit. |
| Validation.PasswordCountsCodeUnits | src/utils/validation/validation.ts:16 | "A1" followed by n characters above U+FFFF is a valid password exactly when 3 <= n <= 19: the bound counts code units, not characters. |
| Validation.PhoneRule | src/utils/validation/validation.ts:17 | `^\+?\d{10,15}$`, by its shape lemma `PhoneShape`. |
| Validation.Validate | src/utils/validation/validation.ts:21-27 | The message rule is the trim test, every other rule its pattern, as `ValidateRules` states. |
| Validation.PhoneShape | src/utils/validation/validation.ts:17 | A phone number is 10 to 15 ASCII digits, optionally behind a single '+', and nothing else. |
| Validation.EmailCuts | src/utils/validation/validation.ts:15 | Wherever the e-mail pattern cuts a value, its '@' is the first one and its '.' the last one. |
| Validation.EmailPatternRule | src/utils/validation/validation.ts:15 | A value the e-mail pattern matches passes the direct test. |
| Validation.EmailRuleCuts | src/utils/validation/validation.ts:15 | A value the direct test accepts is matched by the pattern. |
| Validation.EmailRuleMatchesPattern | src/utils/validation/validation.ts:15 | The direct e-mail test accepts exactly the language of the pattern, in both directions. |
| Validation.TrimStartContent | src/utils/validation/validation.ts:23 | Stripping leading white space leaves something exactly when a non-white-space character exists. |
| Validation.TrimEndContent | src/utils/validation/validation.ts:23 | Stripping trailing white space leaves something exactly when a non-white-space character exists. |
| Validation.TrimNonEmpty | src/utils/validation/validation.ts:22-24 | `trim()` leaves something exactly when some character is not white space. |
| Validation.ValidateRules | src/utils/validation/validation.ts:21-27 | First and second names accept the same values; a message is valid exactly when it has a non-white-space character; e-mail acceptance is the pattern's language. |
| Validation.NameExamples | src/utils/validation/validation.ts:12 | A capitalised Cyrillic name passes; a one-letter name fails. |
| Validation.LoginExamples | src/utils/validation/validation.ts:14 | A login with a letter passes; an all-digit login fails. |
| Validation.PhoneMessageExamples | src/utils/validation/validation.ts:17-23 | A '+' followed by eleven digits is a phone number; a message of white space alone fails. |
| Forms.FieldValid | src/components/text-input/text-input.ts:33-40 | A field without a rule is valid; a field with one is valid exactly when `Validate` accepts its value. |
| Forms.ValidateAndCollectData | src/utils/validation/form.ts:8-24 | Every field is validated in order, with no short-circuit; the form is valid exactly when all fields are; the data keys are exactly the field names, each holding the value of the last field with that name. |
| Forms.KeysStep | src/utils/validation/form.ts:17 | Recording a field adds exactly its name to the keys collected so far. |
| Forms.ValuesStep | src/utils/validation/form.ts:17 | Recording a field makes its value the one held under its name, leaving every other name's value alone. |
| App.RedirectTarget | src/main.ts:46-55 | A redirect always goes to a registered path other than the current one. |
| App.RedirectRule | src/main.ts:46-55 | A signed-in user is sent to "/messenger" exactly from "/" and "/sign-up"; a visitor is sent to "/" exactly from the four protected paths; nothing else redirects. |
| App.RedirectSettles | src/main.ts:46-55 | A redirect goes to a registered path other than the current one, and arriving there triggers no further redirect. |
| App.RegisterRoutes | src/main.ts:27-35 | The eight routes are appended in the fixed order with the exact paths of the `Routes` enum, each fresh, pageless and with empty props; nothing else changes. |
| App.ShownIndex | src/main.ts:27-35 | In the application's table, a registered path is shown by its own route, any other by the 404 route. |
| App.AppResolves | src/main.ts:27-35 | In the application's table, every path resolves to a route to show. |
| App.Startup | src/main.ts:24-61 | The router is the one already in the slot (empty, for "#app") or a new one; it is registered and started before any redirect; a rejected `fetchUser` sends it to "/"; otherwise the redirect is the rule's; the history holds only the redirect; the page shown is the one for the redirect target, or for the location when there is none. |
| App.PageLoad | src/main.ts:10-25 | The router the controllers built on import is the one start-up registers and starts. |

## Left out

- The DOM, Handlebars compilation, stub substitution, element replacement and event-listener attachment (`compile`, `_addEvents`, `_removeEvents`): rendering is a counter, and of the event wiring only the parse of the spec string is modelled.
- `renderDOM` and the browser `history`/`location`: mounting is returned as an effect; `pushState` appends to a `history` sequence; the location and the `popstate` event are arguments.
- `back` and `forward` of the router: they only delegate to the browser history.
- The network side of `request`: the `onload`, `onabort`, `onerror` and `ontimeout` callbacks, the promise, and `JSON.stringify` of a JSON body (the body carries the data itself).
- Real sockets, `setInterval` timing, `console` and `alert`, including the 'error' listener: a timer is the `pinging` flag plus one `PingTick` per period, inbound frames arrive already parsed or marked malformed (`JSON.parse` is not modelled), and outbound frames are recorded as values (`JSON.stringify` is not modelled).
- `nanoid` ids: a page built by routing takes the id it would get as an argument.
- The page classes, controllers and API wrappers: pages are a name plus the base class's `componentDidUpdate`, and `fetchUser` is an input to `App.Startup`, either the user it left in the store or a rejection.
- MyDash.SetPath: JavaScript values are trees of values here. The in-place mutation of the caller's object, the object identity `set` returns, and sharing between objects are not captured. `getState` therefore returns the current state value, not a live reference.
- MyDash.SetPath: only own keys are modelled, with no prototype chain. In JavaScript `current[key]` also reads inherited properties, so a path through "__proto__" writes into `Object.prototype`, and a last key "__proto__" with an object value replaces the prototype; here every key, "__proto__" included, is an ordinary own key.
- Numbers in JavaScript values are integers; floating point is not modelled. Arrays are objects keyed by index strings, and they print as "[object Object]" in query strings, whereas JavaScript joins their elements.
- Blocks.DispatchComponentDidMount: walks a value snapshot of the component tree, not the live `children` objects.
- `TextInput.validate` also sets the field's `error` and `value` props: only its verdict is modelled (`Forms.FieldValid`).
- `ValidationRule.ChatName` is referenced by a component but does not exist in the enum, so it is not modelled.
- App.Startup: the `catch` branch is modelled only for a rejected `fetchUser`, before `start`; `fetchUser` catches a failed request itself, so it rejects only when writing `user` into the store throws. A throw from inside `start` or `go` (a page failing to build or render), after which the `catch` branch calls `start` a second time on a partly routed router, is not modelled. The router slot is either empty or holds the empty "#app" router the controllers built on import.
- Events.EventBus.Emit: assumes no listener throws. In the source a throwing listener ends the `forEach`, so the later listeners are not called and the error reaches the caller of `emit` (for the store, the caller of `set`).
- Sockets.WebSocketService.HandleMessage: assumes no handler throws. In the source a throwing handler ends the `forEach`, the later handlers are skipped, and the surrounding `catch` logs it as a parse failure.
- The chat controller's merge, sort and de-duplication of messages is not part of this model.

## Findings

| source | as written | input that shows it | evidently intended | confidence | as-written member | corrected member |
|---|---|---|---|---|---|---|
| src/services/websocket-service.ts:32-35 | Every socket's 'close' listener calls `stopPing()` on the service, whichever socket is now in the slot | `connect`, open, `connect` again (the first socket starts closing), the second socket opens, then the first socket's 'close' arrives | Only the close of the socket still in the slot stops the heartbeat, so an open socket always has one | not executed | Sockets.WebSocketService.HandleCloseAsWritten, Sockets.RetiredCloseScenario | Sockets.WebSocketService.HandleClose, Sockets.RetiredCloseCorrected |
