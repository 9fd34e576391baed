# Mashpromstroy storefront: hash router, order form and Telegram relay

This project models, in Dafny, the logic of a single-page storefront for industrial gases and
equipment and of the serverless function that forwards its orders to a Telegram chat:

- **The page component** (`src/App.jsx`). Its state slots are the route, the four selection slots
  (gas, solution, service, equipment), the selected variant, the menu flags, the order draft, the
  toast notice and the address bar's fragment. `Application.App` is a class with these fields.
  Each handler is a method that makes the handler's writes and then runs the render that follows
  them:
  - the outbound effect writes `#route[/id]` when one of its watched values changed;
  - the write fires `hashchange`, whose listener runs `syncFromHash` again.

  `SyncAndRender` (the mount effect) establishes the invariant `Valid()` (`HashRouter.Coherent`):
  at most one slot is filled, a list page has no selection, and a fragment naming a list page
  agrees with the state. Every event method that changes the route, a selection or the fragment requires `Valid()`
  and ensures it again; `ResetOrder` and `DismissNotice` write only the draft or the notice, so their frames keep `Valid()`; the
  constructor gives the state before the mount effect and does not establish it.
  Every event method is proved equal to a pure function of the old state: `HashRouter.SyncFromHash`,
  `HashRouter.Fragment`, `HashRouter.Render`, `HashRouter.OpenDetails` or `HashRouter.StartOrder`.
- **The order form**: the product title and description, the submission gate `canSubmit`, the
  ten-line message text and how the reply decides the notice (`OrderForm`).
- **The relay function** (`netlify/functions/send-telegram.js`): its decision chain from the
  request method, the request body, the two secrets and the upstream reply to the response
  (`SendTelegram.Handle`).
- **The helpers** `classNames` and `isValidPhone` (`Utils`).
- **The gas consumption calculator's arithmetic** (`GasCalculator`).

The router's central results:
- syncing from the fragment of a canonical state gives back that state
  (`HashRouter.FragmentRoundTrip`);
- a render after any handler ends in a coherent state (`HashRouter.RenderIsCoherent`);
- opening an entry or starting an order survives that render (`HashRouter.OpenDetailsSettles`,
  `HashRouter.StartOrderSettles`);
- navigating to a list page clears every selection (`HashRouter.NavigateToListClears`).

Behaviour of the code worth noting:
- A detail fragment whose id is not in its table keeps the detail route and leaves the slot empty.
  It does not fall back to the list page.
- The first message line is `📦 *Новая заявка*`, with Markdown asterisks.
- A successful submission does not clear the draft; only the route goes home.
- `startOrderFromSolution` never looks in the gas table: an unknown id lands in the solution slot.
- Neither `setRoute` nor `syncFromHash` clears the selected variant.
- The order form skips the cylinder, ownership and delivery steps only when a non-gas selection
  is an entry of its own table (`SERVICES`, `EQUIPMENT`, `SOLUTIONS`).
- The gate checks only that the phone has at least six characters; it does not call
  `isValidPhone` (`OrderForm.GateAcceptsInvalidPhone`).

## Model

| member | source | states |
|---|---|---|
| Wrappers.OrNull | src/App.jsx:1340 | `x \|\| null` is present exactly when `x` is a non-empty string, and then it is `x` |
| Strings.Split | src/App.jsx:1210 | splitting gives at least one part, and no part contains the separator |
| Strings.Join | src/lib/utils.js:4 | `join`: nothing for no parts; otherwise the result starts with the first part and is as long as the parts plus one separator between each two |
| Strings.SplitJoin | src/App.jsx:1470-1481 | splitting a join of separator-free parts on the same separator gives the parts back |
| Strings.NatToString | src/App.jsx:1474 | `String(n)` for a chosen cylinder size: a non-empty run of decimal digits, one digit exactly below ten, never a leading zero |
| Strings.DigitsValueOfNatToString | src/App.jsx:1474 | the printed digits read back as the number |
| Strings.Digits | src/lib/utils.js:15 | `replace(/[^\d]/g, "")` yields decimal digits only, and no more characters than the phone holds |
| Strings.DigitsKeepDigits | src/lib/utils.js:15 | the filter keeps exactly the characters of the phone that are decimal digits |
| Strings.DigitsOfDigits | src/lib/utils.js:15 | a phone made of digits only passes the filter unchanged |
| Strings.DigitsAppend | src/lib/utils.js:15 | the digit filter distributes over concatenation, so the digits stay in order |
| CatalogData.Find | src/App.jsx:1253 | the lookup returns the first entry of the table with the requested id; it returns null exactly when the id is absent or no entry has it |
| CatalogData.ContainsAtIndex | src/App.jsx:1408-1413 | `table.some((e) => e.id === id)` holds exactly when some index of the table holds an entry with that id |
| CatalogData.FindOwnId | src/App.jsx:1253 | in a table with unique ids, looking an entry up by its own id finds that entry |
| HashRouter.TokenRoundTrip | src/App.jsx:1212-1280 | every route's token is recognised by the `syncFromHash` switch as that route |
| HashRouter.RouteOfToken | src/App.jsx:1212-1280 | the `syncFromHash` switch recognises a path exactly when it is some route's token, and then names that route |
| HashRouter.WithIsExclusive | src/App.jsx:1324-1366 | a handler's selection fills the chosen slot and clears the other three |
| HashRouter.ParseHash | src/App.jsx:1207-1210 | an empty fragment reads as path `home` with no id; neither the path nor the id contains `/` |
| HashRouter.HashRoute | src/App.jsx:1212-1280 | a path that is a route's token selects that route; any other path selects `home` |
| HashRouter.SyncFromHash | src/App.jsx:1204-1281 | the route is the fragment's route, or home when the path is unknown; the variant is kept; a list route clears all four slots; `order` keeps the selection; a detail route holds exactly the table lookup of the id, null on a miss |
| HashRouter.FragmentShape | src/App.jsx:1300-1322 | the effect writes `#route/id` exactly for a detail route whose slot has a non-empty id, and `#route` otherwise |
| HashRouter.Fragment | src/App.jsx:1300-1318 | the written fragment always starts with `#` and the route's token |
| HashRouter.FragmentWithId | src/App.jsx:1305-1316 | each of the four detail cases writes `#<route>/<id>` |
| HashRouter.ParseFragment | src/App.jsx:1204-1322 | reading back a written fragment gives the route's token and the id, when the id holds no `/` |
| HashRouter.HashRouteOfFragment | src/App.jsx:1204-1322 | reading back a written fragment gives the route it was written for |
| HashRouter.FragmentFollowsDeps | src/App.jsx:1295-1322 | the written fragment depends only on the effect's watched values (the route and the four ids) |
| HashRouter.DepsOfWatches | src/App.jsx:1294-1298 | the effect's dependency array is the route and, for each slot, its entry's id exactly when the slot is filled |
| HashRouter.SyncedFragmentIsStable | src/App.jsx:1204-1322 | after an effect write and its re-sync, a second effect run writes the same fragment again or finds it already there |
| HashRouter.Render | src/App.jsx:1300-1322 | with unchanged watched values nothing happens; otherwise the address bar ends up showing the fragment of the final state |
| HashRouter.SyncIsCoherent | src/App.jsx:1204-1281 | syncing from any fragment establishes the invariant |
| HashRouter.RenderIsCoherent | src/App.jsx:1284-1322 | the render after a handler that leaves the state ready ends in a coherent state |
| HashRouter.HandlerIsReady | src/App.jsx:1324-1366 | a handler that moves to a detail or order page with an exclusive selection leaves the state ready to render |
| HashRouter.SetRouteIsReady | src/App.jsx:1522 | `setRoute(r)` on a coherent state leaves it ready to render |
| HashRouter.FragmentRoundTrip | src/App.jsx:1204-1322 | syncing from the fragment of a canonical state reproduces that state |
| HashRouter.RenderKeepsCanonical | src/App.jsx:1284-1322 | a canonical state survives the render, and the address bar then shows its fragment |
| HashRouter.OpenDetails | src/App.jsx:1324-1366 | an `open*Page` handler goes to the detail route of its kind, with only that slot filled; the variant is kept only by `openSolutionPage` |
| HashRouter.ClassifyOrderItem | src/App.jsx:1438-1458 | an item goes to the solution slot if its id is a solution's, else to services, else to equipment, else to solutions; never to the gas slot |
| HashRouter.StartOrder | src/App.jsx:1426-1465 | starting an order goes to the order page with only the item's slot filled and the variant `label \|\| null` |
| HashRouter.OpenDetailsSettles | src/App.jsx:1324-1366 | opening an entry of its own table survives the render, and the address bar shows `#<route>/<id>` |
| HashRouter.StartOrderSettles | src/App.jsx:1426-1465 | starting an order survives the render unchanged, whatever the item |
| HashRouter.NavigateToListClears | src/App.jsx:1212-1226 | after `setRoute` to a list page and its render, every selection is cleared and the variant kept |
| HashRouter.EquipmentDeepLink | src/App.jsx:1252-1260 | the fragment `#equipment-details/eq-cylinders` selects exactly the cylinders entry |
| Utils.Kept | src/lib/utils.js:4 | `filter(Boolean)` keeps exactly the truthy arguments' strings, none of them empty, and is empty exactly when no argument is truthy |
| Utils.KeptAppend | src/lib/utils.js:4 | the filter distributes over concatenation, so the kept strings stay in the arguments' order |
| Utils.ClassNames | src/lib/utils.js:3-5 | the class string is the kept arguments joined with single spaces, and is empty exactly when no argument is truthy |
| Utils.ClassNamesSplitsBack | src/lib/utils.js:3-5 | for space-free class names, splitting the result on spaces gives exactly the truthy arguments in order |
| Utils.IsValidPhone | src/lib/utils.js:11-19 | a missing or empty phone is invalid; otherwise it is valid exactly when it holds at least ten ASCII digits |
| Utils.NonDigitIrrelevant | src/lib/utils.js:15 | inserting a non-digit character never changes validity |
| Utils.ValidPhoneIsLong | src/lib/utils.js:11-19 | a valid phone has at least ten characters |
| Utils.SixDigitPhoneIsInvalid | src/lib/utils.js:17-18 | `"123456"` is not a valid phone |
| GasCalculator.LitersPerHour | src/components/common/GasConsumptionCalculator.jsx:12 | only a sign fact: a non-negative flow gives non-negative litres per hour; `MoreWeldingNeedsMoreGas` and `DefaultReading` tie the formula to the cylinder count |
| GasCalculator.TotalLitersMonth | src/components/common/GasConsumptionCalculator.jsx:12-13 | only sign facts: any zero input gives zero litres, and non-negative inputs a non-negative total; `MoreWeldingNeedsMoreGas` and `DefaultReading` are its partners |
| GasCalculator.Ceil | src/components/common/GasConsumptionCalculator.jsx:17 | `Math.ceil`: the least integer not below its argument |
| GasCalculator.Cylinders | src/components/common/GasConsumptionCalculator.jsx:14-17 | no cylinders for a non-positive total; otherwise the fewest 6 m³ cylinders that cover the total |
| GasCalculator.Coerce | src/components/common/GasConsumptionCalculator.jsx:50 | `Number(v) \|\| 0` is 0 for text that is not a signed decimal integer |
| GasCalculator.CoerceRoundTrip | src/components/common/GasConsumptionCalculator.jsx:50 | a number's decimal text, with or without a leading `-`, coerces back to that number |
| GasCalculator.NonNumericInputGivesNoCylinders | src/components/common/GasConsumptionCalculator.jsx:50-70 | a non-numeric field gives zero litres and zero cylinders |
| GasCalculator.TotalM3Text | src/components/common/GasConsumptionCalculator.jsx:79 | the display is `0.0` for non-positive totals and below 50 litres, and never `0.0` from 50 litres on |
| GasCalculator.CylindersMonotone | src/components/common/GasConsumptionCalculator.jsx:14-17 | a larger monthly total never needs fewer cylinders |
| GasCalculator.MoreWeldingNeedsMoreGas | src/components/common/GasConsumptionCalculator.jsx:12-17 | raising the flow, the hours per day or the days per month never lowers the monthly total nor the cylinder count |
| GasCalculator.DefaultReading | src/components/common/GasConsumptionCalculator.jsx:8-17 | the initial inputs 12 L/min, 4 h and 22 days read 63360 L, `63.4` m³ and 11 cylinders |
| SendTelegram.SendMessageCall | netlify/functions/send-telegram.js:36-46 | the upstream call carries the chat id, the text unchanged and Markdown parse mode |
| SendTelegram.AfterCall | netlify/functions/send-telegram.js:36-79 | 200 exactly when Telegram answered with an HTTP success and `ok`; otherwise 500; a rejection the code can read carries Telegram's reply, every exception (network failure, undecodable or `null` body) is the bare server error |
| SendTelegram.Handle | netlify/functions/send-telegram.js:3-79 | 405 exactly for a non-POST method; a body that is not JSON, or is `null`, gives 500 with the server error and no call; 400 exactly for a parsed body without text; the upstream call happens exactly when the text and both secrets are present; a missing secret gives 500 with the configuration error; once the call is made the reply is `AfterCall` of the upstream outcome: a failed `fetch` or an unreadable reply is 500 with the server error, an HTTP failure with a readable reply is 500 with the Telegram error and its data; 200 with `{ok: true}` exactly when Telegram said ok; no other statuses |
| SendTelegram.UpstreamRejectionCarriesData | netlify/functions/send-telegram.js:51-63 | a Telegram rejection is a 500 that carries Telegram's reply |
| OrderForm.ResetDraft | src/App.jsx:1418-1424 | `resetOrder` returns the draft to its initial values and keeps the region |
| OrderForm.NameOf | src/App.jsx:1381-1385 | `selected?.name \|\|`: present exactly for a filled slot whose name is non-empty, and then that name |
| OrderForm.TitleBase | src/App.jsx:1381-1386 | the title base is one of the selections' names, the gas first, and empty exactly when no selection has a name |
| OrderForm.ProductTitle | src/App.jsx:1387-1389 | the title starts with the base, and is longer exactly when the variant is truthy |
| OrderForm.TitleOfSingleSelection | src/App.jsx:1381-1389 | a single named selection gives `name — variant`, or `name` without a variant |
| OrderForm.ProductDesc | src/App.jsx:1391-1403 | a gas with a description is described by it; no selection gives an empty description |
| OrderForm.ItemsText | src/App.jsx:1393-1402 | absent items print nothing, a text prints as is, a one-element list prints its element, and a longer list is its elements with one separator between each two |
| OrderForm.DescOfSingleSelection | src/App.jsx:1391-1403 | with one entry selected, the description is a gas's own description, or the entry's items: a solution's or a service's list joined with ` • `, an equipment list with `,` |
| OrderForm.SkipOrderSteps | src/App.jsx:1406-1416 | the gas steps are skipped exactly when a non-gas selection is an entry of its own table |
| OrderForm.InOwnTable | src/App.jsx:1408-1413 | `isService`, `isEquipment`, `isSolution`: the slot is filled and its entry's id is found in that kind's own table |
| OrderForm.CanSubmit | src/App.jsx:1530-1532 | never with a phone shorter than six; when skipping, exactly a phone of six or more; otherwise all of cylinder, ownership, delivery and phone |
| OrderForm.GasOrderNeedsAllSteps | src/App.jsx:1530-1532 | a gas order (or no selection) needs cylinder, ownership, delivery and a six-character phone |
| OrderForm.ButtonChoicesUnlockGate | src/App.jsx:39-49 | every offered cylinder size, ownership and delivery label is truthy, so one choice of each and a six-character phone pass the gate |
| OrderForm.ResetDraftBlocksSubmit | src/App.jsx:1418-1424 | a freshly reset draft can never be submitted |
| OrderForm.StartedItemSkips | src/App.jsx:1406-1416 | an order started from a solution page skips the gas steps exactly when the item is in one of the three tables |
| OrderForm.ValidPhonePassesGate | src/App.jsx:1530-1532 | when the steps are skipped, a valid phone opens the gate |
| OrderForm.GateAcceptsInvalidPhone | src/App.jsx:1530-1532 | the gate accepts `"123456"`, which is not a valid phone |
| OrderForm.OrDash | src/App.jsx:1472 | `x \|\| "-"` is never empty and keeps a non-empty `x` |
| OrderForm.OptionOrDash | src/App.jsx:1475-1476 | `ownership \|\| "-"` and `delivery \|\| "-"`: a truthy label prints as is, anything else as `-` |
| OrderForm.CylinderText | src/App.jsx:1474 | `cylinder \|\| "-"`: an unset or zero size prints `-`; a chosen size prints as decimal digits that read back as the size |
| OrderForm.OrderLines | src/App.jsx:1470-1481 | ten lines, each starting with its label, the first being the bare header, and the phone line carrying the phone verbatim |
| OrderForm.OrderText | src/App.jsx:1470-1481 | only a sanity fact: the message text is never empty; `OrderTextSplitsIntoLines` is its inverse |
| OrderForm.MissingFieldsPrintDash | src/App.jsx:1472-1480 | empty optional fields print as `-` |
| OrderForm.MakePayload | src/App.jsx:1500-1510 | the payload's product is the title and its description the selection's description; the draft's fields and the timestamp are copied unchanged |
| OrderForm.OrderTextSplitsIntoLines | src/App.jsx:1470-1481 | with single-line fields, splitting the text on newlines gives back the ten lines |
| OrderForm.SendSucceeded | src/App.jsx:1483-1497 | the submission counts as sent exactly when a reply was read and its JSON says `ok: true` |
| OrderForm.SubmissionSucceedsIffDelivered | src/App.jsx:1468-1498 | the page reports success exactly when the relay reached Telegram and Telegram accepted the message |
| Application.App.constructor | src/App.jsx:1185-1201 | the initial state: home, no selection, closed menus and notice, an empty draft in the default region |
| Application.App.SyncFromHash | src/App.jsx:1204-1281 | the slot writes leave exactly the state `HashRouter.SyncFromHash` gives for the current fragment |
| Application.App.WriteHash | src/App.jsx:1318-1321 | the fragment is set to the canonical one, and `hashchange` fires exactly when it differed |
| Application.App.Render | src/App.jsx:1300-1322 | effect and re-sync rounds give exactly `HashRouter.Render`, and establish the invariant |
| Application.App.SyncAndRender | src/App.jsx:1284-1292 | the mount effect and the `hashchange` listener: sync, then render, ending coherent |
| Application.App.HashChanged | src/App.jsx:1289-1290 | a new fragment from the browser is synced and rendered, and the invariant is kept |
| Application.App.Navigate | src/App.jsx:1629 | `setRoute(r)` then render; a list page ends with no selection |
| Application.App.OpenPage | src/App.jsx:1324-1366 | the shared body of the four `open*Page` handlers, equal to `HashRouter.OpenDetails` followed by the render, with the menus closed |
| Application.App.OpenGasPage | src/App.jsx:1324-1333 | `openGasPage`, as `HashRouter.OpenDetails` for gases followed by the render |
| Application.App.OpenSolutionPage | src/App.jsx:1335-1344 | `openSolutionPage`, keeping `label \|\| null` as the variant |
| Application.App.OpenServicePage | src/App.jsx:1346-1355 | `openServicePage`, as `HashRouter.OpenDetails` for services followed by the render |
| Application.App.OpenEquipmentPage | src/App.jsx:1357-1366 | `openEquipmentPage`, as `HashRouter.OpenDetails` for equipment followed by the render |
| Application.App.ResetOrder | src/App.jsx:1418-1424 | the draft becomes `OrderForm.ResetDraft` of the old draft; the region is untouched |
| Application.App.BeginOrder | src/App.jsx:1426-1465 | the navigation part of both `startOrder*` handlers, equal to `HashRouter.StartOrder` followed by the render |
| Application.App.StartOrderFromGas | src/App.jsx:1426-1436 | the order page with only the gas selected, a reset draft, closed menus, kept through the render |
| Application.App.StartOrderFromSolution | src/App.jsx:1438-1465 | the order page with the item in the slot `ClassifyOrderItem` picks, a reset draft, closed menus, kept through the render |
| Application.App.SubmitOrder | src/App.jsx:1500-1528 | the posted text is `OrderForm.OrderText` of the current payload; the notice reports the outcome; on success the page goes home with no selection; on failure the page is unchanged; the draft is kept either way |
| Application.App.DismissNotice | src/App.jsx:1524-1527 | the scheduled callback closes the notice |

## Left out

- Application.App.constructor: the mount is modelled as `syncFromHash` followed by the render (`SyncAndRender`). In the code, the listener effect's `syncFromHash` only schedules its writes; the outbound effect then runs with the first render's values (home, no selection) and overwrites any other initial fragment with `#home`. That adds a history entry and fires a `hashchange` that races the re-render with the synced state. This overwrite and race are not modelled.
- Application.App.SubmitOrder: the submission is atomic in the model. In the code the request is asynchronous: navigation, draft edits or a second submission can happen while it is pending, and one submission's 4500 ms timer can close a later submission's notice.
- Application.App.SubmitOrder: the network round trip is a parameter (`None` when the request threw); the timestamp is a parameter, and the 4500 ms delay is left out (`DismissNotice` is the callback).
- The server-rendering guard `typeof window === "undefined"` is left out; the model always runs in a browser.
- Percent-encoding of the fragment and browser history entries are left out; the fragment is a plain string.
- The gas and solution tables (`src/data/gases.js`, `src/data/solutions.js`) are not part of this model. The tables are a parameter; `EQUIPMENT`, `SERVICES` and the default region are constants.
- Catalog entries' `variants`, `uses` and images are left out; they only feed the page's markup.
- OrderForm.ProductDesc: an equipment entry whose `items` is an empty array gets an empty description, which the message prints as `-`. In JavaScript the empty array is truthy, so that message line would be left empty. No equipment entry has list items.
- OrderForm.CanSubmit: JavaScript's `length` counts UTF-16 code units, the model counts characters; a phone with characters outside the Basic Multilingual Plane can pass the six-character test in the code with fewer characters.
- The form-field setters (`setCylinder`, `setPhone`, …) are single assignments of the fields and have no methods of their own.
- The menus' hover, positioning, outside-click and Escape handling, the mobile media query and all JSX markup are left out.
- `yandexMapUrl` is left out: it only percent-encodes an address into a URL.
- GasCalculator.Coerce: `Number` is modelled on signed decimal integers only. Decimals, exponents, hex and whitespace coerce to 0 in the model, and the model takes integer inputs only.
- GasCalculator.TotalM3Text: `toFixed(1)` is modelled as rounding half up on whole litres; binary floating-point ties and very large values are not modelled.
- The calculator's welding current input is read but never used in the arithmetic, so it is left out.
- SendTelegram.Handle: a `text` that is not a string is not modelled; response headers and console logging are left out; the secrets and the upstream reply are parameters.
