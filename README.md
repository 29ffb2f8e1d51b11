# Japan travel guide: the chat, map and catalog logic

This project is a Dafny model of the logic in a client-side Japan travel-guide
web application. Most of the application is presentation. The model keeps the
parts whose behaviour can be stated:

- **The language-model client** (`GeminiService`, gemini_service.dfy). It
  trims the conversation to its last ten messages and tags each one "user"
  or "model". It then reads the response. The reply text falls back to a
  fixed sentence when the response has no text. Each grounding chunk becomes
  a maps link, a web link, or nothing, and a missing title gets the default
  title for its kind. A failed call becomes a fixed apology with no links.
  The hosted service is not modelled: its response is an input of type
  `Option<RawResponse>`, and `None` stands for the `catch` branch. The
  chunk scan is a loop, proved equal to the function `LinksOf`. `LinksOf`
  is proved to keep chunk order, to drop nothing that yields a link, and
  to deduplicate nothing.
- **The chat session** (`Guide.ChatSession`, guide.dfy). The transcript
  starts with a welcome message and is only ever appended to. `handleSend`
  is split at its `await`. `BeginSend` rejects a blank input and any send
  made while a request is in flight. Otherwise it appends the user turn,
  clears the input box and sets the busy flag. `CompleteSend` appends the
  model turn and clears the busy flag. The class invariant says three
  things. The welcome message stays first. User and model turns alternate
  after it. The page is busy exactly while a user turn waits for its reply.
- **The map planner** (`MapPlanner.Planner`, map_planner.dfy). It stores a
  geolocation outcome: the coordinates plus an origin auto-filled with
  "My Location", or the localized "unknown" sentinel. It builds the nearby
  and route prompts. The route query is refused when a field is empty.
  A single result slot is cleared when a query starts, overwritten when
  it ends, and cleared on a tab switch.
- **The catalog filters** (`Events`, `Explore`). Events are filtered by a
  month selector and a case-insensitive search over name and location.
  Destinations are filtered by a category string, where `"all"` keeps
  everything. Both filters are `Array.prototype.filter`, modelled once in
  `Collections.Filter`. Its lemmas show that the result keeps catalog
  order, and that every value appears exactly as often as in the catalog
  when it passes and not at all when it fails.

Shared pieces: `Types` holds the records of types.ts. `Text` holds the
string operations the pages use: `includes`, ASCII `toLowerCase`, and
`trim` over the ECMAScript whitespace set. `Catalog` holds the data of
constants.ts that the logic reads.

Behaviour of the code worth knowing:

- `handleExplore` has no busy check, and its buttons are never disabled.
  `handleRoute` checks only that both fields are non-empty; the route busy
  check is only the button's `disabled` attribute. `BeginExplore` therefore
  always starts a query, and `BeginRoute` refuses only empty fields.
- Any non-empty stored reading replaces "My Location" in the route prompt,
  the "unknown" sentinel included (`RoutePromptKeepsSentinel`). A reading
  stored under one language is compared with the sentinel of the current
  language, so after a language switch the old sentinel passes `HasFix` and
  is sent as coordinates in the nearby prompt.
- The map page passes its language code ("en", "es", …) as the client's
  language. The chat page passes nothing, so the client's default
  "English" applies.
- `MapPlanner.Planner.Valid` (no result is shown while a query loads) is an
  invariant every planner operation keeps; no planner operation needs it
  in order to be correct.

## Model

| member | source | states |
|---|---|---|
| `Types.CategoryName` | types.ts:26 | every destination category is one of the four tags "culture", "nature", "food", "city" |
| `Catalog.UnknownLabel` | constants.ts:17-41 | each language has a localized "unknown location" sentinel, and none of them is empty |
| `Catalog.EventMonthsInRange` | constants.ts:103-174 | every shipped event has a month in 1..12 |
| `GeminiService.RecentHistory` | services/geminiService.ts:17-20 | the forwarded history is the last min(10, n) messages in their original order; each turn keeps its message's text and is tagged "user" exactly for user messages, "model" exactly for model messages |
| `GeminiService.RecentHistorySlides` | services/geminiService.ts:17 | one more message appends its turn to the window and, once ten are forwarded, drops the oldest turn |
| `GeminiService.LinkOf` | services/geminiService.ts:42-54 | a chunk with a maps uri yields a maps link with that uri, even when it also has a web uri; a chunk with only a web uri yields a web link; a chunk with neither yields nothing; a missing title becomes "View on Google Maps" or "Source"; every link has a non-empty uri and title |
| `GeminiService.LinksOf` | services/geminiService.ts:37-56 | there are never more links than chunks, and every link has a non-empty uri and title |
| `GeminiService.LinksOfAppend` | services/geminiService.ts:41-55 | extracting from two chunk lists joined is extracting from each and joining, so links keep chunk order and nothing is deduplicated |
| `GeminiService.LinksOfKeepsCited` | services/geminiService.ts:41-55 | the link of every chunk that yields one is among the results |
| `GeminiService.LinksOfEmptyIff` | services/geminiService.ts:40-56 | the link list is empty exactly when no chunk yields a link |
| `GeminiService.ChunksOf` | services/geminiService.ts:38 | chunks are read exactly when a first candidate exists and it has metadata with a chunk list, and then they are that candidate's chunk list |
| `GeminiService.ReplyOf` | services/geminiService.ts:33-65 | the reply text is never empty; a failure gives the fixed apology and no links; otherwise the text is the response's text, or "I'm sorry, I couldn't generate a response." when that is empty; without chunks there are no links, and with chunks the links are those of the chunks |
| `GeminiService.SendMessageToGemini` | services/geminiService.ts:9-67 | the request names gemini-2.5-flash, turns maps grounding on, carries the caller's language, the trimmed history and the new message; the loop over the chunks computes exactly `ReplyOf(response)` |
| `GeminiService.CitationExample` | services/geminiService.ts:41-55 | an untitled maps chunk, a titled web chunk and an empty chunk give a default-titled maps link, then the web link; the empty chunk is dropped |
| `Text.Contains` | pages/Events.tsx:26-27 | `includes`: the empty string occurs in every string, and nothing longer than the string occurs in it |
| `Text.Lower` | pages/Events.tsx:26-27 | `toLowerCase` keeps the length and maps each ASCII capital to its small letter, leaving every other character |
| `Text.Trim` | pages/Guide.tsx:30 | `input.trim()` is empty exactly when the input consists of whitespace only; otherwise it is a piece of the input with whitespace at neither end |
| `Collections.Filter` | pages/Events.tsx:24 | `Array.prototype.filter`: never longer than the list; every kept element is in the list and passes the test; every element that passes is kept |
| `Guide.ChatSession.constructor` | pages/Guide.tsx:9-18 | the transcript starts as exactly the welcome message (id "welcome", role model, no links), with an empty input box and no request in flight |
| `Guide.ChatSession.SetInput` | pages/Guide.tsx:157 | typing replaces the input and changes nothing else |
| `Guide.ChatSession.BeginSend` | pages/Guide.tsx:29-45 | a blank input or a busy page changes nothing and sends nothing; otherwise one user message with the untrimmed input is appended, the input is cleared, the page turns busy, and the client gets the previous transcript plus the new message, the message's text and the default language |
| `Guide.ChatSession.CompleteSend` | pages/Guide.tsx:47-56 | one model message carrying the reply text and links is appended, the page stops being busy, the input is kept, and welcome-first plus alternating roles still hold |
| `Guide.ChatSession.HandleSend` | pages/Guide.tsx:29-57 | an accepted send grows the transcript by exactly the user and model turns, leaves the earlier messages (the welcome message included) unchanged, and forwards the trimmed transcript ending in the user turn; a rejected send changes nothing |
| `Guide.FirstExchangeIncludesWelcome` | pages/Guide.tsx:45 | the first exchange forwards the welcome message as a model turn, followed by the user's turn |
| `MapPlanner.NearbyFixPrompt` | pages/MapPlanner.tsx:55 | the prompt for a stored position names both the coordinates and the category |
| `MapPlanner.NearbyDefaultPrompt` | pages/MapPlanner.tsx:57 | the prompt without a position starts with the Tokyo default and names the category |
| `MapPlanner.NearbyPrompt` | pages/MapPlanner.tsx:53-58 | the nearby prompt always names the category; with a stored position other than the unknown sentinel it names the coordinates, and otherwise it is the Tokyo-default prompt |
| `MapPlanner.NearbyPromptWithoutFix` | pages/MapPlanner.tsx:54-57 | without a real position, the prompt is the same whether nothing, an empty string or the sentinel is stored |
| `MapPlanner.RoutePrompt` | pages/MapPlanner.tsx:70 | the route prompt starts with its fixed opening; right after it comes the stored reading when the origin is "My Location" and a non-empty reading is stored, and the origin as typed otherwise; the prompt names the destination |
| `MapPlanner.RoutePromptUsesReadingOnlyForMyLocation` | pages/MapPlanner.tsx:70 | for any origin other than "My Location" the stored reading does not change the prompt; "My Location" with a non-empty reading gives the prompt of that reading typed as the origin |
| `MapPlanner.RouteFromMyLocation` | pages/MapPlanner.tsx:70 | from "My Location" with a stored position "35.6812, 139.7671" to "Kyoto Station", the prompt contains the coordinates and the destination and does not contain "My Location" |
| `MapPlanner.RoutePromptKeepsSentinel` | pages/MapPlanner.tsx:70 | with origin "My Location" and the unknown sentinel stored, the sentinel stands where the origin goes |
| `MapPlanner.Planner.constructor` | pages/MapPlanner.tsx:13-23 | the page opens on the nearby tab with no position, empty fields, no result and nothing loading |
| `MapPlanner.Planner.SetOrigin` | pages/MapPlanner.tsx:171 | typing sets the origin |
| `MapPlanner.Planner.SetDestination` | pages/MapPlanner.tsx:186 | typing sets the destination |
| `MapPlanner.Planner.Locate` | pages/MapPlanner.tsx:27-46 | the page turns to locating; without geolocation, the unknown sentinel is stored at once and locating stops |
| `MapPlanner.Planner.OnPosition` | pages/MapPlanner.tsx:31-35 | on success the coordinates are stored, the origin becomes "My Location" and locating stops |
| `MapPlanner.Planner.OnPositionError` | pages/MapPlanner.tsx:37-41 | on error the localized sentinel is stored, the origin is untouched, and locating stops |
| `MapPlanner.Planner.SelectTab` | pages/MapPlanner.tsx:113-122 | switching tabs sets the tab and clears the result |
| `MapPlanner.Planner.BeginExplore` | pages/MapPlanner.tsx:49-60 | the page turns busy and the result is cleared; the client gets an empty history, the nearby prompt and the page's language |
| `MapPlanner.Planner.BeginRoute` | pages/MapPlanner.tsx:65-72 | with an empty origin or destination nothing changes and nothing is sent; otherwise the page turns busy, the result is cleared, and the client gets an empty history, the route prompt and the page's language |
| `MapPlanner.Planner.CompleteQuery` | pages/MapPlanner.tsx:61-74 | the reply's text and links overwrite the result slot and loading stops; no result is shown while loading |
| `Events.MonthsAreCalendarMonths` | pages/Events.tsx:17-22 | the selectable months are exactly 1..12, in order |
| `Events.FilteredEvents` | pages/Events.tsx:24-29 | every shown event is a catalog event that matches the month (or "all") and whose lowercased name or location contains the lowercased term; every such event is shown |
| `Events.FilteredEventsInOrder` | pages/Events.tsx:24 | the shown events are a subsequence of the catalog, and each appears as often as the catalog lists it when it matches, and never otherwise |
| `Events.EmptySearchShowsAll` | pages/Events.tsx:25-27 | "all" months with an empty search shows the whole catalog |
| `Events.EmptySearchFiltersByMonthOnly` | pages/Events.tsx:24-29 | with an empty search only the month selector narrows the list |
| `Events.SearchIgnoresCase` | pages/Events.tsx:26-27 | lowercasing the search term does not change the result |
| `Events.NoEventsNoticeIff` | pages/Events.tsx:115 | "No events found" shows exactly when no event matches both tests |
| `Explore.CategoriesNameTheUnion` | pages/Explore.tsx:8 | the first option is "all"; every other option names a category of the union, and every category has an option |
| `Explore.FilteredDestinations` | pages/Explore.tsx:10-12 | "all" returns the list unchanged; any other filter returns only destinations of that category and omits none of them |
| `Explore.FilteredDestinationsInOrder` | pages/Explore.tsx:12 | the filtered list is a subsequence of the catalog, and each destination of the category appears exactly as often as in the catalog |
| `Explore.UnknownFilterShowsNothing` | pages/Explore.tsx:12 | a filter that names no category shows nothing |
| `Explore.NoDestinationsNoticeIff` | pages/Explore.tsx:48 | the empty-state message shows exactly when no destination has the category (for "all", only when the catalog is empty) |
| `Explore.EveryCategoryInhabited` | pages/Explore.tsx:8-12 | with the shipped catalog, the button of every category shows at least one destination |

## Left out

- The hosted language-model call, the SDK client and the API key are not
  modelled. The response is an input, and `None` stands for any exception.
- `SendMessageToGemini` always returns the request it builds. A failure that
  happens before the request exists is covered only by its reply.
- The wording of the system instruction (constants.ts:176-185) is not
  modelled. The request records only the language it is built from.
- Browser geolocation and the `toFixed(4)` coordinate formatting are not
  modelled. The coordinate string is an opaque input to `OnPosition`, and
  the presence of the capability is the `hasGeolocation` input to `Locate`.
- Clock readings from `Date.now()` are parameters: message ids, timestamps
  and the welcome time. No claim is made that ids are unique, because the
  source does not guarantee it.
- `Text.Lower` lowercases only ASCII letters. Unicode case mapping is not
  modelled.
- Asynchronous interleaving is not modelled. Each handler is a begin step
  and a complete step, run in sequence. `Guide.ChatSession.CompleteSend`
  requires a request in flight, because its continuation exists only after
  an accepted `BeginSend`. On the map page, overlapping queries are possible
  in the source (explore has no busy check), so no "one request in flight"
  property is claimed there.
- Rendering, styling, scrolling, navigation and the home page are not
  modelled: components/, pages/Home.tsx, App.tsx and `scrollToBottom`. The
  "Updated" button label and the `disabled` attributes are rendering too.
- Error logging is not modelled: the `console.error` calls in the client's
  `catch` (services/geminiService.ts:61) and in the geolocation error
  callback (pages/MapPlanner.tsx:38) write to the console only.
- Translation tables other than the "unknown" sentinel are not modelled.
  The description and image fields of the catalogs are not modelled either.
