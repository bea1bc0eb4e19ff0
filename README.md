# CrCast deck source — a verified model

This project models the CrCast deck source of the Massive Decks server
(`server/src/ts/games/cards/sources/crcast.ts`). Given a deck code, the
source borrows a connection from a shared pool. It asks the CrCast service
for the deck (`cc/decks/{deckCode}`) and then for its cards
(`cc/decks/{deckCode}/cards`), and decodes each body. A body may be a
structured document or JSON5 text. The source then builds a deck summary and
the deck's call and response cards. A failure is classified as
`SourceNotFoundError` (HTTP 404), `SourceServiceError` (any other HTTP
error), or rethrown unchanged (no `response` property). The connection goes
back to the pool on every path.

Modules, one per concern:

- `Wrappers` (`wrappers.dfy`): `Option` and `Result`.
- `Trimming` (`trimming.dfy`): JavaScript's `String.prototype.trim`, with the
  exact set of whitespace code points it strips.
- `Sources` (`sources.dfy`): the host's external source reference.
- `Cards` (`cards.dfy`): the host's card model (parts, calls, responses,
  templates) and the card-id generator.
- `CallShape` (`call_shape.dfy`): what a call's line of parts is.
  `CallParts(fragments)` is `Interleave(TrimAll(fragments))`: the trimmed
  fragments with a space and a slot between each pair.
- `Upstream` (`upstream.dfy`): what a request can come back with.
- `Pool` (`pool.dfy`): the connection pool as a class. It keeps lent and idle
  connections, acquisition and release counts, and a log of requests.
- `CrCast` (`crcast.dfy`): the `Resolver` class. `CallCard` (the source's
  `call`) runs its push/pop loop; `ResponseCard` is its `response`.
  `SummaryAndTemplates` runs the acquire / try / catch / finally sequence.
  `Resolution` is the pure specification it is proved against.

The two requests are parameters (`Replies`): the service's answer to each
request is given, not fetched. The JSON5 parser is also abstracted: a text
body carries the parser's outcome with it (`Body.Serialized`). Card ids come
from `Cards.CardIds`, a counter that stands for the host's `Card.id()`.

Two behaviours of the code that the model keeps as written:

- A body that fails to parse is rethrown unchanged, not reported as a
  service error. The parser's error has no `response` property
  (`RethrownUnchanged`).
- A response card whose upstream text array is empty gets `undefined` text,
  modelled as `None`.

## Model

| member | source | states |
|---|---|---|
| `CrCast.Resolver.CallCard` | server/src/ts/games/cards/sources/crcast.ts:117-131 | the push/pop loop yields exactly one line, `CallParts(text)`, with the given id and this resolver's source |
| `CallShape.CallParts` | server/src/ts/games/cards/sources/crcast.ts:118-125 | a call with n fragments has 3n−2 parts (none for no fragments); it starts with the first fragment trimmed and ends with the last fragment trimmed |
| `CallShape.Pop` | server/src/ts/games/cards/sources/crcast.ts:124-125 | `pop` drops the last part of a non-empty array, and leaves an empty one empty |
| `CallShape.InterleaveAt` | server/src/ts/games/cards/sources/crcast.ts:118-125 | for every fragment but the last, part 3k is fragment k, part 3k+1 is `" "` and part 3k+2 is a slot |
| `CallShape.Interleave` | server/src/ts/games/cards/sources/crcast.ts:120-125 | the line has 3n−2 parts for n ≥ 1 fragments and none for n = 0 (the two pops on an empty array do nothing) |
| `CallShape.InterleaveEnds` | server/src/ts/games/cards/sources/crcast.ts:120-125 | the line is empty iff there are no fragments; otherwise it starts with the first fragment and ends with the last, never with a space or a slot |
| `CallShape.SlotCount` | server/src/ts/games/cards/sources/crcast.ts:119-125 | n ≥ 1 fragments give exactly n−1 slots; no fragments give none |
| `CallShape.InterleaveSnoc` | server/src/ts/games/cards/sources/crcast.ts:120-123 | one more fragment adds a space, a slot and that fragment at the end |
| `CallShape.RenderInterleave` | server/src/ts/games/cards/sources/crcast.ts:119-125 | read with each slot shown as a blank, the line is the fragments joined by a space and the blank: a slot between every pair, none elsewhere |
| `CallShape.ThreeFragments` | server/src/ts/games/cards/sources/crcast.ts:117-131 | `["A","B","C"]` gives `A`, `" "`, slot, `B`, `" "`, slot, `C` |
| `Trimming.TrimStartIsSuffix` | server/src/ts/games/cards/sources/crcast.ts:121 | stripping the start leaves the suffix after the leading whitespace, which starts with a non-whitespace character |
| `Trimming.TrimEndIsPrefix` | server/src/ts/games/cards/sources/crcast.ts:121 | stripping the end leaves the prefix before the trailing whitespace, which ends with a non-whitespace character |
| `Trimming.Trim` | server/src/ts/games/cards/sources/crcast.ts:121 | `trim` never lengthens a string, and leaves no whitespace at either end |
| `Trimming.TrimIsInfix` | server/src/ts/games/cards/sources/crcast.ts:121 | `trim` keeps an infix, removes only whitespace, and leaves no whitespace at either end |
| `Trimming.TrimOfPadded` | server/src/ts/games/cards/sources/crcast.ts:121 | any whitespace around a trimmed core trims back to exactly that core |
| `Trimming.TrimIdempotent` | server/src/ts/games/cards/sources/crcast.ts:121 | trimming twice is trimming once |
| `Trimming.TrimOfTrimmed` | server/src/ts/games/cards/sources/crcast.ts:121 | a string with no whitespace at its ends is unchanged by `trim` |
| `CrCast.Resolver.ResponseCard` | server/src/ts/games/cards/sources/crcast.ts:133-137 | the response text is the first upstream text element verbatim (`undefined` when there is none); the source is this resolver's |
| `CrCast.Resolver.ResponseVersusSingleFragmentCall` | server/src/ts/games/cards/sources/crcast.ts:117-137 | a response keeps its text untrimmed; a one-fragment call trims it; the two agree iff the text is already trimmed |
| `CrCast.Resolver.DeckId` | server/src/ts/games/cards/sources/crcast.ts:43-45 | the deck id is the deck code, the key `equals` accepts for a CrCast reference |
| `CrCast.Resolver.Id` | server/src/ts/games/cards/sources/crcast.ts:39-41 | the id is the kind tag that this resolver's own references carry |
| `CrCast.Resolver.LoadingDetails` | server/src/ts/games/cards/sources/crcast.ts:47-51 | the loading details have no URL, and their name is the id, a space and the deck id |
| `CrCast.Resolver.Equals` | server/src/ts/games/cards/sources/crcast.ts:53-57 | `equals` holds iff the other reference is `CrCast` with this deck code |
| `CrCast.Resolver.EqualsIffSameDeck` | server/src/ts/games/cards/sources/crcast.ts:53-57 | `equals` holds exactly for this resolver's own reference, so it is reflexive |
| `CrCast.Resolver.EqualsRejectsOtherKind` | server/src/ts/games/cards/sources/crcast.ts:53-57 | a reference of another kind is rejected even with the same deck code; retagged as CrCast it is accepted iff the deck codes match |
| `CrCast.LoadingDetailsIdentify` | server/src/ts/games/cards/sources/crcast.ts:47-51 | the loading details have no URL; two resolvers have the same loading name (`"CrCast " + deckCode`) iff their deck ids are equal |
| `CrCast.Resolver.Classify` | server/src/ts/games/cards/sources/crcast.ts:100-111 | not found iff an HTTP error with response status 404; service error iff an HTTP error otherwise, including an undefined response; anything else is rethrown unchanged |
| `CrCast.Decode` | server/src/ts/games/cards/sources/crcast.ts:82-84 | a structured body is used as it is; a text body decodes iff it parses, to the parsed document; a parse failure is an error with no `response` |
| `CrCast.Resolver.SummaryOf` | server/src/ts/games/cards/sources/crcast.ts:85-92 | the summary names the deck, its URL is `baseUrl + "decks/" + deckCode` (so it differs from the loading details), and it counts the upstream calls and responses |
| `CrCast.Resolver.TryBlock` | server/src/ts/games/cards/sources/crcast.ts:76-99 | the `try` block succeeds iff both requests replied and both bodies decode; a failed deck request, or else a failed cards request, is its error; on success the counts are the decoded array lengths |
| `CrCast.Resolver.Resolution` | server/src/ts/games/cards/sources/crcast.ts:76-111 | a resolution succeeds exactly when the `try` block does, with its value; not-found and service errors name this source; only errors with no `response` are rethrown |
| `CrCast.DecodeFailureIsPlain` | server/src/ts/games/cards/sources/crcast.ts:82-84 | a structured body is used as it is; a decode failure never carries a `response` |
| `CrCast.Resolver.FetchFailureClassified` | server/src/ts/games/cards/sources/crcast.ts:75-111 | a failed deck request ends the resolution with its error classified; so does a failed cards request after a successful deck request |
| `CrCast.Resolver.NotFoundIff` | server/src/ts/games/cards/sources/crcast.ts:76-108 | the resolution fails with `SourceNotFound` iff the deck request, or else the cards request, was answered with 404 |
| `CrCast.Resolver.ServiceErrorIff` | server/src/ts/games/cards/sources/crcast.ts:76-108 | the resolution fails with `SourceServiceError` iff the first failed request threw an HTTP error that is not a 404 |
| `CrCast.Resolver.RethrownUnchanged` | server/src/ts/games/cards/sources/crcast.ts:82-111 | only errors without a `response` are rethrown, and exactly as thrown; a deck body that does not parse, or else a cards body that does not parse, is rethrown with the parser's error |
| `CrCast.Resolver.ResolvedFromReplies` | server/src/ts/games/cards/sources/crcast.ts:85-98 | with both bodies decoded, the result is the summary and templates; the name is the deck's; the URL is `baseUrl + "decks/" + deckCode`; the counts are the upstream array lengths |
| `CrCast.Resolver.TemplatesOf` | server/src/ts/games/cards/sources/crcast.ts:95-98 | the `templates` object: the set of call cards and the set of response cards, each with exactly one member per upstream card |
| `CrCast.Resolver.TemplateCounts` | server/src/ts/games/cards/sources/crcast.ts:85-98 | the call and response sets hold as many cards as the summary counts: one template per upstream card |
| `CrCast.Resolver.TemplatesHoldCall` | server/src/ts/games/cards/sources/crcast.ts:96 | the call card of every upstream call, with its fragments shaped and its own id, is among the templates |
| `CrCast.Resolver.TemplatesHoldResponse` | server/src/ts/games/cards/sources/crcast.ts:97 | the response card of every upstream response is among the templates |
| `CrCast.Resolver.CallTemplatesAreLines` | server/src/ts/games/cards/sources/crcast.ts:126-130 | every call template has exactly one line, this resolver's source, and comes from an upstream call |
| `CrCast.Resolver.CallIdInRange` | server/src/ts/games/cards/sources/crcast.ts:96 | the call templates have the ids from `first` up to one per upstream call |
| `CrCast.Resolver.ResponseIdInRange` | server/src/ts/games/cards/sources/crcast.ts:97 | the response templates have the ids from `first` up to one per upstream response |
| `CrCast.Resolver.TemplateIdsDisjoint` | server/src/ts/games/cards/sources/crcast.ts:93-98 | call ids come before response ids within the ids drawn, so no call shares an id with a response |
| `CrCast.Resolver.CallTemplates` | server/src/ts/games/cards/sources/crcast.ts:96 | mapping `call` over the upstream calls gives `CallsOf`: their call cards in order, card k with id `first + k`, and advances the id counter by one per card |
| `CrCast.Resolver.ResponseTemplates` | server/src/ts/games/cards/sources/crcast.ts:97 | mapping `response` over the upstream responses gives `ResponsesOf`: their response cards in order, card k with id `first + k`, and advances the id counter by one per card |
| `CrCast.Resolver.FetchAndTransform` | server/src/ts/games/cards/sources/crcast.ts:76-99 | the `try` block: its outcome is `TryBlock`; it GETs `cc/decks/{deckCode}` and then, only if that replied, `cc/decks/{deckCode}/cards`, both over the borrowed connection; it draws one id per card on success |
| `CrCast.Resolver.SummaryAndTemplates` | server/src/ts/games/cards/sources/crcast.ts:71-115 | the result is `Resolution`. One connection that no one holds is acquired and released exactly once: the lent set is as before, and that connection is idle again afterwards. The connection is an idle one if there was one, so the idle set and the created count are then unchanged; otherwise it is newly created and stays idle. The request log gains `cc/decks/{deckCode}` and then, only if that replied, `cc/decks/{deckCode}/cards`, on that connection |
| `Pool.ConnectionPool.Acquire` | server/src/ts/games/cards/sources/crcast.ts:75 | lends a connection no one holds (an idle one, else a new one) and counts the acquisition |
| `Pool.ConnectionPool.Release` | server/src/ts/games/cards/sources/crcast.ts:113 | takes back a lent connection, makes it idle and counts the release; a connection not lent cannot be released |
| `Pool.ConnectionPool.Get` | server/src/ts/games/cards/sources/crcast.ts:77-81 | a request goes only over a borrowed connection and is logged with it |
| `Cards.DistinctSetSize` | server/src/ts/games/cards/sources/crcast.ts:96-97 | a set built from pairwise different cards has one member per card |
| `Cards.CardIds.Fresh` | server/src/ts/games/cards/sources/crcast.ts:127 | each id handed out is new: the counter moves past it |

## Left out

- HTTP through axios: base URL, timeout and `responseType`. Each request's answer is a parameter, so the model does not check the timeout or transport errors. `Config` keeps only `baseUrl`; the timeout and the connection limit are not part of this model.
- Pool.ConnectionPool.Acquire: never waits. generic-pool's `max` bound, its queue of waiting borrowers and its no-op `destroy` are outside this model; only one resolution's acquire/release discipline is modelled.
- JSON5 lenient parsing. A text body carries its parse outcome, so the parser's grammar is not modelled.
- Decoded documents of the wrong shape (`null`, a missing `calls` array, a non-string fragment) are not modelled. In the source they raise a `TypeError` without a `response`, which would be rethrown.
- A thrown `null` or `undefined` is not modelled. `hasOwnProperty.call` would itself throw on it.
- `Card.id()` is modelled as a counter. The real generator's format is not part of this model; only its freshness is used.
- `MetaResolver` (`cache`, `clientInfo`, `resolver`, `limitedResolver`) and `load` only pass fields along and are not modelled.
- `getTag`, `atLeastSummary` and `atLeastTemplates` are promise wrappers and are not modelled. The `async` suspension points are not modelled either, so interleavings of concurrent resolutions are out of scope.
- `new Set(...)` in JavaScript collects objects by identity; the model uses sets of values. They agree here because every card gets a distinct id (`TemplateCounts`).
- JavaScript strings are UTF-16 code units; the model's strings are sequences of Unicode scalar values.
