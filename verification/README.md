# Feed assembly of The Porch API, modelled in Dafny

This project models the feature data source of The Porch church app's API: the functions
that build the card lists shown on the home screen and in other feeds. It also models the
live-stream source that shapes the streaming API's records for those feeds. Everything is
pure functions over immutable datatypes. Adapter fetches are inputs, and the clock is an
explicit `Clock` value.

Modules:

- `Common`: `Option` stands for `undefined`. `Result` and `JsError` stand for a thrown
  `TypeError`. `Truthy` and `Or` give JavaScript's truthiness and `||` on optional strings.
- `JsString`, `JsArray`: the parts of `indexOf`, `split`, `${n}` and `Array.prototype.slice`
  that the source relies on. Negative slice bounds are included.
- `Content`: the data model. It has messages, blogs, series, campus items, CMS entries,
  live streams, the `Node` union behind `relatedNode`, and `Card` (a `CardListItem`).
  `createGlobalId` is the free constructor `GlobalId`, so it is injective.
- `LiveStreamSource`: `getMediaUrl`, `getWebviewUrl` and the mapping inside
  `getLiveStreams`. For `getWebviewUrl` this includes the exact leftmost, lazy match of
  `/src="(.*?)"/`, where `.` does not match line terminators.
- `Features`: `getSpotifyEmbed`, `getFromId`, `createFeatureId` and the speaker and
  webview feature creators.
- `Feeds`: `mediaSeries`, `mediaMessages`, `userFeedAlgorithm`, `campusItemsAlgorithm`,
  `connectScreenAlgorithm` and the `CardListItem.hasAction` resolver.
- `Campaign`: `campaignItemsAlgorithm`. It has the three stages, the early returns and the
  final `slice`.

Where the code and the intended design differ, the model follows the code:

- **Stream choice.** The intended design picks the first stream that has a message. The
  code calls `streams.find` with an async callback, and a promise is always truthy, so
  it picks the head of the list (`Campaign.ChosenStream`).
- **Missing message.** `getLiveStreams` never sets `contentItem`. So whenever the
  live-stream source returns at least one stream, stage 1 reads `date` of `undefined`
  and the whole campaign feed throws (`Campaign.LiveStreamsBreakCampaign`).
- **No stage isolation.** Errors are not caught per stage. A `TypeError` in any stage
  ends the whole feed.
- **Card ids can repeat.** Ids are `${item.id}${index}`, and each source numbers its
  items from 0. So a blog and a message with the same id get the same card id in the
  user feed (`Feeds.UserFeedIdsCanCollide`). Ids also collide within one source, because
  the concatenation has no separator: item "1" at position 11 and item "11" at position 1
  both give "111" (`Content.CardIdsCollideAcrossItems`).
- **`hasAction` uses `catch`.** The resolver catches the type resolver's exception and
  returns `false`. It returns `undefined` for a resolved type other than `WCCMessage`.
- **Day and label use different zones.** The stage-1 "is today" tests use the server's
  local day (`startOfDay`). The labels use America/Chicago (`weekdayOf`, `hourOf`).
- **Early returns.** They are equivalent to slicing the full candidate list only when
  `skip` and `limit` are non-negative (`Campaign.NegativeLimitEarlyExit`).
- **A message can appear twice.** Only the stream is guarded against being shown twice.
  The stage-1 message can reappear in stage 2 when the stream is today but the message
  is older (`Campaign.MessageCanRepeat`).

## Model

| member | source | states |
|---|---|---|
| JsString.Split | apollos-church-api/src/data/wcc-features/index.js:9-11 | `split` with a non-empty separator: joining the pieces gives the string back, no piece contains the separator, the first piece is the text before the first separator, and there is one piece exactly when the separator is absent |
| JsArray.SliceOfPrefix | apollos-church-api/src/data/wcc-features/index.js:156-159 | appending to a list that already holds `skip + limit` items does not change `slice(skip, skip + limit)` |
| Content.CardIdSeparatesPositions | apollos-church-api/src/data/wcc-features/index.js:99 | the same item id at two different positions yields two different global ids |
| Content.CardIdsCollideAcrossItems | apollos-church-api/src/data/wcc-features/index.js:99 | two different items can still share a card id: item "1" at position 11 and item "11" at position 1 |
| Features.SpotifyEmbed | apollos-church-api/src/data/wcc-features/index.js:8-14 | null exactly when no `playlist/` occurs or nothing lies between the first one and the next; otherwise the embed prefix followed by that segment cut at its first `?`, with no `?` after the prefix |
| Features.CreateWebviewFeature | apollos-church-api/src/data/wcc-features/index.js:49-55 | throws exactly when `external_playlist` is missing; otherwise titled "Setlist", id typed `WebviewFeature`, and its URL is `getSpotifyEmbed(external_playlist)`, present exactly when the link names a playlist |
| Features.CreateSpeakerFeature | apollos-church-api/src/data/wcc-features/index.js:43-47 | keeps the name; the id is the speaker id typed `SpeakerFeature` (what this lets a caller do is stated by `Features.CreatedFeaturesDispatch`) |
| Features.CreatedFeaturesDispatch | apollos-church-api/src/data/wcc-features/index.js:26-55 | dispatching a created speaker or webview feature's raw local id as the argument text, under its type followed by `:`, calls that same feature's creator, and throws exactly when `JSON.parse` rejects the local id or gives `null` |
| Features.CreateFeatureId | apollos-church-api/src/data/wcc-features/index.js:36-41 | the id's arguments are the caller's arguments plus the context campus when there is one; an explicit `campusId` argument wins |
| Features.CreatorFor | apollos-church-api/src/data/wcc-features/index.js:29 | the method `create<Type>` exists exactly for the four own feature types and the inherited names; each own type finds its own creator, ahead of an inherited one of the same name |
| Features.GetFromId | apollos-church-api/src/data/wcc-features/index.js:26-34 | a `SyntaxError` exactly when the argument text is not JSON; then a throw exactly when no `create<Type>` exists for the text before the first `:`; then a throw exactly when the arguments parse to `null`; otherwise calls that creator with the parsed arguments, a truthy `campusId` argument installed in the context and the context otherwise unchanged |
| Features.FeatureIdCarriesCampus | apollos-church-api/src/data/wcc-features/index.js:26-41 | dispatching a feature id made in a campus-scoped request, with `JSON.parse` reading back what `JSON.stringify` wrote, restores that request's campus in any other request |
| Feeds.MediaSeries | apollos-church-api/src/data/wcc-features/index.js:69-86 | throws exactly when no `seriesId` is given; no cards exactly when the lookup finds no series; otherwise one card labelled "Series" whose summary is the series subtitle |
| Feeds.MediaMessagesQuery | apollos-church-api/src/data/wcc-features/index.js:88-96 | asks for `limit` messages (3 by default), with the caller's filters and a `the_porch` target unless the caller names one |
| Feeds.MediaMessages | apollos-church-api/src/data/wcc-features/index.js:98-106 | one unlabelled card per message, in order, each id built from the message id and its position |
| Feeds.UserFeed | apollos-church-api/src/data/wcc-features/index.js:224-263 | throws exactly when a message has no series; otherwise all blog cards ("From the Blog") then all message cards (series title), in source order, length the sum of both pages |
| Feeds.UserFeedIdsCanCollide | apollos-church-api/src/data/wcc-features/index.js:236-254 | a blog and a message sharing an id get the same card id |
| Feeds.UserFeedActions | apollos-church-api/src/data/wcc-features/index.js:345-353 | in the user feed, `hasAction` resolves to true exactly for the message cards |
| Feeds.UserFeedMessagesAreMediaMessages | apollos-church-api/src/data/wcc-features/index.js:246-254 | each message card of the user feed is the `mediaMessages` card of the same page at the same position, labelled with its series title |
| Feeds.MediaMessagesActions | apollos-church-api/src/data/wcc-features/index.js:345-353 | every `mediaMessages` card resolves `hasAction` to true |
| Feeds.SeriesAndCampusActions | apollos-church-api/src/data/wcc-features/index.js:345-353 | the series card and every campus card leave `hasAction` undefined |
| Feeds.ConnectScreenActions | apollos-church-api/src/data/wcc-features/index.js:345-353 | a connect-screen card resolves `hasAction` to true exactly when its start-cased type is `WCCMessage`, never to false |
| Feeds.CampusItems | apollos-church-api/src/data/wcc-features/index.js:265-294 | empty without a truthy campus id; otherwise one card per item in order, subtitled with its content channel name |
| Feeds.ConnectScreen | apollos-church-api/src/data/wcc-features/index.js:296-317 | one card per list item; action `OPEN_URL` exactly when the start-cased type is `Link`; no image exactly when `mediaUrl` is falsy; the related node's id is `sys.id` |
| Feeds.HasAction | apollos-church-api/src/data/wcc-features/index.js:345-353 | an explicit `hasAction` wins; otherwise true exactly when the node resolves to `WCCMessage`, false exactly when type resolution throws |
| LiveStreamSource.MediaUrl | apollos-church-api/src/data/livestream/index.js:12-18 | the current event's stream URL when truthy, else the next event's when truthy, else null |
| LiveStreamSource.CurrentEventFirst | apollos-church-api/src/data/livestream/index.js:12-27 | when the current event has a stream URL (embed code), the next event does not affect the media (webview) URL; when it has none, only the next event counts |
| LiveStreamSource.ClosingQuote | apollos-church-api/src/data/livestream/index.js:24 | finds the first quote after a position that comes before any line terminator, or reports that none exists |
| LiveStreamSource.MatchFrom | apollos-church-api/src/data/livestream/index.js:24 | the leftmost `src="` that has a closing quote, with its nearest closing quote; none when no `src="` is closed |
| LiveStreamSource.SrcValue | apollos-church-api/src/data/livestream/index.js:24 | `exec(...)[1]`: the shortest text inside the first closed `src="…"`, and null exactly when there is none |
| LiveStreamSource.WebviewUrl | apollos-church-api/src/data/livestream/index.js:20-27 | null when neither event has an embed code; throws when the chosen embed code (current before next) has no `src="…"`; otherwise its `src` value |
| LiveStreamSource.ToLiveStream | apollos-church-api/src/data/livestream/index.js:37-44 | a stream maps to a record exactly when its webview URL does not throw |
| LiveStreamSource.LiveStreams | apollos-church-api/src/data/livestream/index.js:37-44 | throws exactly when some stream's webview URL throws; otherwise one record per stream in order, `isLive` iff a current event exists, start time current before next, no `contentItem` |
| Campaign.MessageLabel | apollos-church-api/src/data/wcc-features/index.js:137-142 | "Today at {h} CT" exactly when the stream is today, else "Last {ddd}" exactly when it started before now, else "Next {ddd} at {h} CT" |
| Campaign.StreamLabel | apollos-church-api/src/data/wcc-features/index.js:205-207 | "Last …" exactly when the start is before now, "Next …" otherwise, never "Today" |
| Campaign.IsToday | apollos-church-api/src/data/wcc-features/index.js:131 | a missing start time is today (`moment(undefined)` is now); otherwise today exactly when it starts on the server-local day of now |
| Campaign.ChosenStream | apollos-church-api/src/data/wcc-features/index.js:121-123 | no stream exactly when the list is empty; otherwise the head of the list, whatever its message |
| Campaign.StageOne | apollos-church-api/src/data/wcc-features/index.js:117-154 | throws exactly when the chosen stream has no message; adds the message card exactly when the message is dated today or later or the stream is today, labelled by `MessageLabel` |
| Campaign.Recent | apollos-church-api/src/data/wcc-features/index.js:170-172 | keeps exactly the messages dated before the start of today, an undated message counting as dated now; never more than given |
| Campaign.RecentAppend | apollos-church-api/src/data/wcc-features/index.js:170-172 | the filter distributes over concatenation, so it keeps the messages' order |
| Campaign.StageTwo | apollos-church-api/src/data/wcc-features/index.js:174-188 | one "Latest Message" card per kept message, in order, ids numbered after the cards already collected |
| Campaign.StageTwoIsRecent | apollos-church-api/src/data/wcc-features/index.js:165-172 | every stage-2 card shows a fetched message dated strictly before the start of today |
| Campaign.LatestAtMostTwo | apollos-church-api/src/data/wcc-features/index.js:165-172 | when the adapter honours the stage-2 page size of 2, stage 2 adds at most two cards and the feed has at most three candidates |
| Campaign.UndatedMessage | apollos-church-api/src/data/wcc-features/index.js:127-172 | a message without a date counts as dated now: as the stream's message it passes stage 1, and stage 2 never keeps it |
| Campaign.StageThree | apollos-church-api/src/data/wcc-features/index.js:199-215 | adds the stream card exactly when a stream was chosen and stage 1 did not fire; it has `hasAction` false and a `StreamLabel` |
| Campaign.Candidates | apollos-church-api/src/data/wcc-features/index.js:112-215 | the full candidate list throws exactly when the chosen stream has no message, and has at most one card beyond the fetched messages |
| Campaign.CampaignItems | apollos-church-api/src/data/wcc-features/index.js:109-222 | throws exactly when the chosen stream has no message; with a non-negative window the result holds at most `limit` cards |
| Campaign.CampaignIsWindow | apollos-church-api/src/data/wcc-features/index.js:156-221 | with non-negative `skip` and `limit`, the early-returning feed equals the window `[skip, skip + limit)` of the full candidate list |
| Campaign.NegativeLimitEarlyExit | apollos-church-api/src/data/wcc-features/index.js:156-159 | with `limit` -1 the early return gives no cards, while slicing the full list would give one |
| Campaign.StreamShownOnce | apollos-church-api/src/data/wcc-features/index.js:117-215 | if stage 1 fires, its card comes first and no stream card follows; a stream card is last, is the chosen stream, is not today, has no action, and is labelled "Last"/"Next", never "Today" |
| Campaign.CandidateShapes | apollos-church-api/src/data/wcc-features/index.js:144-214 | every campaign candidate is a message card with no explicit action flag or a stream card with `hasAction` false |
| Campaign.CampaignActions | apollos-church-api/src/data/wcc-features/index.js:345-353 | in the campaign feed, `hasAction` resolves to true for message cards and false for the stream card |
| Campaign.MessageCanRepeat | apollos-church-api/src/data/wcc-features/index.js:127-188 | a stream that is today with an older message shows that message in both stage 1 and stage 2 |
| Campaign.TodaysMessageNotRepeated | apollos-church-api/src/data/wcc-features/index.js:129-172 | when stage 1 fires because its message is dated today or later, no later candidate shows the same message (for a calendar whose days start no later than their instants) |
| Campaign.LiveStreamsBreakCampaign | apollos-church-api/src/data/livestream/index.js:37-44 | with any stream from the live-stream source, the campaign feed throws |

## Left out

- Adapter fetches: `WCCMessage.paginate`, `WCCBlog.paginate`, `LiveStream.getLiveStreams`'s HTTP request, `ContentItem.byRockCampus`, `ConnectScreen.getDefaultPage` and `WCCSeries.getFromId` are network I/O. Their results are input sequences, so an adapter that rejects is not modelled. The per-item `getCoverImage` and `createSummary` answers are carried on the items, and the stream's cover image is a parameter.
- moment-timezone: the clock and the time-zone formatting (`startOf('day')`, `isSame`, `format('ddd')`, `format('ha')`) are the fields of `Clock`. The source reads the clock several times. The model uses one `now` for all of those reads.
- Missing versus null start time and date: an absent `starts_at` or message `date` is `moment(undefined)`, which means now. A `null` one (an invalid moment, false in every comparison) is not distinguished from it.
- `JSON.parse` / `JSON.stringify`: both are function parameters, not JSON implementations. A parsed object's values are strings. `Features.FeatureIdCarriesCampus` assumes that parsing what `stringify` wrote gives the object back.
- Features.FeatureIdCarriesCampus: assumes the id text `getFromId` receives starts with the feature type followed by `:` (or is the type itself). How `createGlobalId` encodes a global id as text is outside this model.
- `parseGlobalId`: only used to compute the campus adapter's argument, which is not modelled.
- lodash `startCase`: a function parameter. `get` is a plain field read.
- `createSocialIconsFeature`: it only returns constant URLs.
- The `SpeakerFeature.profileImage` resolver and `userFeedFeaturesWithCampus`: wiring around an adapter lookup and the context object.
- The GraphQL schema, `getLiveStream` (deprecated, always null) and the `console.log` calls.
- The base data source's own `create...` methods are outside this model. They are named by the `inherited` parameter of `Features.GetFromId`.
- The contentful resolvers and the React Native screens are field accessors and rendering.
