# Music catalogue server, modelled in Dafny

`server.js` is a small HTTP server that keeps a music catalogue in memory.
It has three ID-keyed tables (artists, albums, songs) and one ID counter per table.
Each request goes through three steps:

1. Its body is decoded: JSON is parsed, and `application/x-www-form-urlencoded` is split and decoded by hand.
2. An ordered chain of seventeen route tests picks the first handler that matches.
3. That handler reads, creates, updates or deletes records in the tables.

This project models those three steps and proves what each promises.

- `js_runtime.dfy` (module `Js`) covers the JavaScript behaviour the server leans on:
  - field values and their truthiness;
  - `split` with a one-character separator;
  - the two ways a path segment reaches a table. Used directly as a property name, only the canonical decimal form finds an entry (`KeyOf`). Passed through `Number(...)` first, `""` becomes 0 and leading zeros are accepted (`NumberOf`).
- `form_body.dfy` (module `FormBody`) is the form-urlencoded decoder:
  - it splits on `&` and then on `=`;
  - `+` turns into a space before percent-decoding;
  - keys are not decoded;
  - the last occurrence of a key wins.

  A reference encoder is its partner, and the round trip between them is proved.
- `catalogue.dfy` (module `Catalogue`) holds the records and the queries:
  - the order `Object.values` lists an ID-keyed table in (ascending keys);
  - the `filter` queries behind the four list routes, with their loose and strict equality tests.
- `router.dfy` (module `Router`) is the first-match-wins dispatcher, as a pure function of the verb and the URL's `/`-separated parts. It is proved to send every documented request line to its route. It keeps these quirks:
  - the `startsWith("/artists")` tests;
  - the unchecked part count on the routes that look at `parts[3]`.
- `store.dfy` (module `Server`) is the store, a class whose map and counter fields the handlers update in place.
  - It has one method per handler. A handler that changes the store is specified by an effect predicate (such as `CreateArtistEffect`) over the state before, its arguments, the state after and the outcome. It gives the response and the whole new state in every case, including the error paths. A handler that only reads is specified by a reply function of the state (such as `ArtistAlbumsReply`). Each method is proved against its specification.
  - Every method preserves two invariants: keys lie below their counter, and every record carries its own key.
  - `Handle` decodes a request's body, dispatches it and runs the handler the dispatcher picks. Its contract is `Serves`: a body that fails to parse throws with no change, and otherwise the dispatched route's effect (`RouteEffect`) takes place. Lemmas over `Serves` show that a request's effect is determined by the request, the clock and the state before it, and that it keeps the invariants.
- `scenarios.dfy` (module `Scenarios`) holds short request sequences and what a client can conclude from them.

Behaviours of the code that the model keeps as they are:
- GET `/artists/:artistId` reads `reqUrlParts` before the line that declares it, so it always throws. The model returns `Fault`.
- PUT/PATCH of a missing artist sets `res.code` instead of `res.statusCode`, so the reply is 200 with an error body.
- POST `/artists/:artistId/albums` stores the album before checking the name and the artist. A rejected request leaves the album in the table and the counter advanced.
- GET `/songs/:songId` writes `album` and `artist` onto the stored song. If the song's album is gone, reading `targetAlbum.artistId` throws, so the model returns `Fault`; it does not embed `undefined`.
- The counters start at 2 even when a seeded ID is 2 or more, so the first create replaces a seeded record with key 2 (`Scenarios.FirstCreateReplacesSeedTwo`).

An uncaught exception is the outcome `Fault`. Every exception the handlers can throw happens before any table changes, and the model proves that nothing changed in those cases.

## Model

| member | source | states |
|---|---|---|
| Js.Truthy | server.js:347 | `!v` holds exactly for `undefined`, `null`, `false`, `0` and `""` |
| Js.KeyOf | server.js:117-118 | a raw segment used as a property name finds key n only when it is n's decimal name, and finds nothing when it is no number's decimal name |
| Js.NumberOf | server.js:281 | `Number(segment)` is NaN exactly when the segment holds a non-digit, and agrees with the property-name lookup wherever that finds a key |
| Js.Split | server.js:97 | `split` always yields at least one piece, and no piece contains the separator |
| Js.JoinSplit | server.js:97 | splitting loses nothing: joining the pieces with the separator gives back the URL |
| Js.SplitJoin | server.js:97 | pieces without the separator, joined and split again, come back unchanged |
| Js.DecimalString | server.js:103 | the property name of a numeric key is a non-empty digit string, with a leading zero only for 0 |
| Js.KeyOfIsDecimal | server.js:117-118 | a raw segment finds the entry with key n exactly when it is n's decimal name (both directions) |
| Js.DecimalNamesKey | server.js:167-169 | n's decimal name finds key n both as a property name and through `Number(...)` |
| Js.KeyOfAgreesWithNumber | server.js:184-196 | where a raw segment finds a key, `Number(segment)` names the same key; `"01"` and `""` show the converse fails |
| FormBody.PlusToSpace | server.js:55 | replacing `+` keeps the length and leaves no `+` |
| FormBody.DecodeValue | server.js:55-56 | a decoded value is no longer than its source, and a value without `%` decodes to the value with `+` replaced by spaces |
| FormBody.PercentDecode | server.js:56 | a decoded value is no longer than its source, and a value without `%` decodes to itself |
| FormBody.DecodePair | server.js:54-56 | a piece without `=` throws; a decoded key holds no `=` and is the text before the piece's first `=` |
| FormBody.FormDecode | server.js:52-60 | decoding succeeds exactly when every `&`-piece decodes, and no key of the result holds `=` |
| FormBody.DecodePairs | server.js:53-56 | decoding succeeds exactly when every `&`-piece decodes, and then each result is that piece's decoded pair |
| FormBody.Collect | server.js:57-60 | the decoded body's keys are exactly the keys of the pairs |
| FormBody.CollectLastWins | server.js:57-60 | a key maps to the value of its last occurrence |
| FormBody.EncodeValue | server.js:55-56 | the reference encoding of a value holds no `&` or `=`, so it survives both splits |
| FormBody.EncodeValueDecodes | server.js:55-56 | replacing `+` and then percent-decoding inverts the reference encoding of any value |
| FormBody.EncodePairDecodes | server.js:53-56 | an encoded pair whose key has no `&` or `=` decodes to the same pair |
| FormBody.FormRoundTrip | server.js:52-60 | decoding an encoded list of pairs gives the pairs' last-wins map |
| FormBody.PlainPairDecodes | server.js:54-56 | a pair with no `+`, `%` or `=` in its value decodes to itself |
| FormBody.PlusToSpaceIdentity | server.js:55 | a value without `+` is left alone by the `+` replacement |
| FormBody.PlusInValue | server.js:55 | `c+d` decodes to `c d` |
| FormBody.KeyKeptValueDecoded | server.js:54-56 | in `a%20b=c+d` the key stays `a%20b` while the value becomes `c d` |
| FormBody.PlusBeforePercent | server.js:55-56 | `%2B+` decodes to `+ `: the escaped plus survives because `+` is replaced first |
| FormBody.SecondEqualsTruncates | server.js:54 | in `k=v=w` everything after the second `=` is dropped |
| FormBody.MissingEqualsFails | server.js:54-55 | a piece without `=` makes decoding throw |
| FormBody.RepeatedKeyLastWins | server.js:57-60 | `k=v1&k=v2` decodes to the single field `k` with value `v2` |
| Catalogue.Least | server.js:75 | the chosen key is in the set and no larger than any other |
| Catalogue.SortedKeys | server.js:75 | the keys listed once each, in strictly ascending order |
| Catalogue.TableValues | server.js:75 | `Object.values` lists every record of the table, and only those, once per key |
| Catalogue.ValuesAscending | server.js:75 | when records carry their own keys, `Object.values` lists them in ascending ID order |
| Catalogue.Filter | server.js:151 | `filter` keeps exactly the elements that pass the test |
| Catalogue.FilterKeepsAscending | server.js:151 | `filter` keeps the order of what it keeps |
| Catalogue.ByArtist | server.js:151 | loose `album.artistId == segment` holds only for an all-digit segment and a numeric artist ID; what it matches exactly is stated by `SegmentMatches` |
| Catalogue.ByAlbum | server.js:282 | strict `song.albumId === Number(segment)` holds only for an all-digit segment; see `SegmentMatches` |
| Catalogue.ByTrack | server.js:300 | strict `song.trackNumber === Number(segment)` holds only for an all-digit segment and a numeric track number; see `SegmentMatches` |
| Catalogue.SegmentMatches | server.js:151-300 | the decimal name of n matches exactly the records whose artist ID, album ID or numeric track number is n; a segment with a non-digit matches nothing; a non-numeric track number never matches |
| Catalogue.AlbumsOfArtist | server.js:149-153 | the albums whose artist ID loosely equals the segment; empty exactly when no album matches |
| Catalogue.AlbumIds | server.js:261 | an ID is listed exactly when one of the albums has it, one entry per album |
| Catalogue.SongsOnAlbums | server.js:271 | the songs whose album ID is in the given list |
| Catalogue.ArtistAlbumIds | server.js:259-261 | an ID is collected exactly when some album naming the artist has it |
| Catalogue.SongsOfArtist | server.js:257-276 | the songs on any album that names the artist |
| Catalogue.SongsOfAlbum | server.js:280-284 | the songs whose album ID strictly equals `Number(segment)`; empty exactly when none does |
| Catalogue.SongsWithTrack | server.js:298-302 | the songs whose track number strictly equals `Number(segment)`; empty exactly when none does |
| Catalogue.StringTrackNeverMatches | server.js:300 | only numeric track numbers are ever found by track |
| Catalogue.QueriesAscending | server.js:149-313 | all four filter routes, the artist's songs included, answer in ascending ID order when records carry their own keys |
| Router.UrlIsArtists | server.js:72 | `req.url === "/artists"` holds exactly when the URL's parts are `["", "artists"]` |
| Router.UrlHasArtistsPrefix | server.js:80 | `startsWith("/artists")` holds exactly when the first part is empty and the second starts with `artists` |
| Router.Dispatch | server.js:72-432 | the first-match chain: every route but list and create captures `parts[2]` as its segment, and an unknown verb reaches no handler; both directions of the chain are stated by `DispatchRoundTrip` and `DispatchMatchesRequest` |
| Router.DispatchUrl | server.js:72-100 | the chain on `req.url.split('/')`: the list and create routes need exactly `/artists`, and the prefix-matched artist routes need a URL starting with `/artists`; `UrlRoutes` gives the converse |
| Router.DispatchMatchesRequest | server.js:72-432 | whatever the chain picks was asked for with the route's verb and a path of the route's shape: the same words at the same places, the segment at index 2, and exactly as many parts for the routes that count them; an unknown verb reaches no handler |
| Router.UrlRoutes | server.js:72-100 | only GET and POST of exactly `/artists` reach the list and create handlers, and the single-artist routes need a URL starting with `/artists` |
| Router.DispatchParts | server.js:72-432 | the chain sends each route's documented parts and verb to that route |
| Router.DispatchRoundTrip | server.js:72-432 | every route is reached by its documented request line, for any segment without `/` |
| Router.ArtistPrefixQuirk | server.js:132-139 | `/artistsXYZ/5` reaches the artist delete and get handlers for artist 5 |
| Router.ExtraPartsIgnored | server.js:149-342 | all six routes that look at `parts[3]` ignore any further parts |
| Router.UnnormalisedPaths | server.js:166 | a trailing slash misses the album route, and `/albums/` reaches it with an empty ID |
| Router.QueryStringKept | server.js:72 | GET `/artists?` followed by any query reaches no handler |
| Server.DecodeBody | server.js:46-64 | an empty body is absent; a JSON body is the parse result; only a JSON or form body can throw; a decoded form body has only string fields with keys free of `=`; its round trip and its failure case are `FormBodyRoundTrip` and `MissingEqualsThrows` |
| Server.FormBodyRoundTrip | server.js:46-60 | a body written by the form encoder reaches the handlers as the pairs' last-wins object, every value a string |
| Server.MissingEqualsThrows | server.js:52-55 | a non-empty form body with a piece lacking `=` throws before any route runs |
| Server.FormFieldsAreStrings | server.js:52-60 | every field of a form body is a string or missing |
| Server.Store.constructor | server.js:5-11 | the tables start as the seeds and every counter starts at 2 |
| Server.Store.NewArtistId | server.js:14-18 | hands out the counter's value and advances it by one, changing nothing else |
| Server.Store.NewAlbumId | server.js:21-25 | hands out the counter's value and advances it by one, changing nothing else |
| Server.Store.NewSongId | server.js:28-32 | hands out the counter's value and advances it by one, changing nothing else |
| Server.ListArtistsReply | server.js:72-76 | 200 with `Object.values` of the artists: every artist once, in ascending ID order when records carry their keys |
| Server.ArtistAlbumsReply | server.js:149-162 | 404 exactly when no album names the artist, else 200 with the artist's albums exactly as the query lists them |
| Server.GetAlbumReply | server.js:166-178 | 200 with the album the raw segment names, else 404; when records carry their own keys, the album returned has the segment as its decimal ID |
| Server.ArtistSongsReply | server.js:257-276 | 404 exactly when the artist has no albums, else 200 with the songs on those albums as the query lists them (possibly none) |
| Server.AlbumSongsReply | server.js:280-295 | 404 exactly when no song is on the album, else 200 with those songs as the query lists them |
| Server.TrackSongsReply | server.js:298-313 | 404 exactly when no song has the track number, else 200 with those songs as the query lists them |
| Server.SongFieldsPresent | server.js:343-347 | the body has name, lyrics and track number, and none of them is falsy |
| Server.RouteEffectKeepsStep | server.js:72-432 | every route's effect keeps both invariants and never moves a counter back; read-only routes change nothing; only creates answer 201 |
| Server.RouteEffectDeterministic | server.js:72-432 | a route's effect is determined by the route, the body, the clock and the state before it |
| Server.ServesKeepsStep | server.js:44-432 | a whole request keeps both invariants; a body that fails to parse throws with no change; read-only routes change nothing; only creates answer 201 |
| Server.ServesDeterministic | server.js:44-432 | a request's response and new state are determined by the request, the clock and the state before it |
| Server.Store.ListArtists | server.js:72-76 | answers `ListArtistsReply` of the current tables |
| Server.Store.GetArtist | server.js:80-95 | always throws, because the URL parts are read before their declaration |
| Server.Store.CreateArtist | server.js:100-111 | by `CreateArtistEffect`: takes the next ID, stores `{artistId, name}` under it and answers 201 with it; throws without a body; keeps both invariants |
| Server.Store.UpdateArtist | server.js:115-128 | by `UpdateArtistEffect`: sets only the name of an existing artist (200); a missing artist also answers 200, with an error and no change |
| Server.Store.DeleteArtist | server.js:132-145 | by `DeleteArtistEffect`: removes exactly that key (200), or answers 404 and changes nothing |
| Server.Store.ArtistAlbums | server.js:149-162 | answers `ArtistAlbumsReply` of the current tables |
| Server.Store.GetAlbum | server.js:166-178 | answers `GetAlbumReply` of the current tables |
| Server.Store.CreateAlbum | server.js:182-205 | by `CreateAlbumEffect`: stores the album under the next ID before checking the name and then the artist, so its 404s still leave it stored |
| Server.Store.UpdateAlbum | server.js:210-232 | by `UpdateAlbumEffect`: sets only the name and `updatedAt`; a missing name, then a missing album, answer 404 and change nothing |
| Server.Store.DeleteAlbum | server.js:236-253 | by `DeleteAlbumEffect`: removes exactly that key (200), or answers 404 and changes nothing |
| Server.Store.ArtistSongs | server.js:257-276 | answers `ArtistSongsReply` of the current tables |
| Server.Store.AlbumSongs | server.js:280-295 | answers `AlbumSongsReply` of the current tables |
| Server.Store.TrackSongs | server.js:298-313 | answers `TrackSongsReply` of the current tables |
| Server.Store.GetSong | server.js:317-338 | by `GetSongEffect`: writes the album and its artist onto the stored song and answers 200 with it; a missing song answers 404; a missing album throws before any change |
| Server.Store.CreateSong | server.js:342-373 | by `CreateSongEffect`: checks three truthy fields, then the album, and only then takes the next ID; every failure leaves the tables and the counter alone |
| Server.Store.UpdateSong | server.js:377-405 | by `UpdateSongEffect`: sets only name, lyrics, track number and `updatedAt`, keeping the song's IDs; failures change nothing |
| Server.Store.DeleteSong | server.js:409-427 | by `DeleteSongEffect`: removes exactly that key (200), or answers 404 and changes nothing |
| Server.Store.Handle | server.js:44-432 | does what `Serves` says: a body that fails to parse throws with no change, and otherwise the dispatched handler's effect takes place (404 "Endpoint not found" when no route matches); counters never go back; both invariants kept |
| Server.Store.RunArtistRoute | server.js:72-145 | runs the dispatched artist handler, with that handler's `RouteEffect`; GET of one artist throws, listing changes nothing, only creation answers 201 |
| Server.Store.RunAlbumRoute | server.js:149-253 | runs the dispatched album handler, with that handler's `RouteEffect`; the two reads change nothing, only creation answers 201 |
| Server.Store.RunSongRoute | server.js:257-427 | runs the dispatched song handler, with that handler's `RouteEffect`; the three list routes change nothing, only creation answers 201 |
| Scenarios.CreateTwoArtists | server.js:100-111 | two creates get consecutive IDs, neither in use before when keys lie below the counter |
| Scenarios.CreateDeleteCreate | server.js:14-18 | an ID is not handed out again after its artist is deleted |
| Scenarios.FirstCreateReplacesSeedTwo | server.js:9-11 | with a seeded artist 2, the first create replaces it |
| Scenarios.DeleteArtistTwice | server.js:132-145 | a second delete of the same artist answers 404 |
| Scenarios.CreateAlbumThenGet | server.js:182-205 | an album created for an existing artist is then found under its new ID |
| Scenarios.RejectedAlbumIsKept | server.js:185-195 | an album rejected for a missing name is still returned by GET `/albums/:albumId` |
| Scenarios.CreateSongThenListAlbum | server.js:342-373 | a created song is listed by its album's song route |
| Scenarios.FormSongHasNoTrack | server.js:298-302 | a song created from a form body is never listed by track number |
| Scenarios.ZeroTrackRejected | server.js:347 | track number 0 is falsy, so the song is refused and nothing changes |
| Scenarios.DeleteAlbumThenGetSong | server.js:329-331 | after its album is deleted, GET of a song on it throws |

## Left out

- The HTTP server, body buffering, `listen`, response headers and `console.log` are not modelled. They are I/O. A request arrives with its body already buffered, and a response is its status plus a payload tag and its error or message text.
- Seed loading from the fixture files is not modelled. The seed tables are the constructor's parameters.
- `JSON.parse` is not modelled. The caller passes its outcome: the fields of the parsed body, `Absent` for `null`, or `None` when it throws. A non-object JSON value such as a number is passed as an empty field map, because none of the fields read exist on it. `JSON.stringify` of responses is not modelled either.
- `Date()` is not modelled: the update handlers take the timestamp as a `now` parameter.
- FormBody.PercentDecode: only `%XX` escapes below `0x80` are decoded, and any other `%` sequence counts as a malformed escape (it throws). Multi-byte UTF-8 escapes are not modelled.
- Js.NumberOf: models `Number(...)` only on the empty string and on plain digit strings. Whitespace, signs, fractions, exponents and hexadecimal forms all give NaN in the model.
- Table keys are non-negative integers. Property names that are not decimal integers are not modelled; this includes `constructor`, `__proto__`, keys at or above 2^32, and inherited prototype properties.
- Js.Value: numbers are integers. Floating-point field values are not modelled.
- Server.Store.GetSong: the model stores a copy of the album and artist on the song. JavaScript stores references, so a later album update would also show through the song; the model does not capture that.
- Server.Store.Handle: an uncaught exception ends the server process. The model returns `Fault` and leaves the store as it was.
- Request interleaving is not modelled. Handlers run to completion one at a time, as the source's event loop guarantees.
