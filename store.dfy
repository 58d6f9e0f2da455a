/** The server's in-memory store and its seventeen route handlers, and the
    request pipeline that decodes a body, picks a route and runs its handler.
    The three ID-keyed tables and the three ID counters are process-wide
    mutable state, so they are the fields of one `Store` object that every
    handler updates in place. */
module Server {
  import opened Js
  import opened FormBody
  import opened Catalogue
  import Router

  // ---------------------------------------------------------------------------
  // Request bodies

  /** `req.body` as the handlers see it: `Absent` when there is none (no body,
      an unrecognised content type, or a JSON `null`), destructuring which
      throws; otherwise the fields it holds. */
  datatype Body = Absent | Fields(fields: map<string, Value>)

  /** One field read by destructuring; a missing field is `undefined`. */
  function Field(fields: map<string, Value>, key: string): Value {
    if key in fields then fields[key] else Undefined
  }

  const JsonType := "application/json"
  const FormType := "application/x-www-form-urlencoded"

  /** A request as the handler callback sees it once the body is buffered.
      `json` is what `JSON.parse(rawBody)` gives (`None` when it throws);
      it is consulted only for a non-empty JSON body. */
  datatype Request = Request(verb: string, url: string, contentType: Option<string>,
                             rawBody: string, json: Option<Body>)

  /** The body-parsing step that runs before any route is tried; `None` is
      an exception thrown while parsing (malformed JSON, a form pair without
      `=`, a malformed percent escape). */
  function DecodeBody(contentType: Option<string>, raw: string, json: Option<Body>): (r: Option<Body>)
    ensures raw == "" ==> r == Some(Absent)
    ensures raw != "" && contentType == Some(JsonType) ==> r == json
    ensures r.None? ==> raw != "" && (contentType == Some(JsonType) || contentType == Some(FormType))
    ensures raw != "" && contentType == Some(FormType) && r.Some? ==>
      (r.value.Fields? && forall k :: k in r.value.fields ==> r.value.fields[k].Str? && '=' !in k)
  {
    if raw == "" then Some(Absent)
    else if contentType == Some(JsonType) then json
    else if contentType == Some(FormType) then
      match FormDecode(raw)
      case None => None
      case Some(m) => Some(Fields(map k | k in m :: Str(m[k])))
    else Some(Absent)
  }

  /** A body written by the form encoder reaches the handlers as the object
      the pairs describe, every value a string. */
  lemma FormBodyRoundTrip(pairs: seq<(string, string)>, json: Option<Body>)
    requires |pairs| >= 1
    requires forall i :: 0 <= i < |pairs| ==> '&' !in pairs[i].0 && '=' !in pairs[i].0
    ensures DecodeBody(Some(FormType), FormEncode(pairs), json) ==
      Some(Fields(map k | k in Collect(pairs) :: Str(Collect(pairs)[k])))
  {
    FormRoundTrip(pairs);
  }

  /** A form body with a piece that has no `=` throws before any route is
      tried, whatever the content of the other pieces. */
  lemma MissingEqualsThrows(raw: string, i: nat, json: Option<Body>)
    requires raw != ""
    requires i < |Split(raw, '&')| && '=' !in Split(raw, '&')[i]
    ensures DecodeBody(Some(FormType), raw, json) == None
  {
  }

  /** Every field of a form-encoded body is a string. */
  lemma FormFieldsAreStrings(raw: string, key: string)
    requires raw != ""
    requires DecodeBody(Some(FormType), raw, None).Some?
    ensures DecodeBody(Some(FormType), raw, None).value.Fields?
    ensures Field(DecodeBody(Some(FormType), raw, None).value.fields, key).Str? ||
            Field(DecodeBody(Some(FormType), raw, None).value.fields, key) == Undefined
  {
  }

  // ---------------------------------------------------------------------------
  // Responses

  /** What a handler writes as the JSON response body. */
  datatype Payload =
    | ArtistList(artists: seq<Artist>)
    | ArtistRecord(artist: Artist)
    | AlbumList(albums: seq<Album>)
    | AlbumRecord(album: Album)
    | SongList(songs: seq<Song>)
    | SongRecord(song: Song)
    | Message(message: string)
    | Error(error: string)
    | PlainText(text: string)

  /** A response with its status code, or an uncaught exception. */
  datatype Outcome = Reply(status: nat, payload: Payload) | Fault

  // ---------------------------------------------------------------------------
  // The store

  /** A snapshot of the store's state. */
  datatype Tables = Tables(artists: map<nat, Artist>, albums: map<nat, Album>, songs: map<nat, Song>,
                           nextArtistId: nat, nextAlbumId: nat, nextSongId: nat)

  /** Every key lies below its table's counter, so the next ID is unused. */
  predicate Fresh(t: Tables) {
    (forall k :: k in t.artists ==> k < t.nextArtistId) &&
    (forall k :: k in t.albums ==> k < t.nextAlbumId) &&
    (forall k :: k in t.songs ==> k < t.nextSongId)
  }

  /** Every record carries its own key as its ID. */
  predicate Consistent(t: Tables) {
    (forall k :: k in t.artists ==> t.artists[k].artistId == k) &&
    (forall k :: k in t.albums ==> t.albums[k].albumId == k) &&
    (forall k :: k in t.songs ==> t.songs[k].songId == k)
  }

  /** The entry `table[n]` finds for a number `n`: a property lookup turns
      the number into its decimal name, and NaN names no entry. */
  predicate HasNumber<T>(table: map<nat, T>, n: Number) {
    n.Finite? && n.n in table
  }

  /** The entry `table[segment]` finds for a raw path segment. */
  predicate HasKey<T>(table: map<nat, T>, segment: string) {
    KeyOf(segment).Some? && KeyOf(segment).value in table
  }

  const BodyError := "Something wrong with the req body; name not found"

  // ---------------------------------------------------------------------------
  // What each handler answers and does, on a snapshot of the store

  /** GET /artists: every artist, in ascending key order. */
  function ListArtistsReply(t: Tables): (r: Outcome)
    ensures r.Reply? && r.status == 200 && r.payload.ArtistList?
    ensures r.payload.artists == TableValues(t.artists)
    ensures |r.payload.artists| == |t.artists|
    ensures forall a :: a in r.payload.artists <==> a in t.artists.Values
    ensures Consistent(t) ==> Ascending(r.payload.artists, (a: Artist) => a.artistId)
  {
    if Consistent(t) then
      ValuesAscending(t.artists, (a: Artist) => a.artistId);
      Reply(200, ArtistList(TableValues(t.artists)))
    else
      Reply(200, ArtistList(TableValues(t.artists)))
  }

  /** GET /artists/:artistId/albums: 404 exactly when no album names the
      artist, otherwise the albums that do, as the query lists them. */
  function ArtistAlbumsReply(t: Tables, segment: string): (r: Outcome)
    ensures r.Reply?
    ensures r.status == 404 <==> forall k :: k in t.albums ==> !ByArtist(t.albums[k], segment)
    ensures r.status == 404 ==> r.payload == Error("Artist not found")
    ensures r.status != 404 ==> r == Reply(200, AlbumList(AlbumsOfArtist(t.albums, segment)))
    ensures r.status != 404 ==>
      (r.payload.AlbumList? && forall a :: a in r.payload.albums <==> a in t.albums.Values && ByArtist(a, segment))
  {
    var found := AlbumsOfArtist(t.albums, segment);
    if found == [] then Reply(404, Error("Artist not found")) else Reply(200, AlbumList(found))
  }

  /** GET /albums/:albumId: the album the raw segment names as a property. */
  function GetAlbumReply(t: Tables, segment: string): (r: Outcome)
    ensures !HasKey(t.albums, segment) ==> r == Reply(404, Error("album not found"))
    ensures HasKey(t.albums, segment) ==> r == Reply(200, AlbumRecord(t.albums[KeyOf(segment).value]))
    ensures Consistent(t) && r.status == 200 ==>
      (r.payload.AlbumRecord? && DecimalString(r.payload.album.albumId) == segment)
  {
    var key := KeyOf(segment);
    if key.None? || key.value !in t.albums then Reply(404, Error("album not found"))
    else Reply(200, AlbumRecord(t.albums[key.value]))
  }

  /** GET /artists/:artistId/songs: 404 exactly when no album names the
      artist; otherwise the songs on those albums, possibly none. */
  function ArtistSongsReply(t: Tables, segment: string): (r: Outcome)
    ensures r.Reply?
    ensures r.status == 404 <==> forall k :: k in t.albums ==> !ByArtist(t.albums[k], segment)
    ensures r.status == 404 ==> r.payload == Error("No songs by this artist found")
    ensures r.status != 404 ==> r == Reply(200, SongList(SongsOfArtist(t.albums, t.songs, segment)))
    ensures r.status != 404 ==>
      (r.payload.SongList? && forall s :: s in r.payload.songs <==> s in t.songs.Values && ArtistHasAlbum(t.albums, segment, s.albumId))
  {
    if AlbumIds(AlbumsOfArtist(t.albums, segment)) == [] then Reply(404, Error("No songs by this artist found"))
    else Reply(200, SongList(SongsOfArtist(t.albums, t.songs, segment)))
  }

  /** GET /albums/:albumId/songs: 404 exactly when no song is on that album. */
  function AlbumSongsReply(t: Tables, segment: string): (r: Outcome)
    ensures r.Reply?
    ensures r.status == 404 <==> forall k :: k in t.songs ==> !ByAlbum(t.songs[k], segment)
    ensures r.status == 404 ==> r.payload == Error("No songs by this album found")
    ensures r.status != 404 ==> r == Reply(200, SongList(SongsOfAlbum(t.songs, segment)))
    ensures r.status != 404 ==>
      (r.payload.SongList? && forall s :: s in r.payload.songs <==> s in t.songs.Values && ByAlbum(s, segment))
  {
    var found := SongsOfAlbum(t.songs, segment);
    if found == [] then Reply(404, Error("No songs by this album found")) else Reply(200, SongList(found))
  }

  /** GET /trackNumbers/:trackNumber/songs: 404 exactly when no song has
      that (numeric) track number. */
  function TrackSongsReply(t: Tables, segment: string): (r: Outcome)
    ensures r.Reply?
    ensures r.status == 404 <==> forall k :: k in t.songs ==> !ByTrack(t.songs[k], segment)
    ensures r.status == 404 ==> r.payload == Error("No songs by this tracking number found")
    ensures r.status != 404 ==> r == Reply(200, SongList(SongsWithTrack(t.songs, segment)))
    ensures r.status != 404 ==>
      (r.payload.SongList? && forall s :: s in r.payload.songs <==> s in t.songs.Values && ByTrack(s, segment))
  {
    var found := SongsWithTrack(t.songs, segment);
    if found == [] then Reply(404, Error("No songs by this tracking number found")) else Reply(200, SongList(found))
  }

  /** POST /artists: a new artist under the next ID, whatever the name. */
  predicate CreateArtistEffect(before: Tables, body: Body, after: Tables, out: Outcome) {
    if body.Absent? then out == Fault && after == before
    else
      var id := before.nextArtistId;
      var artist := Artist(id, Field(body.fields, "name"));
      out == Reply(201, ArtistRecord(artist)) &&
      after == before.(artists := before.artists[id := artist], nextArtistId := id + 1)
  }

  /** PUT or PATCH /artists/:artistId: replaces the name (even with
      `undefined`). A missing artist sets `res.code`, not the status code,
      so the reply keeps the default status 200. */
  predicate UpdateArtistEffect(before: Tables, segment: string, body: Body, after: Tables, out: Outcome) {
    if body.Absent? then out == Fault && after == before
    else if !HasKey(before.artists, segment) then out == Reply(200, Error("Artist not found")) && after == before
    else
      var k := KeyOf(segment).value;
      var artist := before.artists[k].(name := Field(body.fields, "name"));
      out == Reply(200, ArtistRecord(artist)) && after == before.(artists := before.artists[k := artist])
  }

  /** DELETE /artists/:artistId: removes exactly that artist; albums that
      name it are left as they are. */
  predicate DeleteArtistEffect(before: Tables, segment: string, after: Tables, out: Outcome) {
    if !HasKey(before.artists, segment) then out == Reply(404, Error("Artist not found")) && after == before
    else
      out == Reply(200, Message("successfully deleted")) &&
      after == before.(artists := before.artists - {KeyOf(segment).value})
  }

  /** POST /artists/:artistId/albums: the album is stored under the next ID
      BEFORE the name and the artist are checked, so a rejected request
      still leaves its album behind. */
  predicate CreateAlbumEffect(before: Tables, segment: string, body: Body, after: Tables, out: Outcome) {
    if body.Absent? then out == Fault && after == before
    else
      var id := before.nextAlbumId;
      var album := Album(id, Field(body.fields, "name"), NumberOf(segment), None);
      after == before.(albums := before.albums[id := album], nextAlbumId := id + 1) &&
      out == (if album.name == Undefined then Reply(404, Error(BodyError))
              else if !HasNumber(before.artists, NumberOf(segment)) then Reply(404, Error("artist not found"))
              else Reply(201, AlbumRecord(album)))
  }

  /** PUT or PATCH /albums/:albumId: sets the name and the update time. */
  predicate UpdateAlbumEffect(before: Tables, segment: string, body: Body, now: string, after: Tables, out: Outcome) {
    if body.Absent? then out == Fault && after == before
    else if Field(body.fields, "name") == Undefined then out == Reply(404, Error(BodyError)) && after == before
    else if !HasKey(before.albums, segment) then out == Reply(404, Error("album not found")) && after == before
    else
      var k := KeyOf(segment).value;
      var album := before.albums[k].(name := Field(body.fields, "name"), updatedAt := Some(now));
      out == Reply(200, AlbumRecord(album)) && after == before.(albums := before.albums[k := album])
  }

  /** DELETE /albums/:albumId: removes exactly that album; its songs are
      left as they are. */
  predicate DeleteAlbumEffect(before: Tables, segment: string, after: Tables, out: Outcome) {
    if !HasKey(before.albums, segment) then out == Reply(404, Error("Album not found")) && after == before
    else
      out == Reply(200, Message("Successfully deleted")) &&
      after == before.(albums := before.albums - {KeyOf(segment).value})
  }

  /** GET /songs/:songId: writes the song's album and that album's artist
      onto the stored song and answers with it. A song whose album is gone
      makes the handler throw. */
  predicate GetSongEffect(before: Tables, segment: string, after: Tables, out: Outcome) {
    if !HasNumber(before.songs, NumberOf(segment)) then
      out == Reply(404, Error("No song by this song ID found")) && after == before
    else if before.songs[NumberOf(segment).n].albumId !in before.albums then out == Fault && after == before
    else
      var k := NumberOf(segment).n;
      var album := before.albums[before.songs[k].albumId];
      var artist := if HasNumber(before.artists, album.artistId) then Some(before.artists[album.artistId.n]) else None;
      var song := before.songs[k].(album := Some(album), artist := artist);
      out == Reply(200, SongRecord(song)) && after == before.(songs := before.songs[k := song])
  }

  /** POST /albums/:albumId/songs: checks the fields, then the album, and
      only then takes the next song ID. */
  predicate CreateSongEffect(before: Tables, segment: string, body: Body, after: Tables, out: Outcome) {
    if body.Absent? then out == Fault && after == before
    else if !SongFieldsPresent(body.fields) then out == Reply(404, Error(BodyError)) && after == before
    else if !HasNumber(before.albums, NumberOf(segment)) then
      out == Reply(404, Error("No album by this album ID found")) && after == before
    else
      var id := before.nextSongId;
      var song := Song(id, Field(body.fields, "name"), Field(body.fields, "trackNumber"),
                       NumberOf(segment).n, Field(body.fields, "lyrics"), None, None, None);
      out == Reply(201, SongRecord(song)) &&
      after == before.(songs := before.songs[id := song], nextSongId := id + 1)
  }

  /** PATCH or PUT /songs/:songId: sets name, lyrics, track number and the
      update time, keeping everything else on the song. */
  predicate UpdateSongEffect(before: Tables, segment: string, body: Body, now: string, after: Tables, out: Outcome) {
    if body.Absent? then out == Fault && after == before
    else if !SongFieldsPresent(body.fields) then out == Reply(404, Error(BodyError)) && after == before
    else if !HasNumber(before.songs, NumberOf(segment)) then
      out == Reply(404, Error("No song by this song ID found")) && after == before
    else
      var k := NumberOf(segment).n;
      var song := before.songs[k].(name := Field(body.fields, "name"), lyrics := Field(body.fields, "lyrics"),
                                   trackNumber := Field(body.fields, "trackNumber"), updatedAt := Some(now));
      out == Reply(200, SongRecord(song)) && after == before.(songs := before.songs[k := song])
  }

  /** DELETE /songs/:songId: removes exactly that song. */
  predicate DeleteSongEffect(before: Tables, segment: string, after: Tables, out: Outcome) {
    if !HasNumber(before.songs, NumberOf(segment)) then
      out == Reply(404, Error("No song by this song ID found")) && after == before
    else
      out == Reply(200, Message("deleted successfully")) &&
      after == before.(songs := before.songs - {NumberOf(segment).n})
  }

  /** What the handler a route dispatches to answers and leaves behind. */
  predicate RouteEffect(route: Router.Route, body: Body, now: string, before: Tables, after: Tables, out: Outcome) {
    match route
    case ListArtists => out == ListArtistsReply(before) && after == before
    case GetArtist(_) => out == Fault && after == before
    case CreateArtist => CreateArtistEffect(before, body, after, out)
    case UpdateArtist(id) => UpdateArtistEffect(before, id, body, after, out)
    case DeleteArtist(id) => DeleteArtistEffect(before, id, after, out)
    case ArtistAlbums(id) => out == ArtistAlbumsReply(before, id) && after == before
    case GetAlbum(id) => out == GetAlbumReply(before, id) && after == before
    case CreateAlbum(id) => CreateAlbumEffect(before, id, body, after, out)
    case UpdateAlbum(id) => UpdateAlbumEffect(before, id, body, now, after, out)
    case DeleteAlbum(id) => DeleteAlbumEffect(before, id, after, out)
    case ArtistSongs(id) => out == ArtistSongsReply(before, id) && after == before
    case AlbumSongs(id) => out == AlbumSongsReply(before, id) && after == before
    case TrackSongs(id) => out == TrackSongsReply(before, id) && after == before
    case GetSong(id) => GetSongEffect(before, id, after, out)
    case CreateSong(id) => CreateSongEffect(before, id, body, after, out)
    case UpdateSong(id) => UpdateSongEffect(before, id, body, now, after, out)
    case DeleteSong(id) => DeleteSongEffect(before, id, after, out)
    case EndpointNotFound => out == Reply(404, PlainText("Endpoint not found")) && after == before
  }

  /** A whole request: a body that fails to parse throws before any route
      is tried; otherwise the dispatched handler runs. */
  predicate Serves(req: Request, now: string, before: Tables, after: Tables, out: Outcome) {
    match DecodeBody(req.contentType, req.rawBody, req.json)
    case None => out == Fault && after == before
    case Some(body) => RouteEffect(Router.DispatchUrl(req.verb, req.url), body, now, before, after, out)
  }

  class Store {
    var artists: map<nat, Artist>
    var albums: map<nat, Album>
    var songs: map<nat, Song>
    var nextArtistId: nat
    var nextAlbumId: nat
    var nextSongId: nat

    ghost function State(): Tables
      reads this
    {
      Tables(artists, albums, songs, nextArtistId, nextAlbumId, nextSongId)
    }

    /** The tables start as the seed data; every counter starts at 2
        whatever the seeds hold. */
    constructor (seedArtists: map<nat, Artist>, seedAlbums: map<nat, Album>, seedSongs: map<nat, Song>)
      ensures State() == Tables(seedArtists, seedAlbums, seedSongs, 2, 2, 2)
    {
      artists, albums, songs := seedArtists, seedAlbums, seedSongs;
      nextArtistId, nextAlbumId, nextSongId := 2, 2, 2;
    }

    method NewArtistId() returns (id: nat)
      modifies this
      ensures id == old(nextArtistId)
      ensures State() == old(State()).(nextArtistId := id + 1)
    {
      id := nextArtistId;
      nextArtistId := nextArtistId + 1;
    }

    method NewAlbumId() returns (id: nat)
      modifies this
      ensures id == old(nextAlbumId)
      ensures State() == old(State()).(nextAlbumId := id + 1)
    {
      id := nextAlbumId;
      nextAlbumId := nextAlbumId + 1;
    }

    method NewSongId() returns (id: nat)
      modifies this
      ensures id == old(nextSongId)
      ensures State() == old(State()).(nextSongId := id + 1)
    {
      id := nextSongId;
      nextSongId := nextSongId + 1;
    }

    // -------------------------------------------------------------------------
    // Artists

    /** GET /artists. */
    method ListArtists() returns (out: Outcome)
      ensures out == ListArtistsReply(State())
    {
      out := Reply(200, ArtistList(TableValues(artists)));
    }

    /** GET /artists/:artistId: the handler reads the URL parts before the
        line that declares them, so it always throws. */
    method GetArtist(segment: string) returns (out: Outcome)
      ensures out == Fault
    {
      out := Fault;
    }

    /** POST /artists. */
    method CreateArtist(body: Body) returns (out: Outcome)
      modifies this
      ensures CreateArtistEffect(old(State()), body, State(), out)
      ensures Fresh(old(State())) ==> Fresh(State())
      ensures Consistent(old(State())) ==> Consistent(State())
    {
      if body.Absent? {
        return Fault;
      }
      var name := Field(body.fields, "name");
      var id := NewArtistId();
      artists := artists[id := Artist(id, name)];
      out := Reply(201, ArtistRecord(artists[id]));
    }

    /** PUT or PATCH /artists/:artistId. */
    method UpdateArtist(segment: string, body: Body) returns (out: Outcome)
      modifies this
      ensures UpdateArtistEffect(old(State()), segment, body, State(), out)
      ensures Fresh(old(State())) ==> Fresh(State())
      ensures Consistent(old(State())) ==> Consistent(State())
    {
      if body.Absent? {
        return Fault;
      }
      var name := Field(body.fields, "name");
      var key := KeyOf(segment);
      if key.None? || key.value !in artists {
        return Reply(200, Error("Artist not found"));
      }
      artists := artists[key.value := artists[key.value].(name := name)];
      out := Reply(200, ArtistRecord(artists[key.value]));
    }

    /** DELETE /artists/:artistId. */
    method DeleteArtist(segment: string) returns (out: Outcome)
      modifies this
      ensures DeleteArtistEffect(old(State()), segment, State(), out)
      ensures Fresh(old(State())) ==> Fresh(State())
      ensures Consistent(old(State())) ==> Consistent(State())
    {
      var key := KeyOf(segment);
      if key.None? || key.value !in artists {
        return Reply(404, Error("Artist not found"));
      }
      artists := artists - {key.value};
      out := Reply(200, Message("successfully deleted"));
    }

    // -------------------------------------------------------------------------
    // Albums

    /** GET /artists/:artistId/albums. */
    method ArtistAlbums(segment: string) returns (out: Outcome)
      ensures out == ArtistAlbumsReply(State(), segment)
    {
      var found := AlbumsOfArtist(albums, segment);
      if found == [] {
        return Reply(404, Error("Artist not found"));
      }
      out := Reply(200, AlbumList(found));
    }

    /** GET /albums/:albumId. */
    method GetAlbum(segment: string) returns (out: Outcome)
      ensures out == GetAlbumReply(State(), segment)
    {
      var key := KeyOf(segment);
      if key.None? || key.value !in albums {
        return Reply(404, Error("album not found"));
      }
      out := Reply(200, AlbumRecord(albums[key.value]));
    }

    /** POST /artists/:artistId/albums. */
    method CreateAlbum(segment: string, body: Body) returns (out: Outcome)
      modifies this
      ensures CreateAlbumEffect(old(State()), segment, body, State(), out)
      ensures Fresh(old(State())) ==> Fresh(State())
      ensures Consistent(old(State())) ==> Consistent(State())
    {
      if body.Absent? {
        return Fault;
      }
      var name := Field(body.fields, "name");
      var artistId := NumberOf(segment);
      var id := NewAlbumId();
      albums := albums[id := Album(id, name, artistId, None)];
      if name == Undefined {
        return Reply(404, Error(BodyError));
      }
      if artistId.NaN? || artistId.n !in artists {
        return Reply(404, Error("artist not found"));
      }
      out := Reply(201, AlbumRecord(albums[id]));
    }

    /** PUT or PATCH /albums/:albumId. */
    method UpdateAlbum(segment: string, body: Body, now: string) returns (out: Outcome)
      modifies this
      ensures UpdateAlbumEffect(old(State()), segment, body, now, State(), out)
      ensures Fresh(old(State())) ==> Fresh(State())
      ensures Consistent(old(State())) ==> Consistent(State())
    {
      if body.Absent? {
        return Fault;
      }
      var name := Field(body.fields, "name");
      if name == Undefined {
        return Reply(404, Error(BodyError));
      }
      var key := KeyOf(segment);
      if key.None? || key.value !in albums {
        return Reply(404, Error("album not found"));
      }
      albums := albums[key.value := albums[key.value].(name := name, updatedAt := Some(now))];
      out := Reply(200, AlbumRecord(albums[key.value]));
    }

    /** DELETE /albums/:albumId. */
    method DeleteAlbum(segment: string) returns (out: Outcome)
      modifies this
      ensures DeleteAlbumEffect(old(State()), segment, State(), out)
      ensures Fresh(old(State())) ==> Fresh(State())
      ensures Consistent(old(State())) ==> Consistent(State())
    {
      var key := KeyOf(segment);
      if key.None? || key.value !in albums {
        return Reply(404, Error("Album not found"));
      }
      albums := albums - {key.value};
      out := Reply(200, Message("Successfully deleted"));
    }

    // -------------------------------------------------------------------------
    // Songs

    /** GET /artists/:artistId/songs. */
    method ArtistSongs(segment: string) returns (out: Outcome)
      ensures out == ArtistSongsReply(State(), segment)
    {
      var artistAlbums := AlbumsOfArtist(albums, segment);
      if AlbumIds(artistAlbums) == [] {
        return Reply(404, Error("No songs by this artist found"));
      }
      out := Reply(200, SongList(SongsOfArtist(albums, songs, segment)));
    }

    /** GET /albums/:albumId/songs. */
    method AlbumSongs(segment: string) returns (out: Outcome)
      ensures out == AlbumSongsReply(State(), segment)
    {
      var found := SongsOfAlbum(songs, segment);
      if found == [] {
        return Reply(404, Error("No songs by this album found"));
      }
      out := Reply(200, SongList(found));
    }

    /** GET /trackNumbers/:trackNumber/songs. */
    method TrackSongs(segment: string) returns (out: Outcome)
      ensures out == TrackSongsReply(State(), segment)
    {
      var found := SongsWithTrack(songs, segment);
      if found == [] {
        return Reply(404, Error("No songs by this tracking number found"));
      }
      out := Reply(200, SongList(found));
    }

    /** GET /songs/:songId. */
    method GetSong(segment: string) returns (out: Outcome)
      modifies this
      ensures GetSongEffect(old(State()), segment, State(), out)
      ensures Fresh(old(State())) ==> Fresh(State())
      ensures Consistent(old(State())) ==> Consistent(State())
    {
      var songId := NumberOf(segment);
      if songId.NaN? || songId.n !in songs {
        return Reply(404, Error("No song by this song ID found"));
      }
      var target := songs[songId.n];
      if target.albumId !in albums {
        return Fault;
      }
      var album := albums[target.albumId];
      var artist := if album.artistId.Finite? && album.artistId.n in artists
                    then Some(artists[album.artistId.n]) else None;
      songs := songs[songId.n := target.(album := Some(album), artist := artist)];
      out := Reply(200, SongRecord(songs[songId.n]));
    }

    /** POST /albums/:albumId/songs. */
    method CreateSong(segment: string, body: Body) returns (out: Outcome)
      modifies this
      ensures CreateSongEffect(old(State()), segment, body, State(), out)
      ensures Fresh(old(State())) ==> Fresh(State())
      ensures Consistent(old(State())) ==> Consistent(State())
    {
      if body.Absent? {
        return Fault;
      }
      var name := Field(body.fields, "name");
      var lyrics := Field(body.fields, "lyrics");
      var trackNumber := Field(body.fields, "trackNumber");
      var albumId := NumberOf(segment);
      if !Truthy(name) || !Truthy(lyrics) || !Truthy(trackNumber) {
        return Reply(404, Error(BodyError));
      }
      if albumId.NaN? || albumId.n !in albums {
        return Reply(404, Error("No album by this album ID found"));
      }
      var id := NewSongId();
      songs := songs[id := Song(id, name, trackNumber, albumId.n, lyrics, None, None, None)];
      out := Reply(201, SongRecord(songs[id]));
    }

    /** PATCH or PUT /songs/:songId. */
    method UpdateSong(segment: string, body: Body, now: string) returns (out: Outcome)
      modifies this
      ensures UpdateSongEffect(old(State()), segment, body, now, State(), out)
      ensures Fresh(old(State())) ==> Fresh(State())
      ensures Consistent(old(State())) ==> Consistent(State())
    {
      var songId := NumberOf(segment);
      if body.Absent? {
        return Fault;
      }
      var name := Field(body.fields, "name");
      var lyrics := Field(body.fields, "lyrics");
      var trackNumber := Field(body.fields, "trackNumber");
      if !Truthy(name) || !Truthy(lyrics) || !Truthy(trackNumber) {
        return Reply(404, Error(BodyError));
      }
      if songId.NaN? || songId.n !in songs {
        return Reply(404, Error("No song by this song ID found"));
      }
      songs := songs[songId.n := songs[songId.n].(name := name, lyrics := lyrics,
                                                  trackNumber := trackNumber, updatedAt := Some(now))];
      out := Reply(200, SongRecord(songs[songId.n]));
    }

    /** DELETE /songs/:songId. */
    method DeleteSong(segment: string) returns (out: Outcome)
      modifies this
      ensures DeleteSongEffect(old(State()), segment, State(), out)
      ensures Fresh(old(State())) ==> Fresh(State())
      ensures Consistent(old(State())) ==> Consistent(State())
    {
      var songId := NumberOf(segment);
      if songId.NaN? || songId.n !in songs {
        return Reply(404, Error("No song by this song ID found"));
      }
      songs := songs - {songId.n};
      out := Reply(200, Message("deleted successfully"));
    }

    // -------------------------------------------------------------------------
    // The request pipeline

    /** One request: parse the body, then run the first matching handler.
        Nothing changes when parsing throws, when no route matches, or on the
        routes that only read. */
    method Handle(req: Request, now: string) returns (out: Outcome)
      modifies this
      ensures DecodeBody(req.contentType, req.rawBody, req.json).None? ==>
        out == Fault && State() == old(State())
      ensures DecodeBody(req.contentType, req.rawBody, req.json).Some? ==>
        var route := Router.DispatchUrl(req.verb, req.url);
        (route.EndpointNotFound? ==> out == Reply(404, PlainText("Endpoint not found"))) &&
        (route.GetArtist? ==> out == Fault) &&
        (ReadOnly(route) ==> State() == old(State()))
      ensures out.Reply? && out.status == 201 ==> Creates(Router.DispatchUrl(req.verb, req.url))
      ensures Step(old(State()), State())
      ensures Serves(req, now, old(State()), State(), out)
    {
      var decoded := DecodeBody(req.contentType, req.rawBody, req.json);
      if decoded.None? {
        return Fault;
      }
      var route := Router.DispatchUrl(req.verb, req.url);
      if route.EndpointNotFound? {
        out := Reply(404, PlainText("Endpoint not found"));
      } else if ArtistRoute(route) {
        out := RunArtistRoute(route, decoded.value, now);
      } else if AlbumRoute(route) {
        out := RunAlbumRoute(route, decoded.value, now);
      } else {
        out := RunSongRoute(route, decoded.value, now);
      }
    }

    /** The handlers of the routes that start with an artist operation. */
    method RunArtistRoute(route: Router.Route, body: Body, now: string) returns (out: Outcome)
      requires ArtistRoute(route)
      modifies this
      ensures route.GetArtist? ==> out == Fault
      ensures ReadOnly(route) ==> State() == old(State())
      ensures out.Reply? && out.status == 201 ==> Creates(route)
      ensures Step(old(State()), State())
      ensures RouteEffect(route, body, now, old(State()), State(), out)
    {
      match route
      case ListArtists => out := ListArtists();
      case GetArtist(id) => out := GetArtist(id);
      case CreateArtist => out := CreateArtist(body);
      case UpdateArtist(id) => out := UpdateArtist(id, body);
      case DeleteArtist(id) => out := DeleteArtist(id);
    }

    /** The handlers of the album routes. */
    method RunAlbumRoute(route: Router.Route, body: Body, now: string) returns (out: Outcome)
      requires AlbumRoute(route)
      modifies this
      ensures ReadOnly(route) ==> State() == old(State())
      ensures out.Reply? && out.status == 201 ==> Creates(route)
      ensures Step(old(State()), State())
      ensures RouteEffect(route, body, now, old(State()), State(), out)
    {
      match route
      case ArtistAlbums(id) => out := ArtistAlbums(id);
      case GetAlbum(id) => out := GetAlbum(id);
      case CreateAlbum(id) => out := CreateAlbum(id, body);
      case UpdateAlbum(id) => out := UpdateAlbum(id, body, now);
      case DeleteAlbum(id) => out := DeleteAlbum(id);
    }

    /** The handlers of the song routes. */
    method RunSongRoute(route: Router.Route, body: Body, now: string) returns (out: Outcome)
      requires !route.EndpointNotFound? && !ArtistRoute(route) && !AlbumRoute(route)
      modifies this
      ensures ReadOnly(route) ==> State() == old(State())
      ensures out.Reply? && out.status == 201 ==> Creates(route)
      ensures Step(old(State()), State())
      ensures RouteEffect(route, body, now, old(State()), State(), out)
    {
      match route
      case ArtistSongs(id) => out := ArtistSongs(id);
      case AlbumSongs(id) => out := AlbumSongs(id);
      case TrackSongs(id) => out := TrackSongs(id);
      case GetSong(id) => out := GetSong(id);
      case CreateSong(id) => out := CreateSong(id, body);
      case UpdateSong(id) => out := UpdateSong(id, body, now);
      case DeleteSong(id) => out := DeleteSong(id);
    }
  }

  /** What a handler's effect keeps: the state moves by a `Step`, the
      routes that only read change nothing, and only the create routes
      answer 201. */
  lemma RouteEffectKeepsStep(route: Router.Route, body: Body, now: string, before: Tables, after: Tables, out: Outcome)
    requires RouteEffect(route, body, now, before, after, out)
    ensures Step(before, after)
    ensures ReadOnly(route) ==> after == before
    ensures out.Reply? && out.status == 201 ==> Creates(route)
  {
    if ArtistRoute(route) {
      ArtistEffectKeepsStep(route, body, now, before, after, out);
    } else if AlbumRoute(route) {
      AlbumEffectKeepsStep(route, body, now, before, after, out);
    } else {
      SongEffectKeepsStep(route, body, now, before, after, out);
    }
  }

  lemma ArtistEffectKeepsStep(route: Router.Route, body: Body, now: string, before: Tables, after: Tables, out: Outcome)
    requires ArtistRoute(route)
    requires RouteEffect(route, body, now, before, after, out)
    ensures Step(before, after)
    ensures ReadOnly(route) ==> after == before
    ensures out.Reply? && out.status == 201 ==> Creates(route)
  {
    match route
    case ListArtists =>
    case GetArtist(_) =>
    case CreateArtist =>
    case UpdateArtist(id) =>
    case DeleteArtist(id) =>
  }

  lemma AlbumEffectKeepsStep(route: Router.Route, body: Body, now: string, before: Tables, after: Tables, out: Outcome)
    requires AlbumRoute(route)
    requires RouteEffect(route, body, now, before, after, out)
    ensures Step(before, after)
    ensures ReadOnly(route) ==> after == before
    ensures out.Reply? && out.status == 201 ==> Creates(route)
  {
    match route
    case ArtistAlbums(id) =>
    case GetAlbum(id) =>
    case CreateAlbum(id) => CreateAlbumKeepsStep(before, id, body, after, out);
    case UpdateAlbum(id) => UpdateAlbumKeepsStep(before, id, body, now, after, out);
    case DeleteAlbum(id) => DeleteAlbumKeepsStep(before, id, after, out);
  }

  lemma CreateAlbumKeepsStep(before: Tables, segment: string, body: Body, after: Tables, out: Outcome)
    requires CreateAlbumEffect(before, segment, body, after, out)
    ensures Step(before, after)
  {
  }

  lemma UpdateAlbumKeepsStep(before: Tables, segment: string, body: Body, now: string, after: Tables, out: Outcome)
    requires UpdateAlbumEffect(before, segment, body, now, after, out)
    ensures Step(before, after)
  {
  }

  lemma DeleteAlbumKeepsStep(before: Tables, segment: string, after: Tables, out: Outcome)
    requires DeleteAlbumEffect(before, segment, after, out)
    ensures Step(before, after)
  {
  }

  lemma SongEffectKeepsStep(route: Router.Route, body: Body, now: string, before: Tables, after: Tables, out: Outcome)
    requires !ArtistRoute(route) && !AlbumRoute(route)
    requires RouteEffect(route, body, now, before, after, out)
    ensures Step(before, after)
    ensures ReadOnly(route) ==> after == before
    ensures out.Reply? && out.status == 201 ==> Creates(route)
  {
    match route
    case ArtistSongs(id) =>
    case AlbumSongs(id) =>
    case TrackSongs(id) =>
    case GetSong(id) => GetSongKeepsStep(before, id, after, out);
    case CreateSong(id) => CreateSongKeepsStep(before, id, body, after, out);
    case UpdateSong(id) => UpdateSongKeepsStep(before, id, body, now, after, out);
    case DeleteSong(id) => DeleteSongKeepsStep(before, id, after, out);
    case EndpointNotFound =>
  }

  lemma GetSongKeepsStep(before: Tables, segment: string, after: Tables, out: Outcome)
    requires GetSongEffect(before, segment, after, out)
    ensures Step(before, after)
  {
  }

  lemma CreateSongKeepsStep(before: Tables, segment: string, body: Body, after: Tables, out: Outcome)
    requires CreateSongEffect(before, segment, body, after, out)
    ensures Step(before, after)
  {
  }

  lemma UpdateSongKeepsStep(before: Tables, segment: string, body: Body, now: string, after: Tables, out: Outcome)
    requires UpdateSongEffect(before, segment, body, now, after, out)
    ensures Step(before, after)
  {
  }

  lemma DeleteSongKeepsStep(before: Tables, segment: string, after: Tables, out: Outcome)
    requires DeleteSongEffect(before, segment, after, out)
    ensures Step(before, after)
  {
  }

  /** The effect of a route is fully determined by the route, the body, the
      clock and the state before it. */
  lemma RouteEffectDeterministic(route: Router.Route, body: Body, now: string, before: Tables,
                                 after1: Tables, out1: Outcome, after2: Tables, out2: Outcome)
    requires RouteEffect(route, body, now, before, after1, out1)
    requires RouteEffect(route, body, now, before, after2, out2)
    ensures after1 == after2 && out1 == out2
  {
    match route
    case ListArtists =>
    case GetArtist(_) =>
    case CreateArtist =>
    case UpdateArtist(id) =>
    case DeleteArtist(id) =>
    case ArtistAlbums(id) =>
    case GetAlbum(id) =>
    case CreateAlbum(id) =>
    case UpdateAlbum(id) =>
    case DeleteAlbum(id) =>
    case ArtistSongs(id) =>
    case AlbumSongs(id) =>
    case TrackSongs(id) =>
    case GetSong(id) =>
    case CreateSong(id) =>
    case UpdateSong(id) =>
    case DeleteSong(id) =>
    case EndpointNotFound =>
  }

  /** The same for a whole request, which also changes nothing when its body
      fails to parse. */
  lemma ServesKeepsStep(req: Request, now: string, before: Tables, after: Tables, out: Outcome)
    requires Serves(req, now, before, after, out)
    ensures Step(before, after)
    ensures DecodeBody(req.contentType, req.rawBody, req.json).None? ==> out == Fault && after == before
    ensures ReadOnly(Router.DispatchUrl(req.verb, req.url)) ==> after == before
    ensures out.Reply? && out.status == 201 ==> Creates(Router.DispatchUrl(req.verb, req.url))
  {
    var decoded := DecodeBody(req.contentType, req.rawBody, req.json);
    if decoded.Some? {
      RouteEffectKeepsStep(Router.DispatchUrl(req.verb, req.url), decoded.value, now, before, after, out);
    }
  }

  lemma ServesDeterministic(req: Request, now: string, before: Tables,
                            after1: Tables, out1: Outcome, after2: Tables, out2: Outcome)
    requires Serves(req, now, before, after1, out1)
    requires Serves(req, now, before, after2, out2)
    ensures after1 == after2 && out1 == out2
  {
    var decoded := DecodeBody(req.contentType, req.rawBody, req.json);
    if decoded.Some? {
      RouteEffectDeterministic(Router.DispatchUrl(req.verb, req.url), decoded.value, now, before,
                               after1, out1, after2, out2);
    }
  }

  /** What every request keeps: no counter goes back, and both invariants
      survive. Since keys stay below the counters, no ID is handed out twice. */
  predicate Step(before: Tables, after: Tables) {
    before.nextArtistId <= after.nextArtistId &&
    before.nextAlbumId <= after.nextAlbumId &&
    before.nextSongId <= after.nextSongId &&
    (Fresh(before) ==> Fresh(after)) &&
    (Consistent(before) ==> Consistent(after))
  }

  predicate ArtistRoute(r: Router.Route) {
    r.ListArtists? || r.GetArtist? || r.CreateArtist? || r.UpdateArtist? || r.DeleteArtist?
  }

  predicate AlbumRoute(r: Router.Route) {
    r.ArtistAlbums? || r.GetAlbum? || r.CreateAlbum? || r.UpdateAlbum? || r.DeleteAlbum?
  }

  predicate Creates(r: Router.Route) {
    r.CreateArtist? || r.CreateAlbum? || r.CreateSong?
  }

  /** `!name || !lyrics || !trackNumber` is false: the body has all three
      fields and none of them is falsy (so a track number 0 is refused). */
  predicate SongFieldsPresent(fields: map<string, Value>)
    ensures SongFieldsPresent(fields) <==>
      ("name" in fields && fields["name"] !in Falsy) &&
      ("lyrics" in fields && fields["lyrics"] !in Falsy) &&
      ("trackNumber" in fields && fields["trackNumber"] !in Falsy)
  {
    Truthy(Field(fields, "name")) && Truthy(Field(fields, "lyrics")) && Truthy(Field(fields, "trackNumber"))
  }

  /** The routes whose handlers change nothing. GET /songs/:songId is not
      one of them: it writes the album and artist onto the stored song. */
  predicate ReadOnly(r: Router.Route) {
    r.ListArtists? || r.GetArtist? || r.ArtistAlbums? || r.GetAlbum? ||
    r.ArtistSongs? || r.AlbumSongs? || r.TrackSongs? || r.EndpointNotFound?
  }
}
