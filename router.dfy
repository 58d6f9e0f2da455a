/** The route dispatcher: an ordered chain of tests on the request verb,
    the raw URL and the URL's `/`-separated parts; the first test that holds
    picks the handler. */
module Router {
  import opened Js

  /** The handler a request reaches, with the path segment it captures. */
  datatype Route =
    | ListArtists
    | GetArtist(id: string)
    | CreateArtist
    | UpdateArtist(id: string)
    | DeleteArtist(id: string)
    | ArtistAlbums(id: string)
    | GetAlbum(id: string)
    | CreateAlbum(id: string)
    | UpdateAlbum(id: string)
    | DeleteAlbum(id: string)
    | ArtistSongs(id: string)
    | AlbumSongs(id: string)
    | TrackSongs(id: string)
    | GetSong(id: string)
    | CreateSong(id: string)
    | UpdateSong(id: string)
    | DeleteSong(id: string)
    | EndpointNotFound

  predicate IsEdit(verb: string) {
    verb == "PUT" || verb == "PATCH"
  }

  /** `parts[i] === word`, false when `parts[i]` is undefined. */
  predicate PartIs(parts: seq<string>, i: nat, word: string) {
    i < |parts| && parts[i] == word
  }

  /** `req.url === "/artists"`, read off the URL's parts (see UrlTests). */
  predicate IsArtistsUrl(parts: seq<string>) {
    parts == ["", "artists"]
  }

  /** `req.url.startsWith("/artists")`, read off the URL's parts (see UrlTests). */
  predicate HasArtistsPrefix(parts: seq<string>) {
    |parts| >= 2 && parts[0] == "" && StartsWith(parts[1], "artists")
  }

  /** The handler chain in source order, on the request verb and the parts
      of `req.url.split('/')`. The artist routes test the raw URL with
      `startsWith("/artists")`; the routes that look at `parts[3]` do not check
      how many parts there are. */
  function Dispatch(verb: string, parts: seq<string>): (r: Route)
    ensures !r.EndpointNotFound? && !r.ListArtists? && !r.CreateArtist? ==> |parts| >= 3 && r.id == parts[2]
    ensures verb !in {"GET", "POST", "PUT", "PATCH", "DELETE"} ==> r == EndpointNotFound
  {
    var artistPath := HasArtistsPrefix(parts) && |parts| == 3;
    if verb == "GET" && IsArtistsUrl(parts) then ListArtists
    else if verb == "GET" && artistPath then GetArtist(parts[2])
    else if verb == "POST" && IsArtistsUrl(parts) then CreateArtist
    else if IsEdit(verb) && artistPath then UpdateArtist(parts[2])
    else if verb == "DELETE" && artistPath then DeleteArtist(parts[2])
    else if verb == "GET" && PartIs(parts, 1, "artists") && PartIs(parts, 3, "albums") then ArtistAlbums(parts[2])
    else if verb == "GET" && PartIs(parts, 1, "albums") && |parts| == 3 then GetAlbum(parts[2])
    else if verb == "POST" && PartIs(parts, 1, "artists") && PartIs(parts, 3, "albums") then CreateAlbum(parts[2])
    else if IsEdit(verb) && PartIs(parts, 1, "albums") && |parts| == 3 then UpdateAlbum(parts[2])
    else if verb == "DELETE" && PartIs(parts, 1, "albums") && |parts| == 3 then DeleteAlbum(parts[2])
    else if verb == "GET" && PartIs(parts, 1, "artists") && PartIs(parts, 3, "songs") then ArtistSongs(parts[2])
    else if verb == "GET" && PartIs(parts, 1, "albums") && PartIs(parts, 3, "songs") then AlbumSongs(parts[2])
    else if verb == "GET" && PartIs(parts, 1, "trackNumbers") && PartIs(parts, 3, "songs") then TrackSongs(parts[2])
    else if verb == "GET" && PartIs(parts, 1, "songs") && |parts| == 3 then GetSong(parts[2])
    else if verb == "POST" && PartIs(parts, 1, "albums") && PartIs(parts, 3, "songs") then CreateSong(parts[2])
    else if IsEdit(verb) && PartIs(parts, 1, "songs") && |parts| == 3 then UpdateSong(parts[2])
    else if verb == "DELETE" && PartIs(parts, 1, "songs") && |parts| == 3 then DeleteSong(parts[2])
    else EndpointNotFound
  }

  /** The route of a request line. */
  function DispatchUrl(verb: string, url: string): (r: Route)
    ensures ByArtistPrefix(r) ==> StartsWith(url, "/artists")
    ensures r.ListArtists? || r.CreateArtist? ==> url == "/artists"
  {
    UrlHasArtistsPrefix(url);
    UrlIsArtists(url);
    Dispatch(verb, Split(url, '/'))
  }

  /** The artist routes that test the raw URL with `startsWith("/artists")`. */
  predicate ByArtistPrefix(r: Route) {
    r.GetArtist? || r.UpdateArtist? || r.DeleteArtist?
  }

  lemma {:induction false} SplitFirstPiece(p: string, t: string, sep: char)
    requires sep !in p
    ensures |Split(p + t, sep)| == |Split(t, sep)|
    ensures Split(p + t, sep)[0] == p + Split(t, sep)[0]
    ensures Split(p + t, sep)[1..] == Split(t, sep)[1..]
  {
    if p == [] {
      assert p + t == t;
    } else {
      assert (p + t)[1..] == p[1..] + t;
      SplitFirstPiece(p[1..], t, sep);
      assert [p[0]] + (p[1..] + Split(t, sep)[0]) == p + Split(t, sep)[0];
    }
  }

  lemma ArtistsUrlParts()
    ensures Split("/artists", '/') == ["", "artists"]
  {
    SplitNoSeparator("artists", '/');
    SplitAtSeparator("", "artists", '/');
    assert "" + ['/'] + "artists" == "/artists";
  }

  /** `req.url === "/artists"` is a test on the URL's parts. */
  lemma UrlIsArtists(url: string)
    ensures url == "/artists" <==> IsArtistsUrl(Split(url, '/'))
  {
    ArtistsUrlParts();
    if IsArtistsUrl(Split(url, '/')) {
      JoinSplit(url, '/');
      assert Join(["", "artists"], '/') == "" + ['/'] + "artists";
    }
  }

  lemma PrefixGivesParts(url: string)
    requires StartsWith(url, "/artists")
    ensures HasArtistsPrefix(Split(url, '/'))
  {
    var t := url[8..];
    assert url == "" + ['/'] + ("artists" + t);
    SplitAtSeparator("", "artists" + t, '/');
    SplitFirstPiece("artists", t, '/');
    var parts := Split(url, '/');
    assert parts[1] == "artists" + Split(t, '/')[0];
    assert parts[1][..7] == "artists";
  }

  lemma PartsGivePrefix(url: string)
    requires HasArtistsPrefix(Split(url, '/'))
    ensures StartsWith(url, "/artists")
  {
    var parts := Split(url, '/');
    JoinSplit(url, '/');
    var rest := Join(parts[1..], '/');
    assert url == "" + ['/'] + rest;
    assert rest[..|parts[1]|] == parts[1] by {
      if |parts| > 2 {
        assert rest == parts[1] + ['/'] + Join(parts[2..], '/');
      }
    }
    assert url[..8] == ['/'] + rest[..7];
  }

  /** `req.url.startsWith("/artists")` is a test on the URL's parts. */
  lemma UrlHasArtistsPrefix(url: string)
    ensures StartsWith(url, "/artists") <==> HasArtistsPrefix(Split(url, '/'))
  {
    if StartsWith(url, "/artists") { PrefixGivesParts(url); }
    if HasArtistsPrefix(Split(url, '/')) { PartsGivePrefix(url); }
  }

  // ---------------------------------------------------------------------------
  // The documented request line of every route, and the round trip

  /** The verb a client uses for a route; `patch` picks PATCH over PUT
      for the edit routes. */
  function RouteMethod(r: Route, patch: bool): string {
    match r
    case CreateArtist | CreateAlbum(_) | CreateSong(_) => "POST"
    case UpdateArtist(_) | UpdateAlbum(_) | UpdateSong(_) => if patch then "PATCH" else "PUT"
    case DeleteArtist(_) | DeleteAlbum(_) | DeleteSong(_) => "DELETE"
    case _ => "GET"
  }

  /** The parts of the documented path of a route, with its segment filled in. */
  function RouteParts(r: Route): (parts: seq<string>)
    requires !r.EndpointNotFound?
    ensures |parts| >= 2
  {
    match r
    case ListArtists => ["", "artists"]
    case CreateArtist => ["", "artists"]
    case GetArtist(id) => ["", "artists", id]
    case UpdateArtist(id) => ["", "artists", id]
    case DeleteArtist(id) => ["", "artists", id]
    case ArtistAlbums(id) => ["", "artists", id, "albums"]
    case CreateAlbum(id) => ["", "artists", id, "albums"]
    case ArtistSongs(id) => ["", "artists", id, "songs"]
    case GetAlbum(id) => ["", "albums", id]
    case UpdateAlbum(id) => ["", "albums", id]
    case DeleteAlbum(id) => ["", "albums", id]
    case AlbumSongs(id) => ["", "albums", id, "songs"]
    case CreateSong(id) => ["", "albums", id, "songs"]
    case TrackSongs(id) => ["", "trackNumbers", id, "songs"]
    case GetSong(id) => ["", "songs", id]
    case UpdateSong(id) => ["", "songs", id]
    case DeleteSong(id) => ["", "songs", id]
  }

  /** The documented path of a route, such as `/albums/7/songs`. */
  function RoutePath(r: Route): string
    requires !r.EndpointNotFound?
  {
    Join(RouteParts(r), '/')
  }

  /** The chain sends the parts of every documented path to its route. */
  lemma DispatchParts(r: Route, patch: bool)
    requires !r.EndpointNotFound?
    ensures Dispatch(RouteMethod(r, patch), RouteParts(r)) == r
  {
  }

  /** Every route is reached by its documented request line, whatever
      segment (free of `/`) the path carries. */
  lemma DispatchRoundTrip(r: Route, patch: bool)
    requires !r.EndpointNotFound?
    requires !r.ListArtists? && !r.CreateArtist? ==> '/' !in r.id
    ensures DispatchUrl(RouteMethod(r, patch), RoutePath(r)) == r
  {
    var parts := RouteParts(r);
    assert forall i :: 0 <= i < |parts| ==> '/' !in parts[i];
    SplitJoin(parts, '/');
    DispatchParts(r, patch);
  }

  /** Conversely, whatever the chain picks was asked for with the route's
      verb and a path of the route's shape: the same words at the same places
      (a first word that merely starts with `artists` for the prefix-matched
      artist routes), the segment at index 2, and exactly as many parts for
      the routes that count them. A verb the chain does not know reaches no
      handler. */
  lemma DispatchMatchesRequest(verb: string, parts: seq<string>)
    ensures Dispatch(verb, parts) != EndpointNotFound ==>
      RouteMethod(Dispatch(verb, parts), verb == "PATCH") == verb
    ensures var r := Dispatch(verb, parts);
      r != EndpointNotFound ==>
        (|RouteParts(r)| <= |parts| && (|RouteParts(r)| <= 3 ==> |parts| == |RouteParts(r)|))
    ensures var r := Dispatch(verb, parts);
      r != EndpointNotFound && !ByArtistPrefix(r) ==>
        forall i :: 1 <= i < |RouteParts(r)| ==> parts[i] == RouteParts(r)[i]
    ensures var r := Dispatch(verb, parts);
      ByArtistPrefix(r) ==> HasArtistsPrefix(parts) && parts[2] == r.id
    ensures verb !in {"GET", "POST", "PUT", "PATCH", "DELETE"} ==> Dispatch(verb, parts) == EndpointNotFound
  {
  }

  /** On the request line: only GET /artists and POST /artists, exactly,
      reach the list and create handlers, and the single-artist routes are
      reached only by URLs that start with `/artists`. */
  lemma UrlRoutes(verb: string, url: string)
    ensures DispatchUrl(verb, url) == ListArtists <==> verb == "GET" && url == "/artists"
    ensures DispatchUrl(verb, url) == CreateArtist <==> verb == "POST" && url == "/artists"
    ensures ByArtistPrefix(DispatchUrl(verb, url)) ==> StartsWith(url, "/artists")
  {
    UrlIsArtists(url);
    UrlHasArtistsPrefix(url);
  }

  // ---------------------------------------------------------------------------
  // What the chain does with requests off the documented paths

  /** `startsWith("/artists")` also accepts a longer first word:
      DELETE /artistsXYZ/5 deletes artist 5 and GET /artistsXYZ/5 takes the
      single-artist route. */
  lemma ArtistPrefixQuirk(suffix: string, id: string)
    requires '/' !in suffix && '/' !in id
    ensures DispatchUrl("DELETE", Join(["", "artists" + suffix, id], '/')) == DeleteArtist(id)
    ensures DispatchUrl("GET", Join(["", "artists" + suffix, id], '/')) == GetArtist(id)
  {
    var parts := ["", "artists" + suffix, id];
    assert forall i :: 0 <= i < |parts| ==> '/' !in parts[i];
    SplitJoin(parts, '/');
    assert parts[1][..7] == "artists";
  }

  /** The routes that look at `parts[3]` ignore anything after it:
      POST /albums/:id/songs/anything still creates a song. */
  lemma ExtraPartsIgnored(id: string, more: seq<string>)
    ensures Dispatch("GET", ["", "artists", id, "albums"] + more) == ArtistAlbums(id)
    ensures Dispatch("POST", ["", "artists", id, "albums"] + more) == CreateAlbum(id)
    ensures Dispatch("GET", ["", "artists", id, "songs"] + more) == ArtistSongs(id)
    ensures Dispatch("GET", ["", "albums", id, "songs"] + more) == AlbumSongs(id)
    ensures Dispatch("GET", ["", "trackNumbers", id, "songs"] + more) == TrackSongs(id)
    ensures Dispatch("POST", ["", "albums", id, "songs"] + more) == CreateSong(id)
  {
  }

  /** No trailing-slash or query-string handling: GET /albums/:id/ reaches
      no handler, GET /albums/ reaches the single-album handler with an empty
      ID. */
  lemma UnnormalisedPaths(id: string)
    requires '/' !in id
    ensures DispatchUrl("GET", Join(["", "albums", id, ""], '/')) == EndpointNotFound
    ensures DispatchUrl("GET", Join(["", "albums", ""], '/')) == GetAlbum("")
  {
    SplitJoin(["", "albums", id, ""], '/');
    SplitJoin(["", "albums", ""], '/');
  }

  /** A query string is not stripped: GET /artists?sort=name, or /artists
      followed by any query without a `/`, reaches no handler. */
  lemma QueryStringKept(query: string)
    requires '/' !in query
    ensures DispatchUrl("GET", "/artists?" + query) == EndpointNotFound
  {
    var word := "artists?" + query;
    OneWordUrlParts(word);
    assert "/" + word == "/artists?" + query;
  }

  lemma OneWordUrlParts(word: string)
    requires '/' !in word
    ensures Split("/" + word, '/') == ["", word]
  {
    SplitNoSeparator(word, '/');
    SplitAtSeparator("", word, '/');
    assert "" + ['/'] + word == "/" + word;
  }}
