/** The catalogue's records, the order in which `Object.values` lists an
    ID-keyed table, and the filtering queries built on it. */
module Catalogue {
  import opened Js

  /** `{artistId, name}`; `name` is whatever the request body held. */
  datatype Artist = Artist(artistId: nat, name: Value)

  /** `{albumId, name, artistId, updatedAt?}`. `artistId` is `Number(segment)`
      of the creating request, so it can be NaN; `updatedAt` is the `Date()`
      string of the last update. */
  datatype Album = Album(albumId: nat, name: Value, artistId: Number, updatedAt: Option<string>)

  /** `{songId, name, trackNumber, albumId, lyrics, updatedAt?}` plus the
      `album` and `artist` objects GET /songs/:songId writes onto it. */
  datatype Song = Song(songId: nat, name: Value, trackNumber: Value, albumId: nat, lyrics: Value,
                       updatedAt: Option<string>, album: Option<Album>, artist: Option<Artist>)

  // ---------------------------------------------------------------------------
  // Object.values order

  lemma {:induction false} LeastExists(ks: set<nat>)
    requires ks != {}
    ensures exists m :: m in ks && forall k :: k in ks ==> m <= k
  {
    var x :| x in ks;
    var rest := ks - {x};
    if rest == {} {
      forall k | k in ks ensures k == x {
        assert k !in rest;
      }
      assert x in ks && forall k :: k in ks ==> x <= k;
    } else {
      LeastExists(rest);
      var m :| m in rest && forall k :: k in rest ==> m <= k;
      var least := Min(x, m);
      forall k | k in ks ensures least <= k {
        if k != x { assert k in rest; }
      }
      assert least in ks && forall k :: k in ks ==> least <= k;
    }
  }

  function Min(a: nat, b: nat): nat { if a <= b then a else b }

  function Least(ks: set<nat>): (m: nat)
    requires ks != {}
    ensures m in ks && forall k :: k in ks ==> m <= k
  {
    LeastExists(ks);
    var m :| m in ks && forall k :: k in ks ==> m <= k;
    m
  }

  /** The keys in ascending order: the order `Object.values` uses for
      integer-like property names. */
  function SortedKeys(ks: set<nat>): (r: seq<nat>)
    ensures |r| == |ks|
    ensures forall k :: k in r <==> k in ks
    ensures forall i, j :: 0 <= i < j < |r| ==> r[i] < r[j]
    decreases ks
  {
    if ks == {} then []
    else
      var m := Least(ks);
      [m] + SortedKeys(ks - {m})
  }

  /** `Object.values(table)`: every record, in ascending key order. */
  function TableValues<T(==,!new)>(t: map<nat, T>): (r: seq<T>)
    ensures |r| == |t|
    ensures forall v :: v in r <==> v in t.Values
  {
    var ks := SortedKeys(t.Keys);
    var r := seq(|ks|, i requires 0 <= i < |ks| => t[ks[i]]);
    ValuesListed(t, ks, r);
    r
  }

  /** Listing a table's value under each of its keys lists every value. */
  lemma ValuesListed<T>(t: map<nat, T>, ks: seq<nat>, r: seq<T>)
    requires forall k :: k in ks <==> k in t
    requires |r| == |ks| && forall i :: 0 <= i < |ks| ==> r[i] == t[ks[i]]
    ensures forall v :: v in r <==> v in t.Values
  {
    forall v | v in r ensures v in t.Values {
      var i :| 0 <= i < |r| && r[i] == v;
      assert ks[i] in t;
    }
    forall v | v in t.Values ensures v in r {
      var k :| k in t && t[k] == v;
      var i :| 0 <= i < |ks| && ks[i] == k;
      assert r[i] == v;
    }
  }

  /** `xs` is listed in strictly ascending order of `rank`. */
  ghost predicate Ascending<T>(xs: seq<T>, rank: T -> int) {
    forall i, j :: 0 <= i < j < |xs| ==> rank(xs[i]) < rank(xs[j])
  }

  /** When every record carries its own key as its ID, `Object.values` lists
      the records in ascending ID order. */
  lemma ValuesAscending<T(!new)>(t: map<nat, T>, id: T -> int)
    requires forall k :: k in t ==> id(t[k]) == k
    ensures Ascending(TableValues(t), id)
  {
  }

  // ---------------------------------------------------------------------------
  // Array.prototype.filter

  function Filter<T(!new)>(xs: seq<T>, p: T -> bool): (r: seq<T>)
    ensures |r| <= |xs|
    ensures forall x :: x in r <==> x in xs && p(x)
  {
    if xs == [] then []
    else if p(xs[0]) then [xs[0]] + Filter(xs[1..], p)
    else Filter(xs[1..], p)
  }

  /** Filtering keeps the order of what it keeps. */
  lemma {:induction false} FilterKeepsAscending<T(!new)>(xs: seq<T>, p: T -> bool, rank: T -> int)
    requires Ascending(xs, rank)
    ensures Ascending(Filter(xs, p), rank)
  {
    if xs != [] {
      assert Ascending(xs[1..], rank);
      FilterKeepsAscending(xs[1..], p, rank);
      var rest := Filter(xs[1..], p);
      if p(xs[0]) {
        forall j | 0 <= j < |rest| ensures rank(xs[0]) < rank(rest[j]) {
          assert rest[j] in xs[1..];
        }
      }
    }
  }

  // ---------------------------------------------------------------------------
  // The queries behind the filtering routes

  /** `album.artistId == segment`: loose equality converts the segment with
      `Number(...)`, and a NaN artist ID equals nothing. */
  predicate ByArtist(a: Album, segment: string)
    ensures ByArtist(a, segment) ==> AllDigits(segment) && a.artistId.Finite?
  {
    a.artistId.Finite? && NumberOf(segment) == a.artistId
  }

  /** `song.albumId === Number(segment)`. */
  predicate ByAlbum(s: Song, segment: string)
    ensures ByAlbum(s, segment) ==> AllDigits(segment)
  {
    NumberOf(segment) == Finite(s.albumId)
  }

  /** `song.trackNumber === Number(segment)`: strict equality, so a track
      number the body sent as a string never matches. */
  predicate ByTrack(s: Song, segment: string)
    ensures ByTrack(s, segment) ==> AllDigits(segment) && s.trackNumber.Num?
  {
    NumberOf(segment).Finite? && s.trackNumber == Num(NumberOf(segment).n)
  }

  /** What the three match tests mean for a segment: the decimal name of `n`
      matches exactly the records whose ID or track number is the number `n`
      (never a string track number), and a segment with anything but digits
      matches nothing. */
  lemma SegmentMatches(a: Album, s: Song, segment: string, n: nat)
    ensures segment == DecimalString(n) ==>
      (ByArtist(a, segment) <==> a.artistId == Finite(n)) &&
      (ByAlbum(s, segment) <==> s.albumId == n) &&
      (ByTrack(s, segment) <==> s.trackNumber == Num(n))
    ensures !AllDigits(segment) ==> !ByArtist(a, segment) && !ByAlbum(s, segment) && !ByTrack(s, segment)
    ensures !s.trackNumber.Num? ==> !ByTrack(s, segment)
  {
    if segment == DecimalString(n) {
      DecimalNamesKey(n);
    }
  }

  /** GET /artists/:artistId/albums: the albums whose artist is the segment. */
  function AlbumsOfArtist(albums: map<nat, Album>, segment: string): (r: seq<Album>)
    ensures forall a :: a in r <==> a in albums.Values && ByArtist(a, segment)
    ensures r == [] <==> forall k :: k in albums ==> !ByArtist(albums[k], segment)
  {
    var r := Filter(TableValues(albums), (a: Album) => ByArtist(a, segment));
    assert r != [] ==> r[0] in r;
    assert forall k :: k in albums ==> albums[k] in albums.Values;
    r
  }

  /** The IDs of a list of albums, in the same order. */
  function AlbumIds(albums: seq<Album>): (r: seq<nat>)
    ensures |r| == |albums|
    ensures forall id :: id in r <==> exists a :: a in albums && a.albumId == id
  {
    var r := seq(|albums|, i requires 0 <= i < |albums| => albums[i].albumId);
    assert forall id :: id in r <==> exists a :: a in albums && a.albumId == id by {
      forall id | id in r ensures exists a :: a in albums && a.albumId == id {
        var i :| 0 <= i < |r| && r[i] == id;
        assert albums[i] in albums;
      }
      forall id | exists a :: a in albums && a.albumId == id ensures id in r {
        var a :| a in albums && a.albumId == id;
        var i :| 0 <= i < |albums| && albums[i] == a;
        assert r[i] == id;
      }
    }
    r
  }

  /** GET /artists/:artistId/songs, second step: the songs on one of the
      given albums (`artistAlbumIds.includes(song.albumId)`). */
  function SongsOnAlbums(songs: map<nat, Song>, albumIds: seq<nat>): (r: seq<Song>)
    ensures forall s :: s in r <==> s in songs.Values && s.albumId in albumIds
  {
    Filter(TableValues(songs), (s: Song) => s.albumId in albumIds)
  }

  /** Some album of the table names the artist and has album ID `id`. */
  predicate ArtistHasAlbum(albums: map<nat, Album>, segment: string, id: nat) {
    exists a :: a in albums.Values && ByArtist(a, segment) && a.albumId == id
  }

  /** The IDs collected from the artist's albums are exactly the IDs of the
      albums that name the artist. */
  lemma ArtistAlbumIds(albums: map<nat, Album>, segment: string, id: nat)
    ensures id in AlbumIds(AlbumsOfArtist(albums, segment)) <==> ArtistHasAlbum(albums, segment, id)
  {
  }

  /** GET /artists/:artistId/songs, both steps: the songs on any album that
      names the artist. */
  function SongsOfArtist(albums: map<nat, Album>, songs: map<nat, Song>, segment: string): (r: seq<Song>)
    ensures forall s :: s in r <==> s in songs.Values && ArtistHasAlbum(albums, segment, s.albumId)
  {
    var ids := AlbumIds(AlbumsOfArtist(albums, segment));
    var r := SongsOnAlbums(songs, ids);
    assert forall s :: s in r <==> s in songs.Values && ArtistHasAlbum(albums, segment, s.albumId) by {
      forall s | s in songs.Values {
        ArtistAlbumIds(albums, segment, s.albumId);
      }
    }
    r
  }

  /** GET /albums/:albumId/songs. */
  function SongsOfAlbum(songs: map<nat, Song>, segment: string): (r: seq<Song>)
    ensures forall s :: s in r <==> s in songs.Values && ByAlbum(s, segment)
    ensures r == [] <==> forall k :: k in songs ==> !ByAlbum(songs[k], segment)
  {
    var r := Filter(TableValues(songs), (s: Song) => ByAlbum(s, segment));
    assert r != [] ==> r[0] in r;
    assert forall k :: k in songs ==> songs[k] in songs.Values;
    r
  }

  /** GET /trackNumbers/:trackNumber/songs. */
  function SongsWithTrack(songs: map<nat, Song>, segment: string): (r: seq<Song>)
    ensures forall s :: s in r <==> s in songs.Values && ByTrack(s, segment)
    ensures r == [] <==> forall k :: k in songs ==> !ByTrack(songs[k], segment)
  {
    var r := Filter(TableValues(songs), (s: Song) => ByTrack(s, segment));
    assert r != [] ==> r[0] in r;
    assert forall k :: k in songs ==> songs[k] in songs.Values;
    r
  }

  /** A song whose track number arrived as a string (every form-encoded
      body) is never found by track number. */
  lemma StringTrackNeverMatches(songs: map<nat, Song>, segment: string)
    ensures forall s :: s in SongsWithTrack(songs, segment) ==> s.trackNumber.Num?
  {
  }

  /** The filtering routes answer in ascending ID order when every record
      carries its own key as its ID. */
  lemma QueriesAscending(albums: map<nat, Album>, songs: map<nat, Song>, segment: string)
    requires forall k :: k in albums ==> albums[k].albumId == k
    requires forall k :: k in songs ==> songs[k].songId == k
    ensures Ascending(AlbumsOfArtist(albums, segment), (a: Album) => a.albumId)
    ensures Ascending(SongsOfAlbum(songs, segment), (s: Song) => s.songId)
    ensures Ascending(SongsWithTrack(songs, segment), (s: Song) => s.songId)
    ensures Ascending(SongsOfArtist(albums, songs, segment), (s: Song) => s.songId)
  {
    var albumId := (a: Album) => a.albumId;
    var songId := (s: Song) => s.songId;
    ValuesAscending(albums, albumId);
    ValuesAscending(songs, songId);
    FilterKeepsAscending(TableValues(albums), (a: Album) => ByArtist(a, segment), albumId);
    FilterKeepsAscending(TableValues(songs), (s: Song) => ByAlbum(s, segment), songId);
    FilterKeepsAscending(TableValues(songs), (s: Song) => ByTrack(s, segment), songId);
    var ids := AlbumIds(AlbumsOfArtist(albums, segment));
    FilterKeepsAscending(TableValues(songs), (s: Song) => s.albumId in ids, songId);
  }
}
