/** Request sequences against one store, and what the handlers' contracts
    let a client conclude from them. */
module Scenarios {
  import opened Js
  import opened Catalogue
  import opened Server

  /** Two POST /artists in a row get consecutive IDs; on a store whose keys
      lie below its counters neither ID was in use. */
  method CreateTwoArtists(s: Store, first: Body, second: Body) returns (a: Artist, b: Artist)
    requires first.Fields? && second.Fields?
    modifies s
    ensures b.artistId == a.artistId + 1
    ensures s.artists == old(s.artists)[a.artistId := a][b.artistId := b]
    ensures Fresh(old(s.State())) ==> a.artistId !in old(s.artists) && b.artistId !in old(s.artists)
  {
    var out1 := s.CreateArtist(first);
    var out2 := s.CreateArtist(second);
    a, b := out1.payload.artist, out2.payload.artist;
  }

  /** An ID is not handed out again after its artist is deleted. */
  method CreateDeleteCreate(s: Store, first: Body, second: Body) returns (a: Artist, b: Artist)
    requires first.Fields? && second.Fields?
    modifies s
    ensures a.artistId < b.artistId
    ensures a.artistId !in s.artists && b.artistId in s.artists
  {
    var out1 := s.CreateArtist(first);
    a := out1.payload.artist;
    DecimalNamesKey(a.artistId);
    var gone := s.DeleteArtist(DecimalString(a.artistId));
    var out2 := s.CreateArtist(second);
    b := out2.payload.artist;
  }

  /** The seed tables are kept as loaded while the counters start at 2, so
      the first POST /artists replaces a seeded artist 2. */
  method FirstCreateReplacesSeedTwo(seedArtists: map<nat, Artist>, body: Body) returns (s: Store, out: Outcome)
    requires 2 in seedArtists && body.Fields?
    ensures out == Reply(201, ArtistRecord(Artist(2, Field(body.fields, "name"))))
    ensures s.artists.Keys == seedArtists.Keys
    ensures 2 in s.artists && s.artists[2] == Artist(2, Field(body.fields, "name"))
  {
    s := new Store(seedArtists, map[], map[]);
    out := s.CreateArtist(body);
  }

  /** DELETE of the same artist twice: the second finds nothing. */
  method DeleteArtistTwice(s: Store, segment: string) returns (first: Outcome, second: Outcome)
    requires HasKey(s.artists, segment)
    modifies s
    ensures first == Reply(200, Message("successfully deleted"))
    ensures second == Reply(404, Error("Artist not found"))
    ensures s.artists == old(s.artists) - {KeyOf(segment).value}
  {
    first := s.DeleteArtist(segment);
    second := s.DeleteArtist(segment);
  }

  /** An album created for an existing artist is then found under the
      decimal form of its new ID. */
  method CreateAlbumThenGet(s: Store, artistId: nat, body: Body) returns (created: Outcome, fetched: Outcome)
    requires artistId in s.artists
    requires body.Fields? && Field(body.fields, "name") != Undefined
    modifies s
    ensures created.Reply? && created.status == 201 && created.payload.AlbumRecord?
    ensures created.payload.album.artistId == Finite(artistId)
    ensures fetched == Reply(200, created.payload)
  {
    DecimalNamesKey(artistId);
    created := s.CreateAlbum(DecimalString(artistId), body);
    var id := created.payload.album.albumId;
    DecimalNamesKey(id);
    fetched := s.GetAlbum(DecimalString(id));
  }

  /** A POST /artists/:artistId/albums that is rejected for its missing name
      still stores its album, which GET /albums/:albumId then returns. */
  method RejectedAlbumIsKept(s: Store, segment: string, body: Body) returns (created: Outcome, fetched: Outcome)
    requires body.Fields? && Field(body.fields, "name") == Undefined
    modifies s
    ensures created.Reply? && created.status == 404
    ensures fetched.Reply? && fetched.status == 200 && fetched.payload.AlbumRecord?
    ensures fetched.payload.album == Album(old(s.nextAlbumId), Undefined, NumberOf(segment), None)
  {
    var id := s.nextAlbumId;
    created := s.CreateAlbum(segment, body);
    DecimalNamesKey(id);
    fetched := s.GetAlbum(DecimalString(id));
  }

  /** A song created on an album is listed by GET /albums/:albumId/songs. */
  method CreateSongThenListAlbum(s: Store, albumId: nat, body: Body) returns (created: Outcome, listed: Outcome)
    requires albumId in s.albums
    requires body.Fields? && SongFieldsPresent(body.fields)
    modifies s
    ensures created.Reply? && created.status == 201 && created.payload.SongRecord?
    ensures listed.Reply? && listed.status == 200 && listed.payload.SongList?
    ensures created.payload.song in listed.payload.songs
  {
    DecimalNamesKey(albumId);
    created := s.CreateSong(DecimalString(albumId), body);
    var song := created.payload.song;
    assert s.songs[song.songId] == song;
    listed := s.AlbumSongs(DecimalString(albumId));
  }

  /** A song whose track number came from a form body is never listed by
      GET /trackNumbers/:trackNumber/songs. */
  method FormSongHasNoTrack(s: Store, albumId: nat, raw: string, segment: string)
    returns (created: Outcome, listed: Outcome)
    requires raw != "" && DecodeBody(Some(FormType), raw, None).Some?
    modifies s
    ensures created.Reply? && created.status == 201 ==>
      created.payload.SongRecord? && created.payload.song.trackNumber.Str?
    ensures listed.Reply? && (listed.status == 200 ==> listed.payload.SongList?)
    ensures created.Reply? && created.status == 201 && listed.status == 200 ==>
      created.payload.song !in listed.payload.songs
  {
    var body := DecodeBody(Some(FormType), raw, None).value;
    FormFieldsAreStrings(raw, "trackNumber");
    created := s.CreateSong(DecimalString(albumId), body);
    listed := s.TrackSongs(segment);
  }

  /** Deleting an album leaves its songs behind, and GET /songs/:songId on
      one of them then throws. */
  method DeleteAlbumThenGetSong(s: Store, songId: nat) returns (deleted: Outcome, fetched: Outcome)
    requires songId in s.songs && s.songs[songId].albumId in s.albums
    modifies s
    ensures deleted == Reply(200, Message("Successfully deleted"))
    ensures fetched == Fault
  {
    var albumId := s.songs[songId].albumId;
    DecimalNamesKey(albumId);
    deleted := s.DeleteAlbum(DecimalString(albumId));
    DecimalNamesKey(songId);
    fetched := s.GetSong(DecimalString(songId));
  }

  /** A track number of 0 is falsy, so the song is refused and nothing is
      stored. */
  method ZeroTrackRejected(s: Store, segment: string, name: string, lyrics: string) returns (out: Outcome)
    requires name != "" && lyrics != ""
    modifies s
    ensures out == Reply(404, Error(BodyError))
    ensures s.State() == old(s.State())
  {
    var body := Fields(map["name" := Str(name), "lyrics" := Str(lyrics), "trackNumber" := Num(0)]);
    out := s.CreateSong(segment, body);
  }
}
