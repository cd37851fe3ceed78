/** The three endpoint parsers: each maps one decoded page to one flat record
    per element of its `items`, or raises on the first missing key. */
module Parsers {
  import opened Json

  /** Which endpoint a page comes from, and so which parser reads it. */
  datatype Kind = Library | TopTracks | Recent

  /** One output row. The parsers copy each leaf value without looking at its
      type, so the fields hold JSON values. */
  datatype Record =
    | Track(name: Json, popularity: Json, albumName: Json, artistNames: Json, spotifyUri: Json)
    | Played(name: Json, popularity: Json, albumName: Json, artistNames: Json, spotifyUri: Json,
             timePlayed: Json)

  /** The shape a track object must have for every field read to succeed:
      `name`, `popularity`, `album.name`, `artists[0].name` and `uri`, where
      `artists` is a non-empty list. */
  predicate TrackShaped(t: Json) {
    && HasField(t, "name")
    && HasField(t, "popularity")
    && HasField(t, "album") && HasField(t.fields["album"], "name")
    && HasField(t, "artists") && t.fields["artists"].JArr? && |t.fields["artists"].elems| > 0
    && HasField(t.fields["artists"].elems[0], "name")
    && HasField(t, "uri")
  }

  /** The object the track fields are read from: the item itself for top
      tracks, `item["track"]` for library and recently played items. */
  function TrackOf(kind: Kind, item: Json): Json
    requires kind != TopTracks ==> HasField(item, "track")
  {
    if kind == TopTracks then item else item.fields["track"]
  }

  /** The shape an item must have for its parser to succeed. */
  predicate ItemShaped(kind: Kind, item: Json) {
    && (kind != TopTracks ==> HasField(item, "track"))
    && TrackShaped(TrackOf(kind, item))
    && (kind == Recent ==> HasField(item, "played_at"))
  }

  /** The record a well-shaped item yields, read straight off the JSON tree. */
  function ExpectedRecord(kind: Kind, item: Json): Record
    requires ItemShaped(kind, item)
  {
    var t := TrackOf(kind, item);
    var name := t.fields["name"];
    var popularity := t.fields["popularity"];
    var albumName := t.fields["album"].fields["name"];
    var artistName := t.fields["artists"].elems[0].fields["name"];
    var uri := t.fields["uri"];
    if kind == Recent then Played(name, popularity, albumName, artistName, uri, item.fields["played_at"])
    else Track(name, popularity, albumName, artistName, uri)
  }

  /** The five track fields, read in the order the dict literal evaluates them. */
  function TrackRecord(t: Json): (r: Result<Record>)
    ensures r.Ok? <==> TrackShaped(t)
    ensures r.Ok? ==> r.value.Track?
    ensures r.Ok? ==> r.value == ExpectedRecord(TopTracks, t)
  {
    var name :- Get(t, "name");
    var popularity :- Get(t, "popularity");
    var album :- Get(t, "album");
    var albumName :- Get(album, "name");
    var artists :- Get(t, "artists");
    var firstArtist :- First(artists);
    var artistName :- Get(firstArtist, "name");
    var uri :- Get(t, "uri");
    Ok(Track(name, popularity, albumName, artistName, uri))
  }

  /** The record one parser builds from one element of `items`. */
  function ParseItem(kind: Kind, item: Json): (r: Result<Record>)
    ensures r.Ok? <==> ItemShaped(kind, item)
    ensures r.Ok? ==> r.value == ExpectedRecord(kind, item)
    ensures r.Ok? ==> (r.value.Played? <==> kind == Recent)
  {
    match kind
    case TopTracks => TrackRecord(item)
    case Library =>
      var track :- Get(item, "track");
      TrackRecord(track)
    case Recent =>
      var track :- Get(item, "track");
      var t :- TrackRecord(track);
      var playedAt :- Get(item, "played_at");
      Ok(Played(t.name, t.popularity, t.albumName, t.artistNames, t.spotifyUri, playedAt))
  }

  /** `for item in page["items"]`, as far as the parsers can tell. A str is
      iterated character by character. Iterating a dict yields its keys, which
      are strs, and every parser's first step on an item is a str subscript,
      which raises TypeError on a str: so a non-empty dict fails at its first
      item whatever order its keys come in, and an empty one yields nothing. */
  function Items(page: Json): (r: Result<seq<Json>>)
    ensures r.Ok? ==> HasField(page, "items")
    ensures !page.JObj? ==> r == Err(TypeError)
    ensures page.JObj? && "items" !in page.fields ==> r == Err(KeyError(JStr("items")))
    ensures HasField(page, "items") && page.fields["items"].JArr? ==> r == Ok(page.fields["items"].elems)
  {
    var items :- Get(page, "items");
    match items
    case JArr(elems) => Ok(elems)
    case JStr(s) => Ok(seq(|s|, i requires 0 <= i < |s| => JStr([s[i]])))
    case JObj(fields) => if fields == map[] then Ok([]) else Err(TypeError)
    case _ => Err(TypeError)
  }

  /** Consuming the generator: one record per item, in order; the first item
      that fails ends the whole parse with its error, so no item is skipped. */
  function ParseAll(kind: Kind, items: seq<Json>): (r: Result<seq<Record>>)
    ensures r.Ok? <==> forall i :: 0 <= i < |items| ==> ItemShaped(kind, items[i])
    ensures r.Ok? ==> |r.value| == |items|
    ensures r.Ok? ==> forall i :: 0 <= i < |items| ==> r.value[i] == ExpectedRecord(kind, items[i])
    ensures r.Err? ==> exists k :: 0 <= k < |items| && ParseItem(kind, items[k]) == Err(r.error)
                                   && forall i :: 0 <= i < k ==> ItemShaped(kind, items[i])
  {
    if items == [] then Ok([])
    else
      var first :- ParseItem(kind, items[0]);
      var rest :- ParseAll(kind, items[1..]);
      Ok([first] + rest)
  }

  /** The parser bound to an endpoint, applied to one page. */
  function ParsePage(kind: Kind, page: Json): (r: Result<seq<Record>>)
    ensures r.Ok? ==> HasField(page, "items") && Items(page).Ok?
    ensures r.Ok? <==> Items(page).Ok? && forall i :: 0 <= i < |Items(page).value| ==> ItemShaped(kind, Items(page).value[i])
    ensures r.Ok? ==> |r.value| == |Items(page).value|
    ensures r.Ok? ==> forall i :: 0 <= i < |r.value| ==> r.value[i] == ExpectedRecord(kind, Items(page).value[i])
  {
    var items :- Items(page);
    ParseAll(kind, items)
  }

  /** Library items are read through `item["track"]`, top-track items
      directly: a library item parses exactly as its `track` would parse on
      the top-tracks endpoint. */
  lemma LibraryReadsNestedTrack(item: Json)
    ensures HasField(item, "track") ==> ParseItem(Library, item) == ParseItem(TopTracks, item.fields["track"])
    ensures item.JObj? && "track" !in item.fields ==> ParseItem(Library, item) == Err(KeyError(JStr("track")))
  {
  }

  /** A recently played item yields the library record of the same item plus
      `timePlayed`, and fails whenever the library parser fails on it or it
      has no `played_at`. */
  lemma RecentExtendsLibrary(item: Json)
    ensures ParseItem(Recent, item).Ok? <==> ParseItem(Library, item).Ok? && HasField(item, "played_at")
    ensures ParseItem(Library, item).Err? ==> ParseItem(Recent, item) == Err(ParseItem(Library, item).error)
    ensures ParseItem(Recent, item).Ok? ==>
      var t := ParseItem(Library, item).value;
      ParseItem(Recent, item).value
        == Played(t.name, t.popularity, t.albumName, t.artistNames, t.spotifyUri, item.fields["played_at"])
  {
  }

  /** An item whose track lists no artists fails the whole page: the page is
      never parsed with that item dropped. */
  lemma EmptyArtistsFailsPage(kind: Kind, page: Json, k: nat)
    requires HasField(page, "items") && page.fields["items"].JArr?
    requires k < |page.fields["items"].elems|
    requires var item := page.fields["items"].elems[k];
      (kind != TopTracks ==> HasField(item, "track"))
      && HasField(TrackOf(kind, item), "artists")
      && TrackOf(kind, item).fields["artists"] == JArr([])
    ensures ParsePage(kind, page).Err?
  {
  }

  /** A parsed page holds records of its parser's shape only: with
      `timePlayed` exactly when the endpoint is the recently-played one. */
  lemma PageRecordsOfKind(kind: Kind, page: Json)
    requires ParsePage(kind, page).Ok?
    ensures forall k :: 0 <= k < |ParsePage(kind, page).value| ==>
      (ParsePage(kind, page).value[k].Played? <==> kind == Recent)
  {
  }
}
