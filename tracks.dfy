/** The track record the widgets display, and the mapping from a provider reply to it. */
module Tracks {
  import opened Wrappers
  import opened Upstream

  datatype Track = Track(title: string, artist: string, albumUrl: string, spotifyUrl: string)

  /** `artists.map(artist => artist.name)` */
  function Names(artists: seq<Artist>): (r: seq<string>)
    ensures |r| == |artists|
    ensures forall i :: 0 <= i < |artists| ==> r[i] == artists[i].name
  {
    seq(|artists|, i requires 0 <= i < |artists| => artists[i].name)
  }

  /** The number of characters in all of `names` together. */
  function TotalLength(names: seq<string>): nat
    decreases |names|
  {
    if names == [] then 0 else |names[0]| + TotalLength(names[1..])
  }

  /** `names.join(', ')`: the names in order, with one ", " between neighbours and none
      at either end. */
  function JoinArtists(names: seq<string>): (r: string)
    ensures |names| == 0 ==> r == ""
    ensures |names| >= 1 ==> |r| == TotalLength(names) + 2 * (|names| - 1)
    ensures |names| >= 1 ==> r[..|names[0]|] == names[0]
    ensures |names| >= 2 ==> r[|names[0]|..|names[0]| + 2] == ", "
    decreases |names|
  {
    if |names| == 0 then "" else if |names| == 1 then names[0] else names[0] + ", " + JoinArtists(names[1..])
  }

  /** Cuts a string at every ", ": the reading a display of the joined artists gets back. */
  function SplitArtists(s: string): (r: seq<string>)
    ensures |r| >= 1
    decreases |s|
  {
    if |s| == 0 then [""]
    else if |s| >= 2 && s[0] == ',' && s[1] == ' ' then [""] + SplitArtists(s[2..])
    else
      var rest := SplitArtists(s[1..]);
      [[s[0]] + rest[0]] + rest[1..]
  }

  /** A piece without commas is glued to the front of the first piece of what follows it. */
  lemma {:induction false} SplitAfterPlainText(a: string, t: string)
    requires forall i :: 0 <= i < |a| ==> a[i] != ','
    ensures SplitArtists(a + t) == [a + SplitArtists(t)[0]] + SplitArtists(t)[1..]
    decreases |a|
  {
    if a == [] {
      var st := SplitArtists(t);
      assert a + t == t && a + st[0] == st[0];
      assert [st[0]] + st[1..] == st;
    } else {
      var s := a + t;
      assert s[0] == a[0] && s[1..] == a[1..] + t;
      SplitAfterPlainText(a[1..], t);
      assert [a[0]] + (a[1..] + SplitArtists(t)[0]) == a + SplitArtists(t)[0];
    }
  }

  /** A ", " at the front of a line starts an empty first piece. */
  lemma SplitAfterSeparator(u: string)
    ensures SplitArtists(", " + u) == [""] + SplitArtists(u)
  {
    assert (", " + u)[2..] == u;
  }

  /** The artist line of a track splits back into the artist names, in order,
      whenever there is at least one artist and no artist name holds a comma. */
  lemma {:induction false} SplitJoinArtists(names: seq<string>)
    requires |names| >= 1
    requires forall j, i :: 0 <= j < |names| && 0 <= i < |names[j]| ==> names[j][i] != ','
    ensures SplitArtists(JoinArtists(names)) == names
    decreases |names|
  {
    var a := names[0];
    if |names| == 1 {
      SplitAfterPlainText(a, "");
      assert a + "" == a;
    } else {
      var rest := names[1..];
      assert forall j :: 0 <= j < |rest| ==> rest[j] == names[j + 1];
      SplitJoinArtists(rest);
      var s := ", " + JoinArtists(rest);
      assert JoinArtists(names) == a + s;
      SplitAfterSeparator(JoinArtists(rest));
      SplitAfterPlainText(a, s);
      assert SplitArtists(a + s) == [a + ""] + rest;
      assert a + "" == a && names == [a] + rest;
    }
  }

  /** The record built from one provider track. Reading `album.images[0].url` throws
      when there is no image; the caller's `try` turns that into null. */
  function TrackFromRaw(raw: RawTrack): (r: Option<Track>)
    ensures r.Some? <==> |raw.images| > 0
    ensures r.Some? ==> r.value.title == raw.name && r.value.albumUrl == raw.images[0]
                        && r.value.spotifyUrl == raw.spotifyUrl
    ensures r.Some? ==> r.value.artist == JoinArtists(Names(raw.artists))
  {
    if |raw.images| == 0 then None
    else Some(Track(raw.name, JoinArtists(Names(raw.artists)), raw.images[0], raw.spotifyUrl))
  }

  /** The artist line of a mapped track lists the artists' names in their order. */
  lemma TrackArtistsInOrder(raw: RawTrack)
    requires |raw.images| > 0 && |raw.artists| >= 1
    requires forall a, i :: a in raw.artists && 0 <= i < |a.name| ==> a.name[i] != ','
    ensures SplitArtists(TrackFromRaw(raw).value.artist) == Names(raw.artists)
  {
    var names := Names(raw.artists);
    forall j, i | 0 <= j < |names| && 0 <= i < |names[j]| ensures names[j][i] != ',' {
      assert raw.artists[j] in raw.artists;
    }
    SplitJoinArtists(names);
  }

  /** `data.items[0]?.track`, mapped when present. A missing `items` throws; an empty
      list or a null track yields nothing. */
  function TrackFromDoc(doc: RecentDoc): (r: Option<Track>)
    ensures r.Some? <==> doc.items.Some? && |doc.items.value| > 0 && doc.items.value[0].track.Some?
                         && |doc.items.value[0].track.value.images| > 0
    ensures r.Some? ==> r == TrackFromRaw(doc.items.value[0].track.value)
  {
    match doc.items
    case None => None
    case Some(items) =>
      if |items| == 0 then None
      else match items[0].track
        case None => None
        case Some(raw) => TrackFromRaw(raw)
  }

  /** The track a client that goes through the proxy gets from one `fetch('/api/spotify?action=recent')`:
      null on a 429, on any other non-ok status, on a thrown `fetch` or `json()`, and when the
      body holds no mappable track. */
  function FetchedTrack(reply: Reply): (r: Option<Track>)
    ensures reply.Answer? && reply.status == 429 ==> r == None
    ensures r.Some? <==> reply.Answer? && IsOk(reply.status) && reply.body.Some? && TrackFromDoc(reply.body.value).Some?
    ensures r.Some? ==> r == TrackFromDoc(reply.body.value)
  {
    match reply
    case FetchFailed => None
    case Answer(status, body) =>
      if status == 429 then None
      else if !IsOk(status) then None
      else match body
        case None => None
        case Some(doc) => TrackFromDoc(doc)
  }
}
