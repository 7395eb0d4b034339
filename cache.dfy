/** The browser-side single-slot track cache under the `spotify_track_cache` key, and the
    fetch policy in front of it. Storage is an optional slot; the clock is an integer
    count of milliseconds passed in by the caller. */
module ClientCache {
  import opened Wrappers
  import opened Upstream
  import opened Tracks

  /** Five minutes, in milliseconds. */
  const CacheDuration: int := 5 * 60 * 1000

  /** What `JSON.parse` makes of the stored string: nothing usable (a parse error, or a
      value that cannot be destructured), or an object whose `track` and numeric
      `timestamp` may each be missing. */
  datatype Stored = Unparsable | Entry(track: Option<Track>, timestamp: Option<int>)

  /** An entry is dropped when its age is over the duration. A missing timestamp makes
      the age NaN, and NaN is never greater than the duration. */
  function Expired(e: Stored, now: int): (r: bool)
    requires e.Entry?
    ensures e.timestamp.None? ==> !r
    ensures e.timestamp.Some? && now - e.timestamp.value <= CacheDuration ==> !r
  {
    e.timestamp.Some? && now - e.timestamp.value > CacheDuration
  }

  /** The track a read yields and the slot it leaves behind. */
  datatype Lookup = Lookup(track: Option<Track>, slot: Option<Stored>)

  /** `getCachedTrack`: an absent slot yields null; a corrupt or expired entry is removed
      and yields null; otherwise the stored track is served and the slot is kept. */
  function ReadCache(slot: Option<Stored>, now: int): (r: Lookup)
    ensures slot.None? ==> r == Lookup(None, None)
    ensures r.slot == slot || r.slot == None
    ensures r.slot == None <==> slot.None? || slot.value.Unparsable? || Expired(slot.value, now)
    ensures r.track.Some? ==> slot.Some? && slot.value.Entry? && r.track == slot.value.track && r.slot == slot
    ensures slot.Some? && slot.value.Entry? && !Expired(slot.value, now) ==> r == Lookup(slot.value.track, slot)
  {
    match slot
    case None => Lookup(None, None)
    case Some(stored) =>
      match stored
      case Unparsable => Lookup(None, None)
      case Entry(track, _) =>
        if Expired(stored, now) then Lookup(None, None) else Lookup(track, slot)
  }

  /** `cacheTrack`: null leaves the slot as it is; a track is stored stamped with `now`. */
  function Store(slot: Option<Stored>, track: Option<Track>, now: int): (r: Option<Stored>)
    ensures track.None? ==> r == slot
    ensures track.Some? ==> r == Some(Entry(track, Some(now)))
  {
    if track.None? then slot else Some(Entry(track, Some(now)))
  }

  /** The track `getRecentTrack` returns, whether it went to the network, and the slot
      afterwards. `now` is the clock at the cache read, `later` at the cache write. */
  datatype Fetch = Fetch(track: Option<Track>, fetched: bool, slot: Option<Stored>)

  function RecentTrack(slot: Option<Stored>, now: int, later: int, reply: Reply): (r: Fetch)
    ensures !r.fetched <==> ReadCache(slot, now).track.Some?
    ensures !r.fetched ==> r.track == ReadCache(slot, now).track && r.slot == slot
    ensures r.fetched ==> r.track == FetchedTrack(reply)
    ensures r.fetched && r.track.None? ==> r.slot == ReadCache(slot, now).slot
    ensures r.fetched && r.track.Some? ==> r.slot == Some(Entry(r.track, Some(later)))
  {
    var look := ReadCache(slot, now);
    if look.track.Some? then Fetch(look.track, false, look.slot)
    else
      var track := FetchedTrack(reply);
      Fetch(track, true, Store(look.slot, track, later))
  }

  /** A stored track is served exactly while its age is at most the duration: an age
      equal to the duration is still served, one millisecond more is evicted. */
  lemma FreshnessBoundary(track: Track, stamp: int, now: int)
    ensures var r := ReadCache(Some(Entry(Some(track), Some(stamp))), now);
      && (r.track == Some(track) <==> now - stamp <= CacheDuration)
      && (r.track.None? <==> r.slot.None?)
  {
  }

  /** While the cache is fresh the network answer does not matter: no fetch is made. */
  lemma HitSkipsNetwork(slot: Option<Stored>, now: int, later: int, reply1: Reply, reply2: Reply)
    requires ReadCache(slot, now).track.Some?
    ensures RecentTrack(slot, now, later, reply1) == RecentTrack(slot, now, later, reply2)
    ensures !RecentTrack(slot, now, later, reply1).fetched
  {
  }

  /** On a cache miss a 429, any other non-ok status, or a failed request yields null and
      writes nothing (an expired or corrupt entry has already been removed). */
  lemma FailureCachesNothing(slot: Option<Stored>, now: int, later: int, reply: Reply)
    requires ReadCache(slot, now).track.None?
    requires reply.FetchFailed? || !IsOk(reply.status) || reply.status == 429
    ensures RecentTrack(slot, now, later, reply) == Fetch(None, true, ReadCache(slot, now).slot)
  {
  }

  /** A track fetched at time `later` is served from the cache, with no fetch, at every
      time up to `later + CacheDuration`, and refetched after it. */
  lemma FetchedTrackServedUntilExpiry(slot: Option<Stored>, now: int, later: int, reply: Reply,
                                      t: int, later2: int, reply2: Reply)
    requires RecentTrack(slot, now, later, reply).fetched && RecentTrack(slot, now, later, reply).track.Some?
    ensures var first := RecentTrack(slot, now, later, reply);
      var second := RecentTrack(first.slot, t, later2, reply2);
      && (t - later <= CacheDuration ==> second == Fetch(first.track, false, first.slot))
      && (t - later > CacheDuration ==> second.fetched && second.track == FetchedTrack(reply2))
  {
  }

  /** The browser's `localStorage` slot for the track cache. */
  class TrackCache {
    var slot: Option<Stored>

    constructor (initial: Option<Stored>)
      ensures slot == initial
    {
      slot := initial;
    }

    method GetCachedTrack(now: int) returns (track: Option<Track>)
      modifies this
      ensures Lookup(track, slot) == ReadCache(old(slot), now)
    {
      match slot
      case None =>
        track := None;
      case Some(stored) =>
        if stored.Unparsable? || Expired(stored, now) {
          slot := None;
          track := None;
        } else {
          track := stored.track;
        }
    }

    method CacheTrack(track: Option<Track>, now: int)
      modifies this
      ensures slot == Store(old(slot), track, now)
    {
      if track.Some? {
        slot := Some(Entry(track, Some(now)));
      }
    }

    /** `getRecentTrack`; `fetched` tells whether `reply` was asked for. */
    method GetRecentTrack(now: int, later: int, reply: Reply) returns (track: Option<Track>, fetched: bool)
      modifies this
      ensures Fetch(track, fetched, slot) == RecentTrack(old(slot), now, later, reply)
    {
      track := GetCachedTrack(now);
      if track.Some? {
        fetched := false;
        return;
      }
      fetched := true;
      track := FetchedTrack(reply);
      CacheTrack(track, later);
    }

    /** `isCacheExpired`: true exactly when a read finds nothing to serve; the read evicts. */
    method IsCacheExpired(now: int) returns (expired: bool)
      modifies this
      ensures expired <==> ReadCache(old(slot), now).track.None?
      ensures slot == ReadCache(old(slot), now).slot
    {
      var track := GetCachedTrack(now);
      expired := track.None?;
    }
  }
}
