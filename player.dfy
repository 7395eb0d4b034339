/** The "now playing" display state and its change detection. The element writes
    (`textContent`, `src`, `href`) mirror `currentTrack` and are not modelled apart. */
module Player {
  import opened Wrappers
  import opened Tracks

  /** The empty record the pages start with. */
  const Blank := Track("", "", "", "")

  /** The comparison `updatePlayer` makes: only the title and the artist line count. */
  predicate IsNewSong(current: Track, incoming: Track) {
    incoming.title != current.title || incoming.artist != current.artist
  }

  /** The record `updatePlayer` leaves in `currentTrack`. */
  function NextTrack(current: Track, incoming: Option<Track>): (r: Track)
    ensures r != current <==> incoming.Some? && IsNewSong(current, incoming.value)
    ensures r == current || r == incoming.value
  {
    if incoming.Some? && IsNewSong(current, incoming.value) then incoming.value else current
  }

  /** Showing the same answer again changes nothing. */
  lemma NextTrackIdempotent(current: Track, incoming: Option<Track>)
    ensures NextTrack(NextTrack(current, incoming), incoming) == NextTrack(current, incoming)
  {
  }

  /** `playerState` of the page scripts that also record whether a song was ever shown. */
  class PlayerState {
    var currentTrack: Track
    var hasPlayedOnce: bool

    /** Until a song has been shown the record is still the blank one. */
    ghost predicate Valid()
      reads this
    {
      !hasPlayedOnce ==> currentTrack == Blank
    }

    constructor ()
      ensures Valid() && currentTrack == Blank && !hasPlayedOnce
    {
      currentTrack := Blank;
      hasPlayedOnce := false;
    }

    /** `UI.updatePlayer(track)` */
    method UpdatePlayer(track: Option<Track>)
      requires Valid()
      modifies this
      ensures Valid()
      ensures currentTrack == NextTrack(old(currentTrack), track)
      ensures hasPlayedOnce == (old(hasPlayedOnce) || currentTrack != old(currentTrack))
    {
      if track.Some? && IsNewSong(currentTrack, track.value) {
        currentTrack := track.value;
        hasPlayedOnce := true;
      }
    }
  }

  /** `playerState` of the widget script, which keeps only the current track. */
  class WidgetPlayer {
    var currentTrack: Track

    constructor ()
      ensures currentTrack == Blank
    {
      currentTrack := Blank;
    }

    /** `spotifyUI.updatePlayer(track)` */
    method UpdatePlayer(track: Option<Track>)
      modifies this
      ensures currentTrack == NextTrack(old(currentTrack), track)
    {
      if track.Some? && IsNewSong(currentTrack, track.value) {
        currentTrack := track.value;
      }
    }
  }
}
