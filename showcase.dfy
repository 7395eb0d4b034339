/** The project showcase panel of the single-page site: which project is open, the
    screenshot carousel of the open project, and the muted state of the stem-player
    video. */
module Showcase {
  import opened Wrappers

  /** A running screenshot interval over `count` screenshots, showing `index`. */
  datatype Cycle = Cycle(count: nat, index: nat)

  /** The interval callback: move to the next screenshot, wrapping at the end. */
  function Advance(c: Cycle): (r: Cycle)
    requires c.count >= 2 && c.index < c.count
    ensures r.count == c.count && r.index < r.count
    ensures r.index == if c.index + 1 == c.count then 0 else c.index + 1
  {
    Cycle(c.count, (c.index + 1) % c.count)
  }

  /** The screenshot shown after `k` ticks of a cycle started at the first one. */
  function AfterTicks(count: nat, k: nat): (r: nat)
    requires count >= 2
    ensures r < count
    ensures k < count ==> r == k
  {
    if k == 0 then 0 else Advance(Cycle(count, AfterTicks(count, k - 1))).index
  }

  lemma MulAtLeast(e: int, n: int)
    requires e >= 1 && n >= 1
    ensures e * n >= n
  {
  }

  /** Adding the modulus does not change the remainder. */
  lemma ShiftMod(y: int, n: int)
    requires n >= 1
    ensures (y + n) % n == y % n
  {
    var a, b := y / n, y % n;
    var c, d := (y + n) / n, (y + n) % n;
    assert y == a * n + b;
    assert y + n == c * n + d;
    var e := c - a - 1;
    assert e * n == b - d;
    if e >= 1 {
      MulAtLeast(e, n);
    } else if e <= -1 {
      MulAtLeast(-e, n);
    }
  }

  /** The remainder of a successor steps by one and wraps at the modulus. */
  lemma {:induction false} ModStep(x: nat, n: nat)
    requires n >= 2
    ensures (x + 1) % n == if x % n + 1 == n then 0 else x % n + 1
    decreases x
  {
    if x + 1 > n {
      ModStep(x - n, n);
      ShiftMod(x - n, n);
      ShiftMod(x - n + 1, n);
    }
  }

  /** The carousel visits the screenshots in order, round and round: after `k` ticks it
      shows screenshot `k % count`. */
  lemma {:induction false} TicksVisitInOrder(count: nat, k: nat)
    requires count >= 2
    ensures AfterTicks(count, k) == k % count
  {
    if k > 0 {
      TicksVisitInOrder(count, k - 1);
      ModStep(k - 1, count);
    }
  }

  const StemPlayer := "stem-player"

  class Page {
    /** Whether the page has the stem-player video and its audio toggle button. */
    const hasVideo: bool
    const hasAudioToggle: bool

    var currentProjectId: Option<string>
    var isAudioMuted: bool
    /** `stemPlayerVideo.muted` */
    var videoMuted: bool
    /** `screenshotInterval`, with the closure's `currentIndex`. */
    var screenshotInterval: Option<Cycle>

    /** The shown screenshot is one of the container's, a cycle only runs over two or
        more, and where the toggle exists the flag and the video agree. */
    ghost predicate Valid()
      reads this
    {
      && (screenshotInterval.Some? ==> screenshotInterval.value.count >= 2
                                       && screenshotInterval.value.index < screenshotInterval.value.count)
      && (hasVideo && hasAudioToggle ==> videoMuted == isAudioMuted)
    }

    /** Page load. `mutedAttribute` is the video's `muted` state from the markup. */
    constructor (hasVideo: bool, hasAudioToggle: bool, mutedAttribute: bool)
      ensures Valid()
      ensures this.hasVideo == hasVideo && this.hasAudioToggle == hasAudioToggle
      ensures currentProjectId == None && isAudioMuted && screenshotInterval == None
      ensures videoMuted == (if hasVideo && hasAudioToggle then true else mutedAttribute)
    {
      this.hasVideo := hasVideo;
      this.hasAudioToggle := hasAudioToggle;
      currentProjectId := None;
      isAudioMuted := true;
      videoMuted := if hasVideo && hasAudioToggle then true else mutedAttribute;
      screenshotInterval := None;
    }

    /** The audio toggle's click handler, installed only when both elements exist. */
    method ToggleAudio()
      requires Valid() && hasVideo && hasAudioToggle
      modifies this
      ensures Valid()
      ensures isAudioMuted == !old(isAudioMuted) && videoMuted == isAudioMuted
      ensures currentProjectId == old(currentProjectId) && screenshotInterval == old(screenshotInterval)
    {
      isAudioMuted := !isAudioMuted;
      videoMuted := isAudioMuted;
    }

    /** Clearing the interval leaves none running; doing it twice is the same as once. */
    method StopScreenshotCycle()
      requires Valid()
      modifies this
      ensures Valid()
      ensures screenshotInterval == None
      ensures currentProjectId == old(currentProjectId) && isAudioMuted == old(isAudioMuted)
      ensures videoMuted == old(videoMuted)
    {
      if screenshotInterval.Some? {
        screenshotInterval := None;
      }
    }

    /** Show the first of `screenshots` and cycle only when there are two or more. */
    method StartScreenshotCycle(screenshots: nat)
      requires Valid()
      modifies this
      ensures Valid()
      ensures screenshotInterval == if screenshots <= 1 then None else Some(Cycle(screenshots, 0))
      ensures currentProjectId == old(currentProjectId) && isAudioMuted == old(isAudioMuted)
      ensures videoMuted == old(videoMuted)
    {
      StopScreenshotCycle();
      if screenshots <= 1 {
        return;
      }
      screenshotInterval := Some(Cycle(screenshots, 0));
    }

    /** The interval callback, which fires only while an interval is installed. */
    method Tick()
      requires Valid() && screenshotInterval.Some?
      modifies this
      ensures Valid()
      ensures screenshotInterval == Some(Advance(old(screenshotInterval.value)))
      ensures currentProjectId == old(currentProjectId) && isAudioMuted == old(isAudioMuted)
      ensures videoMuted == old(videoMuted)
    {
      var c := screenshotInterval.value;
      screenshotInterval := Some(Cycle(c.count, (c.index + 1) % c.count));
    }

    /** `openShowcase`. `described` tells whether the project table has an entry for the
        id (reading the title of a missing entry throws, which ends the handler);
        `hasContainer` whether a media container matches it; `screenshots` how many
        screenshots that container holds. */
    method OpenShowcase(projectId: string, described: bool, hasContainer: bool, screenshots: nat)
      requires Valid()
      modifies this
      ensures Valid()
      ensures old(currentProjectId) == Some(projectId) ==>
                currentProjectId == old(currentProjectId) && isAudioMuted == old(isAudioMuted)
                && videoMuted == old(videoMuted) && screenshotInterval == old(screenshotInterval)
      ensures old(currentProjectId) != Some(projectId) ==>
                && currentProjectId == Some(projectId)
                && (hasVideo ==> isAudioMuted && videoMuted)
                && (!hasVideo ==> isAudioMuted == old(isAudioMuted) && videoMuted == old(videoMuted))
                && screenshotInterval ==
                     if described && hasContainer && projectId != StemPlayer && screenshots >= 2
                     then Some(Cycle(screenshots, 0)) else None
    {
      if currentProjectId == Some(projectId) {
        return;
      }
      if hasVideo {
        videoMuted := true;
        isAudioMuted := true;
      }
      currentProjectId := Some(projectId);
      StopScreenshotCycle();
      if !described {
        return;
      }
      if hasContainer && projectId != StemPlayer {
        StartScreenshotCycle(screenshots);
      }
    }

    /** `closeShowcase`: no project open, no interval, and the audio muted. */
    method CloseShowcase()
      requires Valid()
      modifies this
      ensures Valid()
      ensures currentProjectId == None && screenshotInterval == None
      ensures hasVideo ==> isAudioMuted && videoMuted
      ensures !hasVideo ==> isAudioMuted == old(isAudioMuted) && videoMuted == old(videoMuted)
    {
      StopScreenshotCycle();
      if hasVideo {
        videoMuted := true;
        isAudioMuted := true;
      }
      currentProjectId := None;
    }

    /** The keydown handler: Escape closes the panel only while a project id (a truthy
        one: not the empty string) is open. */
    method KeyDown(key: string)
      requires Valid()
      modifies this
      ensures Valid()
      ensures key == "Escape" && old(currentProjectId).Some? && old(currentProjectId).value != "" ==>
                && currentProjectId == None && screenshotInterval == None
                && (hasVideo ==> isAudioMuted && videoMuted)
                && (!hasVideo ==> isAudioMuted == old(isAudioMuted) && videoMuted == old(videoMuted))
      ensures !(key == "Escape" && old(currentProjectId).Some? && old(currentProjectId).value != "") ==>
                currentProjectId == old(currentProjectId) && isAudioMuted == old(isAudioMuted)
                && videoMuted == old(videoMuted) && screenshotInterval == old(screenshotInterval)
    {
      if key == "Escape" && currentProjectId.Some? && currentProjectId.value != "" {
        CloseShowcase();
      }
    }
  }
}
