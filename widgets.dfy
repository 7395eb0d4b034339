/** The widget page's inline stem-player mute button and its light/dark theme switch. */
module Widgets {
  import opened Wrappers

  /** The stem-player video and its mute button, when both are on the page. */
  class MuteToggle {
    var videoMuted: bool
    /** Whether the button carries the `unmuted` class. */
    var unmutedClass: bool

    /** The button shows "unmuted" exactly when the video plays with sound. */
    ghost predicate Valid()
      reads this
    {
      unmutedClass == !videoMuted
    }

    /** Page load: the video starts muted and the class is removed. */
    constructor ()
      ensures Valid() && videoMuted
    {
      videoMuted := true;
      unmutedClass := false;
    }

    method Click()
      requires Valid()
      modifies this
      ensures Valid()
      ensures videoMuted == !old(videoMuted)
    {
      videoMuted := !videoMuted;
      if videoMuted {
        unmutedClass := false;
      } else {
        unmutedClass := true;
      }
    }
  }

  const Dark := "dark"
  const Light := "light"

  /** Whether the page switches to dark at load: a saved `dark`, or nothing saved (a
      missing or empty value) and a system preference for dark. */
  predicate DarkAtLoad(saved: Option<string>, systemPrefersDark: bool) {
    saved == Some(Dark) || ((saved.None? || saved.value == "") && systemPrefersDark)
  }

  /** The `data-theme` attribute after the load-time check; `markup` is the attribute
      the document was served with. */
  function InitialTheme(markup: Option<string>, saved: Option<string>, systemPrefersDark: bool): (r: Option<string>)
    ensures r == Some(Dark) <==> DarkAtLoad(saved, systemPrefersDark) || markup == Some(Dark)
    ensures r != markup ==> r == Some(Dark)
  {
    if DarkAtLoad(saved, systemPrefersDark) then Some(Dark) else markup
  }

  /** The theme button: the attribute afterwards and the value saved under `theme`. */
  datatype Toggled = Toggled(attribute: Option<string>, saved: string)

  function ToggleTheme(attribute: Option<string>): (r: Toggled)
    ensures (r.attribute == Some(Dark)) == (attribute != Some(Dark))
    ensures r.attribute == None || r.attribute == Some(Dark)
    ensures r.saved == (if r.attribute == Some(Dark) then Dark else Light)
  {
    if attribute == Some(Dark) then Toggled(None, Light) else Toggled(Some(Dark), Dark)
  }

  /** Two clicks restore the attribute, unless the document was served with a theme
      other than dark, which the first click discards. */
  lemma ToggleTwiceRestores(attribute: Option<string>)
    ensures attribute == None || attribute == Some(Dark) ==>
              ToggleTheme(ToggleTheme(attribute).attribute).attribute == attribute
    ensures attribute != None && attribute != Some(Dark) ==>
              ToggleTheme(ToggleTheme(attribute).attribute).attribute == None
  {
  }

  /** The saved theme reproduces the shown one at the next load of a document served
      without a theme, whatever the system prefers. */
  lemma SavedThemeSurvivesReload(attribute: Option<string>, systemPrefersDark: bool)
    ensures var t := ToggleTheme(attribute);
      InitialTheme(None, Some(t.saved), systemPrefersDark) == t.attribute
  {
  }

  /** The document's `data-theme` attribute and the `theme` entry of local storage. */
  class Theme {
    var attribute: Option<string>
    var saved: Option<string>

    constructor (markup: Option<string>, saved: Option<string>, systemPrefersDark: bool)
      ensures attribute == InitialTheme(markup, saved, systemPrefersDark) && this.saved == saved
    {
      attribute := markup;
      this.saved := saved;
      if DarkAtLoad(saved, systemPrefersDark) {
        attribute := Some(Dark);
      }
    }

    method Click()
      modifies this
      ensures saved.Some? && Toggled(attribute, saved.value) == ToggleTheme(old(attribute))
    {
      if attribute == Some(Dark) {
        attribute := None;
        saved := Some(Light);
      } else {
        attribute := Some(Dark);
        saved := Some(Dark);
      }
    }
  }
}
