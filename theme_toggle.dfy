/**
 * The theme switch (src/scripts/theme-toggle.ts).  The page state the script
 * reads and writes is the `dark` class of the root element and the `theme`
 * entry of local storage; the document, the storage and the listener registry
 * are the fields of one object, and each handler is a method that changes them.
 */
module ThemeToggle {
  import opened Wrappers

  /** The theme state: whether the root element carries `dark`, and what
      `localStorage.getItem('theme')` returns (`None` for `null`). */
  datatype Theme = Theme(dark: bool, stored: Option<string>)

  /** The stored entry as a condition: `null` and the empty string are falsy. */
  predicate Chosen(stored: Option<string>) {
    stored.Some? && stored.value != ""
  }

  /** The value a click writes for the class state it has just set. */
  function ThemeName(dark: bool): string {
    if dark then "dark" else "light"
  }

  /** The load rule: dark when `dark` is stored, or when no choice is stored
      and the system prefers a dark colour scheme. */
  predicate StartsDark(stored: Option<string>, prefersDark: bool) {
    stored == Some("dark") || (!Chosen(stored) && prefersDark)
  }

  /** One run of the click handler. */
  function Toggle(t: Theme): Theme {
    if t.dark then Theme(false, Some("light")) else Theme(true, Some("dark"))
  }

  /** `n` runs of the click handler, one after the other. */
  function ToggleTimes(t: Theme, n: nat): Theme {
    if n == 0 then t else Toggle(ToggleTimes(t, n - 1))
  }

  /** One run of the colour-scheme change handler for an event whose
      `matches` is `matches`. */
  function FollowSystem(t: Theme, matches: bool): Theme {
    if !Chosen(t.stored) then Theme(matches, t.stored) else t
  }

  /** `n` runs of the colour-scheme change handler for one event. */
  function FollowSystemTimes(t: Theme, matches: bool, n: nat): Theme {
    if n == 0 then t else FollowSystem(FollowSystemTimes(t, matches, n - 1), matches)
  }

  /** A document with its local storage and the handlers `initThemeToggle`
      has registered on the button and on the colour-scheme query. */
  class ThemePage {
    var dark: bool
    var stored: Option<string>
    /** Whether the document has a `#theme-toggle` element. */
    var hasButton: bool
    /** Click handlers registered on the button. */
    var clickHandlers: nat
    /** Change handlers registered on the colour-scheme query. */
    var changeHandlers: nat

    function State(): Theme
      reads this
    {
      Theme(dark, stored)
    }

    /** A freshly loaded document: no `dark` class and no handlers yet; local
        storage survives from earlier visits. */
    constructor(stored: Option<string>, hasButton: bool)
      ensures State() == Theme(false, stored) && this.hasButton == hasButton
      ensures clickHandlers == 0 && changeHandlers == 0
    {
      this.dark := false;
      this.stored := stored;
      this.hasButton := hasButton;
      this.clickHandlers := 0;
      this.changeHandlers := 0;
    }

    /** `initThemeToggle()` with the colour-scheme query currently matching
        `prefersDark`: it only ever adds the dark class, never writes storage,
        and registers both handlers only when the button exists. */
    method Init(prefersDark: bool)
      modifies this
      ensures dark == (old(dark) || StartsDark(stored, prefersDark))
      ensures stored == old(stored) && hasButton == old(hasButton)
      ensures clickHandlers == old(clickHandlers) + (if hasButton then 1 else 0)
      ensures changeHandlers == old(changeHandlers) + (if hasButton then 1 else 0)
    {
      var storedTheme := stored;
      if storedTheme == Some("dark") || (!Chosen(storedTheme) && prefersDark) {
        dark := true;
      }
      if !hasButton {
        return;
      }
      clickHandlers := clickHandlers + 1;
      changeHandlers := changeHandlers + 1;
    }

    /** A click on the button: the browser runs each registered click handler
        in turn. */
    method Click()
      modifies this
      ensures State() == ToggleTimes(old(State()), clickHandlers)
      ensures hasButton == old(hasButton)
      ensures clickHandlers == old(clickHandlers) && changeHandlers == old(changeHandlers)
    {
      var i := 0;
      while i < clickHandlers
        invariant 0 <= i <= clickHandlers
        invariant State() == ToggleTimes(old(State()), i)
        invariant hasButton == old(hasButton)
        invariant clickHandlers == old(clickHandlers) && changeHandlers == old(changeHandlers)
      {
        var isDark := dark;
        if isDark {
          dark := false;
          stored := Some("light");
        } else {
          dark := true;
          stored := Some("dark");
        }
        i := i + 1;
      }
    }

    /** A change of the system colour scheme: the browser runs each registered
        change handler in turn. */
    method SystemChange(matches: bool)
      modifies this
      ensures State() == FollowSystemTimes(old(State()), matches, changeHandlers)
      ensures hasButton == old(hasButton)
      ensures clickHandlers == old(clickHandlers) && changeHandlers == old(changeHandlers)
    {
      var i := 0;
      while i < changeHandlers
        invariant 0 <= i <= changeHandlers
        invariant State() == FollowSystemTimes(old(State()), matches, i)
        invariant hasButton == old(hasButton)
        invariant clickHandlers == old(clickHandlers) && changeHandlers == old(changeHandlers)
      {
        if !Chosen(stored) {
          if matches {
            dark := true;
          } else {
            dark := false;
          }
        }
        i := i + 1;
      }
    }

    /** Reloading the page: a fresh document over the same storage and button,
        on which `initThemeToggle` runs again. */
    method Reload(prefersDark: bool) returns (next: ThemePage)
      ensures fresh(next)
      ensures next.State() == Theme(StartsDark(stored, prefersDark), stored)
      ensures next.hasButton == hasButton
      ensures next.clickHandlers == next.changeHandlers == (if hasButton then 1 else 0)
    {
      next := new ThemePage(stored, hasButton);
      next.Init(prefersDark);
    }
  }

  // ---------------------------------------------------------------------------
  // Properties

  /** A click with one handler flips the class and stores the name of the new
      state, so storage and class agree afterwards. */
  lemma ToggleFlips(t: Theme)
    ensures Toggle(t).dark == !t.dark
    ensures Toggle(t).stored == Some(ThemeName(Toggle(t).dark))
  {
  }

  /** After `n` handler runs the class has flipped `n` times, and storage names
      the resulting state as soon as one run has happened. */
  lemma {:induction false} ToggleParity(t: Theme, n: nat)
    ensures ToggleTimes(t, n).dark == (t.dark != (n % 2 == 1))
    ensures n > 0 ==> ToggleTimes(t, n).stored == Some(ThemeName(ToggleTimes(t, n).dark))
    ensures n == 0 ==> ToggleTimes(t, n) == t
  {
    if n > 0 {
      ToggleParity(t, n - 1);
    }
  }

  /** Four clicks: every click changes the state and the fourth returns to the
      original one. */
  lemma FourClicksRestore(t: Theme)
    ensures forall k :: 0 <= k < 4 ==> ToggleTimes(t, k + 1).dark != ToggleTimes(t, k).dark
    ensures ToggleTimes(t, 4).dark == t.dark
    ensures ToggleTimes(t, 4).stored == Some(ThemeName(t.dark))
  {
    forall k | 0 <= k < 4 ensures ToggleTimes(t, k + 1).dark != ToggleTimes(t, k).dark {
      ToggleParity(t, k);
      ToggleParity(t, k + 1);
    }
    ToggleParity(t, 4);
  }

  /** A click registered twice (init run twice on one document) cancels out:
      the class is unchanged, though storage is written. */
  lemma DoubleRegistrationCancels(t: Theme)
    ensures ToggleTimes(t, 2).dark == t.dark
    ensures ToggleTimes(t, 2).stored == Some(ThemeName(t.dark))
  {
    ToggleParity(t, 2);
  }

  /** Repeated change handlers act as one: the handler is idempotent. */
  lemma {:induction false} FollowSystemOnce(t: Theme, matches: bool, n: nat)
    requires n > 0
    ensures FollowSystemTimes(t, matches, n) == FollowSystem(t, matches)
  {
    if n > 1 {
      FollowSystemOnce(t, matches, n - 1);
    }
  }

  /** While nothing is stored the class follows the system; once a choice is
      stored, system changes are ignored and storage is never written. */
  lemma SystemChangeRule(t: Theme, matches: bool, n: nat)
    requires n > 0
    ensures FollowSystemTimes(t, matches, n).stored == t.stored
    ensures !Chosen(t.stored) ==> FollowSystemTimes(t, matches, n).dark == matches
    ensures Chosen(t.stored) ==> FollowSystemTimes(t, matches, n) == t
  {
    FollowSystemOnce(t, matches, n);
  }

  /** After any click, system changes are ignored. */
  lemma ClickedThemeIgnoresSystem(t: Theme, clicks: nat, matches: bool, n: nat)
    requires clicks > 0
    ensures FollowSystemTimes(ToggleTimes(t, clicks), matches, n) == ToggleTimes(t, clicks)
  {
    ToggleParity(t, clicks);
    if n > 0 {
      SystemChangeRule(ToggleTimes(t, clicks), matches, n);
    }
  }

  /** An explicit choice wins over the system preference on load: a stored
      `light` stays light even when the system prefers dark. */
  lemma StoredChoiceWins(stored: Option<string>, prefersDark: bool)
    requires stored == Some("light") || stored == Some("dark")
    ensures StartsDark(stored, prefersDark) <==> stored == Some("dark")
  {
  }

  /** Refresh persistence: after a click, loading the page again reproduces the
      clicked state whatever the system prefers. */
  lemma ReloadKeepsClickedTheme(t: Theme, clicks: nat, prefersDark: bool)
    requires clicks > 0
    ensures var c := ToggleTimes(t, clicks);
      Theme(StartsDark(c.stored, prefersDark), c.stored) == c
  {
    ToggleParity(t, clicks);
  }

  /** The reload scenario: nothing stored and a dark system give a dark first
      render; one click removes the class and stores `light`; the reloaded
      page stays light. */
  lemma UnsetDarkSystemScenario()
    ensures StartsDark(None, true)
    ensures Toggle(Theme(true, None)) == Theme(false, Some("light"))
    ensures !StartsDark(Some("light"), true)
  {
  }

  /** The events a page receives after load. */
  datatype Event = ButtonClick | SchemeChange(matches: bool)

  /** The theme after a sequence of events, with `clicks` click handlers and
      `changes` change handlers registered. */
  function Run(t: Theme, events: seq<Event>, clicks: nat, changes: nat): Theme
    decreases |events|
  {
    if |events| == 0 then t
    else
      var next := match events[0]
        case ButtonClick => ToggleTimes(t, clicks)
        case SchemeChange(m) => FollowSystemTimes(t, m, changes);
      Run(next, events[1..], clicks, changes)
  }

  /** Storage is only ever written with `light` or `dark`: after any events it
      still holds what was there on load, or one of those two. */
  lemma {:induction false} StorageHoldsThemeNames(t: Theme, events: seq<Event>, clicks: nat, changes: nat)
    ensures var r := Run(t, events, clicks, changes);
      r.stored == t.stored || r.stored == Some("light") || r.stored == Some("dark")
    decreases |events|
  {
    if |events| > 0 {
      var next := match events[0]
        case ButtonClick => ToggleTimes(t, clicks)
        case SchemeChange(m) => FollowSystemTimes(t, m, changes);
      match events[0] {
        case ButtonClick =>
          ToggleParity(t, clicks);
        case SchemeChange(m) =>
          if changes > 0 {
            SystemChangeRule(t, m, changes);
          }
      }
      StorageHoldsThemeNames(next, events[1..], clicks, changes);
    }
  }
}
