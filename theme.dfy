// The theme hook: the chosen theme, the effective theme it resolves to
// against the system colour scheme, the remembered choice, and the classes
// it puts on the page's root element and body.

module Theme {
  import opened Wrappers

  /** The themes; `Unlisted` is a stored value outside the list, which the
      hook takes as it is. */
  datatype Theme = Light | Dark | Auto | HighContrast | Sports | Nature | Unlisted(text: string)

  datatype Effective = EffectiveLight | EffectiveDark | EffectiveHighContrast

  datatype Motion = NoMotionPreference | Reduce

  datatype Contrast = NoContrastPreference | More

  const ReduceMotionClass := "reduce-motion"
  const HighContrastClass := "high-contrast"

  function Name(t: Theme): string {
    match t
    case Light => "light"
    case Dark => "dark"
    case Auto => "auto"
    case HighContrast => "high-contrast"
    case Sports => "sports"
    case Nature => "nature"
    case Unlisted(text) => text
  }

  const ListedNames: seq<string> := ["light", "dark", "auto", "high-contrast", "sports", "nature"]

  /** A theme value the hook can hold: an unlisted one is not a listed name. */
  predicate WellFormed(t: Theme) {
    t.Unlisted? ==> t.text !in ListedNames
  }

  /** The theme a stored text stands for. */
  function Parse(s: string): (t: Theme)
    ensures WellFormed(t)
  {
    if s == "light" then Light
    else if s == "dark" then Dark
    else if s == "auto" then Auto
    else if s == "high-contrast" then HighContrast
    else if s == "sports" then Sports
    else if s == "nature" then Nature
    else Unlisted(s)
  }

  /** Reading back a stored theme gives the same theme, and every stored text
      is the name of what it reads as. */
  lemma ParseName(t: Theme, s: string)
    ensures WellFormed(t) ==> Parse(Name(t)) == t
    ensures Name(Parse(s)) == s
  {
  }

  /** `calculateEffectiveTheme`, with `systemDark` the dark colour-scheme query. */
  function EffectiveOf(t: Theme, systemDark: bool): (e: Effective)
    ensures t == HighContrast ==> e == EffectiveHighContrast
    ensures t == Auto ==> (e == EffectiveDark <==> systemDark) && e != EffectiveHighContrast
    ensures t == Dark ==> e == EffectiveDark
    ensures t != HighContrast && t != Auto && t != Dark ==> e == EffectiveLight
  {
    if t == HighContrast then EffectiveHighContrast
    else if t == Auto then (if systemDark then EffectiveDark else EffectiveLight)
    else if t == Dark then EffectiveDark
    else EffectiveLight
  }

  /** Only the dark theme, or auto on a dark system, is dark. */
  lemma DarkOnlyWhenAsked(t: Theme, systemDark: bool)
    ensures EffectiveOf(t, systemDark) == EffectiveDark <==> t == Dark || (t == Auto && systemDark)
    ensures EffectiveOf(t, systemDark) == EffectiveHighContrast <==> t == HighContrast
  {
  }

  function EffectiveName(e: Effective): string {
    match e
    case EffectiveLight => "light"
    case EffectiveDark => "dark"
    case EffectiveHighContrast => "high-contrast"
  }

  /** The body class. */
  function BodyClass(t: Theme): (c: string)
    ensures t == Sports ==> c == "sports"
    ensures t == Nature ==> c == "nature"
    ensures t != Sports && t != Nature ==> c == ""
  {
    if t == Sports then "sports" else if t == Nature then "nature" else ""
  }

  /** The root classes after `className = effectiveTheme` and the two
      `classList.add` calls. */
  function RootClasses(e: Effective, m: Motion, c: Contrast): (r: set<string>)
    ensures EffectiveName(e) in r
    ensures ReduceMotionClass in r <==> m == Reduce
    ensures HighContrastClass in r <==> c == More || e == EffectiveHighContrast
    ensures forall x :: x in r ==> x == EffectiveName(e) || x == ReduceMotionClass || x == HighContrastClass
  {
    {EffectiveName(e)} + (if m == Reduce then {ReduceMotionClass} else {})
      + (if c == More then {HighContrastClass} else {})
  }

  /** `classList.toggle(x, on)`. */
  function Toggle(classes: set<string>, x: string, on: bool): (r: set<string>)
    ensures x in r <==> on
    ensures forall y :: y != x ==> (y in r <==> y in classes)
  {
    if on then classes + {x} else classes - {x}
  }

  /** The hook's state and the page it writes to. */
  class Hook {
    var theme: Theme
    var effective: Effective
    var motion: Motion
    var contrast: Contrast
    /** The `theme` item of local storage. */
    var stored: Option<string>
    var rootClasses: set<string>
    var bodyClass: string

    constructor(stored: Option<string>, rootClasses: set<string>, bodyClass: string)
      ensures theme == Auto && effective == EffectiveLight
      ensures motion == NoMotionPreference && contrast == NoContrastPreference
      ensures this.stored == stored && this.rootClasses == rootClasses && this.bodyClass == bodyClass
    {
      theme, effective := Auto, EffectiveLight;
      motion, contrast := NoMotionPreference, NoContrastPreference;
      this.stored, this.rootClasses, this.bodyClass := stored, rootClasses, bodyClass;
    }

    /** The mount effect: the stored theme, `auto` when there is none, and
        the three system queries. */
    method Initialize(systemDark: bool, reducedMotion: bool, moreContrast: bool)
      modifies this
      ensures theme == (if old(stored).Some? && old(stored).value != "" then Parse(old(stored).value) else Auto)
      ensures effective == EffectiveOf(theme, systemDark)
      ensures motion == (if reducedMotion then Reduce else NoMotionPreference)
      ensures contrast == (if moreContrast then More else NoContrastPreference)
      ensures rootClasses == RootClasses(effective, motion, contrast) && bodyClass == BodyClass(theme)
      ensures stored == old(stored)
    {
      theme := if stored.Some? && stored.value != "" then Parse(stored.value) else Auto;
      effective := EffectiveOf(theme, systemDark);
      motion := if reducedMotion then Reduce else NoMotionPreference;
      contrast := if moreContrast then More else NoContrastPreference;
      rootClasses := RootClasses(effective, motion, contrast);
      bodyClass := BodyClass(theme);
    }

    /** `setTheme`: the choice is remembered and applied. */
    method SetTheme(t: Theme, systemDark: bool)
      modifies this
      ensures theme == t && effective == EffectiveOf(t, systemDark)
      ensures stored == Some(Name(t))
      ensures rootClasses == RootClasses(effective, motion, contrast) && bodyClass == BodyClass(t)
      ensures motion == old(motion) && contrast == old(contrast)
    {
      theme := t;
      effective := EffectiveOf(t, systemDark);
      stored := Some(Name(t));
      rootClasses := RootClasses(effective, motion, contrast);
      bodyClass := BodyClass(t);
    }

    /** The colour-scheme listener: only under `auto`, and the root keeps
        only the effective theme's class. */
    method DarkChange(matches: bool)
      modifies this
      ensures old(theme) == Auto ==>
        effective == (if matches then EffectiveDark else EffectiveLight) && rootClasses == {EffectiveName(effective)}
      ensures old(theme) != Auto ==> effective == old(effective) && rootClasses == old(rootClasses)
      ensures theme == old(theme) && motion == old(motion) && contrast == old(contrast)
      ensures stored == old(stored) && bodyClass == old(bodyClass)
    {
      if theme == Auto {
        effective := if matches then EffectiveDark else EffectiveLight;
        rootClasses := {EffectiveName(effective)};
      }
    }

    /** The reduced-motion listener. */
    method MotionChange(matches: bool)
      modifies this
      ensures motion == (if matches then Reduce else NoMotionPreference)
      ensures rootClasses == Toggle(old(rootClasses), ReduceMotionClass, matches)
      ensures theme == old(theme) && effective == old(effective) && contrast == old(contrast)
      ensures stored == old(stored) && bodyClass == old(bodyClass)
    {
      motion := if matches then Reduce else NoMotionPreference;
      rootClasses := Toggle(rootClasses, ReduceMotionClass, matches);
    }

    /** The contrast listener. */
    method ContrastChange(matches: bool)
      modifies this
      ensures contrast == (if matches then More else NoContrastPreference)
      ensures rootClasses == Toggle(old(rootClasses), HighContrastClass, matches)
      ensures theme == old(theme) && effective == old(effective) && motion == old(motion)
      ensures stored == old(stored) && bodyClass == old(bodyClass)
    {
      contrast := if matches then More else NoContrastPreference;
      rootClasses := Toggle(rootClasses, HighContrastClass, matches);
    }

    predicate IsDark()
      reads this
    {
      effective == EffectiveDark
    }

    predicate IsHighContrast()
      reads this
    {
      effective == EffectiveHighContrast
    }

    predicate ShouldReduceMotion()
      reads this
    {
      motion == Reduce
    }
  }

  /** A theme set and then read back on the next visit is the same theme,
      with the same effective theme and body class. */
  lemma RememberedAcrossVisits(t: Theme, systemDark: bool)
    requires WellFormed(t)
    ensures Parse(Name(t)) == t
    ensures EffectiveOf(Parse(Name(t)), systemDark) == EffectiveOf(t, systemDark)
    ensures BodyClass(Parse(Name(t))) == BodyClass(t)
  {
    ParseName(t, Name(t));
  }

  /** Under the high-contrast theme the root class names the theme, but the
      system contrast switching off takes the class away: `high-contrast` is
      both the theme's class and the contrast preference's. */
  lemma ContrastOffRemovesThemeClass(classes: set<string>)
    requires classes == RootClasses(EffectiveHighContrast, NoMotionPreference, More)
    ensures EffectiveName(EffectiveHighContrast) in classes
    ensures EffectiveName(EffectiveHighContrast) !in Toggle(classes, HighContrastClass, false)
  {
  }
}
