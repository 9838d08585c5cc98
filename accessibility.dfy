/** src/contexts/AccessibilityContext.tsx: the accessibility preferences,
    persisted under five storage keys and mirrored as classes on the root
    element. The root's class list is a set of names, storage a map. */
module Accessibility {
  import opened Wrappers

  const ThemeKey: string := "a11y-theme"
  const TextSizeKey: string := "a11y-text-size"
  const ColorVisionKey: string := "a11y-color-vision"
  const ReduceMotionKey: string := "a11y-reduce-motion"
  const EnhancedFocusKey: string := "a11y-enhanced-focus"

  const Themes: set<string> := {"dark", "light", "high-contrast-dark", "high-contrast-light"}
  const TextSizes: set<string> := {"small", "normal", "large", "xl"}
  const ColorVisions: set<string> := {"standard", "protanopia", "deuteranopia", "tritanopia"}

  /** The classes each effect removes before adding the current one. */
  const ThemeFamily: set<string> := {"theme-dark", "theme-light", "theme-hc-dark", "theme-hc-light"}
  const TextSizeFamily: set<string> := {"text-size-small", "text-size-normal", "text-size-large", "text-size-xl"}
  const CvFamily: set<string> := {"cv-standard", "cv-protanopia", "cv-deuteranopia", "cv-tritanopia"}
  const ReduceMotionClass: string := "reduce-motion"
  const EnhancedFocusClass: string := "enhanced-focus"

  /** `classList.add(undefined)` adds the class "undefined". */
  const UndefinedClass: string := "undefined"

  /** `cls[theme]`, with an unknown theme looking up nothing. */
  function ThemeClass(theme: string): (c: string)
    ensures theme in Themes ==> c in ThemeFamily
    ensures theme !in Themes ==> c == UndefinedClass
  {
    match theme
    case "dark" => "theme-dark"
    case "light" => "theme-light"
    case "high-contrast-dark" => "theme-hc-dark"
    case "high-contrast-light" => "theme-hc-light"
    case _ => UndefinedClass
  }

  /** `textSizeMap[textSize]` */
  function TextSizeClass(size: string): (c: string)
    ensures size in TextSizes ==> c in TextSizeFamily
    ensures size !in TextSizes ==> c == UndefinedClass
  {
    match size
    case "small" => "text-size-small"
    case "normal" => "text-size-normal"
    case "large" => "text-size-large"
    case "xl" => "text-size-xl"
    case _ => UndefinedClass
  }

  /** `` `cv-${colorVision}` `` */
  function CvClass(cv: string): (c: string)
    ensures cv in ColorVisions ==> c in CvFamily
  {
    var c := "cv-" + cv;
    assert cv == "standard" ==> c == "cv-standard";
    assert cv == "protanopia" ==> c == "cv-protanopia";
    assert cv == "deuteranopia" ==> c == "cv-deuteranopia";
    assert cv == "tritanopia" ==> c == "cv-tritanopia";
    c
  }

  /** Distinct values get distinct classes, so the class names the value. */
  lemma ClassesNameTheirValue(a: string, b: string)
    ensures a in Themes && b in Themes && ThemeClass(a) == ThemeClass(b) ==> a == b
    ensures a in TextSizes && b in TextSizes && TextSizeClass(a) == TextSizeClass(b) ==> a == b
    ensures CvClass(a) == CvClass(b) ==> a == b
  {
    if CvClass(a) == CvClass(b) {
      assert a == CvClass(a)[3..] && b == CvClass(b)[3..];
    }
  }

  /** Remove a whole family, then add one class. */
  function Replace(root: set<string>, family: set<string>, c: string): (r: set<string>)
    ensures c in family ==> r * family == {c}
    ensures forall x {:trigger x in root} :: x !in family && x != c ==> (x in r <==> x in root)
  {
    (root - family) + {c}
  }

  /** `classList.toggle(c, on)` */
  function Toggle(root: set<string>, c: string, on: bool): (r: set<string>)
    ensures c in r <==> on
    ensures forall x {:trigger x in root} :: x != c ==> (x in r <==> x in root)
  {
    if on then root + {c} else root - {c}
  }

  datatype Prefs = Prefs(theme: string, textSize: string, colorVision: string, reduceMotion: bool, enhancedFocus: bool)

  predicate ValidPrefs(p: Prefs) {
    p.theme in Themes && p.textSize in TextSizes && p.colorVision in ColorVisions
  }

  /** `localStorage.getItem(key) || fallback` */
  function StoredOr(store: map<string, string>, key: string, fallback: string): (v: string)
    ensures key in store && store[key] != "" ==> v == store[key]
    ensures key !in store || store[key] == "" ==> v == fallback
  {
    if key in store && store[key] != "" then store[key] else fallback
  }

  /** The initial state as written: a stored string is taken whatever it is. */
  function InitialPrefsAsWritten(store: map<string, string>): (p: Prefs)
    ensures store == map[] ==> p == Prefs("dark", "normal", "standard", false, true)
    ensures p.reduceMotion <==> ReduceMotionKey in store && store[ReduceMotionKey] == "true"
    ensures !p.enhancedFocus <==> EnhancedFocusKey in store && store[EnhancedFocusKey] == "false"
  {
    Prefs(StoredOr(store, ThemeKey, "dark"), StoredOr(store, TextSizeKey, "normal"),
          StoredOr(store, ColorVisionKey, "standard"),
          ReduceMotionKey in store && store[ReduceMotionKey] == "true",
          !(EnhancedFocusKey in store && store[EnhancedFocusKey] == "false"))
  }

  /** A value outside its set falls back like a missing one. */
  function Known(v: string, allowed: set<string>, fallback: string): (r: string)
    requires fallback in allowed
    ensures r in allowed
    ensures v in allowed ==> r == v
  {
    if v in allowed then v else fallback
  }

  /** The initial state with each stored string checked against its type:
      the same as written on every well-formed store, and always valid. */
  function InitialPrefs(store: map<string, string>): (p: Prefs)
    ensures ValidPrefs(p)
    ensures ValidPrefs(InitialPrefsAsWritten(store)) ==> p == InitialPrefsAsWritten(store)
    ensures p.reduceMotion == InitialPrefsAsWritten(store).reduceMotion
    ensures p.enhancedFocus == InitialPrefsAsWritten(store).enhancedFocus
  {
    var raw := InitialPrefsAsWritten(store);
    Prefs(Known(raw.theme, Themes, "dark"), Known(raw.textSize, TextSizes, "normal"),
          Known(raw.colorVision, ColorVisions, "standard"), raw.reduceMotion, raw.enhancedFocus)
  }

  function BoolText(b: bool): string { if b then "true" else "false" }

  /** What the five effects write to storage. */
  function Persisted(store: map<string, string>, p: Prefs): (s: map<string, string>)
    ensures s.Keys == store.Keys + {ThemeKey, TextSizeKey, ColorVisionKey, ReduceMotionKey, EnhancedFocusKey}
  {
    store[ThemeKey := p.theme][TextSizeKey := p.textSize][ColorVisionKey := p.colorVision]
         [ReduceMotionKey := BoolText(p.reduceMotion)][EnhancedFocusKey := BoolText(p.enhancedFocus)]
  }

  /** Persisting a valid state and loading it again gives the same state. */
  lemma PersistRoundTrip(store: map<string, string>, p: Prefs)
    requires ValidPrefs(p)
    ensures InitialPrefs(Persisted(store, p)) == p
  {
    var s := Persisted(store, p);
    assert s[ThemeKey] == p.theme && s[TextSizeKey] == p.textSize && s[ColorVisionKey] == p.colorVision;
    assert s[ReduceMotionKey] == BoolText(p.reduceMotion) && s[EnhancedFocusKey] == BoolText(p.enhancedFocus);
  }

  /** The five effects, run in order on the root's classes. */
  function Effects(root: set<string>, p: Prefs): set<string>
  {
    var r1 := Replace(root, ThemeFamily, ThemeClass(p.theme));
    var r2 := Replace(r1, TextSizeFamily, TextSizeClass(p.textSize));
    var r3 := Replace(r2, CvFamily, CvClass(p.colorVision));
    var r4 := Toggle(r3, ReduceMotionClass, p.reduceMotion);
    Toggle(r4, EnhancedFocusClass, p.enhancedFocus)
  }

  /** The root shows a state: exactly one class of each family, the one
      naming the current value, and each flag class iff its flag is set. */
  predicate Shows(root: set<string>, p: Prefs) {
    && root * ThemeFamily == {ThemeClass(p.theme)}
    && root * TextSizeFamily == {TextSizeClass(p.textSize)}
    && root * CvFamily == {CvClass(p.colorVision)}
    && (ReduceMotionClass in root <==> p.reduceMotion)
    && (EnhancedFocusClass in root <==> p.enhancedFocus)
  }

  predicate Managed(x: string) {
    x in ThemeFamily || x in TextSizeFamily || x in CvFamily || x == ReduceMotionClass || x == EnhancedFocusClass
  }

  /** The five families are pairwise disjoint and none holds "undefined". */
  lemma FamiliesDisjoint()
    ensures ThemeFamily * TextSizeFamily == {} && ThemeFamily * CvFamily == {} && TextSizeFamily * CvFamily == {}
    ensures ReduceMotionClass !in ThemeFamily + TextSizeFamily + CvFamily
    ensures EnhancedFocusClass !in ThemeFamily + TextSizeFamily + CvFamily
    ensures ReduceMotionClass != EnhancedFocusClass
  {
  }

  /** Replacing one family leaves a disjoint family as it was. */
  lemma ReplaceKeeps(root: set<string>, family: set<string>, c: string, other: set<string>)
    requires family * other == {} && c !in other
    ensures Replace(root, family, c) * other == root * other
  {
  }

  /** Toggling one class leaves a family without it as it was. */
  lemma ToggleKeeps(root: set<string>, c: string, on: bool, other: set<string>)
    requires c !in other
    ensures Toggle(root, c, on) * other == root * other
  {
  }

  /** After the effects run on a valid state the root shows it, and every
      class outside the five families is kept as it was. */
  lemma EffectsShow(root: set<string>, p: Prefs)
    requires ValidPrefs(p)
    ensures Shows(Effects(root, p), p)
    ensures forall x {:trigger x in root} :: !Managed(x) ==> (x in Effects(root, p) <==> x in root)
  {
    FamiliesDisjoint();
    var r1 := Replace(root, ThemeFamily, ThemeClass(p.theme));
    var r2 := Replace(r1, TextSizeFamily, TextSizeClass(p.textSize));
    var r3 := Replace(r2, CvFamily, CvClass(p.colorVision));
    var r4 := Toggle(r3, ReduceMotionClass, p.reduceMotion);
    var r5 := Toggle(r4, EnhancedFocusClass, p.enhancedFocus);
    ReplaceKeeps(r1, TextSizeFamily, TextSizeClass(p.textSize), ThemeFamily);
    ReplaceKeeps(r2, CvFamily, CvClass(p.colorVision), ThemeFamily);
    ReplaceKeeps(r2, CvFamily, CvClass(p.colorVision), TextSizeFamily);
    ToggleKeeps(r3, ReduceMotionClass, p.reduceMotion, ThemeFamily);
    ToggleKeeps(r3, ReduceMotionClass, p.reduceMotion, TextSizeFamily);
    ToggleKeeps(r3, ReduceMotionClass, p.reduceMotion, CvFamily);
    ToggleKeeps(r4, EnhancedFocusClass, p.enhancedFocus, ThemeFamily);
    ToggleKeeps(r4, EnhancedFocusClass, p.enhancedFocus, TextSizeFamily);
    ToggleKeeps(r4, EnhancedFocusClass, p.enhancedFocus, CvFamily);
    assert r5 == Effects(root, p);
  }

  /** As written, a stored theme the app does not know leaves the root
      with no theme class at all and adds "undefined" instead. */
  lemma UnknownStoredThemeShowsNoTheme(root: set<string>)
    ensures InitialPrefsAsWritten(map[ThemeKey := "solarized"]).theme == "solarized"
    ensures Effects(root, InitialPrefsAsWritten(map[ThemeKey := "solarized"])) * ThemeFamily == {}
    ensures UndefinedClass in Effects(root, InitialPrefsAsWritten(map[ThemeKey := "solarized"]))
  {
    var p := InitialPrefsAsWritten(map[ThemeKey := "solarized"]);
    assert p.theme == "solarized";
    assert ThemeClass(p.theme) == UndefinedClass;
  }

  /** The checked initial state loads the same store as the default theme. */
  lemma UnknownStoredThemeFallsBack()
    ensures InitialPrefs(map[ThemeKey := "solarized"]).theme == "dark"
  {
  }

  /** Writing one key changes, on reload, only the field stored under it. */
  lemma ReloadAfterWrite(store: map<string, string>, key: string, v: string)
    requires key in {ThemeKey, TextSizeKey, ColorVisionKey, ReduceMotionKey, EnhancedFocusKey}
    ensures key != ThemeKey ==> InitialPrefsAsWritten(store[key := v]).theme == InitialPrefsAsWritten(store).theme
    ensures key != TextSizeKey ==> InitialPrefsAsWritten(store[key := v]).textSize == InitialPrefsAsWritten(store).textSize
    ensures key != ColorVisionKey ==> InitialPrefsAsWritten(store[key := v]).colorVision == InitialPrefsAsWritten(store).colorVision
    ensures key != ReduceMotionKey ==> InitialPrefsAsWritten(store[key := v]).reduceMotion == InitialPrefsAsWritten(store).reduceMotion
    ensures key != EnhancedFocusKey ==> InitialPrefsAsWritten(store[key := v]).enhancedFocus == InitialPrefsAsWritten(store).enhancedFocus
    ensures key == ThemeKey ==> InitialPrefsAsWritten(store[key := v]).theme == (if v == "" then "dark" else v)
    ensures key == TextSizeKey ==> InitialPrefsAsWritten(store[key := v]).textSize == (if v == "" then "normal" else v)
    ensures key == ColorVisionKey ==> InitialPrefsAsWritten(store[key := v]).colorVision == (if v == "" then "standard" else v)
    ensures key == ReduceMotionKey ==> (InitialPrefsAsWritten(store[key := v]).reduceMotion <==> v == "true")
    ensures key == EnhancedFocusKey ==> (InitialPrefsAsWritten(store[key := v]).enhancedFocus <==> v != "false")
  {
  }

  /** Choosing a theme: the root shows the new state and storage reloads it. */
  lemma ThemeStep(root: set<string>, store: map<string, string>, p: Prefs, t: string)
    requires ValidPrefs(p) && Shows(root, p) && InitialPrefs(store) == p && t in Themes
    ensures Shows(Replace(root, ThemeFamily, ThemeClass(t)), p.(theme := t))
    ensures InitialPrefs(store[ThemeKey := t]) == p.(theme := t)
  {
    FamiliesDisjoint();
    ReplaceKeeps(root, ThemeFamily, ThemeClass(t), TextSizeFamily);
    ReplaceKeeps(root, ThemeFamily, ThemeClass(t), CvFamily);
    ReloadAfterWrite(store, ThemeKey, t);
  }

  /** Choosing a text size. */
  lemma TextSizeStep(root: set<string>, store: map<string, string>, p: Prefs, size: string)
    requires ValidPrefs(p) && Shows(root, p) && InitialPrefs(store) == p && size in TextSizes
    ensures Shows(Replace(root, TextSizeFamily, TextSizeClass(size)), p.(textSize := size))
    ensures InitialPrefs(store[TextSizeKey := size]) == p.(textSize := size)
  {
    FamiliesDisjoint();
    ReplaceKeeps(root, TextSizeFamily, TextSizeClass(size), ThemeFamily);
    ReplaceKeeps(root, TextSizeFamily, TextSizeClass(size), CvFamily);
    ReloadAfterWrite(store, TextSizeKey, size);
  }

  /** Choosing a colour-vision mode. */
  lemma ColorVisionStep(root: set<string>, store: map<string, string>, p: Prefs, cv: string)
    requires ValidPrefs(p) && Shows(root, p) && InitialPrefs(store) == p && cv in ColorVisions
    ensures Shows(Replace(root, CvFamily, CvClass(cv)), p.(colorVision := cv))
    ensures InitialPrefs(store[ColorVisionKey := cv]) == p.(colorVision := cv)
  {
    FamiliesDisjoint();
    ReplaceKeeps(root, CvFamily, CvClass(cv), ThemeFamily);
    ReplaceKeeps(root, CvFamily, CvClass(cv), TextSizeFamily);
    ReloadAfterWrite(store, ColorVisionKey, cv);
  }

  /** Switching reduced motion. */
  lemma ReduceMotionStep(root: set<string>, store: map<string, string>, p: Prefs, on: bool)
    requires ValidPrefs(p) && Shows(root, p) && InitialPrefs(store) == p
    ensures Shows(Toggle(root, ReduceMotionClass, on), p.(reduceMotion := on))
    ensures InitialPrefs(store[ReduceMotionKey := BoolText(on)]) == p.(reduceMotion := on)
  {
    FamiliesDisjoint();
    ToggleKeeps(root, ReduceMotionClass, on, ThemeFamily);
    ToggleKeeps(root, ReduceMotionClass, on, TextSizeFamily);
    ToggleKeeps(root, ReduceMotionClass, on, CvFamily);
    ReloadAfterWrite(store, ReduceMotionKey, BoolText(on));
  }

  /** Switching enhanced focus. */
  lemma EnhancedFocusStep(root: set<string>, store: map<string, string>, p: Prefs, on: bool)
    requires ValidPrefs(p) && Shows(root, p) && InitialPrefs(store) == p
    ensures Shows(Toggle(root, EnhancedFocusClass, on), p.(enhancedFocus := on))
    ensures InitialPrefs(store[EnhancedFocusKey := BoolText(on)]) == p.(enhancedFocus := on)
  {
    FamiliesDisjoint();
    ToggleKeeps(root, EnhancedFocusClass, on, ThemeFamily);
    ToggleKeeps(root, EnhancedFocusClass, on, TextSizeFamily);
    ToggleKeeps(root, EnhancedFocusClass, on, CvFamily);
    ReloadAfterWrite(store, EnhancedFocusKey, BoolText(on));
  }

  class AccessibilityProvider {
    var theme: string
    var textSize: string
    var colorVision: string
    var reduceMotion: bool
    var enhancedFocus: bool
    var root: set<string>
    var store: map<string, string>

    function Current(): Prefs
      reads this
    {
      Prefs(theme, textSize, colorVision, reduceMotion, enhancedFocus)
    }

    /** The state is valid, the root shows it, and storage reloads it. */
    predicate Valid()
      reads this
    {
      ValidPrefs(Current()) && Shows(root, Current()) && InitialPrefs(store) == Current()
    }

    /** Mount: the checked initial state, then all five effects. */
    constructor (initialStore: map<string, string>, initialRoot: set<string>)
      ensures Valid()
      ensures Current() == InitialPrefs(initialStore)
      ensures root == Effects(initialRoot, InitialPrefs(initialStore))
      ensures store == Persisted(initialStore, InitialPrefs(initialStore))
    {
      var p := InitialPrefs(initialStore);
      theme, textSize, colorVision := p.theme, p.textSize, p.colorVision;
      reduceMotion, enhancedFocus := p.reduceMotion, p.enhancedFocus;
      root := Effects(initialRoot, p);
      store := Persisted(initialStore, p);
      EffectsShow(initialRoot, p);
      PersistRoundTrip(initialStore, p);
    }

    /** `setTheme` and the theme effect. */
    method SetTheme(t: string)
      requires Valid() && t in Themes
      modifies this
      ensures Valid()
      ensures Current() == old(Current()).(theme := t)
      ensures root == Replace(old(root), ThemeFamily, ThemeClass(t))
      ensures store == old(store)[ThemeKey := t]
    {
      ThemeStep(root, store, Current(), t);
      theme := t;
      root := Replace(root, ThemeFamily, ThemeClass(t));
      store := store[ThemeKey := t];
    }

    /** `setTextSize` and the text-size effect. */
    method SetTextSize(s: string)
      requires Valid() && s in TextSizes
      modifies this
      ensures Valid()
      ensures Current() == old(Current()).(textSize := s)
      ensures root == Replace(old(root), TextSizeFamily, TextSizeClass(s))
      ensures store == old(store)[TextSizeKey := s]
    {
      TextSizeStep(root, store, Current(), s);
      textSize := s;
      root := Replace(root, TextSizeFamily, TextSizeClass(s));
      store := store[TextSizeKey := s];
    }

    /** `setColorVision` and the colour-vision effect. */
    method SetColorVision(cv: string)
      requires Valid() && cv in ColorVisions
      modifies this
      ensures Valid()
      ensures Current() == old(Current()).(colorVision := cv)
      ensures root == Replace(old(root), CvFamily, CvClass(cv))
      ensures store == old(store)[ColorVisionKey := cv]
    {
      ColorVisionStep(root, store, Current(), cv);
      colorVision := cv;
      root := Replace(root, CvFamily, CvClass(cv));
      store := store[ColorVisionKey := cv];
    }

    /** `setReduceMotion` and its effect. */
    method SetReduceMotion(on: bool)
      requires Valid()
      modifies this
      ensures Valid()
      ensures Current() == old(Current()).(reduceMotion := on)
      ensures root == Toggle(old(root), ReduceMotionClass, on)
      ensures store == old(store)[ReduceMotionKey := BoolText(on)]
    {
      ReduceMotionStep(root, store, Current(), on);
      reduceMotion := on;
      root := Toggle(root, ReduceMotionClass, on);
      store := store[ReduceMotionKey := BoolText(on)];
    }

    /** `setEnhancedFocus` and its effect. */
    method SetEnhancedFocus(on: bool)
      requires Valid()
      modifies this
      ensures Valid()
      ensures Current() == old(Current()).(enhancedFocus := on)
      ensures root == Toggle(old(root), EnhancedFocusClass, on)
      ensures store == old(store)[EnhancedFocusKey := BoolText(on)]
    {
      EnhancedFocusStep(root, store, Current(), on);
      enhancedFocus := on;
      root := Toggle(root, EnhancedFocusClass, on);
      store := store[EnhancedFocusKey := BoolText(on)];
    }
  }

  const OutsideProvider: string := "useAccessibility must be used within AccessibilityProvider"

  /** `useAccessibility`: the context value, or the error it throws when no
      provider is above the caller. */
  function UseAccessibility(ctx: Option<Prefs>): (r: Result<Prefs, string>)
    ensures r.Failure? <==> ctx.None?
    ensures r.Failure? ==> r.error == OutsideProvider
    ensures r.Success? ==> r.value == ctx.value
  {
    match ctx
    case None => Failure(OutsideProvider)
    case Some(p) => Success(p)
  }
}
