/**
 The theme cell (`useTheme` and `ThemeToggle`): a theme string read from the
 store on mount, written back on every change, and mirrored by a single
 "dark mode" flag on the rendering surface.
 */
module Theme {
  import opened Options
  import opened Storage

  const ThemeKey := "mc_theme"
  const Dark := "dark"
  const Light := "light"

  /** The dark flag the program sets on the document root: `theme === 'dark'`. */
  predicate IsDark(t: string) {
    t == Dark
  }

  /** A theme the program itself ever writes; a stored value may be anything else. */
  predicate IsKnown(t: string) {
    t == Dark || t == Light
  }

  /**
   The theme read on mount: the stored string when the key is present, used as
   is without validation, and "dark" when it is absent.
   */
  function Initial(s: Store): (t: string)
    ensures ThemeKey !in s ==> t == Dark
    ensures ThemeKey in s ==> t == s[ThemeKey]
  {
    Get(s, ThemeKey).GetOr(Dark)
  }

  /** The toggle button: "dark" becomes "light", anything else becomes "dark". */
  function Toggled(t: string): (r: string)
    ensures IsDark(t) ==> r == Light
    ensures !IsDark(t) ==> r == Dark
    ensures IsKnown(r)
    ensures IsDark(r) != IsDark(t)
  {
    if t == Dark then Light else Dark
  }

  /** What the program shows and stores after the theme changes. */
  datatype Applied = Applied(store: Store, theme: string, dark: bool)

  /** The persistence effect run on every theme change: write the theme back and set the flag. */
  function Apply(s: Store, t: string): (a: Applied)
    ensures a.theme == t
    ensures Get(a.store, ThemeKey) == Some(t)
    ensures forall k :: k != ThemeKey ==> Get(a.store, k) == Get(s, k)
    ensures a.dark <==> t == Dark
  {
    Applied(Set(s, ThemeKey, t), t, IsDark(t))
  }

  /** Mounting the theme cell, taken as one step: read the stored theme, then apply it. */
  function Mount(s: Store): (a: Applied)
    ensures a.theme == Initial(s)
    ensures Get(a.store, ThemeKey) == Some(a.theme)
    ensures a.dark <==> a.theme == Dark
    ensures forall k :: k != ThemeKey ==> Get(a.store, k) == Get(s, k)
  {
    Apply(s, Initial(s))
  }

  /** Round trip: the theme read back after a change is the theme that was applied. */
  lemma InitialAfterApply(s: Store, t: string)
    ensures Initial(Apply(s, t).store) == t
  {
  }

  /** Two toggles restore exactly the themes the program writes, and no other string. */
  lemma ToggledTwice(t: string)
    ensures Toggled(Toggled(t)) == t <==> IsKnown(t)
  {
    if !IsKnown(t) {
      assert Toggled(t) == Dark;
      assert Toggled(Toggled(t)) == Light;
    }
  }

  /** Mounting again over the store a mount left behind sees and leaves the same thing. */
  lemma MountIdempotent(s: Store)
    ensures Mount(Mount(s).store) == Mount(s)
  {
    var a := Mount(s);
    SetUnchanged(a.store, ThemeKey, a.theme);
  }

  /**
   One mount as the program's two effects run it on the first pass: the first
   effect reads the stored theme and schedules it as `pending`; the second runs
   with the state's initial value and so writes "dark" and raises the flag.
   */
  datatype FirstPass = FirstPass(pending: string, store: Store, dark: bool)

  function MountFirstPass(s: Store): (f: FirstPass)
    ensures f.pending == Initial(s)
    ensures Get(f.store, ThemeKey) == Some(Dark) && f.dark
    ensures forall k :: k != ThemeKey ==> Get(f.store, k) == Get(s, k)
  {
    FirstPass(Initial(s), Set(s, ThemeKey, Dark), true)
  }

  /** The second pass, reached only while the component stays mounted: the pending theme is applied. */
  function Settle(f: FirstPass): (a: Applied)
    ensures a.theme == f.pending
    ensures Get(a.store, ThemeKey) == Some(f.pending)
    ensures a.dark <==> f.pending == Dark
    ensures forall k :: k != ThemeKey ==> Get(a.store, k) == Get(f.store, k)
  {
    Apply(f.store, f.pending)
  }

  /** A mount that survives to its second pass is the one-step `Mount`. */
  lemma SettledMountIsAtomic(s: Store)
    ensures Settle(MountFirstPass(s)) == Mount(s)
  {
    var f := MountFirstPass(s);
    SameReads(Settle(f).store, Mount(s).store);
  }
}
