/**
 The root component: the whole presentation state as one record, the view
 selector, and the user events as atomic transitions. Whenever the gate
 switches view, the newly mounted view re-initialises its own theme cell
 from the store, so the theme crosses a view switch only through the store.
 */
module App {
  import opened Options
  import opened Storage
  import Theme
  import Session

  datatype Hud = Hud(store: Store, theme: string, dark: bool, gate: Session.Gate)

  datatype Screen = LoginScreen | DashboardScreen

  /** The view selector: the login form while locked, the dashboard otherwise. */
  function View(h: Hud): (v: Screen)
    ensures v == LoginScreen <==> h.gate.Locked?
    ensures v == DashboardScreen <==> h.gate.Unlocked?
  {
    if h.gate.Unlocked? then DashboardScreen else LoginScreen
  }

  /**
   What every reachable state keeps: the store holds the shown theme, the dark
   flag mirrors it, and the gate is open exactly when the store holds the sentinel.
   */
  predicate Consistent(h: Hud) {
    && Get(h.store, Theme.ThemeKey) == Some(h.theme)
    && (h.dark <==> h.theme == Theme.Dark)
    && (h.gate.Unlocked? <==> Session.Authed(h.store))
  }

  lemma KeysDiffer()
    ensures Theme.ThemeKey != Session.AuthKey
  {
    assert Theme.ThemeKey[3] != Session.AuthKey[3];
  }

  /** Mount the view for gate `g` over store `s`; its theme cell reads the store. */
  function Enter(s: Store, g: Session.Gate): (h: Hud)
    ensures h.gate == g
    ensures h.theme == Theme.Initial(s)
    ensures Get(h.store, Theme.ThemeKey) == Some(h.theme)
    ensures h.dark <==> h.theme == Theme.Dark
    ensures forall k :: k != Theme.ThemeKey ==> Get(h.store, k) == Get(s, k)
  {
    var a := Theme.Mount(s);
    Hud(a.store, a.theme, a.dark, g)
  }

  /** Process start: the gate from the auth marker, then the selected view mounts. */
  function Startup(s: Store): (h: Hud)
    ensures h.gate == Session.Initial(s)
    ensures h.theme == Theme.Initial(s)
    ensures Consistent(h)
    ensures forall k :: k != Theme.ThemeKey ==> Get(h.store, k) == Get(s, k)
  {
    KeysDiffer();
    Enter(s, Session.Initial(s))
  }

  /** The theme toggle, available on both views; the gate is untouched. */
  function ToggleTheme(h: Hud): (r: Hud)
    ensures r.theme == Theme.Toggled(h.theme)
    ensures r.dark != h.dark || !(h.dark <==> h.theme == Theme.Dark)
    ensures r.dark <==> r.theme == Theme.Dark
    ensures Get(r.store, Theme.ThemeKey) == Some(r.theme)
    ensures forall k :: k != Theme.ThemeKey ==> Get(r.store, k) == Get(h.store, k)
    ensures r.gate == h.gate
  {
    var a := Theme.Apply(h.store, Theme.Toggled(h.theme));
    Hud(a.store, a.theme, a.dark, h.gate)
  }

  /** A keystroke in the login form; the store and theme are untouched. */
  function Type(h: Hud, value: string): (r: Hud)
    ensures h.gate.Locked? ==> r == h.(gate := Session.Locked(value, false))
    ensures h.gate.Unlocked? ==> r == h
  {
    h.(gate := Session.Keystroke(h.gate, value))
  }

  /**
   Submitting the login form. On a match the sentinel is written, the
   dashboard mounts and re-reads the theme, which in a consistent state is
   the theme already shown; on a mismatch only the error flag changes.
   */
  function SubmitForm(h: Hud, secret: string): (r: Hud)
    ensures h.gate.Locked? && h.gate.password == secret ==>
      && r.gate == Session.Unlocked
      && Session.Authed(r.store)
      && r.theme == Theme.Initial(h.store)
      && Get(r.store, Theme.ThemeKey) == Some(r.theme)
      && (r.dark <==> r.theme == Theme.Dark)
      && forall k :: k != Session.AuthKey && k != Theme.ThemeKey ==> Get(r.store, k) == Get(h.store, k)
    ensures h.gate.Locked? && h.gate.password == secret && Consistent(h) ==>
      r.theme == h.theme && r.dark == h.dark && r.store == Set(h.store, Session.AuthKey, Session.Sentinel)
    ensures h.gate.Locked? && h.gate.password != secret ==>
      r == h.(gate := Session.Locked(h.gate.password, true))
    ensures h.gate.Unlocked? ==> r == h
  {
    KeysDiffer();
    var t := Session.Submit(h.store, h.gate, secret);
    if h.gate.Locked? && t.gate.Unlocked? then
      var r := Enter(t.store, t.gate);
      if Consistent(h) then
        SameReads(r.store, Set(h.store, Session.AuthKey, Session.Sentinel));
        r
      else r
    else h.(gate := t.gate)
  }

  /**
   Logging out from the dashboard: the marker is removed, the login form
   mounts afresh and re-reads the theme; in a consistent state the theme key
   and every other key keep their values.
   */
  function LogOut(h: Hud): (r: Hud)
    ensures h.gate.Unlocked? ==>
      && r.gate == Session.FreshLogin
      && Get(r.store, Session.AuthKey) == None
      && r.theme == Theme.Initial(h.store)
      && Get(r.store, Theme.ThemeKey) == Some(r.theme)
      && (r.dark <==> r.theme == Theme.Dark)
      && forall k :: k != Session.AuthKey && k != Theme.ThemeKey ==> Get(r.store, k) == Get(h.store, k)
    ensures h.gate.Unlocked? && Consistent(h) ==>
      r.theme == h.theme && r.dark == h.dark && r.store == Remove(h.store, Session.AuthKey)
    ensures h.gate.Locked? ==> r == h
  {
    KeysDiffer();
    if h.gate.Unlocked? then
      var t := Session.Logout(h.store, h.gate);
      var r := Enter(t.store, t.gate);
      if Consistent(h) then
        SameReads(r.store, Remove(h.store, Session.AuthKey));
        r
      else r
    else h
  }

  /** The user inputs; each control exists only on the view that renders it. */
  datatype Event = Toggle | Keystroke(value: string) | Submit | Logout

  function Step(h: Hud, e: Event, secret: string): Hud {
    match e
    case Toggle => ToggleTheme(h)
    case Keystroke(v) => Type(h, v)
    case Submit => SubmitForm(h, secret)
    case Logout => LogOut(h)
  }

  /** A session: the events applied in order. */
  function Run(h: Hud, es: seq<Event>, secret: string): Hud
    decreases |es|
  {
    if |es| == 0 then h else Run(Step(h, es[0], secret), es[1..], secret)
  }

  /** Every event keeps a consistent state consistent. */
  lemma StepPreservesConsistent(h: Hud, e: Event, secret: string)
    requires Consistent(h)
    ensures Consistent(Step(h, e, secret))
  {
    KeysDiffer();
  }

  /** Any session started from any store stays consistent. */
  lemma {:induction false} RunPreservesConsistent(h: Hud, es: seq<Event>, secret: string)
    requires Consistent(h)
    ensures Consistent(Run(h, es, secret))
    decreases |es|
  {
    if |es| > 0 {
      StepPreservesConsistent(h, es[0], secret);
      RunPreservesConsistent(Step(h, es[0], secret), es[1..], secret);
    }
  }

  /**
   Reloading a consistent state restores it: the same store, theme, dark flag
   and view; only the login form's own input and error are reset.
   */
  lemma ReloadRestores(h: Hud)
    requires Consistent(h)
    ensures Startup(h.store).store == h.store
    ensures Startup(h.store).theme == h.theme
    ensures Startup(h.store).dark == h.dark
    ensures Startup(h.store).gate == if h.gate.Unlocked? then Session.Unlocked else Session.FreshLogin
  {
    SetUnchanged(h.store, Theme.ThemeKey, h.theme);
  }

  /** Reloading after any session from any start restores the session's theme and view. */
  lemma ReloadAfterRun(s: Store, es: seq<Event>, secret: string)
    ensures Startup(Run(Startup(s), es, secret).store).theme == Run(Startup(s), es, secret).theme
    ensures View(Startup(Run(Startup(s), es, secret).store)) == View(Run(Startup(s), es, secret))
  {
    RunPreservesConsistent(Startup(s), es, secret);
    ReloadRestores(Run(Startup(s), es, secret));
  }

  function Toggles(n: nat): (es: seq<Event>)
    ensures |es| == n
    ensures forall i :: 0 <= i < n ==> es[i] == Toggle
  {
    seq(n, _ => Toggle)
  }

  /**
   After n toggles from a theme the program writes, the theme is the original
   one when n is even and the other one when n is odd; the view is unchanged.
   */
  lemma {:induction false} ToggleParity(h: Hud, n: nat, secret: string)
    requires Theme.IsKnown(h.theme)
    ensures Run(h, Toggles(n), secret).theme == if n % 2 == 0 then h.theme else Theme.Toggled(h.theme)
    ensures Run(h, Toggles(n), secret).gate == h.gate
    decreases n
  {
    if n > 0 {
      var h' := ToggleTheme(h);
      assert Toggles(n)[1..] == Toggles(n - 1);
      ToggleParity(h', n - 1, secret);
      Theme.ToggledTwice(h.theme);
    }
  }

  /** From a fresh store, n toggles leave "dark" stored iff n is even, and a reload shows it. */
  lemma FreshToggleParity(n: nat, secret: string)
    ensures Run(Startup(map[]), Toggles(n), secret).theme == if n % 2 == 0 then Theme.Dark else Theme.Light
    ensures Startup(Run(Startup(map[]), Toggles(n), secret).store).theme == Run(Startup(map[]), Toggles(n), secret).theme
  {
    ToggleParity(Startup(map[]), n, secret);
    ReloadAfterRun(map[], Toggles(n), secret);
  }

  /** A two-event session is the two steps in order. */
  lemma RunPair(h: Hud, a: Event, b: Event, secret: string)
    ensures Run(h, [a, b], secret) == Step(Step(h, a, secret), b, secret)
  {
    var h1 := Step(h, a, secret);
    var h2 := Step(h1, b, secret);
    assert [a, b][1..] == [b];
    assert [b][1..] == [];
    assert Run(h1, [b], secret) == Run(h2, [], secret);
  }

  /**
   The life of one browser profile: locked and dark on a fresh store; a wrong
   passphrase keeps it locked with the error shown; the right one opens it;
   a reload goes straight to the dashboard; logout locks it; a reload stays locked.
   */
  lemma Scenario(secret: string)
    requires secret != "wrong"
    ensures Startup(map[]).gate == Session.FreshLogin && Startup(map[]).theme == Theme.Dark
    ensures Run(Startup(map[]), [Keystroke("wrong"), Submit], secret).gate == Session.Locked("wrong", true)
    ensures Run(Startup(map[]), [Keystroke("wrong"), Submit, Keystroke(secret), Submit], secret).gate == Session.Unlocked
    ensures Startup(Run(Startup(map[]), [Keystroke(secret), Submit], secret).store).gate == Session.Unlocked
    ensures Startup(LogOut(Startup(Run(Startup(map[]), [Keystroke(secret), Submit], secret).store)).store).gate == Session.FreshLogin
  {
    var h0 := Startup(map[]);
    var h1 := Run(h0, [Keystroke(secret), Submit], secret);
    RunPair(h0, Keystroke(secret), Submit, secret);
    var h2 := Startup(h1.store);
    assert h2.gate == Session.Unlocked;
    var h3 := LogOut(h2);
    assert Get(h3.store, Session.AuthKey) == None;
    var w := Run(h0, [Keystroke("wrong"), Submit], secret);
    RunPair(h0, Keystroke("wrong"), Submit, secret);
    var ws := [Keystroke("wrong"), Submit, Keystroke(secret), Submit];
    assert Run(h0, ws, secret) == Run(w, [Keystroke(secret), Submit], secret) by {
      assert ws[1..] == [Submit, Keystroke(secret), Submit];
      assert ws[1..][1..] == [Keystroke(secret), Submit];
    }
    RunPair(w, Keystroke(secret), Submit, secret);
  }

  /**
   Start-up as the program's effects order it. The root starts with its auth
   flag false, so the login view mounts first and runs its theme cell's first
   pass (which writes "dark"); the root's own effect then reads the marker.
   When locked, the login view survives to its second pass. When unlocked,
   it is replaced in the same update by the dashboard, whose theme cell reads
   the store its predecessor just overwrote.
   */
  function StartupAsWritten(s: Store): (h: Hud)
    ensures h.gate == Session.Initial(s)
    ensures h.gate.Locked? ==> h.theme == Theme.Initial(s)
    ensures h.gate.Unlocked? ==> h.theme == Theme.Dark && h.dark
    ensures h.gate.Unlocked? ==> Get(h.store, Theme.ThemeKey) == Some(Theme.Dark)
    ensures forall k :: k != Theme.ThemeKey ==> Get(h.store, k) == Get(s, k)
    ensures Consistent(h)
  {
    KeysDiffer();
    var login := Theme.MountFirstPass(s);
    if Session.Authed(login.store) then
      var dash := Theme.Settle(Theme.MountFirstPass(login.store));
      Hud(dash.store, dash.theme, dash.dark, Session.Unlocked)
    else
      var a := Theme.Settle(login);
      Hud(a.store, a.theme, a.dark, Session.FreshLogin)
  }

  /** While locked, the effect-ordered start-up agrees with `Startup`. */
  lemma StartupAsWrittenWhenLocked(s: Store)
    requires !Session.Authed(s)
    ensures StartupAsWritten(s) == Startup(s)
  {
    KeysDiffer();
    Theme.SettledMountIsAtomic(s);
  }

  /**
   While unlocked it drops a stored light theme: reloading the dashboard
   after choosing "light" comes back dark, and "dark" is what stays stored.
   */
  lemma StartupAsWrittenLosesTheme()
    ensures var s := map[Theme.ThemeKey := Theme.Light, Session.AuthKey := Session.Sentinel];
      && Startup(s).theme == Theme.Light
      && StartupAsWritten(s).theme == Theme.Dark
      && Get(StartupAsWritten(s).store, Theme.ThemeKey) == Some(Theme.Dark)
  {
    KeysDiffer();
    var s := map[Theme.ThemeKey := Theme.Light, Session.AuthKey := Session.Sentinel];
    assert Session.Authed(s);
  }
}
