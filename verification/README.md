# Mission Control HUD: presentation-state engine

This project is a Dafny model of the state logic behind the "Mission Control" dashboard, a
single-page HUD (heads-up dashboard). The logic lives in `src/App.tsx`. The model has these modules:

- **Storage**: a synchronous string-to-string key-value store (`localStorage`) with get, set and remove.
- **Theme**: the theme cell from `useTheme` and `ThemeToggle`. On mount it reads `mc_theme`, defaulting
  to `"dark"`. On every change it writes the theme back and sets one "dark mode" flag.
  The toggle turns `"dark"` into `"light"` and anything else into `"dark"`.
- **Session**: the gate, which is either `Locked` or `Unlocked`. It starts unlocked exactly when
  `mc_auth` holds `"1"`. A submit compares the typed passphrase with a constant secret; on a match it
  writes `mc_auth = "1"` and unlocks, otherwise it shows an error. A keystroke clears the error.
  Logout removes `mc_auth` and locks.
- **App**: the root. It holds the whole state in one record `Hud(store, theme, dark, gate)` and picks
  the view: the login form while locked, the dashboard otherwise. The user's events are atomic
  transitions. Each view calls `useTheme` itself, so every view switch re-reads the theme from the store.
- **Tones, Skills, Connections, Projects, Pulse**: the status-to-tone mapping of every status dot,
  plus the Skills panel, which lists the first five skills and a "+ N more" counter. The program
  has no shared mapping: each panel has its own ternary. `Tones.Classify` is a reference
  classification of status labels (good for ok/connected/done/success, warn for warn/degraded,
  bad for off/offline/blocked/bad/failed, neutral otherwise), and each panel's mapping is proved
  to agree with it.
- **Mock**: part of the static data set (`src/mock.ts`), used as concrete witnesses.

The store keys are `mc_theme` and `mc_auth`. The stored theme is used unvalidated
(src/App.tsx:32), so a theme is any string.

The passphrase is a parameter `secret` of the submit transition; its literal value is not modelled.

The central invariant is `App.Consistent`:

- the store holds the shown theme;
- the dark flag mirrors the theme;
- the gate is open exactly when the store holds the sentinel.

Every event preserves it, from either start-up. With the corrected start-up `App.Startup`, a reload
after any session restores the same theme and view. The start-up as the program's effects order it,
`App.StartupAsWritten`, does not do this when the gate is open (see "## Findings").

## Model

| member | source | states |
|---|---|---|
| Storage.Get | src/App.tsx:32 | a lookup yields a value exactly when the key is present, and then the stored value |
| Storage.Set | src/App.tsx:38 | after a write the key reads back the written value and every other key reads as before |
| Storage.Remove | src/App.tsx:323 | after a removal the key is absent and every other key reads as before |
| Theme.Initial | src/App.tsx:29-33 | the mounted theme is the stored `mc_theme` string, unvalidated, or "dark" when the key is absent |
| Theme.Toggled | src/App.tsx:45-49 | "dark" toggles to "light", anything else to "dark"; the result is always dark or light and the dark flag always flips |
| Theme.ToggledTwice | src/App.tsx:49 | two toggles give back the original theme if and only if it was "dark" or "light" |
| Theme.Apply | src/App.tsx:36-39 | a theme change stores the theme under `mc_theme`, touches no other key, and sets the dark flag iff the theme is "dark" |
| Theme.InitialAfterApply | src/App.tsx:32-38 | round trip: reading the theme back after a change yields the applied theme |
| Theme.Mount | src/App.tsx:28-41 | a mount shows the stored theme (default dark), always writes it under `mc_theme`, sets the flag iff it is "dark", and changes no other key |
| Theme.MountIdempotent | src/App.tsx:31-39 | mounting again over the store a mount left behind changes nothing |
| Theme.MountFirstPass | src/App.tsx:29-39 | on a mount's first pass the read value is only pending while the persist effect writes "dark" and raises the flag |
| Theme.Settle | src/App.tsx:36-39 | the second pass stores and shows the pending theme, sets the flag iff it is "dark", and changes no other key |
| Theme.SettledMountIsAtomic | src/App.tsx:31-39 | a mount that reaches its second pass has the same effect as the one-step mount |
| Session.Initial | src/App.tsx:312-316 | the gate starts open iff `mc_auth` is present and exactly "1"; otherwise it starts as a fresh login form |
| Session.Keystroke | src/App.tsx:122-125 | a keystroke sets the input and clears the error; it is inert once unlocked |
| Session.Submit | src/App.tsx:109-117 | a matching passphrase writes the sentinel, leaves other keys alone and unlocks; any other string leaves the store unchanged, stays locked and shows the error |
| Session.SubmitPersists | src/App.tsx:111-113 | after a successful submit, a restart reads the gate as open |
| Session.Logout | src/App.tsx:322-325 | logout removes `mc_auth`, keeps every other key and locks with a fresh form |
| Session.LogoutPersists | src/App.tsx:322-325 | after logout, a restart reads the gate as locked |
| Session.FailedSubmitThenKeystroke | src/App.tsx:114-125 | a failed submit shows the error and the next keystroke hides it |
| App.View | src/App.tsx:318-328 | the login view is shown iff locked, the dashboard iff unlocked |
| App.Enter | src/App.tsx:141-142 | mounting the view for gate g keeps g, shows the stored theme (default dark), stores it under `mc_theme`, sets the flag iff it is "dark" and changes no other key |
| App.Startup | src/App.tsx:311-319 | the corrected start-up: the gate comes from the auth marker and the theme from the theme key, the result is consistent, and no key but `mc_theme` changes |
| App.ToggleTheme | src/App.tsx:44-49 | the toggle stores the toggled theme, flips the dark flag, changes no other key and leaves the gate alone |
| App.Type | src/App.tsx:119-125 | a keystroke changes only the login form's input and clears its error |
| App.SubmitForm | src/App.tsx:107-117 | a right passphrase unlocks, persists the sentinel, and the dashboard stores and flags the theme it re-reads, which is the shown theme in a consistent state; a wrong one only raises the error; it is inert once unlocked |
| App.LogOut | src/App.tsx:318-327 | logout locks and removes the marker, and the login view stores and flags the theme it re-reads; in a consistent state the theme, the flag and every other key survive the view switch; it is inert while locked |
| App.StepPreservesConsistent | src/App.tsx:311-328 | every event keeps the store, the shown theme, the dark flag and the gate in agreement |
| App.RunPreservesConsistent | src/App.tsx:311-328 | any sequence of events from a consistent state stays consistent |
| App.ReloadRestores | src/App.tsx:311-316 | restarting from a consistent state's store gives back the same store, theme, flag and gate; only the login input and error reset |
| App.ReloadAfterRun | src/App.tsx:311-328 | with the corrected start-up `App.Startup`, a reload after any session from any store shows the same theme and the same view |
| App.ToggleParity | src/App.tsx:49 | after n toggles from dark or light the theme is the original when n is even and the other when odd; the gate is unchanged |
| App.FreshToggleParity | src/App.tsx:29-49 | from an empty store, n toggles leave "dark" iff n is even and "light" otherwise, and a reload shows the same theme |
| App.Scenario | src/App.tsx:109-125 | fresh store: locked and dark; wrong passphrase: locked with error; right one: unlocked; reload: still unlocked; logout then reload: locked |
| App.StartupAsWritten | src/App.tsx:311-319 | start-up in the effects' real order picks the right gate, changes no key but `mc_theme` and reaches a consistent state; when unlocked it always shows, flags and stores "dark" |
| App.StartupAsWrittenWhenLocked | src/App.tsx:311-319 | when locked, the effect-ordered start-up equals the atomic start-up |
| App.StartupAsWrittenLosesTheme | src/App.tsx:28-39 | with "light" stored and the marker set, the atomic start-up shows light but the effect-ordered one shows and stores dark |
| Skills.ToneOf | src/App.tsx:174 | ok is good, warn is warn, off is bad; this agrees with the reference classification and is never neutral |
| Skills.ToneOfInjective | src/App.tsx:174 | distinct skill statuses get distinct tones |
| Skills.Visible | src/App.tsx:170 | the listed skills are a prefix of the list, of length min(len, 5) |
| Skills.MoreCount | src/App.tsx:180 | the counter is max(0, len - 5): shown plus counted equals len, and it is zero iff len <= 5 |
| Skills.VisibleThenRest | src/App.tsx:170-180 | the listed skills followed by the counted ones are exactly the whole list |
| Skills.Panel | src/App.tsx:168-181 | the panel has one row per listed skill, with the skill's name, label and tone in order, and a counter adding up to len |
| Connections.ToneOf | src/App.tsx:246 | connected is good, degraded is warn, offline is bad; this agrees with the reference classification |
| Connections.ToneOfInjective | src/App.tsx:246 | distinct connection statuses get distinct tones |
| Projects.ToneOf | src/App.tsx:264 | done is good, blocked is bad, in-progress is neutral; this agrees with the reference classification and is never warn |
| Projects.ToneOfInjective | src/App.tsx:264 | distinct project statuses get distinct tones |
| Pulse.ToneOf | src/App.tsx:222 | an ok upstream is good and any other is warn; this agrees with the reference classification |
| Pulse.ToneOfInjective | src/App.tsx:222 | the two upstream states get different tones |
| Mock.SkillsCounter | src/mock.ts:7-14 | the six shipped skills show five rows and "+ 1 more" |
| Mock.ApiTones | src/mock.ts:45-50 | in the shipped status grid only OpenAI shows the warn tone |

## Left out

- JSX markup, class strings, icons, the `HudCard` and `Dot` rendering and the Tailwind configuration. They are styling; `Dot` is modelled only as its `Tones.Tone`.
- The Missing tools, Sub-agents and Crons lists and the uptime/error line. They display their records verbatim, with no mapping or state.
- The `toLocaleString()` token count and the `toFixed(2)` cost. These are locale-dependent and floating-point formatting.
- The upper-casing of the API status text. This is display only.
- `usage.topModels`, the security panel and the full-list Skills variant. They are not rendered by this source.
- React's scheduling. Transitions are atomic, except in `App.StartupAsWritten`, which models the start-up effects in order, including the persist effect of the login view that mounts first. This is the finding below. `Theme.SettledMountIsAtomic` shows that atomic mounting is faithful wherever a mount survives to its second pass.
- Strict-mode double invocation of effects. This is development-only behaviour.
- The error message text. It is modelled as a flag.
- The literal passphrase. It is the parameter `secret`, and no hashing, timing or rate limiting is modelled, as in the source.
- Writes to the store by other tabs or windows. The model assumes this page is the store's only writer, and the source has no listener for such writes. For example, a logout in another tab removes `mc_auth` while this tab stays on the dashboard, which breaks `App.Consistent` in the running program.
- Exceptions thrown by the browser store. The source does not handle them.
- Events on a view that does not render their control. A keystroke or submit while unlocked, or a logout while locked, is modelled as a no-op, because the source cannot fire them there.

## Findings

| source | as written | input that shows it | evidently intended | confidence | as-written member | corrected member |
|---|---|---|---|---|---|---|
| src/App.tsx:28-39, 311-319 | The root starts with `authed = false`, so the login view mounts first. Its persist effect runs with the initial state and writes `mc_theme = "dark"` before the read value is applied. In the same update the root's effect unlocks and replaces the login view, so the dashboard reads the overwritten `"dark"` | store `{mc_theme: "light", mc_auth: "1"}` at start-up: the dashboard comes back dark and "dark" stays stored | reloading an unlocked dashboard keeps the stored theme, as it does when locked | medium (relies on React batching the root's update with the login view's pending theme update); not executed | App.StartupAsWritten, App.StartupAsWrittenLosesTheme | App.Startup, App.ReloadRestores, App.ReloadAfterRun |
