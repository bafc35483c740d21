/**
 The two-state authentication gate. `Locked` carries the login form's own
 state (the typed passphrase and whether the error line shows), which exists
 only while the login view is mounted; `Unlocked` shows the dashboard.
 */
module Session {
  import opened Options
  import opened Storage

  const AuthKey := "mc_auth"
  const Sentinel := "1"

  datatype Gate = Locked(password: string, error: bool) | Unlocked

  /** The login form as it is mounted: empty input, no error. */
  const FreshLogin: Gate := Locked("", false)

  /** True iff the store holds the sentinel, exactly, under the auth key. */
  predicate Authed(s: Store) {
    Get(s, AuthKey) == Some(Sentinel)
  }

  /** The gate chosen at start-up from the persisted marker. */
  function Initial(s: Store): (g: Gate)
    ensures g.Unlocked? <==> AuthKey in s && s[AuthKey] == Sentinel
    ensures g.Locked? ==> g == FreshLogin
  {
    if Authed(s) then Unlocked else FreshLogin
  }

  /** A keystroke in the passphrase field: the input takes the new value and the error clears. */
  function Keystroke(g: Gate, value: string): (r: Gate)
    ensures g.Locked? ==> r.Locked? && r.password == value && !r.error
    ensures g.Unlocked? ==> r == g
  {
    match g
    case Locked(_, _) => Locked(value, false)
    case Unlocked => Unlocked
  }

  datatype Transition = Transition(store: Store, gate: Gate)

  /**
   Submitting the form: the typed passphrase is compared in full with the
   secret; on a match the sentinel is persisted and the gate opens, otherwise
   the store is untouched and the error shows.
   */
  function Submit(s: Store, g: Gate, secret: string): (t: Transition)
    ensures g.Locked? && g.password == secret ==>
      && t.gate == Unlocked
      && Get(t.store, AuthKey) == Some(Sentinel)
      && forall k :: k != AuthKey ==> Get(t.store, k) == Get(s, k)
    ensures g.Locked? && g.password != secret ==>
      t.store == s && t.gate == Locked(g.password, true)
    ensures g.Unlocked? ==> t == Transition(s, g)
  {
    match g
    case Locked(password, _) =>
      if password == secret then Transition(Set(s, AuthKey, Sentinel), Unlocked)
      else Transition(s, Locked(password, true))
    case Unlocked => Transition(s, g)
  }

  /** Logging out: the marker is removed and the login form is mounted afresh. */
  function Logout(s: Store, g: Gate): (t: Transition)
    ensures g.Unlocked? ==>
      && t.gate == FreshLogin
      && Get(t.store, AuthKey) == None
      && forall k :: k != AuthKey ==> Get(t.store, k) == Get(s, k)
    ensures g.Locked? ==> t == Transition(s, g)
  {
    match g
    case Unlocked => Transition(Remove(s, AuthKey), FreshLogin)
    case Locked(_, _) => Transition(s, g)
  }

  /** A successful submit survives a restart: the gate read back is open. */
  lemma SubmitPersists(s: Store, g: Gate, secret: string)
    requires g.Locked? && g.password == secret
    ensures Initial(Submit(s, g, secret).store) == Unlocked
  {
  }

  /** A logout survives a restart: the gate read back is locked. */
  lemma LogoutPersists(s: Store)
    ensures Initial(Logout(s, Unlocked).store) == FreshLogin
  {
  }

  /** After a failed submit the error shows, and the next keystroke hides it again. */
  lemma FailedSubmitThenKeystroke(s: Store, g: Gate, secret: string, value: string)
    requires g.Locked? && g.password != secret
    ensures Submit(s, g, secret).gate.error
    ensures !Keystroke(Submit(s, g, secret).gate, value).error
  {
  }
}
