/**
 * The onboarding-completed flag kept in `localStorage` under the key
 * `onboarding_completed`. Without a window every operation is a no-op and the
 * flag reads as unset.
 */
module OnboardingStatus {
  import opened BrowserState

  const CompletedKey: string := "onboarding_completed"

  /** The flag is set when the stored value is exactly "true". */
  predicate Completed(hasWindow: bool, storage: map<string, string>) {
    hasWindow && CompletedKey in storage && storage[CompletedKey] == "true"
  }

  /** The store after `localStorage.setItem('onboarding_completed', 'true')`. */
  function Marked(storage: map<string, string>): (r: map<string, string>)
    ensures forall k :: k != CompletedKey ==> (k in r <==> k in storage)
    ensures forall k :: k in storage && k != CompletedKey ==> r[k] == storage[k]
  {
    storage[CompletedKey := "true"]
  }

  /** The store after `localStorage.removeItem('onboarding_completed')`. */
  function Removed(storage: map<string, string>): (r: map<string, string>)
    ensures forall k :: k != CompletedKey ==> (k in r <==> k in storage)
    ensures forall k :: k in r ==> k in storage && r[k] == storage[k]
  {
    storage - {CompletedKey}
  }

  /** `hasCompletedOnboarding()` */
  function HasCompleted(b: Browser): (r: bool)
    reads b
    ensures r ==> b.hasWindow && CompletedKey in b.storage
    ensures b.hasWindow && CompletedKey in b.storage ==> (r <==> b.storage[CompletedKey] == "true")
  {
    Completed(b.hasWindow, b.storage)
  }

  /** `shouldRedirectToOnboarding()` */
  function ShouldRedirect(b: Browser): (r: bool)
    reads b
    ensures !b.hasWindow || CompletedKey !in b.storage ==> r
  {
    !HasCompleted(b)
  }

  /** The redirect is wanted exactly while the flag does not read as set, so always without a window. */
  lemma ShouldRedirectIffNotCompleted(b: Browser)
    ensures ShouldRedirect(b) <==> !(b.hasWindow && CompletedKey in b.storage && b.storage[CompletedKey] == "true")
    ensures !b.hasWindow ==> ShouldRedirect(b)
  {
  }

  /** `markOnboardingComplete()` */
  method MarkComplete(b: Browser)
    modifies b
    ensures b.storage == if b.hasWindow then Marked(old(b.storage)) else old(b.storage)
    ensures b.token == old(b.token)
  {
    if b.hasWindow {
      b.storage := Marked(b.storage);
    }
  }

  /** `resetOnboardingStatus()` */
  method ResetStatus(b: Browser)
    modifies b
    ensures b.storage == if b.hasWindow then Removed(old(b.storage)) else old(b.storage)
    ensures b.token == old(b.token)
  {
    if b.hasWindow {
      b.storage := Removed(b.storage);
    }
  }

  /** After marking, the flag reads as set exactly when there is a window. */
  lemma CompletedAfterMark(hasWindow: bool, storage: map<string, string>)
    ensures Completed(hasWindow, if hasWindow then Marked(storage) else storage)
            <==> hasWindow
  {
  }

  /** Marking twice has the same effect as marking once. */
  lemma MarkIdempotent(storage: map<string, string>)
    ensures Marked(Marked(storage)) == Marked(storage)
  {
  }

  /** After a reset the flag never reads as set. */
  lemma NotCompletedAfterReset(hasWindow: bool, storage: map<string, string>)
    ensures !Completed(hasWindow, if hasWindow then Removed(storage) else storage)
  {
  }

  /** Without a window the flag never reads as set, whatever the store holds. */
  lemma NoWindowNeverCompleted(storage: map<string, string>)
    ensures !Completed(false, storage)
  {
  }

  /** A value other than "true" under the key, such as "false" or "1", does not count. */
  lemma OnlyTrueCounts(storage: map<string, string>, v: string)
    ensures Completed(true, storage[CompletedKey := v]) <==> v == "true"
  {
  }
}
