/** The consent dialog (`ConsentDialog`): three agreements the user ticks
    one by one, and the Accept button that is enabled only when all three
    are ticked. */
module Consent {
  import IndexPage

  /** The `agreements` record. */
  datatype Agreements = Agreements(ownVoice: bool, personalUse: bool, noCelebrity: bool)

  /** The record's keys. */
  datatype AgreementKey = OwnVoice | PersonalUse | NoCelebrity

  function Get(a: Agreements, k: AgreementKey): bool
  {
    match k
    case OwnVoice => a.ownVoice
    case PersonalUse => a.personalUse
    case NoCelebrity => a.noCelebrity
  }

  /** `{ ...prev, [key]: !prev[key] }`: flips its own key and no other. */
  function Toggle(a: Agreements, k: AgreementKey): (t: Agreements)
    ensures Get(t, k) == !Get(a, k)
    ensures forall k' :: k' != k ==> Get(t, k') == Get(a, k')
  {
    match k
    case OwnVoice => a.(ownVoice := !a.ownVoice)
    case PersonalUse => a.(personalUse := !a.personalUse)
    case NoCelebrity => a.(noCelebrity := !a.noCelebrity)
  }

  /** `Object.values(agreements).every(Boolean)`: every key reads true. */
  predicate AllAgreed(a: Agreements)
    ensures AllAgreed(a) <==> forall k :: Get(a, k)
  {
    assert Get(a, OwnVoice) == a.ownVoice && Get(a, PersonalUse) == a.personalUse &&
      Get(a, NoCelebrity) == a.noCelebrity;
    a.ownVoice && a.personalUse && a.noCelebrity
  }

  const NoneAgreed := Agreements(false, false, false)

  /** A second toggle of the same key restores the record. */
  lemma ToggleTwice(a: Agreements, k: AgreementKey)
    ensures Toggle(Toggle(a, k), k) == a
  {
  }

  /** Starting from nothing agreed, the first time all three are agreed
      needs at least one toggle of each key. */
  lemma {:induction false} EveryKeyToggled(a: Agreements, ks: seq<AgreementKey>)
    requires a == NoneAgreed
    ensures AllAgreed(ToggleAll(a, ks)) ==> OwnVoice in ks && PersonalUse in ks && NoCelebrity in ks
  {
    forall k | k !in ks
      ensures !Get(ToggleAll(a, ks), k)
    {
      UntouchedKey(a, ks, k);
    }
  }

  /** The record after a run of toggles. */
  function ToggleAll(a: Agreements, ks: seq<AgreementKey>): Agreements
    decreases |ks|
  {
    if ks == [] then a else ToggleAll(Toggle(a, ks[0]), ks[1..])
  }

  /** A key never toggled keeps its value. */
  lemma {:induction false} UntouchedKey(a: Agreements, ks: seq<AgreementKey>, k: AgreementKey)
    requires k !in ks
    ensures Get(ToggleAll(a, ks), k) == Get(a, k)
    decreases |ks|
  {
    if ks != [] {
      assert k !in ks[1..];
      UntouchedKey(Toggle(a, ks[0]), ks[1..], k);
    }
  }

  class ConsentDialog {
    var agreements: Agreements
    const page: IndexPage.Index

    constructor (page: IndexPage.Index)
      ensures agreements == NoneAgreed && !AcceptEnabled() && this.page == page
    {
      agreements := NoneAgreed;
      this.page := page;
    }

    /** Accept's `disabled={!allAgreed}`, negated. */
    function AcceptEnabled(): bool
      reads this
    {
      AllAgreed(agreements)
    }

    /** `handleCheckboxChange(key)`. */
    method HandleCheckboxChange(k: AgreementKey)
      modifies this`agreements
      ensures agreements == Toggle(old(agreements), k)
      ensures Get(agreements, k) == !Get(old(agreements), k)
      ensures forall k' :: k' != k ==> Get(agreements, k') == Get(old(agreements), k')
    {
      agreements := Toggle(agreements, k);
    }

    /** Accept, which can only be clicked when enabled: the page's
        `handleConsent`. */
    method Accept()
      requires AcceptEnabled()
      modifies page`hasConsented, page`showConsent, page.storage
      ensures page.storage.items == old(page.storage.items)[IndexPage.ConsentKey := "true"]
      ensures page.hasConsented && !page.ConsentOpen()
    {
      page.HandleConsent();
    }
  }
}
