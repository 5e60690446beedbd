/** The research consent checklist: four boxes, all unchecked at first, each
    flipped on its own; "I Agree" leads to the department choice only once all
    four are checked. */
module Consent {

  datatype ConsentKey = Participation | DataCollection | Anonymity | Withdrawal

  /** The `consents` state record. */
  datatype Consents = Consents(participation: bool, dataCollection: bool, anonymity: bool, withdrawal: bool)

  const NoConsents := Consents(false, false, false, false)

  /** `consents[key]` */
  function Get(c: Consents, key: ConsentKey): bool
  {
    match key
    case Participation => c.participation
    case DataCollection => c.dataCollection
    case Anonymity => c.anonymity
    case Withdrawal => c.withdrawal
  }

  /** The four keys are all the keys there are. */
  lemma EveryKey(c: Consents)
    ensures (forall key: ConsentKey :: Get(c, key)) <==>
      c.participation && c.dataCollection && c.anonymity && c.withdrawal
  {
    if c.participation && c.dataCollection && c.anonymity && c.withdrawal {
      forall key: ConsentKey ensures Get(c, key) {
        match key
        case Participation =>
        case DataCollection =>
        case Anonymity =>
        case Withdrawal =>
      }
    } else {
      assert !Get(c, Participation) || !Get(c, DataCollection) || !Get(c, Anonymity) || !Get(c, Withdrawal);
    }
  }

  /** `Object.values(consents).every(value => value)`, the values taken in the
      order the record literal lists its keys. */
  function AllConsentsChecked(c: Consents): (r: bool)
    ensures r <==> forall key: ConsentKey :: Get(c, key)
  {
    var vs := [c.participation, c.dataCollection, c.anonymity, c.withdrawal];
    EveryKey(c);
    assert (forall i | 0 <= i < |vs| :: vs[i]) <==> vs[0] && vs[1] && vs[2] && vs[3];
    forall i | 0 <= i < |vs| :: vs[i]
  }

  /** `{ ...prev, [key]: !prev[key] }` */
  function Toggled(c: Consents, key: ConsentKey): (r: Consents)
    ensures Get(r, key) == !Get(c, key)
    ensures forall other: ConsentKey :: other != key ==> Get(r, other) == Get(c, other)
  {
    match key
    case Participation => c.(participation := !c.participation)
    case DataCollection => c.(dataCollection := !c.dataCollection)
    case Anonymity => c.(anonymity := !c.anonymity)
    case Withdrawal => c.(withdrawal := !c.withdrawal)
  }

  /** Flipping the same box twice restores the record. */
  lemma ToggleTwiceRestores(c: Consents, key: ConsentKey)
    ensures Toggled(Toggled(c, key), key) == c
  {
  }

  /** No box starts checked, so the fresh screen cannot continue, and checking
      each box once, in any order, enables it. */
  lemma CheckingEveryBoxOnceEnables(k1: ConsentKey, k2: ConsentKey, k3: ConsentKey, k4: ConsentKey)
    requires k1 != k2 && k1 != k3 && k1 != k4 && k2 != k3 && k2 != k4 && k3 != k4
    ensures forall key: ConsentKey :: !Get(NoConsents, key)
    ensures !AllConsentsChecked(NoConsents)
    ensures AllConsentsChecked(Toggled(Toggled(Toggled(Toggled(NoConsents, k1), k2), k3), k4))
  {
    var c := Toggled(Toggled(Toggled(Toggled(NoConsents, k1), k2), k3), k4);
    forall key: ConsentKey ensures Get(c, key) {
      assert key == k1 || key == k2 || key == k3 || key == k4;
    }
  }

  /** The screen's state, and the routes it has asked the navigator for. */
  class ConsentScreen {
    var consents: Consents
    var navigations: seq<string>

    constructor ()
      ensures consents == NoConsents && navigations == []
    {
      consents := NoConsents;
      navigations := [];
    }

    /** `toggleConsent(key)` */
    method ToggleConsent(key: ConsentKey)
      modifies this`consents
      ensures consents == Toggled(old(consents), key)
    {
      consents := Toggled(consents, key);
    }

    /** The "I Agree" button is disabled unless every box is checked. */
    predicate ContinueDisabled()
      reads this
    {
      !AllConsentsChecked(consents)
    }

    /** The button is disabled exactly while some box is unchecked, which is
        exactly when pressing it would not move on. */
    lemma DisabledIffSomeBoxUnchecked()
      ensures ContinueDisabled() <==> exists key: ConsentKey :: !Get(consents, key)
    {
    }

    /** `handleContinue()`: on to the department choice when every box is checked, otherwise nothing. */
    method HandleContinue()
      modifies this`navigations
      ensures !ContinueDisabled() ==> navigations == old(navigations) + ["DepartmentSelect"]
      ensures ContinueDisabled() ==> navigations == old(navigations)
    {
      if AllConsentsChecked(consents) {
        navigations := navigations + ["DepartmentSelect"];
      }
    }
  }
}
