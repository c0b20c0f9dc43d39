/** The "check my network's frequency" button: which of its two alerts is shown
    for the frequency last reported for the connected network. */
module PairingAdvisory {
  import opened Networks

  datatype Option<T> = None | Some(value: T)

  /** The two alerts: "Erreur" asks the user to join a 2.4 GHz network before
      pairing; "Félicitations" says pairing can go ahead. */
  datatype Advisory = Mismatch | Compatible

  /** JavaScript truthiness of the stored frequency: an unset (undefined)
      frequency and 0 are falsy, every other integer is truthy. */
  predicate Truthy(frequency: Option<int>) {
    frequency.Some? && frequency.value != 0
  }

  /** The alert's branch condition: a truthy frequency below 2200 or above 2600 MHz. */
  function CheckFrequency(userFrequency: Option<int>): (a: Advisory)
    ensures a == Mismatch <==>
            userFrequency.Some? && userFrequency.value != 0 && !(2200 <= userFrequency.value <= 2600)
  {
    if Truthy(userFrequency) && (userFrequency.value < 2200 || userFrequency.value > 2600)
    then Mismatch
    else Compatible
  }

  /** How the alert compares with the band filters: it is content with every
      frequency from 2200 to 2600 MHz, all of which the 2.4 GHz filter shows;
      it objects to 2601..2649 MHz although the 2.4 GHz filter shows those too;
      it objects to every frequency the 5.2 GHz filter shows; and an unknown or
      zero frequency falls through to the "Félicitations" branch. */
  lemma AdvisoryAgainstBands(e: WifiEntry)
    ensures 2200 <= e.frequency <= 2600 ==> Is24GHz(e) && CheckFrequency(Some(e.frequency)) == Compatible
    ensures 2600 < e.frequency < 2650 ==> Is24GHz(e) && CheckFrequency(Some(e.frequency)) == Mismatch
    ensures Is52GHz(e) ==> CheckFrequency(Some(e.frequency)) == Mismatch
    ensures CheckFrequency(None) == Compatible && CheckFrequency(Some(0)) == Compatible
  {
  }
}
