/** The App screen's state and its button handlers. Every list button replaces
    the displayed list wholesale with a view computed from the bundled fixture,
    never from the list currently on screen. */
module WifiApp {
  import opened Networks
  import opened FrequencySort
  import opened DualBand
  import opened PairingAdvisory

  class WifiScreen {
    /** The bundled fixture list (FAKEWIFIDATA) that every button reads. */
    const fixture: seq<WifiEntry>
    /** The list on screen (allWifi). */
    var allWifi: seq<WifiEntry>
    /** The connected network's frequency, once reported (userFrequency). */
    var userFrequency: Option<int>

    /** The screen as first rendered: nothing listed, no frequency known. */
    constructor (fixture: seq<WifiEntry>)
      ensures this.fixture == fixture
      ensures allWifi == [] && userFrequency == None
    {
      this.fixture := fixture;
      allWifi := [];
      userFrequency := None;
    }

    /** The scan's success callback: the scanned list is discarded and the
        fixture is shown instead. */
    method WifiListLoaded(scanned: seq<WifiEntry>)
      modifies this`allWifi
      ensures allWifi == fixture
    {
      allWifi := fixture;
    }

    /** The frequency lookup's success callback. */
    method FrequencyReported(frequency: int)
      modifies this`userFrequency
      ensures userFrequency == Some(frequency)
    {
      userFrequency := Some(frequency);
    }

    /** "Afficher les réseaux 2.4 Ghz": the fixture entries with 2200 <= f < 2650,
        in fixture order. */
    method Show24GHzNetworks()
      modifies this`allWifi
      ensures allWifi == Filter(fixture, Is24GHz)
      ensures forall e :: e in allWifi <==> e in fixture && 2200 <= e.frequency < 2650
    {
      allWifi := Filter(fixture, Is24GHz);
      forall e {
        FilterMembership(fixture, Is24GHz, e);
      }
    }

    /** "Afficher les réseaux 5.2 Ghz": the fixture entries with 5000 <= f <= 6000,
        in fixture order. */
    method Show52GHzNetworks()
      modifies this`allWifi
      ensures allWifi == Filter(fixture, Is52GHz)
      ensures forall e :: e in allWifi <==> e in fixture && 5000 <= e.frequency <= 6000
    {
      allWifi := Filter(fixture, Is52GHz);
      forall e {
        FilterMembership(fixture, Is52GHz, e);
      }
    }

    /** The sort handler (its button is commented out): the 5.2 GHz view in
        non-decreasing frequency, equal frequencies in fixture order. */
    method Sort52GHzNetworks()
      modifies this`allWifi
      ensures allWifi == Sorted52GHz(fixture)
      ensures SortedByFrequency(allWifi)
      ensures multiset(allWifi) == multiset(Filter(fixture, Is52GHz))
    {
      allWifi := SortByFrequency(Filter(fixture, Is52GHz));
    }

    /** "Réinitialiser": the whole fixture again. */
    method ResetWifiList()
      modifies this`allWifi
      ensures allWifi == fixture
    {
      allWifi := fixture;
    }

    /** "Afficher les réseaux Dual-band": group the fixture by SSID, then keep
        the entries whose SSID has more than one frequency. */
    method ShowDualBandNetworks()
      modifies this`allWifi
      ensures allWifi == DualBandNetworks(fixture)
      ensures forall e :: e in allWifi <==>
                e in fixture && exists o :: o in fixture && o.ssid == e.ssid && o.frequency != e.frequency
    {
      var ssidMap := BuildSsidMap(fixture);
      var moreThanOne := (wifi: WifiEntry) => wifi.ssid in ssidMap && |ssidMap[wifi.ssid]| > 1;
      allWifi := Filter(fixture, moreThanOne);
      FilterExtensional(fixture, moreThanOne, DualBandTest(fixture));
      forall e {
        DualBandMembership(fixture, e);
      }
    }

    /** "Afficher les réseaux Non Dual-band": group the fixture by SSID, then
        keep the entries whose SSID has exactly one frequency. */
    method ShowNonDualBandNetworks()
      modifies this`allWifi
      ensures allWifi == NonDualBandNetworks(fixture)
      ensures forall e :: e in allWifi <==>
                e in fixture && forall o :: o in fixture && o.ssid == e.ssid ==> o.frequency == e.frequency
    {
      var ssidMap := BuildSsidMap(fixture);
      var exactlyOne := (wifi: WifiEntry) => wifi.ssid in ssidMap && |ssidMap[wifi.ssid]| == 1;
      allWifi := Filter(fixture, exactlyOne);
      FilterExtensional(fixture, exactlyOne, SingleBandTest(fixture));
      forall e {
        NonDualBandMembership(fixture, e);
      }
    }

    /** "Vérifier la fréquence de mon réseau": the alert shown. */
    method ShowAlert() returns (a: Advisory)
      ensures a == Mismatch <==>
              userFrequency.Some? && userFrequency.value != 0 &&
              (userFrequency.value < 2200 || userFrequency.value > 2600)
    {
      a := CheckFrequency(userFrequency);
    }
  }

  /** What a user can rely on, from whatever list is on screen: each list
      button, pressed after another button and then pressed again, shows the
      same view both times, a view of the fixture alone; reset then brings back
      the fixture. */
  method ButtonsIgnoreHistory(screen: WifiScreen)
    returns (band24: seq<WifiEntry>, band24Again: seq<WifiEntry>,
             band52: seq<WifiEntry>, band52Again: seq<WifiEntry>,
             sorted52: seq<WifiEntry>, sorted52Again: seq<WifiEntry>,
             dual: seq<WifiEntry>, dualAgain: seq<WifiEntry>,
             nonDual: seq<WifiEntry>, nonDualAgain: seq<WifiEntry>)
    modifies screen`allWifi
    ensures band24 == band24Again == Filter(screen.fixture, Is24GHz)
    ensures band52 == band52Again == Filter(screen.fixture, Is52GHz)
    ensures sorted52 == sorted52Again == Sorted52GHz(screen.fixture)
    ensures dual == dualAgain == DualBandNetworks(screen.fixture)
    ensures nonDual == nonDualAgain == NonDualBandNetworks(screen.fixture)
    ensures screen.allWifi == screen.fixture
  {
    screen.Show24GHzNetworks();
    band24 := screen.allWifi;
    screen.Show24GHzNetworks();
    band24Again := screen.allWifi;

    screen.Show52GHzNetworks();
    band52 := screen.allWifi;
    screen.Show52GHzNetworks();
    band52Again := screen.allWifi;

    screen.Sort52GHzNetworks();
    sorted52 := screen.allWifi;
    screen.Sort52GHzNetworks();
    sorted52Again := screen.allWifi;

    screen.ShowDualBandNetworks();
    dual := screen.allWifi;
    screen.ShowDualBandNetworks();
    dualAgain := screen.allWifi;

    screen.ShowNonDualBandNetworks();
    nonDual := screen.allWifi;
    screen.ShowNonDualBandNetworks();
    nonDualAgain := screen.allWifi;

    screen.ResetWifiList();
  }
}
