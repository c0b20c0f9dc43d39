/** The dual-band and non-dual-band views. Both handlers first walk the whole
    fixture once, building a map from each SSID to the set of distinct
    frequencies it is seen on, then keep the entries whose SSID has more than
    one frequency (dual-band) or exactly one (non-dual-band). */
module DualBand {
  import opened Networks

  /** Every SSID that occurs in `s`. */
  function Ssids(s: seq<WifiEntry>): set<string> {
    set e | e in s :: e.ssid
  }

  /** The distinct frequencies under which `ssid` occurs in `s`. */
  function FrequenciesOf(s: seq<WifiEntry>, ssid: string): set<int> {
    set e | e in s && e.ssid == ssid :: e.frequency
  }

  /** Appending one entry adds its SSID and, under that SSID only, its frequency. */
  lemma GroupingSnoc(s: seq<WifiEntry>, e: WifiEntry)
    ensures Ssids(s + [e]) == Ssids(s) + {e.ssid}
    ensures forall k :: FrequenciesOf(s + [e], k)
                        == FrequenciesOf(s, k) + (if e.ssid == k then {e.frequency} else {})
  {
  }

  /** The forEach loop of both handlers: for each entry, add its frequency to
      its SSID's set, creating a one-element set on the SSID's first sight. */
  method BuildSsidMap(data: seq<WifiEntry>) returns (ssidMap: map<string, set<int>>)
    ensures ssidMap.Keys == Ssids(data)
    ensures forall k :: k in ssidMap ==> ssidMap[k] == FrequenciesOf(data, k)
    ensures forall k :: k in ssidMap ==> ssidMap[k] != {}
  {
    ssidMap := map[];
    for i := 0 to |data|
      invariant ssidMap.Keys == Ssids(data[..i])
      invariant forall k :: k in ssidMap ==> ssidMap[k] == FrequenciesOf(data[..i], k)
      invariant forall k :: k in ssidMap ==> ssidMap[k] != {}
    {
      var wifi := data[i];
      assert data[..i + 1] == data[..i] + [wifi];
      GroupingSnoc(data[..i], wifi);
      if wifi.ssid in ssidMap {
        ssidMap := ssidMap[wifi.ssid := ssidMap[wifi.ssid] + {wifi.frequency}];
      } else {
        ssidMap := ssidMap[wifi.ssid := {wifi.frequency}];
      }
    }
    assert data[..|data|] == data;
  }

  /** The dual-band test: the entry's SSID is seen on more than one frequency. */
  function DualBandTest(data: seq<WifiEntry>): WifiEntry -> bool {
    (e: WifiEntry) => |FrequenciesOf(data, e.ssid)| > 1
  }

  /** The non-dual-band test: the entry's SSID is seen on exactly one frequency. */
  function SingleBandTest(data: seq<WifiEntry>): WifiEntry -> bool {
    (e: WifiEntry) => |FrequenciesOf(data, e.ssid)| == 1
  }

  /** The dual-band view of the fixture. */
  function DualBandNetworks(data: seq<WifiEntry>): seq<WifiEntry> {
    Filter(data, DualBandTest(data))
  }

  /** The non-dual-band view of the fixture. */
  function NonDualBandNetworks(data: seq<WifiEntry>): seq<WifiEntry> {
    Filter(data, SingleBandTest(data))
  }

  /** A set holding `a` has more than one element iff it holds something else. */
  lemma MoreThanOne(fs: set<int>, a: int)
    requires a in fs
    ensures |fs| > 1 <==> exists b :: b in fs && b != a
  {
    if exists b :: b in fs && b != a {
      var b :| b in fs && b != a;
      assert {a, b} <= fs;
      assert |fs - {a, b}| == |fs| - 2;
    } else {
      assert fs == {a};
    }
  }

  /** An entry is shown as dual-band iff it is in the fixture and another
      fixture entry has the same SSID and a different frequency. */
  lemma DualBandMembership(data: seq<WifiEntry>, e: WifiEntry)
    ensures e in DualBandNetworks(data) <==>
            e in data && exists o :: o in data && o.ssid == e.ssid && o.frequency != e.frequency
  {
    FilterMembership(data, DualBandTest(data), e);
    if e in data {
      var fs := FrequenciesOf(data, e.ssid);
      assert e.frequency in fs;
      MoreThanOne(fs, e.frequency);
      forall o | o in data && o.ssid == e.ssid
        ensures o.frequency in fs
      {
      }
      if exists b :: b in fs && b != e.frequency {
        var b :| b in fs && b != e.frequency;
        var o :| o in data && o.ssid == e.ssid && o.frequency == b;
      }
    }
  }

  /** An entry is shown as non-dual-band iff it is in the fixture and every
      fixture entry with its SSID has its frequency. */
  lemma NonDualBandMembership(data: seq<WifiEntry>, e: WifiEntry)
    ensures e in NonDualBandNetworks(data) <==>
            e in data && forall o :: o in data && o.ssid == e.ssid ==> o.frequency == e.frequency
  {
    FilterMembership(data, SingleBandTest(data), e);
    if e in data {
      var fs := FrequenciesOf(data, e.ssid);
      assert e.frequency in fs;
      MoreThanOne(fs, e.frequency);
      forall o | o in data && o.ssid == e.ssid
        ensures o.frequency in fs
      {
      }
      assert |fs| >= 1;
      if exists b :: b in fs && b != e.frequency {
        var b :| b in fs && b != e.frequency;
        var o :| o in data && o.ssid == e.ssid && o.frequency == b;
      }
    }
  }

  /** Every fixture entry lands in exactly one of the two views, and together the
      two views hold the fixture's entries once each. */
  lemma DualBandPartition(data: seq<WifiEntry>)
    ensures forall e :: e in data ==> (e in DualBandNetworks(data) <==> e !in NonDualBandNetworks(data))
    ensures multiset(DualBandNetworks(data)) + multiset(NonDualBandNetworks(data)) == multiset(data)
  {
    forall i | 0 <= i < |data|
      ensures SingleBandTest(data)(data[i]) == Complement(DualBandTest(data))(data[i])
    {
      assert data[i].frequency in FrequenciesOf(data, data[i].ssid);
    }
    FilterExtensional(data, SingleBandTest(data), Complement(DualBandTest(data)));
    FilterPartition(data, DualBandTest(data));
    forall e | e in data
      ensures e in DualBandNetworks(data) <==> e !in NonDualBandNetworks(data)
    {
      DualBandMembership(data, e);
      NonDualBandMembership(data, e);
    }
  }

  /** Two "Home" entries on 2437 and 5180 MHz and one "Office" entry on 2412 MHz:
      both "Home" entries are dual-band and the "Office" entry is not. */
  lemma HomeOfficeScenario()
    ensures var home24, home5, office := WifiEntry("Home", 2437), WifiEntry("Home", 5180), WifiEntry("Office", 2412);
            && DualBandNetworks([home24, home5, office]) == [home24, home5]
            && NonDualBandNetworks([home24, home5, office]) == [office]
  {
    var home24, home5, office := WifiEntry("Home", 2437), WifiEntry("Home", 5180), WifiEntry("Office", 2412);
    var data := [home24, home5, office];
    assert FrequenciesOf(data, "Home") == {2437, 5180};
    assert FrequenciesOf(data, "Office") == {2412};
    FilterOfThree(home24, home5, office, DualBandTest(data));
    FilterOfThree(home24, home5, office, SingleBandTest(data));
  }
}
