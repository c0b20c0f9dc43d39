# WifiFrequencyApp network filters in Dafny

A model of the network-list logic of the WifiFrequencyApp React Native screen
(`App.tsx`). The screen holds one list on display (`allWifi`) and a bundled
fixture of access points (`FAKEWIFIDATA`). Each button replaces the displayed
list with a view computed from the fixture:

- the 2.4 GHz entries (`2200 <= f < 2650`),
- the 5.2 GHz entries (`5000 <= f <= 6000`),
- the 5.2 GHz entries sorted by frequency (its button is commented out),
- the dual-band entries, whose SSID is seen on more than one frequency,
- the non-dual-band entries, whose SSID is seen on exactly one frequency,
- the whole fixture again (reset).

A further button shows one of two alerts, depending on the connected
network's frequency.

Files and modules:

- `networks.dfy`, module `Networks`. Defines the `WifiEntry` record (SSID and
  frequency) and the two band tests. `Filter` models `Array.prototype.filter`.
  The lemmas pin `Filter` down exactly: it returns the entries at the accepted
  positions, in position order. They also prove membership, idempotence and
  partition by a test and its complement.
- `frequency_sort.dfy`, module `FrequencySort`. The engine's stable
  `Array.prototype.sort` with comparator `a.frequency - b.frequency` is modelled
  as a stable insertion sort. The result is proved sorted, a permutation of
  its input, and order-preserving among equal frequencies.
- `dual_band.dfy`, module `DualBand`. `BuildSsidMap` is the `forEach` loop that
  builds the SSID → set-of-frequencies map. It is proved to produce exactly the
  functional grouping `Ssids` / `FrequenciesOf`. This module also holds the
  dual-band and non-dual-band views and the proof that they partition the
  fixture.
- `pairing_advisory.dfy`, module `PairingAdvisory`. Holds the branch condition
  of `showAlert`, including JavaScript truthiness, where an unset frequency and
  0 are falsy.
- `wifi_screen.dfy`, module `WifiApp`. The class `WifiScreen` holds the
  fixture as a constant and `allWifi` and `userFrequency` as fields. It has one
  method per handler. Each list handler's `ensures` gives the new `allWifi` as a
  function of the fixture alone.

The advisory has two outcomes, not three: there is no separate "no data"
outcome. An unset or zero frequency takes the "Félicitations" branch
(`CheckFrequency(None) == Compatible`). The advisory's upper bound is
2600 MHz, while the 2.4 GHz filter's is 2650 MHz. Both are
modelled as written. `AdvisoryAgainstBands` shows the consequence: a network
from 2601 to 2649 MHz is listed under 2.4 GHz, yet the advisory objects to it.

## Model

| member | source | states |
|---|---|---|
| `Networks.Filter` | App.tsx:88-90 | the filtered list is never longer than the list filtered |
| `Networks.KeptIndices` | App.tsx:88-90 | the positions a filter selects are increasing, in range, and are exactly the positions whose entry passes the test |
| `Networks.FilterSelectsKeptIndices` | App.tsx:88-90 | `filter` returns exactly the entries at the accepted positions, in fixture order (a stable filter) |
| `Networks.FilterMembership` | App.tsx:88-90 | an entry is in a filtered view iff it is in the fixture and passes the test |
| `Networks.FilterCount` | App.tsx:88-90 | a filtered view holds each accepted entry exactly as many times as the fixture does, and no rejected entry |
| `Networks.FilterIdempotent` | App.tsx:96-98 | filtering a filtered view again with the same test changes nothing |
| `Networks.FilterPartition` | App.tsx:146-148 | a test and its complement split a list: the two results hold its entries once each and their lengths add up to its length |
| `Networks.Band24GHzPartition` | App.tsx:88-90 | the 2.4 GHz view plus the entries outside `[2200, 2650)` reconstruct the fixture exactly |
| `Networks.BandsDisjoint` | App.tsx:87-100 | no entry appears in both the 2.4 GHz view and the 5.2 GHz view |
| `Networks.Band52GHzScenario` | App.tsx:96-98 | for Home/2437, Home/5180, Office/2412 the 5.2 GHz view is just Home/5180 |
| `FrequencySort.InsertByFrequency` | App.tsx:106 | inserting an entry adds exactly that entry to the multiset of entries |
| `FrequencySort.InsertKeepsSorted` | App.tsx:106 | inserting into a list sorted by frequency keeps it sorted |
| `FrequencySort.SortByFrequency` | App.tsx:104-106 | the sorted list is non-decreasing in frequency and is a permutation of its input |
| `FrequencySort.SortIsStable` | App.tsx:106 | entries of equal frequency keep their relative order, as the stable built-in sort does |
| `FrequencySort.Sorted52GHzIsSortedPermutation` | App.tsx:103-107 | the sorted 5.2 GHz view is non-decreasing, a permutation of the 5.2 GHz view, and keeps that view's order among equal frequencies |
| `DualBand.GroupingSnoc` | App.tsx:119-123 | visiting one more entry adds its SSID to the keys and its frequency to that SSID's set only |
| `DualBand.BuildSsidMap` | App.tsx:115-124 | after the loop the keys are exactly the fixture's SSIDs, each maps to exactly the distinct frequencies seen with it, and no set is empty |
| `DualBand.DualBandMembership` | App.tsx:126-129 | an entry is in the dual-band view iff it is in the fixture and another fixture entry has its SSID with a different frequency |
| `DualBand.NonDualBandMembership` | App.tsx:145-148 | an entry is in the non-dual-band view iff it is in the fixture and every fixture entry with its SSID has its frequency |
| `DualBand.DualBandPartition` | App.tsx:126-148 | every fixture entry is in exactly one of the dual-band and non-dual-band views; together they hold the fixture once each |
| `DualBand.HomeOfficeScenario` | App.tsx:114-149 | for Home/2437, Home/5180, Office/2412 the dual-band view is the two Home entries and the non-dual-band view is Office |
| `PairingAdvisory.CheckFrequency` | App.tsx:21 | "Erreur" iff the frequency is set, non-zero, and outside `[2200, 2600]`; otherwise "Félicitations" |
| `PairingAdvisory.AdvisoryAgainstBands` | App.tsx:20-31 | the advisory accepts 2200..2600 MHz; it rejects 2601..2649 MHz though the 2.4 GHz filter lists them; it rejects every 5.2 GHz frequency; unset and 0 take "Félicitations" |
| `WifiApp.WifiScreen.constructor` | App.tsx:17-19 | the screen starts with an empty list and no known frequency |
| `WifiApp.WifiScreen.WifiListLoaded` | App.tsx:52-57 | a completed scan shows the fixture; the scanned list is ignored |
| `WifiApp.WifiScreen.FrequencyReported` | App.tsx:43-46 | a reported frequency becomes the stored frequency |
| `WifiApp.WifiScreen.Show24GHzNetworks` | App.tsx:87-92 | the list becomes the fixture's 2.4 GHz entries, in fixture order, and holds exactly the fixture entries with `2200 <= f < 2650` |
| `WifiApp.WifiScreen.Show52GHzNetworks` | App.tsx:95-100 | the list becomes the fixture's 5.2 GHz entries, in fixture order, and holds exactly the fixture entries with `5000 <= f <= 6000` |
| `WifiApp.WifiScreen.Sort52GHzNetworks` | App.tsx:103-108 | the list becomes the sorted 5.2 GHz view, which is non-decreasing and a permutation of the 5.2 GHz view |
| `WifiApp.WifiScreen.ResetWifiList` | App.tsx:110-112 | the list becomes the unchanged fixture |
| `WifiApp.WifiScreen.ShowDualBandNetworks` | App.tsx:114-131 | filtering through the built map gives the dual-band view: the entries whose SSID has another frequency in the fixture |
| `WifiApp.WifiScreen.ShowNonDualBandNetworks` | App.tsx:133-150 | filtering through the built map gives the non-dual-band view: the entries whose SSID has only their frequency in the fixture |
| `WifiApp.WifiScreen.ShowAlert` | App.tsx:20-31 | the alert is "Erreur" iff the stored frequency is truthy and below 2200 or above 2600 |
| `WifiApp.ButtonsIgnoreHistory` | App.tsx:87-150 | from any list on screen, each of the five list buttons, pressed after another button and then again, shows the same view both times, and that view is a function of the fixture alone; reset then restores the fixture |

## Left out

- The location-permission request and the `useEffect` that starts it
  (App.tsx:62-85) are left out. They are a platform API and asynchronous.
- The native Wi-Fi lookups (`getCurrentWifiSSID`, `getFrequency`,
  `reScanAndLoadWifiList`, App.tsx:33-61) are foreign promise-based bindings.
  Only their success callbacks' state writes are modelled, as
  `FrequencyReported` and `WifiListLoaded`. A rejected lookup only logs and
  leaves the state as it was. The stored SSID (`userSSID`) is only displayed,
  so it is not modelled.
- `console.log` / `console.error`, the alert texts, and the SSID and frequency
  interpolated into them are left out. Only the alert branch is modelled.
- JSX rendering and `StyleSheet` (App.tsx:151-255) are UI layout only.
- The contents of `FAKEWIFIDATA` are not part of this model. Its file is not
  available, so the fixture is the constructor's parameter. `WifiEntry` fields
  other than `SSID` and `frequency` are not modelled.
- Frequencies are JavaScript numbers in the app. The model uses unbounded
  integers. NaN and fractional values are not modelled, and
  `a.frequency - b.frequency` is exact on integers.
- `FrequencySort.SortByFrequency`: the engine's sort algorithm is not visible.
  It is modelled by a stable insertion sort, with sortedness, permutation and
  stability proved. It is not proved that these three properties determine the
  result uniquely.
- `DualBand.BuildSsidMap`: the JavaScript loop mutates the `Set` objects inside
  the `Map` in place. The model reassigns set values in a map. No two keys
  ever share a set, so no aliasing is lost.
- `WifiApp.WifiScreen.ShowDualBandNetworks` and `ShowNonDualBandNetworks`: the
  filter's `ssidMap.get(wifi.SSID).size` would throw if the SSID were missing.
  The model guards the lookup with `wifi.ssid in ssidMap`. `BuildSsidMap`
  proves the SSID is always present, so the guard never changes a result.
