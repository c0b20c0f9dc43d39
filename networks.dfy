/** The network records the screen displays and the order-preserving filter
    every button is built from (Array.prototype.filter over the fixture list). */
module Networks {

  /** One access point of the bundled fixture: only the two fields the screen reads. */
  datatype WifiEntry = WifiEntry(ssid: string, frequency: int)

  /** Test of the "2.4 GHz" button: 2200 <= f < 2650 (MHz). */
  predicate Is24GHz(e: WifiEntry) {
    2200 <= e.frequency < 2650
  }

  /** Test of the "5.2 GHz" button and of the sorted view: 5000 <= f <= 6000 (MHz). */
  predicate Is52GHz(e: WifiEntry) {
    5000 <= e.frequency <= 6000
  }

  /** The entries of `s` that `keep` accepts, in the order of `s`. */
  function Filter(s: seq<WifiEntry>, keep: WifiEntry -> bool): (r: seq<WifiEntry>)
    ensures |r| <= |s|
  {
    if s == [] then []
    else
      var init, last := s[..|s| - 1], s[|s| - 1];
      Filter(init, keep) + (if keep(last) then [last] else [])
  }

  /** The positions of `s` whose entry `keep` accepts, in increasing order:
      the reference description of what a stable filter selects. */
  function KeptIndices(s: seq<WifiEntry>, keep: WifiEntry -> bool): (r: seq<nat>)
    ensures forall j :: 0 <= j < |r| ==> r[j] < |s|
    ensures forall j, k :: 0 <= j < k < |r| ==> r[j] < r[k]
    ensures forall i: nat :: i in r <==> i < |s| && keep(s[i])
  {
    if s == [] then []
    else
      var n := |s| - 1;
      KeptIndices(s[..n], keep) + (if keep(s[n]) then [n] else [])
  }

  /** Filter returns exactly the entries at the kept positions, in position order. */
  lemma {:induction false} FilterSelectsKeptIndices(s: seq<WifiEntry>, keep: WifiEntry -> bool)
    ensures |Filter(s, keep)| == |KeptIndices(s, keep)|
    ensures forall j :: 0 <= j < |KeptIndices(s, keep)| ==>
              Filter(s, keep)[j] == s[KeptIndices(s, keep)[j]]
  {
    if s != [] {
      var n := |s| - 1;
      var init := s[..n];
      FilterSelectsKeptIndices(init, keep);
      var fs, ks := Filter(init, keep), KeptIndices(init, keep);
      assert Filter(s, keep) == fs + (if keep(s[n]) then [s[n]] else []);
      assert KeptIndices(s, keep) == ks + (if keep(s[n]) then [n] else []);
      forall j | 0 <= j < |ks|
        ensures Filter(s, keep)[j] == s[KeptIndices(s, keep)[j]]
      {
        assert Filter(s, keep)[j] == fs[j] == init[ks[j]];
      }
    }
  }

  /** An entry is in the filtered list iff it is in the list and is accepted. */
  lemma {:induction false} FilterMembership(s: seq<WifiEntry>, keep: WifiEntry -> bool, e: WifiEntry)
    ensures e in Filter(s, keep) <==> e in s && keep(e)
  {
    if s != [] {
      var n := |s| - 1;
      FilterMembership(s[..n], keep, e);
      assert s == s[..n] + [s[n]];
    }
  }

  /** Filtering distributes over concatenation. */
  lemma {:induction false} FilterConcat(a: seq<WifiEntry>, b: seq<WifiEntry>, keep: WifiEntry -> bool)
    ensures Filter(a + b, keep) == Filter(a, keep) + Filter(b, keep)
  {
    if b == [] {
      assert a + b == a;
    } else {
      var n := |b| - 1;
      assert (a + b)[..|a + b| - 1] == a + b[..n];
      FilterConcat(a, b[..n], keep);
    }
  }

  /** Filtering a one-entry list keeps it or drops it. */
  lemma FilterSingleton(x: WifiEntry, keep: WifiEntry -> bool)
    ensures Filter([x], keep) == if keep(x) then [x] else []
  {
  }

  /** Filtering a three-entry list, entry by entry. */
  lemma FilterOfThree(a: WifiEntry, b: WifiEntry, c: WifiEntry, keep: WifiEntry -> bool)
    ensures Filter([a, b, c], keep)
         == (if keep(a) then [a] else []) + (if keep(b) then [b] else []) + (if keep(c) then [c] else [])
  {
    assert [a, b, c][..2] == [a, b];
    assert [a, b][..1] == [a];
    FilterSingleton(a, keep);
    assert Filter([a, b], keep) == Filter([a], keep) + (if keep(b) then [b] else []);
  }

  /** The 5.2 GHz view of "Home" on 2437 and 5180 MHz and "Office" on 2412 MHz
      holds only the 5180 MHz "Home" entry. */
  lemma Band52GHzScenario()
    ensures Filter([WifiEntry("Home", 2437), WifiEntry("Home", 5180), WifiEntry("Office", 2412)], Is52GHz)
         == [WifiEntry("Home", 5180)]
  {
  }

  /** Pressing the same filter twice gives what pressing it once gives. */
  lemma {:induction false} FilterIdempotent(s: seq<WifiEntry>, keep: WifiEntry -> bool)
    ensures Filter(Filter(s, keep), keep) == Filter(s, keep)
  {
    if s != [] {
      var n := |s| - 1;
      var last := s[n];
      var tail := if keep(last) then [last] else [];
      FilterIdempotent(s[..n], keep);
      FilterConcat(Filter(s[..n], keep), tail, keep);
      if keep(last) {
        FilterSingleton(last, keep);
      }
    }
  }

  /** Two tests that agree on every entry of `s` select the same list. */
  lemma {:induction false} FilterExtensional(s: seq<WifiEntry>, p: WifiEntry -> bool, q: WifiEntry -> bool)
    requires forall i :: 0 <= i < |s| ==> p(s[i]) == q(s[i])
    ensures Filter(s, p) == Filter(s, q)
  {
    if s != [] {
      var n := |s| - 1;
      FilterExtensional(s[..n], p, q);
    }
  }

  /** The opposite test. */
  function Complement(keep: WifiEntry -> bool): WifiEntry -> bool {
    (e: WifiEntry) => !keep(e)
  }

  /** A filtered view holds every accepted entry as often as the list does,
      and no other entry. */
  lemma {:induction false} FilterCount(s: seq<WifiEntry>, keep: WifiEntry -> bool, e: WifiEntry)
    ensures multiset(Filter(s, keep))[e] == if keep(e) then multiset(s)[e] else 0
  {
    if s != [] {
      var n := |s| - 1;
      var init, last := s[..n], s[n];
      FilterCount(init, keep, e);
      assert s == init + [last];
      assert Filter(s, keep) == Filter(init, keep) + (if keep(last) then [last] else []);
    }
  }

  /** A test and its complement split `s`: every entry lands in exactly one of
      the two results, so together they hold `s`'s entries once each. */
  lemma FilterPartition(s: seq<WifiEntry>, keep: WifiEntry -> bool)
    ensures multiset(Filter(s, keep)) + multiset(Filter(s, Complement(keep))) == multiset(s)
    ensures |Filter(s, keep)| + |Filter(s, Complement(keep))| == |s|
  {
    var kept, dropped := Filter(s, keep), Filter(s, Complement(keep));
    forall e
      ensures (multiset(kept) + multiset(dropped))[e] == multiset(s)[e]
    {
      FilterCount(s, keep, e);
      FilterCount(s, Complement(keep), e);
    }
    assert multiset(kept) + multiset(dropped) == multiset(s);
    assert |multiset(kept) + multiset(dropped)| == |kept| + |dropped|;
  }

  /** The 2.4 GHz view and the rest of the fixture reconstruct the fixture. */
  lemma Band24GHzPartition(data: seq<WifiEntry>)
    ensures multiset(Filter(data, Is24GHz)) + multiset(Filter(data, Complement(Is24GHz))) == multiset(data)
  {
    FilterPartition(data, Is24GHz);
  }

  /** No entry is shown by both the 2.4 GHz and the 5.2 GHz buttons. */
  lemma BandsDisjoint(data: seq<WifiEntry>)
    ensures forall e :: e in Filter(data, Is24GHz) ==> e !in Filter(data, Is52GHz)
  {
    forall e | e in Filter(data, Is24GHz)
      ensures e !in Filter(data, Is52GHz)
    {
      FilterMembership(data, Is24GHz, e);
      FilterMembership(data, Is52GHz, e);
    }
  }
}
