/** The "sort 5.2 GHz networks" view: the 5.2 GHz filter followed by
    Array.prototype.sort with the comparator `a.frequency - b.frequency`.
    That built-in sort is stable, so it is modelled by a stable insertion sort
    whose result is proved sorted, a permutation of its input, and
    order-preserving among entries of equal frequency. */
module FrequencySort {
  import opened Networks

  /** Non-decreasing in frequency. */
  predicate SortedByFrequency(s: seq<WifiEntry>) {
    forall i, j :: 0 <= i < j < |s| ==> s[i].frequency <= s[j].frequency
  }

  /** The test "has frequency f", used to state stability. */
  function HasFrequency(f: int): WifiEntry -> bool {
    (e: WifiEntry) => e.frequency == f
  }

  /** Puts `x` in front of the first entry whose frequency is not below its own. */
  function InsertByFrequency(x: WifiEntry, s: seq<WifiEntry>): (r: seq<WifiEntry>)
    ensures multiset(r) == multiset(s) + multiset{x}
  {
    if s == [] || x.frequency <= s[0].frequency then [x] + s
    else
      assert s == [s[0]] + s[1..];
      [s[0]] + InsertByFrequency(x, s[1..])
  }

  /** Inserting an entry no lower than `lo` among entries no lower than `lo`
      leaves every entry no lower than `lo`. */
  lemma {:induction false} InsertKeepsLowerBound(x: WifiEntry, s: seq<WifiEntry>, lo: int)
    requires lo <= x.frequency
    requires forall k :: 0 <= k < |s| ==> lo <= s[k].frequency
    ensures forall k :: 0 <= k < |InsertByFrequency(x, s)| ==> lo <= InsertByFrequency(x, s)[k].frequency
  {
    if s != [] && x.frequency > s[0].frequency {
      InsertKeepsLowerBound(x, s[1..], lo);
    }
  }

  /** Inserting into a sorted list keeps it sorted. */
  lemma {:induction false} InsertKeepsSorted(x: WifiEntry, s: seq<WifiEntry>)
    requires SortedByFrequency(s)
    ensures SortedByFrequency(InsertByFrequency(x, s))
  {
    if s != [] && x.frequency > s[0].frequency {
      var rest := InsertByFrequency(x, s[1..]);
      InsertKeepsSorted(x, s[1..]);
      InsertKeepsLowerBound(x, s[1..], s[0].frequency);
      var r := [s[0]] + rest;
      forall i, j | 0 <= i < j < |r|
        ensures r[i].frequency <= r[j].frequency
      {
        if i > 0 {
          assert r[i] == rest[i - 1] && r[j] == rest[j - 1];
        }
      }
    }
  }

  /** The entries of `s` in non-decreasing frequency. */
  function SortByFrequency(s: seq<WifiEntry>): (r: seq<WifiEntry>)
    ensures SortedByFrequency(r)
    ensures multiset(r) == multiset(s)
  {
    if s == [] then []
    else
      assert s == [s[0]] + s[1..];
      InsertKeepsSorted(s[0], SortByFrequency(s[1..]));
      InsertByFrequency(s[0], SortByFrequency(s[1..]))
  }

  /** Two one-entry filter results of different frequencies commute. */
  lemma FilterSwapDistinct(a: WifiEntry, b: WifiEntry, f: int)
    requires a.frequency != b.frequency
    ensures Filter([a], HasFrequency(f)) + Filter([b], HasFrequency(f))
         == Filter([b], HasFrequency(f)) + Filter([a], HasFrequency(f))
  {
  }

  /** The sorted 5.2 GHz view. */
  function Sorted52GHz(data: seq<WifiEntry>): seq<WifiEntry> {
    SortByFrequency(Filter(data, Is52GHz))
  }

  /** Inserting `x` keeps it ahead of the entries that share its frequency. */
  lemma {:induction false} InsertIsStable(x: WifiEntry, s: seq<WifiEntry>, f: int)
    ensures Filter(InsertByFrequency(x, s), HasFrequency(f)) == Filter([x] + s, HasFrequency(f))
  {
    var same := HasFrequency(f);
    if s != [] && x.frequency > s[0].frequency {
      var head, tail := s[0], s[1..];
      assert s == [head] + tail;
      var fh, fx, ft := Filter([head], same), Filter([x], same), Filter(tail, same);
      FilterSwapDistinct(head, x, f);
      var ins := InsertByFrequency(x, tail);
      assert InsertByFrequency(x, s) == [head] + ins;
      assert Filter([head] + ins, same) == fh + Filter(ins, same) by {
        FilterConcat([head], ins, same);
      }
      assert Filter(ins, same) == fx + ft by {
        InsertIsStable(x, tail, f);
        FilterConcat([x], tail, same);
      }
      assert Filter([x] + s, same) == fx + (fh + ft) by {
        FilterConcat([head], tail, same);
        FilterConcat([x], s, same);
      }
      assert fh + (fx + ft) == fx + (fh + ft) by {
        assert fh + fx == fx + fh;
      }
    } else {
      assert InsertByFrequency(x, s) == [x] + s;
    }
  }

  /** Entries of equal frequency keep their relative order. */
  lemma {:induction false} SortIsStable(s: seq<WifiEntry>, f: int)
    ensures Filter(SortByFrequency(s), HasFrequency(f)) == Filter(s, HasFrequency(f))
  {
    if s != [] {
      var head, tail := s[0], s[1..];
      assert s == [head] + tail;
      SortIsStable(tail, f);
      InsertIsStable(head, SortByFrequency(tail), f);
      FilterConcat([head], SortByFrequency(tail), HasFrequency(f));
      FilterConcat([head], tail, HasFrequency(f));
    }
  }

  /** The sorted 5.2 GHz view is non-decreasing, is a permutation of the 5.2 GHz
      view, and keeps that view's order among equal frequencies. */
  lemma Sorted52GHzIsSortedPermutation(data: seq<WifiEntry>, f: int)
    ensures SortedByFrequency(Sorted52GHz(data))
    ensures multiset(Sorted52GHz(data)) == multiset(Filter(data, Is52GHz))
    ensures Filter(Sorted52GHz(data), HasFrequency(f)) == Filter(Filter(data, Is52GHz), HasFrequency(f))
  {
    SortIsStable(Filter(data, Is52GHz), f);
  }
}
