/** `results.sort(key=lambda x: x.distance)`: Python's sort is stable, so on
    a total order its result is the one insertion sort produces. */
module RepeaterSort {
  import opened Wrappers
  import opened Seqs
  import opened Repeaters

  predicate HasDistances(s: seq<Repeater>) {
    forall i :: 0 <= i < |s| ==> s[i].distance.Some?
  }

  function Key(r: Repeater): real
    requires r.distance.Some?
  {
    r.distance.value
  }

  predicate Sorted(s: seq<Repeater>)
    requires HasDistances(s)
  {
    forall i, j :: 0 <= i < j < |s| ==> Key(s[i]) <= Key(s[j])
  }

  /** Inserts `x` after every element whose distance is not larger. */
  function Insert(s: seq<Repeater>, x: Repeater): (r: seq<Repeater>)
    requires HasDistances(s) && x.distance.Some?
    ensures HasDistances(r)
    decreases |s|
  {
    if s == [] then [x]
    else if Key(s[|s| - 1]) <= Key(x) then s + [x]
    else
      assert s == s[..|s| - 1] + [s[|s| - 1]];
      Insert(s[..|s| - 1], x) + [s[|s| - 1]]
  }

  function SortByDistance(s: seq<Repeater>): (r: seq<Repeater>)
    requires HasDistances(s)
    ensures HasDistances(r)
    decreases |s|
  {
    if s == [] then []
    else
      Insert(SortByDistance(s[..|s| - 1]), s[|s| - 1])
  }

  /** Inserting adds `x` and keeps everything else. */
  lemma {:induction false} InsertPermutes(s: seq<Repeater>, x: Repeater)
    requires HasDistances(s) && x.distance.Some?
    ensures multiset(Insert(s, x)) == multiset(s) + multiset{x}
    decreases |s|
  {
    if s != [] && Key(s[|s| - 1]) > Key(x) {
      var init, last := s[..|s| - 1], s[|s| - 1];
      assert s == init + [last];
      InsertPermutes(init, x);
    }
  }

  /** Sorting keeps every repeater, each as often as before. */
  lemma {:induction false} SortPermutes(s: seq<Repeater>)
    requires HasDistances(s)
    ensures multiset(SortByDistance(s)) == multiset(s)
    decreases |s|
  {
    if s != [] {
      var init, last := s[..|s| - 1], s[|s| - 1];
      assert s == init + [last];
      SortPermutes(init);
      InsertPermutes(SortByDistance(init), last);
    }
  }

  lemma SortedSnoc(a: seq<Repeater>, y: Repeater)
    requires HasDistances(a) && y.distance.Some? && Sorted(a)
    requires forall i :: 0 <= i < |a| ==> Key(a[i]) <= Key(y)
    ensures HasDistances(a + [y]) && Sorted(a + [y])
  {
  }

  lemma {:induction false} InsertSorted(s: seq<Repeater>, x: Repeater)
    requires HasDistances(s) && x.distance.Some? && Sorted(s)
    ensures Sorted(Insert(s, x))
    decreases |s|
  {
    if s != [] && Key(s[|s| - 1]) > Key(x) {
      var init, last := s[..|s| - 1], s[|s| - 1];
      InsertSorted(init, x);
      var r := Insert(init, x);
      InsertPermutes(init, x);
      forall i | 0 <= i < |r| ensures Key(r[i]) <= Key(last) {
        assert r[i] in multiset(r);
        if r[i] != x {
          assert r[i] in multiset(init);
          var j :| 0 <= j < |init| && init[j] == r[i];
          assert s[j] == init[j];
        }
      }
      SortedSnoc(r, last);
    }
  }

  /** The sorted list is ordered by non-decreasing distance. */
  lemma {:induction false} SortedBySortByDistance(s: seq<Repeater>)
    requires HasDistances(s)
    ensures Sorted(SortByDistance(s))
    decreases |s|
  {
    if s != [] {
      SortedBySortByDistance(s[..|s| - 1]);
      InsertSorted(SortByDistance(s[..|s| - 1]), s[|s| - 1]);
    }
  }

  /** Selects the repeaters at distance exactly `d`. */
  function AtDistance(d: real): Repeater -> bool {
    (r: Repeater) => r.distance == Some(d)
  }

  lemma {:induction false} InsertStable(s: seq<Repeater>, x: Repeater, d: real)
    requires HasDistances(s) && x.distance.Some? && Sorted(s)
    ensures Filter(Insert(s, x), AtDistance(d)) == Filter(s, AtDistance(d)) + Filter([x], AtDistance(d))
    decreases |s|
  {
    var p := AtDistance(d);
    if s == [] {
    } else if Key(s[|s| - 1]) <= Key(x) {
      FilterConcat(s, [x], p);
    } else {
      var init, last := s[..|s| - 1], s[|s| - 1];
      assert s == init + [last];
      InsertStable(init, x, d);
      FilterConcat(Insert(init, x), [last], p);
      FilterConcat(init, [last], p);
      // `x` and `last` have different distances, so at most one of them is kept.
      assert x.distance != last.distance;
    }
  }

  /** Stability: among repeaters at the same distance, the sorted list keeps
      the order they had before sorting. */
  lemma {:induction false} SortStable(s: seq<Repeater>, d: real)
    requires HasDistances(s)
    ensures Filter(SortByDistance(s), AtDistance(d)) == Filter(s, AtDistance(d))
    decreases |s|
  {
    if s != [] {
      var init, last := s[..|s| - 1], s[|s| - 1];
      assert s == init + [last];
      SortStable(init, d);
      SortedBySortByDistance(init);
      InsertStable(SortByDistance(init), last, d);
      FilterConcat(init, [last], AtDistance(d));
    }
  }

  lemma InsertShift(t: seq<Repeater>, j: nat, x: Repeater)
    requires 0 < j <= |t| && HasDistances(t) && x.distance.Some?
    requires Key(t[j - 1]) > Key(x)
    ensures Insert(t[..j], x) + t[j..] == Insert(t[..j - 1], x) + t[j - 1..]
  {
    assert t[..j][..j - 1] == t[..j - 1];
    assert t[j - 1..] == [t[j - 1]] + t[j..];
  }

  lemma InsertStop(t: seq<Repeater>, j: nat, x: Repeater)
    requires j <= |t| && HasDistances(t) && x.distance.Some?
    requires j == 0 || Key(t[j - 1]) <= Key(x)
    ensures Insert(t[..j], x) + t[j..] == t[..j] + [x] + t[j..]
  {
  }

  /** One step of the sort: `x` is shifted left past the larger distances
      at the end of the sorted prefix `t`. */
  method ShiftIn(t: seq<Repeater>, x: Repeater) returns (u: seq<Repeater>)
    requires HasDistances(t) && x.distance.Some?
    ensures u == Insert(t, x)
  {
    var j := |t|;
    assert t[..j] == t && t[j..] == [];
    while j > 0 && Key(t[j - 1]) > Key(x)
      invariant 0 <= j <= |t|
      invariant Insert(t, x) == Insert(t[..j], x) + t[j..]
    {
      InsertShift(t, j, x);
      j := j - 1;
    }
    InsertStop(t, j, x);
    u := t[..j] + [x] + t[j..];
  }

  /** The sort itself: every element in turn is shifted into the sorted prefix. */
  method SortResults(s: seq<Repeater>) returns (t: seq<Repeater>)
    requires HasDistances(s)
    ensures t == SortByDistance(s)
    ensures HasDistances(t) && Sorted(t)
    ensures multiset(t) == multiset(s)
  {
    t := [];
    for i := 0 to |s|
      invariant t == SortByDistance(s[..i])
    {
      assert s[..i + 1][..i] == s[..i];
      t := ShiftIn(t, s[i]);
    }
    assert s[..|s|] == s;
    SortedBySortByDistance(s);
    SortPermutes(s);
  }
}
