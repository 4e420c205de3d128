/**
 * How the chart's series are derived from the raw analysis history: every series is
 * the history projected onto that series' entries (in history order), reduced to the
 * first entry per time (the chart code's `Map` with `has`/`set`), then sorted by time
 * (the library `sort` with comparator `a.time - b.time`).
 */
module Series {
  import opened AnalysisData

  /** Which series a history point feeds. */
  datatype Selector = CandleSel | SweepSel(side: Side) | DarkPoolSel(bucket: Bucket)

  /** Whether point `p` contributes an entry to the series chosen by `sel`. */
  predicate Selected(p: AnalysisPoint, sel: Selector) {
    match sel
    case CandleSel => ValidCandle(p.candle)
    case SweepSel(_) => true
    case DarkPoolSel(b) => HasDarkPool(p) && BucketOf(p.darkPoolSum) == b
  }

  /** The entry point `p` contributes to the series chosen by `sel`. */
  function EntryOf(p: AnalysisPoint, sel: Selector): (e: SeriesPoint)
    ensures e.time == TimeOf(p)
  {
    match sel
    case CandleSel => BarOf(p.candle)
    case SweepSel(side) => Level(TimeOf(p), SweepValue(p, side))
    case DarkPoolSel(_) => Level(TimeOf(p), p.darkPoolVWAP)
  }

  /** The entries the selected points contribute, in history order (a filter and a map). */
  function Project(h: seq<AnalysisPoint>, sel: Selector): seq<SeriesPoint>
  {
    if |h| == 0 then []
    else
      var p := h[|h| - 1];
      Project(h[..|h| - 1], sel) + (if Selected(p, sel) then [EntryOf(p, sel)] else [])
  }

  predicate HasTime(s: seq<SeriesPoint>, t: int) {
    exists k | 0 <= k < |s| :: s[k].time == t
  }

  /** No two entries share a time. */
  predicate UniqueTimes(s: seq<SeriesPoint>) {
    forall i, j | 0 <= i < j < |s| :: s[i].time != s[j].time
  }

  /** Times strictly increase along the sequence. */
  predicate Ascending(s: seq<SeriesPoint>) {
    forall i, j | 0 <= i < j < |s| :: s[i].time < s[j].time
  }

  /** Keeps, for every time, only the first entry with that time, in first-seen order. */
  function FirstWins(s: seq<SeriesPoint>): seq<SeriesPoint>
  {
    if |s| == 0 then []
    else
      var r := FirstWins(s[..|s| - 1]);
      if HasTime(r, s[|s| - 1].time) then r else r + [s[|s| - 1]]
  }

  /** Inserts `e` after every entry whose time is not greater (a stable insertion). */
  function Insert(s: seq<SeriesPoint>, e: SeriesPoint): seq<SeriesPoint>
  {
    if |s| == 0 then [e]
    else if e.time < s[0].time then [e] + s
    else [s[0]] + Insert(s[1..], e)
  }

  /** Stable sort by time: the model of the library sort used by the chart code. */
  function SortByTime(s: seq<SeriesPoint>): seq<SeriesPoint>
  {
    if |s| == 0 then [] else Insert(SortByTime(s[..|s| - 1]), s[|s| - 1])
  }

  /** The first entry per time of the projection, before sorting (the chart code's `Map`). */
  function Derived(h: seq<AnalysisPoint>, sel: Selector): seq<SeriesPoint>
  {
    FirstWins(Project(h, sel))
  }

  /** The derived series for `sel`, as handed to the chart's `setData`. */
  function SeriesData(h: seq<AnalysisPoint>, sel: Selector): seq<SeriesPoint>
  {
    SortByTime(Derived(h, sel))
  }

  /** Some point of `h` selected by `sel` has time `t`. */
  predicate SelectedTime(h: seq<AnalysisPoint>, sel: Selector, t: int) {
    exists i | 0 <= i < |h| :: Selected(h[i], sel) && TimeOf(h[i]) == t
  }

  /** Point `i` is the first point of `h` selected by `sel` at its time. */
  predicate FirstSelectedAt(h: seq<AnalysisPoint>, i: int, sel: Selector) {
    && 0 <= i < |h|
    && Selected(h[i], sel)
    && forall j | 0 <= j < i :: Selected(h[j], sel) ==> TimeOf(h[j]) != TimeOf(h[i])
  }

  // ---------------------------------------------------------------------------
  // Sorting

  lemma HasTimeOfMultiset(a: seq<SeriesPoint>, b: seq<SeriesPoint>, t: int)
    requires multiset(a) == multiset(b)
    ensures HasTime(a, t) <==> HasTime(b, t)
  {
    if HasTime(a, t) {
      var k :| 0 <= k < |a| && a[k].time == t;
      assert a[k] in multiset(b);
      var m :| 0 <= m < |b| && b[m] == a[k];
    }
    if HasTime(b, t) {
      var k :| 0 <= k < |b| && b[k].time == t;
      assert b[k] in multiset(a);
      var m :| 0 <= m < |a| && a[m] == b[k];
    }
  }

  lemma {:induction false} InsertMultiset(s: seq<SeriesPoint>, e: SeriesPoint)
    ensures multiset(Insert(s, e)) == multiset(s) + multiset{e}
  {
    if |s| > 0 && e.time >= s[0].time {
      InsertMultiset(s[1..], e);
      assert s == [s[0]] + s[1..];
    }
  }

  /** Every entry of `s` is later than `t`. */
  predicate Above(s: seq<SeriesPoint>, t: int) {
    forall k | 0 <= k < |s| :: t < s[k].time
  }

  lemma {:induction false} InsertAbove(s: seq<SeriesPoint>, e: SeriesPoint, t: int)
    requires Above(s, t) && t < e.time
    ensures Above(Insert(s, e), t)
  {
    if |s| > 0 && e.time >= s[0].time {
      InsertAbove(s[1..], e, t);
    }
  }

  lemma ConsAscending(x: SeriesPoint, r: seq<SeriesPoint>)
    requires Ascending(r) && Above(r, x.time)
    ensures Ascending([x] + r)
  {
    var full := [x] + r;
    forall i, j | 0 <= i < j < |full| ensures full[i].time < full[j].time {
      assert full[j] == r[j - 1];
      if i > 0 {
        assert full[i] == r[i - 1];
      }
    }
  }

  lemma {:induction false} InsertAscending(s: seq<SeriesPoint>, e: SeriesPoint)
    requires Ascending(s) && !HasTime(s, e.time)
    ensures Ascending(Insert(s, e))
  {
    if |s| > 0 {
      if e.time < s[0].time {
        ConsAscending(e, s);
      } else {
        var tail := s[1..];
        assert !HasTime(tail, e.time) by {
          forall k | 0 <= k < |tail| ensures tail[k].time != e.time {
            assert tail[k] == s[k + 1];
          }
        }
        assert s[0].time != e.time;
        assert Above(tail, s[0].time) by {
          forall k | 0 <= k < |tail| ensures s[0].time < tail[k].time {
            assert tail[k] == s[k + 1];
          }
        }
        InsertAscending(tail, e);
        InsertAbove(tail, e, s[0].time);
        ConsAscending(s[0], Insert(tail, e));
      }
    }
  }

  lemma {:induction false} SortByTimeMultiset(s: seq<SeriesPoint>)
    ensures multiset(SortByTime(s)) == multiset(s)
  {
    if |s| > 0 {
      var init := s[..|s| - 1];
      var last := s[|s| - 1];
      SortByTimeMultiset(init);
      InsertMultiset(SortByTime(init), last);
      assert s == init + [last];
    }
  }

  lemma {:induction false} SortByTimeAscending(s: seq<SeriesPoint>)
    requires UniqueTimes(s)
    ensures Ascending(SortByTime(s))
  {
    if |s| > 0 {
      var init := s[..|s| - 1];
      var last := s[|s| - 1];
      assert UniqueTimes(init);
      SortByTimeAscending(init);
      SortByTimeMultiset(init);
      assert !HasTime(init, last.time);
      HasTimeOfMultiset(SortByTime(init), init, last.time);
      InsertAscending(SortByTime(init), last);
    }
  }

  /** The library sort returns a permutation of its input, in strictly ascending time
      order whenever the input has no repeated time. */
  lemma SortByTimeSpec(s: seq<SeriesPoint>)
    ensures multiset(SortByTime(s)) == multiset(s)
    ensures |SortByTime(s)| == |s|
    ensures UniqueTimes(s) ==> Ascending(SortByTime(s))
  {
    SortByTimeMultiset(s);
    assert |multiset(SortByTime(s))| == |multiset(s)|;
    if UniqueTimes(s) {
      SortByTimeAscending(s);
    }
  }

  // ---------------------------------------------------------------------------
  // First-wins reduction of a projection

  /** One history point more: the derived sequence either stays or gains that point's entry. */
  lemma DerivedStep(h: seq<AnalysisPoint>, sel: Selector)
    requires |h| > 0
    ensures
      var init := h[..|h| - 1];
      var p := h[|h| - 1];
      Derived(h, sel) ==
        if Selected(p, sel) && !HasTime(Derived(init, sel), TimeOf(p))
        then Derived(init, sel) + [EntryOf(p, sel)]
        else Derived(init, sel)
  {
    var init := h[..|h| - 1];
    var p := h[|h| - 1];
    if Selected(p, sel) {
      var a := Project(init, sel);
      assert (a + [EntryOf(p, sel)])[..|a|] == a;
    } else {
      assert Project(h, sel) == Project(init, sel);
    }
  }

  /** The reduction holds an entry at time `t` exactly when some selected point has time `t`. */
  lemma {:induction false} DerivedHasTime(h: seq<AnalysisPoint>, sel: Selector, t: int)
    ensures HasTime(Derived(h, sel), t) <==> SelectedTime(h, sel, t)
  {
    if |h| > 0 {
      var init := h[..|h| - 1];
      var p := h[|h| - 1];
      DerivedHasTime(init, sel, t);
      DerivedHasTime(init, sel, TimeOf(p));
      DerivedStep(h, sel);
      var r0 := Derived(init, sel);
      var r := Derived(h, sel);
      if HasTime(r, t) {
        var k :| 0 <= k < |r| && r[k].time == t;
        if k < |r0| {
          assert r0[k].time == t;
          var i :| 0 <= i < |init| && Selected(init[i], sel) && TimeOf(init[i]) == t;
          assert h[i] == init[i];
        } else {
          assert Selected(h[|h| - 1], sel) && TimeOf(h[|h| - 1]) == t;
        }
      }
      if SelectedTime(h, sel, t) {
        var i :| 0 <= i < |h| && Selected(h[i], sel) && TimeOf(h[i]) == t;
        if i < |init| {
          assert init[i] == h[i];
          assert SelectedTime(init, sel, t);
          var k :| 0 <= k < |r0| && r0[k].time == t;
          assert r[k] == r0[k];
        } else if HasTime(r0, t) {
          var k :| 0 <= k < |r0| && r0[k].time == t;
          assert r[k] == r0[k];
        } else {
          assert r[|r| - 1].time == t;
        }
      }
    }
  }

  /** The reduction holds at most one entry per time. */
  lemma {:induction false} DerivedUnique(h: seq<AnalysisPoint>, sel: Selector)
    ensures UniqueTimes(Derived(h, sel))
  {
    if |h| > 0 {
      var init := h[..|h| - 1];
      DerivedUnique(init, sel);
      DerivedStep(h, sel);
    }
  }

  /** Every entry of the reduction is the entry of the first point selected at its time. */
  lemma {:induction false} DerivedMemberSound(h: seq<AnalysisPoint>, sel: Selector, e: SeriesPoint)
    requires e in Derived(h, sel)
    ensures exists i :: FirstSelectedAt(h, i, sel) && e == EntryOf(h[i], sel)
  {
    var init := h[..|h| - 1];
    var p := h[|h| - 1];
    var n := |h| - 1;
    DerivedStep(h, sel);
    if e in Derived(init, sel) {
      DerivedMemberSound(init, sel, e);
      var i :| FirstSelectedAt(init, i, sel) && e == EntryOf(init[i], sel);
      assert h[i] == init[i];
      forall j | 0 <= j < i && Selected(h[j], sel) ensures TimeOf(h[j]) != TimeOf(h[i]) {
        assert init[j] == h[j];
      }
      assert FirstSelectedAt(h, i, sel);
    } else {
      DerivedHasTime(init, sel, TimeOf(p));
      assert e == EntryOf(p, sel) && Selected(p, sel);
      forall j | 0 <= j < n && Selected(h[j], sel) ensures TimeOf(h[j]) != TimeOf(p) {
        assert init[j] == h[j];
      }
      assert FirstSelectedAt(h, n, sel);
    }
  }

  /** The entry of the first point selected at a time is in the reduction. */
  lemma {:induction false} DerivedMemberComplete(h: seq<AnalysisPoint>, sel: Selector, i: int)
    requires FirstSelectedAt(h, i, sel)
    ensures EntryOf(h[i], sel) in Derived(h, sel)
  {
    var init := h[..|h| - 1];
    var p := h[|h| - 1];
    var n := |h| - 1;
    DerivedStep(h, sel);
    if i < n {
      assert init[i] == h[i];
      forall j | 0 <= j < i && Selected(init[j], sel) ensures TimeOf(init[j]) != TimeOf(init[i]) {
        assert init[j] == h[j];
      }
      DerivedMemberComplete(init, sel, i);
    } else {
      DerivedHasTime(init, sel, TimeOf(p));
      forall j | 0 <= j < |init| && Selected(init[j], sel) ensures TimeOf(init[j]) != TimeOf(p) {
        assert h[j] == init[j];
      }
    }
  }

  /** An entry is in the reduction exactly when it is the entry of the first point
      selected at its time. */
  lemma DerivedMember(h: seq<AnalysisPoint>, sel: Selector, e: SeriesPoint)
    ensures e in Derived(h, sel) <==> exists i :: FirstSelectedAt(h, i, sel) && e == EntryOf(h[i], sel)
  {
    if e in Derived(h, sel) {
      DerivedMemberSound(h, sel, e);
    }
    if exists i :: FirstSelectedAt(h, i, sel) && e == EntryOf(h[i], sel) {
      var i :| FirstSelectedAt(h, i, sel) && e == EntryOf(h[i], sel);
      DerivedMemberComplete(h, sel, i);
    }
  }

  /** The derived series for `sel` is strictly ascending by time, holds an entry at every
      time some selected point has and at no other, and each of its entries is the entry of
      the first selected point at that time. */
  lemma SeriesDataSpec(h: seq<AnalysisPoint>, sel: Selector)
    ensures Ascending(SeriesData(h, sel))
    ensures forall t :: HasTime(SeriesData(h, sel), t) <==> SelectedTime(h, sel, t)
    ensures forall e :: e in SeriesData(h, sel) <==>
                        exists i :: FirstSelectedAt(h, i, sel) && e == EntryOf(h[i], sel)
  {
    var d := Derived(h, sel);
    DerivedUnique(h, sel);
    SortByTimeSpec(d);
    forall t ensures HasTime(SeriesData(h, sel), t) <==> SelectedTime(h, sel, t) {
      HasTimeOfMultiset(SeriesData(h, sel), d, t);
      DerivedHasTime(h, sel, t);
    }
    forall e ensures e in SeriesData(h, sel) <==>
                     exists i :: FirstSelectedAt(h, i, sel) && e == EntryOf(h[i], sel)
    {
      assert e in SeriesData(h, sel) <==> e in multiset(SeriesData(h, sel));
      assert e in d <==> e in multiset(d);
      DerivedMember(h, sel, e);
    }
  }
}
