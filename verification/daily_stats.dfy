/**
 * The padding of daily purchase statistics shared by store/purchases.go
 * (padDailyStats) and internal/store/purchase_store.go: the dates of the
 * window that have no row get a zero row, the rows are bubble-sorted in
 * place by date, latest first, and the list is cut to the window's length.
 * The clock and date formatting are an input: `window[i]` is the date i days
 * before today as "2006-01-02", so `|window|` is the number of days.
 */
module DailyStats {

  /** Go's `a < b` on strings: lexicographic by code point, a proper prefix first. */
  predicate Less(a: string, b: string)
  {
    if a == [] then b != []
    else if b == [] then false
    else a[0] < b[0] || (a[0] == b[0] && Less(a[1..], b[1..]))
  }

  lemma {:induction false} LessIrreflexive(a: string)
    ensures !Less(a, a)
  {
    if a != [] {
      LessIrreflexive(a[1..]);
    }
  }

  /** Go's string order is total: two different strings are ordered one way or the other, never both. */
  lemma {:induction false} LessTotal(a: string, b: string)
    ensures a != b ==> Less(a, b) || Less(b, a)
    ensures !(Less(a, b) && Less(b, a))
  {
    if a != [] && b != [] {
      LessTotal(a[1..], b[1..]);
      if a[0] == b[0] && a[1..] == b[1..] {
        assert a == [a[0]] + a[1..] && b == [b[0]] + b[1..];
      }
    }
  }

  lemma {:induction false} LessTransitive(a: string, b: string, c: string)
    requires Less(a, b) && Less(b, c)
    ensures Less(a, c)
  {
    if a != [] && b != [] && c != [] && a[0] == b[0] && b[0] == c[0] {
      LessTransitive(a[1..], b[1..], c[1..]);
    }
  }

  /** "Not later than" is transitive as well: what the no-swap step of the sort relies on. */
  lemma AtLeastTransitive(a: string, b: string, c: string)
    requires !Less(a, b) && !Less(b, c)
    ensures !Less(a, c)
  {
    if Less(a, c) {
      LessTotal(a, b);
      LessTotal(b, c);
      if a == b {
      } else if b == c {
      } else {
        LessTransitive(c, b, a);
        LessTotal(a, c);
      }
    }
  }

  /** Latest date first: no row is dated before a later row. */
  ghost predicate DateDesc<T>(s: seq<T>, key: T -> string)
  {
    forall i, j :: 0 <= i < j < |s| ==> !Less(key(s[i]), key(s[j]))
  }

  /** Every row of `s[..mid]` is dated no earlier than every row of `s[mid..]`. */
  ghost predicate SplitAt<T>(s: seq<T>, mid: int, key: T -> string)
  {
    forall p, q :: 0 <= p < mid <= q < |s| ==> !Less(key(s[p]), key(s[q]))
  }

  /** `s[hi]` is dated no later than any row before it. */
  ghost predicate EarliestUpTo<T>(s: seq<T>, hi: int, key: T -> string)
    requires 0 <= hi < |s|
  {
    forall k :: 0 <= k <= hi ==> !Less(key(s[k]), key(s[hi]))
  }

  /** The suffix from `lo` is in order. */
  ghost predicate SortedFrom<T>(s: seq<T>, lo: int, key: T -> string)
  {
    forall p, q :: lo <= p < q < |s| && 0 <= p ==> !Less(key(s[p]), key(s[q]))
  }

  lemma SwapPermutes<T>(s: seq<T>, j: nat)
    requires j + 1 < |s|
    ensures multiset(s[j := s[j + 1]][j + 1 := s[j]]) == multiset(s)
  {
    var t := s[j := s[j + 1]][j + 1 := s[j]];
    assert s == s[..j] + [s[j], s[j + 1]] + s[j + 2..];
    assert t == s[..j] + [s[j + 1], s[j]] + s[j + 2..];
  }

  /** One comparison of the inner loop: swap when the left row is dated earlier. */
  function Step<T>(s: seq<T>, j: nat, key: T -> string): (t: seq<T>)
    requires j + 1 < |s|
    ensures |t| == |s| && t[..j] == s[..j] && t[j + 2..] == s[j + 2..]
    ensures !Less(key(t[j]), key(t[j + 1]))
  {
    if Less(key(s[j]), key(s[j + 1])) then
      LessTotal(key(s[j]), key(s[j + 1]));
      s[j := s[j + 1]][j + 1 := s[j]]
    else s
  }

  /** A step permutes the rows and carries the earliest row seen so far one place right. */
  lemma StepKeeps<T>(s: seq<T>, j: nat, lim: nat, key: T -> string)
    requires j + 1 < lim <= |s|
    requires SortedFrom(s, lim, key) && SplitAt(s, lim, key) && EarliestUpTo(s, j, key)
    ensures var t := Step(s, j, key);
            multiset(t) == multiset(s) && SortedFrom(t, lim, key) && SplitAt(t, lim, key) && EarliestUpTo(t, j + 1, key)
  {
    var t := Step(s, j, key);
    if Less(key(s[j]), key(s[j + 1])) {
      SwapPermutes(s, j);
      assert t[j + 1] == s[j] && t[j] == s[j + 1];
      LessTotal(key(s[j]), key(s[j + 1]));
      forall p, q | 0 <= p < lim <= q < |t|
        ensures !Less(key(t[p]), key(t[q]))
      {
        if p == j {
          assert t[p] == s[j + 1];
        } else if p == j + 1 {
          assert t[p] == s[j];
        } else {
          assert t[p] == s[p];
        }
      }
    } else {
      forall k | 0 <= k <= j
        ensures !Less(key(s[k]), key(s[j + 1]))
      {
        AtLeastTransitive(key(s[k]), key(s[j]), key(s[j + 1]));
      }
      LessIrreflexive(key(s[j + 1]));
    }
  }

  /** After a full pass the earliest row of the unsorted part sits at its end, which joins the sorted suffix. */
  lemma PassDone<T>(s: seq<T>, lim: nat, key: T -> string)
    requires 1 <= lim <= |s|
    requires SortedFrom(s, lim, key) && SplitAt(s, lim, key) && EarliestUpTo(s, lim - 1, key)
    ensures SortedFrom(s, lim - 1, key) && SplitAt(s, lim - 1, key)
  {
  }

  /** The inner loop: one pass over the unsorted prefix `a[..lim]`. */
  method BubblePass<T>(a: array<T>, lim: nat, key: T -> string)
    requires 1 <= lim <= a.Length
    requires SortedFrom(a[..], lim, key) && SplitAt(a[..], lim, key)
    modifies a
    ensures multiset(a[..]) == multiset(old(a[..]))
    ensures SortedFrom(a[..], lim - 1, key) && SplitAt(a[..], lim - 1, key)
  {
    var j := 0;
    LessIrreflexive(key(a[0]));
    while j < lim - 1
      invariant 0 <= j <= lim - 1
      invariant multiset(a[..]) == multiset(old(a[..]))
      invariant SortedFrom(a[..], lim, key) && SplitAt(a[..], lim, key) && EarliestUpTo(a[..], j, key)
    {
      ghost var s := a[..];
      StepKeeps(s, j, lim, key);
      if Less(key(a[j]), key(a[j + 1])) {
        a[j], a[j + 1] := a[j + 1], a[j];
      }
      assert a[..] == Step(s, j, key);
      j := j + 1;
    }
    PassDone(a[..], lim, key);
  }

  /**
   * The "resort by date desc" loops: a bubble sort that swaps neighbours when
   * the left one is dated earlier.  The result is in order and holds the same rows.
   */
  method BubbleSortDesc<T>(a: array<T>, key: T -> string)
    modifies a
    ensures DateDesc(a[..], key)
    ensures multiset(a[..]) == multiset(old(a[..]))
  {
    var n := a.Length;
    var i := 0;
    while i < n - 1
      invariant 0 <= i && (n > 0 ==> i <= n - 1)
      invariant multiset(a[..]) == multiset(old(a[..]))
      invariant SortedFrom(a[..], n - i, key) && SplitAt(a[..], n - i, key)
    {
      BubblePass(a, n - i, key);
      i := i + 1;
    }
  }

  /** The dates the rows already have (the `existingDates` map). */
  ghost function Dates<T>(s: seq<T>, key: T -> string): set<string>
  {
    set k | 0 <= k < |s| :: key(s[k])
  }

  /** The zero rows the fill loop appends for `window`, in window order. */
  function Missing<T>(window: seq<string>, existing: set<string>, blank: string -> T): seq<T>
  {
    if window == [] then []
    else
      var last := window[|window| - 1];
      Missing(window[..|window| - 1], existing, blank) + (if last in existing then [] else [blank(last)])
  }

  /** Every date of the window ends up with a row: the old one or a zero row. */
  lemma {:induction false} MissingCovers<T>(window: seq<string>, existing: set<string>, blank: string -> T,
                                            key: T -> string, d: string)
    requires forall e :: key(blank(e)) == e
    requires d in window && d !in existing
    ensures blank(d) in Missing(window, existing, blank)
    decreases |window|
  {
    var last := window[|window| - 1];
    if d != last {
      assert d in window[..|window| - 1];
      MissingCovers(window[..|window| - 1], existing, blank, key, d);
    }
  }

  /** Only zero rows for window dates without a row are added. */
  lemma {:induction false} MissingOnlyWindow<T>(window: seq<string>, existing: set<string>, blank: string -> T, x: T)
    requires x in Missing(window, existing, blank)
    ensures exists d :: d in window && d !in existing && x == blank(d)
    decreases |window|
  {
    var last := window[|window| - 1];
    var front := window[..|window| - 1];
    if x in Missing(front, existing, blank) {
      MissingOnlyWindow(front, existing, blank, x);
      var d :| d in front && d !in existing && x == blank(d);
      assert d in window;
    } else {
      assert x == blank(last);
    }
  }

  /** The rows before sorting: the old rows, then the zero rows. */
  ghost function Padded<T>(stats: seq<T>, window: seq<string>, key: T -> string, blank: string -> T): seq<T>
  {
    stats + Missing(window, Dates(stats, key), blank)
  }

  /** Mark the existing dates, then append a zero row for each window date not among them. */
  method Fill<T>(stats: seq<T>, window: seq<string>, key: T -> string, blank: string -> T) returns (padded: seq<T>)
    ensures padded == Padded(stats, window, key, blank)
  {
    var existing: set<string> := {};
    for k := 0 to |stats|
      invariant existing == set j | 0 <= j < k :: key(stats[j])
    {
      existing := existing + {key(stats[k])};
    }
    padded := stats;
    for i := 0 to |window|
      invariant padded == stats + Missing(window[..i], existing, blank)
    {
      assert window[..i + 1][..i] == window[..i];
      if window[i] !in existing {
        padded := padded + [blank(window[i])];
      }
    }
    assert window[..|window|] == window;
  }

  /**
   * `r` is the `n` latest rows of `all` (all of them when there are fewer),
   * latest first: a sub-multiset, in date order, and nothing left out is
   * dated later than anything kept.
   */
  ghost predicate LatestOf<T>(r: seq<T>, all: seq<T>, n: nat, key: T -> string)
  {
    |r| == (if |all| > n then n else |all|)
    && DateDesc(r, key)
    && multiset(r) <= multiset(all)
    && forall x, y :: x in multiset(all) - multiset(r) && y in r ==> !Less(key(y), key(x))
  }

  /**
   * padDailyStats: fill, sort, cut.  The result is in date order, no longer
   * than the window, and the rows cut off are dated no later than any row kept.
   */
  method Pad<T>(stats: seq<T>, window: seq<string>, key: T -> string, blank: string -> T) returns (r: seq<T>)
    ensures LatestOf(r, Padded(stats, window, key, blank), |window|, key)
  {
    var padded := Fill(stats, window, key, blank);
    var a := new T[|padded|](i requires 0 <= i < |padded| => padded[i]);
    assert a[..] == padded;
    BubbleSortDesc(a, key);
    var sorted := a[..];
    if |sorted| > |window| {
      r := sorted[..|window|];
      CutKeepsLatest(sorted, |window|, key);
    } else {
      r := sorted;
      assert multiset(padded) - multiset(r) == multiset{};
    }
  }

  /** Cutting a sorted list keeps it sorted, and everything cut is dated no later than what is kept. */
  lemma CutKeepsLatest<T>(s: seq<T>, n: nat, key: T -> string)
    requires DateDesc(s, key) && n <= |s|
    ensures DateDesc(s[..n], key)
    ensures multiset(s[..n]) <= multiset(s)
    ensures forall x, y :: x in multiset(s) - multiset(s[..n]) && y in s[..n] ==> !Less(key(y), key(x))
  {
    assert s == s[..n] + s[n..];
    assert multiset(s) == multiset(s[..n]) + multiset(s[n..]);
    assert multiset(s) - multiset(s[..n]) == multiset(s[n..]);
    forall x, y | x in multiset(s) - multiset(s[..n]) && y in s[..n]
      ensures !Less(key(y), key(x))
    {
      var q :| 0 <= q < |s[n..]| && s[n..][q] == x;
      var p :| 0 <= p < n && s[p] == y;
      assert s[n + q] == x;
    }
  }

  /** After padding, every date of the window has a row. */
  lemma PaddedCoversWindow<T>(stats: seq<T>, window: seq<string>, key: T -> string, blank: string -> T, d: string)
    requires forall e :: key(blank(e)) == e
    requires d in window
    ensures exists x :: x in Padded(stats, window, key, blank) && key(x) == d
  {
    var existing := Dates(stats, key);
    if d in existing {
      var k :| 0 <= k < |stats| && key(stats[k]) == d;
      assert stats[k] in Padded(stats, window, key, blank);
    } else {
      MissingCovers(window, existing, blank, key, d);
      assert blank(d) in Padded(stats, window, key, blank);
    }
  }

  /** When nothing has to be cut, the result holds exactly the padded rows, so every window date keeps its row. */
  lemma NothingCutKeepsAll<T>(r: seq<T>, all: seq<T>, n: nat, key: T -> string)
    requires LatestOf(r, all, n, key) && |all| <= n
    ensures multiset(r) == multiset(all)
  {
    var extra := multiset(all) - multiset(r);
    assert |multiset(r)| == |r| == |all| == |multiset(all)|;
    assert multiset(all) == multiset(r) + extra;
    assert |extra| == 0;
  }
}
