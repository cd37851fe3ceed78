/** The stream-history merge of `append_recent_streams`: the stored history
    and the newly fetched batch are concatenated, exact-duplicate rows are
    dropped, and the rows are sorted by `timePlayed`. Rows are those of the
    CSV files, with `timePlayed` an ISO-8601 string compared as Python
    compares strings. */
module StreamHistory {

  datatype StreamRow = StreamRow(
    name: string, popularity: int, albumName: string, artistNames: string, spotifyUri: string,
    timePlayed: string)

  /** Python's `a <= b` on str: code point by code point, a prefix first. */
  predicate TextLeq(a: string, b: string)
    decreases |a|
  {
    |a| == 0 || (|b| > 0 && (a[0] < b[0] || (a[0] == b[0] && TextLeq(a[1..], b[1..]))))
  }

  lemma {:induction false} TextLeqTotal(a: string, b: string)
    ensures TextLeq(a, b) || TextLeq(b, a)
    decreases |a|
  {
    if |a| > 0 && |b| > 0 && a[0] == b[0] {
      TextLeqTotal(a[1..], b[1..]);
    }
  }

  lemma {:induction false} TextLeqTransitive(a: string, b: string, c: string)
    requires TextLeq(a, b) && TextLeq(b, c)
    ensures TextLeq(a, c)
    decreases |a|
  {
    if |a| > 0 && a[0] == b[0] && b[0] == c[0] {
      TextLeqTransitive(a[1..], b[1..], c[1..]);
    }
  }

  /** Ascending by `timePlayed`. */
  ghost predicate Sorted(s: seq<StreamRow>) {
    forall i, j :: 0 <= i < j < |s| ==> TextLeq(s[i].timePlayed, s[j].timePlayed)
  }

  /** No row occurs twice. */
  ghost predicate NoDuplicates(s: seq<StreamRow>) {
    forall i, j :: 0 <= i < j < |s| ==> s[i] != s[j]
  }

  /** `drop_duplicates()`: keeps the first of each set of equal rows. */
  function Dedup(s: seq<StreamRow>): (r: seq<StreamRow>)
    ensures NoDuplicates(r)
    ensures forall x :: x in r <==> x in s
    ensures |r| <= |s|
    decreases |s|
  {
    if s == [] then []
    else
      var d := Dedup(s[..|s| - 1]);
      if s[|s| - 1] in d then d else d + [s[|s| - 1]]
  }

  /** Places `x` before the first row it does not come after. */
  function Insert(x: StreamRow, s: seq<StreamRow>): (r: seq<StreamRow>)
    ensures |r| == |s| + 1
    ensures multiset(r) == multiset(s) + multiset{x}
    ensures forall y :: y in r <==> y == x || y in s
  {
    if s == [] || TextLeq(x.timePlayed, s[0].timePlayed) then [x] + s
    else
      assert s == [s[0]] + s[1..];
      [s[0]] + Insert(x, s[1..])
  }

  /** `sort_values('timePlayed')`, as an insertion sort. */
  function SortByTime(s: seq<StreamRow>): (r: seq<StreamRow>)
    ensures |r| == |s|
    ensures multiset(r) == multiset(s)
    ensures forall y :: y in r <==> y in s
  {
    if s == [] then []
    else
      assert s == [s[0]] + s[1..];
      Insert(s[0], SortByTime(s[1..]))
  }

  lemma {:induction false} InsertSorted(x: StreamRow, s: seq<StreamRow>)
    requires Sorted(s)
    ensures Sorted(Insert(x, s))
  {
    if s == [] || TextLeq(x.timePlayed, s[0].timePlayed) {
      forall j | 0 <= j < |s| ensures TextLeq(x.timePlayed, s[j].timePlayed) {
        if j > 0 {
          TextLeqTransitive(x.timePlayed, s[0].timePlayed, s[j].timePlayed);
        }
      }
    } else {
      TextLeqTotal(x.timePlayed, s[0].timePlayed);
      InsertSorted(x, s[1..]);
      var tail := Insert(x, s[1..]);
      forall k | 0 <= k < |tail| ensures TextLeq(s[0].timePlayed, tail[k].timePlayed) {
        assert tail[k] in tail;
        if tail[k] != x {
          var m :| 0 <= m < |s[1..]| && s[1..][m] == tail[k];
          assert s[m + 1] == tail[k];
        }
      }
      var r := Insert(x, s);
      assert r == [s[0]] + tail;
      forall i, j | 0 <= i < j < |r| ensures TextLeq(r[i].timePlayed, r[j].timePlayed) {
        if i == 0 {
          assert r[j] == tail[j - 1];
        } else {
          assert r[i] == tail[i - 1] && r[j] == tail[j - 1];
        }
      }
    }
  }

  lemma {:induction false} InsertKeepsNoDuplicates(x: StreamRow, s: seq<StreamRow>)
    requires NoDuplicates(s) && x !in s
    ensures NoDuplicates(Insert(x, s))
  {
    if s == [] || TextLeq(x.timePlayed, s[0].timePlayed) {
      assert Insert(x, s) == [x] + s;
    } else {
      assert x !in s[1..];
      assert NoDuplicates(s[1..]) by {
        forall i, j | 0 <= i < j < |s[1..]| ensures s[1..][i] != s[1..][j] {
          assert s[1..][i] == s[i + 1] && s[1..][j] == s[j + 1];
        }
      }
      InsertKeepsNoDuplicates(x, s[1..]);
      var tail := Insert(x, s[1..]);
      assert s[0] !in s[1..] by {
        forall k | 0 <= k < |s[1..]| ensures s[1..][k] != s[0] {
          assert s[1..][k] == s[k + 1];
        }
      }
      assert s[0] !in tail;
      var r := Insert(x, s);
      assert r == [s[0]] + tail;
      forall i, j | 0 <= i < j < |r| ensures r[i] != r[j] {
        if i == 0 {
          assert r[j] == tail[j - 1];
        } else {
          assert r[i] == tail[i - 1] && r[j] == tail[j - 1];
        }
      }
    }
  }

  /** The sort yields rows ascending by `timePlayed`. */
  lemma {:induction false} SortByTimeSorted(s: seq<StreamRow>)
    ensures Sorted(SortByTime(s))
  {
    if s != [] {
      SortByTimeSorted(s[1..]);
      InsertSorted(s[0], SortByTime(s[1..]));
    }
  }

  /** The sort neither merges nor creates repeated rows. */
  lemma {:induction false} SortByTimeKeepsNoDuplicates(s: seq<StreamRow>)
    requires NoDuplicates(s)
    ensures NoDuplicates(SortByTime(s))
  {
    if s != [] {
      assert NoDuplicates(s[1..]) by {
        forall i, j | 0 <= i < j < |s[1..]| ensures s[1..][i] != s[1..][j] {
          assert s[1..][i] == s[i + 1] && s[1..][j] == s[j + 1];
        }
      }
      assert s[0] !in s[1..] by {
        forall k | 0 <= k < |s[1..]| ensures s[1..][k] != s[0] {
          assert s[1..][k] == s[k + 1];
        }
      }
      SortByTimeKeepsNoDuplicates(s[1..]);
      InsertKeepsNoDuplicates(s[0], SortByTime(s[1..]));
    }
  }

  /** Sorting rows already in order leaves them where they are. */
  lemma {:induction false} SortByTimeOfSorted(s: seq<StreamRow>)
    requires Sorted(s)
    ensures SortByTime(s) == s
  {
    if s != [] {
      assert Sorted(s[1..]) by {
        forall i, j | 0 <= i < j < |s[1..]| ensures TextLeq(s[1..][i].timePlayed, s[1..][j].timePlayed) {
          assert s[1..][i] == s[i + 1] && s[1..][j] == s[j + 1];
        }
      }
      SortByTimeOfSorted(s[1..]);
      if |s| > 1 {
        assert TextLeq(s[0].timePlayed, s[1..][0].timePlayed);
      }
      assert [s[0]] + s[1..] == s;
    }
  }

  /** Deduplicating rows that hold no repeats changes nothing. */
  lemma {:induction false} DedupOfDistinct(s: seq<StreamRow>)
    requires NoDuplicates(s)
    ensures Dedup(s) == s
    decreases |s|
  {
    if s != [] {
      var init := s[..|s| - 1];
      assert NoDuplicates(init) by {
        forall i, j | 0 <= i < j < |init| ensures init[i] != init[j] {
          assert init[i] == s[i] && init[j] == s[j];
        }
      }
      DedupOfDistinct(init);
      assert s[|s| - 1] !in init by {
        forall k | 0 <= k < |init| ensures init[k] != s[|s| - 1] {
          assert init[k] == s[k];
        }
      }
      assert init + [s[|s| - 1]] == s;
    }
  }

  /** Appending rows already present to distinct rows and deduplicating gives
      back those distinct rows. */
  lemma {:induction false} DedupAbsorbs(s: seq<StreamRow>, t: seq<StreamRow>)
    requires NoDuplicates(s)
    requires forall x :: x in t ==> x in s
    ensures Dedup(s + t) == s
    decreases |t|
  {
    if t == [] {
      assert s + t == s;
      DedupOfDistinct(s);
    } else {
      var u := s + t;
      assert u[..|u| - 1] == s + t[..|t| - 1];
      assert u[|u| - 1] == t[|t| - 1];
      assert t[|t| - 1] in t;
      DedupAbsorbs(s, t[..|t| - 1]);
    }
  }

  /** The new stream history written by `append_recent_streams`. */
  function MergeHistory(history: seq<StreamRow>, batch: seq<StreamRow>): (r: seq<StreamRow>)
    ensures forall x :: x in r <==> x in history || x in batch
  {
    SortByTime(Dedup(history + batch))
  }

  /** The merged history holds every row of the old history and of the
      batch and nothing else, each once, ascending by `timePlayed`. */
  lemma MergeHistorySpec(history: seq<StreamRow>, batch: seq<StreamRow>)
    ensures Sorted(MergeHistory(history, batch))
    ensures NoDuplicates(MergeHistory(history, batch))
    ensures forall x :: x in MergeHistory(history, batch) <==> x in history || x in batch
    ensures |MergeHistory(history, batch)| <= |history| + |batch|
  {
    SortByTimeSorted(Dedup(history + batch));
    SortByTimeKeepsNoDuplicates(Dedup(history + batch));
  }

  /** Merging the same batch a second time changes nothing: its rows are all
      present already, and the history is already distinct and in order. */
  lemma MergeHistoryIdempotent(history: seq<StreamRow>, batch: seq<StreamRow>)
    ensures MergeHistory(MergeHistory(history, batch), batch) == MergeHistory(history, batch)
  {
    var m := MergeHistory(history, batch);
    MergeHistorySpec(history, batch);
    DedupAbsorbs(m, batch);
    SortByTimeOfSorted(m);
  }

  /** Strings that agree up to position `k` and differ there are ordered by
      the characters at `k`. */
  lemma {:induction false} TextLeqAtFirstDifference(a: string, b: string, k: nat)
    requires k < |a| && k < |b| && a[..k] == b[..k] && a[k] < b[k]
    ensures TextLeq(a, b)
  {
    if k > 0 {
      assert a[0] == a[..k][0] && b[0] == b[..k][0];
      assert a[1..][..k - 1] == a[..k][1..] && b[1..][..k - 1] == b[..k][1..];
      TextLeqAtFirstDifference(a[1..], b[1..], k - 1);
    }
  }

  /** A history of one play and a batch that repeats it and adds a later one
      merge into those two plays, the repeat dropped. */
  lemma MergeHistoryExample(a: StreamRow, b: StreamRow)
    requires a.timePlayed == "2021-01-01T10:00:00Z" && b.timePlayed == "2021-01-01T11:00:00Z"
    ensures MergeHistory([a], [a, b]) == [a, b]
  {
    assert a.timePlayed[12] != b.timePlayed[12];
    assert Dedup([a, a, b]) == [a, b] by {
      assert [a, a, b][..2] == [a, a];
      assert [a, a][..1] == [a];
      assert [a][..0] == [];
    }
    assert a.timePlayed[..12] == b.timePlayed[..12];
    TextLeqAtFirstDifference(a.timePlayed, b.timePlayed, 12);
    assert [a] + [a, b] == [a, a, b];
  }
}
