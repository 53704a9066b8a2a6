/**
 * Saved creations as the backend returns them, and the list both gallery pages show:
 * the records (none yet loaded counts as none), optionally only the usable ones, in
 * a stable sort by timestamp, newest first. Everything here works on values, so the
 * fetched list is never changed: the source sorts a spread copy.
 */
module CreationRecords {
  import opened Wrappers

  datatype CreationRecord = CreationRecord(
    title: string,
    thumbnailUrl: Option<string>,
    creativeFreedom: bool,
    usable: bool,
    settings: string,
    timestamp: int)

  // ---------------------------------------------------------------- filter

  /** `records.filter((record) => record.usable === true)`. */
  function FilterUsable(records: seq<CreationRecord>): (usable: seq<CreationRecord>)
    ensures |usable| <= |records|
    ensures forall k :: 0 <= k < |usable| ==> usable[k].usable
    ensures multiset(usable) <= multiset(records)
  {
    if records == [] then []
    else
      var last := records[|records| - 1];
      assert records == records[..|records| - 1] + [last];
      FilterUsable(records[..|records| - 1]) + (if last.usable then [last] else [])
  }

  /** Filtering a concatenation filters each part: the kept records stay in their order. */
  lemma {:induction false} FilterUsableAppend(a: seq<CreationRecord>, b: seq<CreationRecord>)
    ensures FilterUsable(a + b) == FilterUsable(a) + FilterUsable(b)
  {
    if b != [] {
      var b', last := b[..|b| - 1], b[|b| - 1];
      var tail := if last.usable then [last] else [];
      assert (a + b)[..|a + b| - 1] == a + b' && (a + b)[|a + b| - 1] == last;
      FilterUsableAppend(a, b');
      assert FilterUsable(a + b) == FilterUsable(a + b') + tail;
      assert FilterUsable(b) == FilterUsable(b') + tail;
      assert FilterUsable(a) + FilterUsable(b) == (FilterUsable(a) + FilterUsable(b')) + tail;
    } else {
      assert a + b == a;
    }
  }

  /** A record is kept exactly when it is in the list and usable. */
  lemma {:induction false} FilterUsableMembers(records: seq<CreationRecord>, r: CreationRecord)
    ensures r in FilterUsable(records) <==> r in records && r.usable
  {
    if records != [] {
      var front := records[..|records| - 1];
      assert records == front + [records[|records| - 1]];
      FilterUsableMembers(front, r);
    }
  }

  /** The positions of the usable records. */
  function UsablePositions(records: seq<CreationRecord>): set<nat>
  {
    set k: nat | k < |records| && records[k].usable
  }

  /** Appending a record adds its position exactly when it is usable. */
  lemma UsablePositionsSnoc(records: seq<CreationRecord>)
    requires records != []
    ensures var n := |records| - 1;
      UsablePositions(records)
        == UsablePositions(records[..n]) + (if records[n].usable then {n} else {})
  {
    var n := |records| - 1;
    var front := records[..n];
    forall k: nat
      ensures k in UsablePositions(records) <==> k in UsablePositions(front) + (if records[n].usable then {n} else {})
    {
      if k < n {
        assert front[k] == records[k];
      }
    }
  }

  /** The filter keeps one record per usable position. */
  lemma {:induction false} FilterUsableCount(records: seq<CreationRecord>)
    ensures |FilterUsable(records)| == |UsablePositions(records)|
  {
    if records != [] {
      var n := |records| - 1;
      var before := UsablePositions(records[..n]);
      FilterUsableCount(records[..n]);
      UsablePositionsSnoc(records);
      assert n !in before;
      if records[n].usable {
        assert |before + {n}| == |before| + 1;
      } else {
        assert before + {} == before;
      }
    }
  }

  // ---------------------------------------------------------------- sort

  /** Timestamps never increase from one record to a later one. */
  ghost predicate NewestFirst(s: seq<CreationRecord>)
  {
    forall i, j :: 0 <= i < j < |s| ==> s[i].timestamp >= s[j].timestamp
  }

  /** The records with timestamp `t`, in their order. */
  function WithTimestamp(s: seq<CreationRecord>, t: int): seq<CreationRecord>
  {
    if s == [] then []
    else (if s[0].timestamp == t then [s[0]] else []) + WithTimestamp(s[1..], t)
  }

  /**
   * Puts `r` into a newest-first list in front of the first record that is not
   * newer, so it stays ahead of every record with the same timestamp.
   */
  function Insert(r: CreationRecord, s: seq<CreationRecord>): (result: seq<CreationRecord>)
    ensures |result| == |s| + 1
    ensures multiset(result) == multiset(s) + multiset{r}
  {
    if s == [] || s[0].timestamp <= r.timestamp then [r] + s
    else
      assert s == [s[0]] + s[1..];
      [s[0]] + Insert(r, s[1..])
  }

  /** Inserting into a newest-first list gives a newest-first list. */
  lemma {:induction false} InsertNewestFirst(r: CreationRecord, s: seq<CreationRecord>)
    requires NewestFirst(s)
    ensures NewestFirst(Insert(r, s))
  {
    if s != [] && s[0].timestamp > r.timestamp {
      var rest := Insert(r, s[1..]);
      NewestFirstTail(s);
      InsertNewestFirst(r, s[1..]);
      InsertNoNewer(r, s[1..], s[0].timestamp);
      var result := [s[0]] + rest;
      forall i, j | 0 <= i < j < |result|
        ensures result[i].timestamp >= result[j].timestamp
      {
        if i > 0 {
          assert result[i] == rest[i - 1] && result[j] == rest[j - 1];
        } else {
          assert result[j] == rest[j - 1];
        }
      }
    }
  }

  /** Inserting a record no newer than `m` into records no newer than `m` keeps them so. */
  lemma InsertNoNewer(r: CreationRecord, s: seq<CreationRecord>, m: int)
    requires r.timestamp <= m
    requires forall k :: 0 <= k < |s| ==> s[k].timestamp <= m
    ensures forall k :: 0 <= k < |Insert(r, s)| ==> Insert(r, s)[k].timestamp <= m
  {
    var result := Insert(r, s);
    forall k | 0 <= k < |result|
      ensures result[k].timestamp <= m
    {
      assert result[k] in multiset(s) + multiset{r};
      if result[k] != r {
        assert result[k] in s;
      }
    }
  }

  /**
   * `[...records].sort((a, b) => Number(b.timestamp - a.timestamp))`: newest first,
   * and, the sort being stable, records with equal timestamps keep their order.
   */
  function SortNewestFirst(s: seq<CreationRecord>): (sorted: seq<CreationRecord>)
    ensures NewestFirst(sorted)
    ensures multiset(sorted) == multiset(s)
  {
    if s == [] then []
    else
      assert s == [s[0]] + s[1..];
      var rest := SortNewestFirst(s[1..]);
      InsertNewestFirst(s[0], rest);
      Insert(s[0], rest)
  }

  lemma {:induction false} InsertStable(r: CreationRecord, s: seq<CreationRecord>, t: int)
    requires NewestFirst(s)
    ensures WithTimestamp(Insert(r, s), t) == (if r.timestamp == t then [r] else []) + WithTimestamp(s, t)
  {
    if s == [] || s[0].timestamp <= r.timestamp {
      assert ([r] + s)[1..] == s;
    } else {
      var rest := Insert(r, s[1..]);
      InsertStable(r, s[1..], t);
      assert ([s[0]] + rest)[1..] == rest;
      assert !(s[0].timestamp == t && r.timestamp == t);
    }
  }

  /** The sort keeps, for every timestamp, the records carrying it in their original order. */
  lemma {:induction false} SortStable(s: seq<CreationRecord>, t: int)
    ensures WithTimestamp(SortNewestFirst(s), t) == WithTimestamp(s, t)
  {
    if s != [] {
      SortStable(s[1..], t);
      InsertStable(s[0], SortNewestFirst(s[1..]), t);
    }
  }

  lemma WithTimestampHead(s: seq<CreationRecord>)
    requires s != []
    ensures WithTimestamp(s, s[0].timestamp) == [s[0]] + WithTimestamp(s[1..], s[0].timestamp)
  {
  }

  lemma {:induction false} WithTimestampMember(s: seq<CreationRecord>, t: int)
    requires WithTimestamp(s, t) != []
    ensures exists k :: 0 <= k < |s| && s[k].timestamp == t
  {
    if s[0].timestamp != t {
      WithTimestampMember(s[1..], t);
      var k :| 0 <= k < |s[1..]| && s[1..][k].timestamp == t;
      assert s[k + 1].timestamp == t;
    }
  }

  /**
   * Newest first and the same records per timestamp in the same order determine the
   * list: a stable descending sort has exactly one possible result.
   */
  lemma {:induction false} StableSortUnique(a: seq<CreationRecord>, b: seq<CreationRecord>)
    requires NewestFirst(a) && NewestFirst(b)
    requires forall t :: WithTimestamp(a, t) == WithTimestamp(b, t)
    ensures a == b
  {
    if a == [] || b == [] {
      if a != [] {
        SameTimestampGroupsNonEmpty(a, b);
      } else if b != [] {
        SameTimestampGroupsNonEmpty(b, a);
      }
    } else {
      WithTimestampMember(b, a[0].timestamp);
      WithTimestampMember(a, b[0].timestamp);
      var m := a[0].timestamp;
      assert b[0].timestamp == m;
      WithTimestampHead(a);
      WithTimestampHead(b);
      assert a[0] == b[0] by {
        assert WithTimestamp(a, m)[0] == a[0];
        assert WithTimestamp(b, m)[0] == b[0];
      }
      forall t
        ensures WithTimestamp(a[1..], t) == WithTimestamp(b[1..], t)
      {
        assert WithTimestamp(a, t) == WithTimestamp(b, t);
        if t == m {
          assert WithTimestamp(a, t) == [a[0]] + WithTimestamp(a[1..], t);
          assert WithTimestamp(b, t) == [b[0]] + WithTimestamp(b[1..], t);
          assert ([a[0]] + WithTimestamp(a[1..], t))[1..] == WithTimestamp(a[1..], t);
          assert ([b[0]] + WithTimestamp(b[1..], t))[1..] == WithTimestamp(b[1..], t);
        } else {
          var x, y := WithTimestamp(a[1..], t), WithTimestamp(b[1..], t);
          assert WithTimestamp(a, t) == [] + x == x;
          assert WithTimestamp(b, t) == [] + y == y;
        }
      }
      NewestFirstTail(a);
      NewestFirstTail(b);
      StableSortUnique(a[1..], b[1..]);
      assert a == [a[0]] + a[1..] && b == [b[0]] + b[1..];
    }
  }

  lemma SameTimestampGroupsNonEmpty(a: seq<CreationRecord>, b: seq<CreationRecord>)
    requires a != []
    requires forall t :: WithTimestamp(a, t) == WithTimestamp(b, t)
    ensures b != []
  {
    assert WithTimestamp(a, a[0].timestamp) != [];
  }

  lemma NewestFirstTail(s: seq<CreationRecord>)
    requires s != [] && NewestFirst(s)
    ensures NewestFirst(s[1..])
  {
    assert forall i :: 0 <= i < |s[1..]| ==> s[1..][i] == s[i + 1];
  }

  /** The sort is the stable newest-first sort: any list with those two properties is its result. */
  lemma SortIsStableSort(s: seq<CreationRecord>, r: seq<CreationRecord>)
    requires NewestFirst(r)
    requires forall t :: WithTimestamp(r, t) == WithTimestamp(s, t)
    ensures r == SortNewestFirst(s)
  {
    forall t
      ensures WithTimestamp(r, t) == WithTimestamp(SortNewestFirst(s), t)
    {
      SortStable(s, t);
    }
    StableSortUnique(r, SortNewestFirst(s));
  }

  // ---------------------------------------------------------------- the visible list

  /** Reordering a list of usable records leaves only usable records. */
  lemma PermutationKeepsUsable(s: seq<CreationRecord>, r: seq<CreationRecord>)
    requires forall k :: 0 <= k < |s| ==> s[k].usable
    requires multiset(r) == multiset(s)
    ensures forall k :: 0 <= k < |r| ==> r[k].usable
  {
    forall k | 0 <= k < |r|
      ensures r[k].usable
    {
      assert r[k] in multiset(s);
    }
  }

  /**
   * The list both gallery pages compute from the fetched records (`None` while they
   * are not loaded) and the usable-only flag.
   */
  function VisibleRecords(records: Option<seq<CreationRecord>>, usableOnly: bool): (visible: seq<CreationRecord>)
    ensures NewestFirst(visible)
    ensures usableOnly ==> forall k :: 0 <= k < |visible| ==> visible[k].usable
  {
    var all := records.GetOr([]);
    var filtered := if usableOnly then FilterUsable(all) else all;
    var sorted := SortNewestFirst(filtered);
    if usableOnly then
      PermutationKeepsUsable(filtered, sorted);
      sorted
    else
      sorted
  }

  /**
   * The visible list holds the same records as the fetched list (filter off) or its
   * usable records (filter on), each as often; without data it is empty.
   */
  lemma VisibleContents(records: Option<seq<CreationRecord>>, usableOnly: bool)
    ensures records == None ==> VisibleRecords(records, usableOnly) == []
    ensures records.Some? && !usableOnly ==> multiset(VisibleRecords(records, usableOnly)) == multiset(records.value)
    ensures records.Some? && usableOnly ==>
              multiset(VisibleRecords(records, usableOnly)) == multiset(FilterUsable(records.value))
    ensures records.Some? && usableOnly ==>
              |VisibleRecords(records, usableOnly)| == |UsablePositions(records.value)|
  {
    if records.Some? && usableOnly {
      FilterUsableCount(records.value);
      var v := VisibleRecords(records, usableOnly);
      assert |v| == |multiset(v)|;
    }
  }
}
