/**
 * The agent's call log (src/components/call-history.tsx): grouping a
 * snapshot of call records into per-day buckets, ordering the buckets and
 * the calls in them, the per-day non-resolved ratio and daily numbering, and
 * the dialog that edits a call's outcome.
 *
 * A day is an abstract integer key: the number of whole days since the
 * epoch of the call's server timestamp.
 */
module CallHistory {
  import opened Types
  import Sorting

  const MillisPerDay: nat := 86_400_000

  /** A bucket key: a day, or 'Unknown Date' for a call without a timestamp. */
  datatype DayKey = Day(n: nat) | UnknownDate

  function DayKeyOf(c: CallEntry): (k: DayKey)
    ensures k == UnknownDate <==> c.createdAt.None?
  {
    if c.createdAt.Some? then Day(c.createdAt.value / MillisPerDay) else UnknownDate
  }

  /** Buckets are shown latest day first; the undated bucket ranks below every day. */
  function DayRank(k: DayKey): (r: int)
    ensures r >= -1
    ensures r == -1 <==> k == UnknownDate
  {
    match k
    case Day(n) => n
    case UnknownDate => -1
  }

  /** Calls in a bucket are shown newest first; undated calls share one rank. */
  function TimeOf(c: CallEntry): (t: int)
    ensures t >= -1
    ensures t == -1 <==> c.createdAt.None?
  {
    if c.createdAt.Some? then c.createdAt.value else -1
  }

  /** A dated call's bucket is the day its timestamp falls in. */
  lemma DayKeyIsDayOfTimestamp(c: CallEntry)
    requires c.createdAt.Some?
    ensures DayKeyOf(c) == Day(TimeOf(c) / MillisPerDay)
    ensures DayKeyOf(c).n * MillisPerDay <= TimeOf(c) < (DayKeyOf(c).n + 1) * MillisPerDay
  {
  }

  // ---------------------------------------------------------------------
  // Buckets
  // ---------------------------------------------------------------------

  /** The calls of `s` that fall on `k`, in snapshot order. */
  function CallsOn(s: seq<CallEntry>, k: DayKey): (r: seq<CallEntry>)
    ensures forall c :: c in r ==> c in s && DayKeyOf(c) == k
    ensures forall i :: 0 <= i < |s| && DayKeyOf(s[i]) == k ==> s[i] in r
  {
    if s == [] then []
    else
      var init := CallsOn(s[..|s| - 1], k);
      assert forall i :: 0 <= i < |s| - 1 ==> s[..|s| - 1][i] == s[i];
      init + (if DayKeyOf(s[|s| - 1]) == k then [s[|s| - 1]] else [])
  }

  /** The bucket keys in the order they are first met (the accumulator's key order). */
  function KeysInOrder(s: seq<CallEntry>): (ks: seq<DayKey>)
    ensures Sorting.Distinct(ks)
    ensures forall k :: k in ks <==> exists i :: 0 <= i < |s| && DayKeyOf(s[i]) == k
  {
    if s == [] then []
    else
      var init := KeysInOrder(s[..|s| - 1]);
      assert forall i :: 0 <= i < |s| - 1 ==> s[..|s| - 1][i] == s[i];
      var k := DayKeyOf(s[|s| - 1]);
      if k in init then init else init + [k]
  }

  lemma CallsOnSnoc(s: seq<CallEntry>, c: CallEntry, k: DayKey)
    ensures CallsOn(s + [c], k) == CallsOn(s, k) + (if DayKeyOf(c) == k then [c] else [])
  {
    assert (s + [c])[..|s|] == s;
  }

  lemma KeysInOrderSnoc(s: seq<CallEntry>, c: CallEntry)
    ensures KeysInOrder(s + [c]) == if DayKeyOf(c) in KeysInOrder(s) then KeysInOrder(s) else KeysInOrder(s) + [DayKeyOf(c)]
  {
    assert (s + [c])[..|s|] == s;
  }

  lemma {:induction false} CallsOnAbsentKey(s: seq<CallEntry>, k: DayKey)
    requires k !in KeysInOrder(s)
    ensures CallsOn(s, k) == []
  {
    if s != [] {
      assert forall i :: 0 <= i < |s| - 1 ==> s[..|s| - 1][i] == s[i];
      assert DayKeyOf(s[|s| - 1]) != k;
      CallsOnAbsentKey(s[..|s| - 1], k);
    }
  }

  /** `buckets` and `order` are the accumulator after the calls `s`. */
  ghost predicate BucketsOf(buckets: map<DayKey, seq<CallEntry>>, order: seq<DayKey>, s: seq<CallEntry>) {
    && order == KeysInOrder(s)
    && (forall k :: k in buckets <==> k in order)
    && (forall k :: k in buckets ==> buckets[k] == CallsOn(s, k))
  }

  /** One step of the `reduce`: the call is pushed onto its day's list, which is created
      (and its key appended) the first time the day is met. */
  lemma BucketsOfSnoc(buckets: map<DayKey, seq<CallEntry>>, order: seq<DayKey>, s: seq<CallEntry>, c: CallEntry)
    requires BucketsOf(buckets, order, s)
    ensures var k := DayKeyOf(c);
      BucketsOf(buckets[k := (if k in buckets then buckets[k] else []) + [c]],
                if k in buckets then order else order + [k], s + [c])
  {
    if DayKeyOf(c) in buckets {
      PushOntoSeenDay(buckets, order, s, c);
    } else {
      assert [] + [c] == [c];
      PushOntoNewDay(buckets, order, s, c);
    }
  }

  lemma PushOntoSeenDay(buckets: map<DayKey, seq<CallEntry>>, order: seq<DayKey>, s: seq<CallEntry>, c: CallEntry)
    requires BucketsOf(buckets, order, s) && DayKeyOf(c) in buckets
    ensures BucketsOf(buckets[DayKeyOf(c) := buckets[DayKeyOf(c)] + [c]], order, s + [c])
  {
    SeenDayKeepsOrder(buckets, order, s, c);
    SeenDayKeepsKeys(buckets, order, s, c);
    PushedBucketsHoldTheirCalls(buckets, s, c);
  }

  /** A call on a day already met leaves the key order as it was. */
  lemma SeenDayKeepsOrder(buckets: map<DayKey, seq<CallEntry>>, order: seq<DayKey>, s: seq<CallEntry>, c: CallEntry)
    requires BucketsOf(buckets, order, s) && DayKeyOf(c) in buckets
    ensures KeysInOrder(s + [c]) == order
  {
    KeysInOrderSnoc(s, c);
  }

  /** Pushing onto a day already met opens no new list. */
  lemma SeenDayKeepsKeys(buckets: map<DayKey, seq<CallEntry>>, order: seq<DayKey>, s: seq<CallEntry>, c: CallEntry)
    requires BucketsOf(buckets, order, s) && DayKeyOf(c) in buckets
    ensures forall k :: k in buckets[DayKeyOf(c) := buckets[DayKeyOf(c)] + [c]] <==> k in order
  {
    Sorting.PushKeepsKeys(buckets, DayKeyOf(c), c, order);
  }

  /** Appending the call to its own day's list keeps every list equal to its day's calls. */
  lemma PushedBucketsHoldTheirCalls(buckets: map<DayKey, seq<CallEntry>>, s: seq<CallEntry>, c: CallEntry)
    requires DayKeyOf(c) in buckets
    requires forall k :: k in buckets ==> buckets[k] == CallsOn(s, k)
    ensures forall j :: j in buckets[DayKeyOf(c) := buckets[DayKeyOf(c)] + [c]] ==>
      buckets[DayKeyOf(c) := buckets[DayKeyOf(c)] + [c]][j] == CallsOn(s + [c], j)
  {
    var k := DayKeyOf(c);
    forall j | j in buckets[k := buckets[k] + [c]] ensures buckets[k := buckets[k] + [c]][j] == CallsOn(s + [c], j) {
      CallsOnSnoc(s, c, j);
    }
  }

  lemma PushOntoNewDay(buckets: map<DayKey, seq<CallEntry>>, order: seq<DayKey>, s: seq<CallEntry>, c: CallEntry)
    requires BucketsOf(buckets, order, s) && DayKeyOf(c) !in buckets
    ensures BucketsOf(buckets[DayKeyOf(c) := [c]], order + [DayKeyOf(c)], s + [c])
  {
    var k := DayKeyOf(c);
    KeysInOrderSnoc(s, c);
    forall j | j in buckets[k := [c]] ensures buckets[k := [c]][j] == CallsOn(s + [c], j) {
      CallsOnSnoc(s, c, j);
      if j == k {
        CallsOnAbsentKey(s, k);
      }
    }
    forall j ensures j in buckets[k := [c]] <==> j in order + [k] {
      Sorting.InSnoc(order, k, j);
    }
  }

  /** The `reduce` that pushes every call onto the list of its day. */
  method GroupByDay(entries: seq<CallEntry>) returns (buckets: map<DayKey, seq<CallEntry>>, order: seq<DayKey>)
    ensures order == KeysInOrder(entries)
    ensures forall k :: k in buckets <==> k in order
    ensures forall k :: k in buckets ==> buckets[k] == CallsOn(entries, k)
  {
    buckets := map[];
    order := [];
    var i := 0;
    while i < |entries|
      invariant 0 <= i <= |entries|
      invariant BucketsOf(buckets, order, entries[..i])
    {
      var call := entries[i];
      var callDate := DayKeyOf(call);
      assert entries[..i + 1] == entries[..i] + [call];
      BucketsOfSnoc(buckets, order, entries[..i], call);
      var list: seq<CallEntry> := [];
      if callDate in buckets {
        list := buckets[callDate];
      } else {
        order := order + [callDate];
      }
      buckets := buckets[callDate := list + [call]];
      i := i + 1;
    }
    assert entries[..|entries|] == entries;
  }

  // ---------------------------------------------------------------------
  // Daily groups
  // ---------------------------------------------------------------------

  /** One accordion entry: its day, its calls and the counts behind its ratio. */
  datatype DailyGroup = DailyGroup(date: DayKey, calls: seq<CallEntry>, nonResolved: nat, total: nat)

  /** The bucket sort, newest first; calls with equal timestamps keep their order. */
  function NewestFirst(calls: seq<CallEntry>): (r: seq<CallEntry>)
    ensures multiset(r) == multiset(calls)
    ensures Sorting.SortedDesc(r, TimeOf)
  {
    Sorting.SortDesc(calls, TimeOf)
  }

  /** Escalated plus Follow-up Required calls. */
  function NonResolvedCount(calls: seq<CallEntry>): (n: nat)
    ensures n <= |calls|
    ensures n == 0 <==> forall i :: 0 <= i < |calls| ==> calls[i].outcome == Resolved
  {
    if calls == [] then 0
    else
      var init := calls[..|calls| - 1];
      assert forall i :: 0 <= i < |calls| - 1 ==> init[i] == calls[i];
      NonResolvedCount(init) + (if NonResolved(calls[|calls| - 1].outcome) then 1 else 0)
  }

  lemma QuotientAtMostOne(n: real, t: real)
    requires 0.0 <= n <= t && t > 0.0
    ensures 0.0 <= n / t <= 1.0
    ensures n / t == 0.0 <==> n == 0.0
    ensures n / t == 1.0 <==> n == t
  {
    var q := n / t;
    assert q * t == n;
    assert (1.0 - q) * t == t - n;
  }

  /** The displayed ratio, in percent, as an exact rational. */
  function RatioPercent(nonResolved: nat, total: nat): (r: real)
    requires nonResolved <= total
    ensures 0.0 <= r <= 100.0
    ensures total == 0 ==> r == 0.0
    ensures r == 0.0 <==> nonResolved == 0
    ensures r == 100.0 <==> total > 0 && nonResolved == total
  {
    if total > 0 then
      QuotientAtMostOne(nonResolved as real, total as real);
      (nonResolved as real / total as real) * 100.0
    else 0.0
  }

  /** The per-day `map` callback: the day, its calls newest first and the two counts the
      ratio is computed from. */
  function MakeGroup(k: DayKey, bucket: seq<CallEntry>): (g: DailyGroup)
    ensures g.date == k && g.total == |bucket|
    ensures multiset(g.calls) == multiset(bucket) && Sorting.SortedDesc(g.calls, TimeOf)
    ensures g.nonResolved <= g.total
  {
    var calls := NewestFirst(bucket);
    assert |calls| == |bucket| by {
      assert |multiset(calls)| == |multiset(bucket)|;
    }
    DailyGroup(k, calls, NonResolvedCount(calls), |calls|)
  }

  function GroupsFor(entries: seq<CallEntry>, ks: seq<DayKey>): (gs: seq<DailyGroup>)
    ensures |gs| == |ks|
    ensures forall i :: 0 <= i < |ks| ==> gs[i] == MakeGroup(ks[i], CallsOn(entries, ks[i]))
  {
    if ks == [] then []
    else
      var rest := GroupsFor(entries, ks[1..]);
      assert forall i :: 1 <= i < |ks| ==> ks[1..][i - 1] == ks[i];
      [MakeGroup(ks[0], CallsOn(entries, ks[0]))] + rest
  }

  /** The day keys of a snapshot, latest day first. */
  function SortedKeys(entries: seq<CallEntry>): (ks: seq<DayKey>)
    ensures multiset(ks) == multiset(KeysInOrder(entries))
    ensures Sorting.SortedDesc(ks, DayRank)
  {
    Sorting.SortDesc(KeysInOrder(entries), DayRank)
  }

  /** The whole view computed from one snapshot. */
  function DailyGroups(entries: seq<CallEntry>): (gs: seq<DailyGroup>)
    ensures |gs| == |SortedKeys(entries)|
    ensures forall i :: 0 <= i < |gs| ==> (gs[i].date == SortedKeys(entries)[i]
      && gs[i].calls == NewestFirst(CallsOn(entries, gs[i].date)) && gs[i].total == |gs[i].calls|)
  {
    GroupsFor(entries, SortedKeys(entries))
  }

  /** The snapshot handler: bucket, build one group per key, sort the groups. */
  method BuildDailyGroups(entries: seq<CallEntry>) returns (groups: seq<DailyGroup>)
    ensures groups == DailyGroups(entries)
  {
    var buckets, order := GroupByDay(entries);
    var keys := Sorting.SortDesc(order, DayRank);
    SortedKeysAreBuckets(entries, buckets, keys);
    groups := seq(|keys|, i requires 0 <= i < |keys| && keys[i] in buckets => MakeGroup(keys[i], buckets[keys[i]]));
    GroupsOfBucketsAreDailyGroups(entries, buckets, keys, groups);
  }

  /** Every sorted key names a bucket, and that bucket holds exactly the key's calls. */
  lemma SortedKeysAreBuckets(entries: seq<CallEntry>, buckets: map<DayKey, seq<CallEntry>>, keys: seq<DayKey>)
    requires forall k :: k in buckets <==> k in KeysInOrder(entries)
    requires forall k :: k in buckets ==> buckets[k] == CallsOn(entries, k)
    requires keys == SortedKeys(entries)
    ensures forall i :: 0 <= i < |keys| ==> keys[i] in buckets && buckets[keys[i]] == CallsOn(entries, keys[i])
  {
    forall i | 0 <= i < |keys| ensures keys[i] in buckets {
      assert keys[i] in multiset(keys);
    }
  }

  /** One group per sorted key, built from that key's bucket, is the whole view. */
  lemma GroupsOfBucketsAreDailyGroups(entries: seq<CallEntry>, buckets: map<DayKey, seq<CallEntry>>,
                                      keys: seq<DayKey>, groups: seq<DailyGroup>)
    requires keys == SortedKeys(entries)
    requires forall i :: 0 <= i < |keys| ==> keys[i] in buckets && buckets[keys[i]] == CallsOn(entries, keys[i])
    requires |groups| == |keys|
    requires forall i :: 0 <= i < |keys| ==> groups[i] == MakeGroup(keys[i], buckets[keys[i]])
    ensures groups == DailyGroups(entries)
  {
    assert groups == GroupsFor(entries, keys);
  }

  /** All calls of a list of groups, group after group. */
  function Flatten(gs: seq<DailyGroup>): seq<CallEntry> {
    if gs == [] then [] else gs[0].calls + Flatten(gs[1..])
  }

  function BucketUnion(s: seq<CallEntry>, ks: seq<DayKey>): multiset<CallEntry> {
    if ks == [] then multiset{} else multiset(CallsOn(s, ks[0])) + BucketUnion(s, ks[1..])
  }

  lemma {:induction false} FlattenGroupsFor(entries: seq<CallEntry>, ks: seq<DayKey>)
    ensures multiset(Flatten(GroupsFor(entries, ks))) == BucketUnion(entries, ks)
  {
    if ks != [] {
      FlattenGroupsFor(entries, ks[1..]);
    }
  }

  lemma {:induction false} BucketUnionOfNothing(ks: seq<DayKey>)
    ensures BucketUnion([], ks) == multiset{}
  {
    if ks != [] {
      BucketUnionOfNothing(ks[1..]);
    }
  }

  lemma {:induction false} BucketUnionSnoc(s: seq<CallEntry>, c: CallEntry, ks: seq<DayKey>)
    requires Sorting.Distinct(ks)
    ensures BucketUnion(s + [c], ks) ==
      BucketUnion(s, ks) + (if DayKeyOf(c) in ks then multiset{c} else multiset{})
  {
    if ks != [] {
      var k := DayKeyOf(c);
      var here: multiset<CallEntry> := if k == ks[0] then multiset{c} else multiset{};
      var later: multiset<CallEntry> := if k in ks[1..] then multiset{c} else multiset{};
      Sorting.DistinctHead(ks, k);
      BucketUnionSnoc(s, c, ks[1..]);
      assert multiset(CallsOn(s + [c], ks[0])) == multiset(CallsOn(s, ks[0])) + here by {
        CallsOnSnoc(s, c, ks[0]);
      }
      assert here + later == if k in ks then multiset{c} else multiset{} by {
        Sorting.DistinctHead(ks, k);
      }
      Sorting.RegroupUnion(multiset(CallsOn(s, ks[0])), BucketUnion(s, ks[1..]), here, later);
    }
  }

  /** Distinct keys that cover every call split the calls without loss or duplication. */
  lemma {:induction false} BucketUnionCovers(s: seq<CallEntry>, ks: seq<DayKey>)
    requires Sorting.Distinct(ks)
    requires forall i :: 0 <= i < |s| ==> DayKeyOf(s[i]) in ks
    ensures BucketUnion(s, ks) == multiset(s)
  {
    if s == [] {
      BucketUnionOfNothing(ks);
    } else {
      var init, last := s[..|s| - 1], s[|s| - 1];
      assert init + [last] == s;
      BucketUnionCovers(init, ks);
      BucketUnionSnoc(init, last, ks);
    }
  }

  lemma SortedKeysFacts(entries: seq<CallEntry>)
    ensures Sorting.Distinct(SortedKeys(entries))
    ensures Sorting.SortedDesc(SortedKeys(entries), DayRank)
    ensures forall k :: k in SortedKeys(entries) <==> exists i :: 0 <= i < |entries| && DayKeyOf(entries[i]) == k
  {
    var ks := KeysInOrder(entries);
    Sorting.DistinctPermutation(ks, SortedKeys(entries));
    forall k ensures k in SortedKeys(entries) <==> k in ks {
      assert k in SortedKeys(entries) <==> k in multiset(SortedKeys(entries));
    }
  }

  /** Grouping is a partition: the groups hold exactly the snapshot's calls, each once. */
  lemma DailyGroupsPartition(entries: seq<CallEntry>)
    ensures multiset(Flatten(DailyGroups(entries))) == multiset(entries)
    ensures |Flatten(DailyGroups(entries))| == |entries|
  {
    var ks := SortedKeys(entries);
    SortedKeysFacts(entries);
    FlattenGroupsFor(entries, ks);
    BucketUnionCovers(entries, ks);
    assert |multiset(Flatten(DailyGroups(entries)))| == |Flatten(DailyGroups(entries))|;
  }

  /** One group of the view: non-empty, only calls of its own day, newest first,
      with consistent counts. */
  lemma GroupShape(entries: seq<CallEntry>, m: nat)
    requires m < |DailyGroups(entries)|
    ensures var g := DailyGroups(entries)[m];
      && |g.calls| > 0
      && (forall c :: c in g.calls ==> c in entries && DayKeyOf(c) == g.date)
      && Sorting.SortedDesc(g.calls, TimeOf)
      && g.total == |g.calls| && g.nonResolved <= g.total
  {
    var ks := SortedKeys(entries);
    var g := DailyGroups(entries)[m];
    SortedKeysFacts(entries);
    assert ks[m] in ks;
    var bucket := CallsOn(entries, ks[m]);
    var i :| 0 <= i < |entries| && DayKeyOf(entries[i]) == ks[m];
    assert entries[i] in bucket;
    assert |g.calls| == |multiset(g.calls)| == |multiset(bucket)| == |bucket| > 0;
    forall c | c in g.calls ensures c in entries && DayKeyOf(c) == g.date {
      assert c in multiset(g.calls);
    }
  }

  /** The groups run strictly from the latest day down, the undated group last. */
  lemma GroupsLatestDayFirst(entries: seq<CallEntry>)
    ensures forall i, j :: 0 <= i < j < |DailyGroups(entries)| ==>
      DayRank(DailyGroups(entries)[i].date) > DayRank(DailyGroups(entries)[j].date)
  {
    var ks := SortedKeys(entries);
    SortedKeysFacts(entries);
    forall i, j | 0 <= i < j < |ks| ensures DayRank(ks[i]) > DayRank(ks[j]) {
      assert ks[i] != ks[j];
      assert DayRank(ks[i]) >= DayRank(ks[j]);
    }
  }

  /** Every call of the snapshot is in the group of its own day. */
  lemma EveryCallHasItsGroup(entries: seq<CallEntry>, c: CallEntry)
    requires c in entries
    ensures exists i :: (0 <= i < |DailyGroups(entries)| && DailyGroups(entries)[i].date == DayKeyOf(c)
      && c in DailyGroups(entries)[i].calls)
  {
    var gs := DailyGroups(entries);
    var ks := SortedKeys(entries);
    SortedKeysFacts(entries);
    var m :| 0 <= m < |entries| && entries[m] == c;
    assert DayKeyOf(entries[m]) == DayKeyOf(c);
    assert DayKeyOf(c) in ks;
    var i :| 0 <= i < |ks| && ks[i] == DayKeyOf(c);
    assert c in CallsOn(entries, ks[i]);
    assert c in multiset(CallsOn(entries, ks[i]));
    assert c in multiset(gs[i].calls);
  }

  /** No call is in two groups. */
  lemma NoCallInTwoGroups(entries: seq<CallEntry>, c: CallEntry)
    ensures forall i, j :: (0 <= i < |DailyGroups(entries)| && 0 <= j < |DailyGroups(entries)|
      && c in DailyGroups(entries)[i].calls && c in DailyGroups(entries)[j].calls) ==> i == j
  {
    var gs := DailyGroups(entries);
    GroupsLatestDayFirst(entries);
    forall i, j | 0 <= i < |gs| && 0 <= j < |gs| && c in gs[i].calls && c in gs[j].calls ensures i == j {
      GroupShape(entries, i);
      GroupShape(entries, j);
    }
  }

  // ---------------------------------------------------------------------
  // Daily numbering
  // ---------------------------------------------------------------------

  /** The "Daily Call #" shown on row `index` of a group of `n` calls. */
  function DailyNumber(n: nat, index: nat): (v: nat)
    requires index < n
    ensures 1 <= v <= n
    ensures v == 1 <==> index == n - 1
  {
    n - index
  }

  /** The row of a group of `n` calls that shows number `v`. */
  function RowOf(n: nat, v: nat): nat
    requires 1 <= v <= n
  {
    n - v
  }

  /** The numbers of a group of `n` calls are exactly 1..n, falling down the table. */
  lemma DailyNumbersAreOneToN(n: nat)
    ensures forall i :: 0 <= i < n ==> 1 <= DailyNumber(n, i) <= n
    ensures forall i, j :: 0 <= i < j < n ==> DailyNumber(n, i) > DailyNumber(n, j)
    ensures forall v :: 1 <= v <= n ==> RowOf(n, v) < n && DailyNumber(n, RowOf(n, v)) == v
  {
  }

  /** In a group, #1 is the oldest call and a higher number is never older. */
  lemma OldestCallIsNumberOne(g: DailyGroup)
    requires |g.calls| > 0 && Sorting.SortedDesc(g.calls, TimeOf)
    ensures DailyNumber(|g.calls|, |g.calls| - 1) == 1
    ensures forall i :: 0 <= i < |g.calls| ==> TimeOf(g.calls[i]) >= TimeOf(g.calls[|g.calls| - 1])
    ensures forall i, j :: (0 <= i < |g.calls| && 0 <= j < |g.calls| &&
      DailyNumber(|g.calls|, i) > DailyNumber(|g.calls|, j)) ==> TimeOf(g.calls[i]) >= TimeOf(g.calls[j])
  {
  }

  /** The group's displayed ratio lies in 0..100 and is 0 exactly when every call is Resolved. */
  lemma GroupRatioBounds(entries: seq<CallEntry>, g: DailyGroup)
    requires g in DailyGroups(entries)
    ensures g.nonResolved <= g.total
    ensures 0.0 <= RatioPercent(g.nonResolved, g.total) <= 100.0
    ensures RatioPercent(g.nonResolved, g.total) == 0.0 <==>
      forall i :: 0 <= i < |g.calls| ==> g.calls[i].outcome == Resolved
  {
    var m :| 0 <= m < |DailyGroups(entries)| && DailyGroups(entries)[m] == g;
    GroupShape(entries, m);
  }

  // ---------------------------------------------------------------------
  // A call without a timestamp (the undated bucket)
  // ---------------------------------------------------------------------

  /** The comparator `b.createdAt.toMillis() - a.createdAt.toMillis()`; `None` stands for
      the TypeError thrown when either call has no timestamp. */
  function CompareAsWritten(a: CallEntry, b: CallEntry): (r: Option<int>)
    ensures r.None? <==> a.createdAt.None? || b.createdAt.None?
    ensures r.Some? ==> (r.value <= 0 <==> TimeOf(a) >= TimeOf(b))
  {
    if a.createdAt.None? || b.createdAt.None? then None
    else Some(b.createdAt.value - a.createdAt.value)
  }

  /** One insertion step of the bucket sort as written: `x` goes in front of the first call
      the comparator does not put before it; `None` once a comparison throws. */
  function InsertAsWritten(x: CallEntry, s: seq<CallEntry>): (r: Option<seq<CallEntry>>)
    ensures r.Some? ==> multiset(r.value) == multiset(s) + multiset{x}
  {
    if s == [] then Some([x])
    else match CompareAsWritten(x, s[0])
      case None => None
      case Some(d) =>
        if d <= 0 then Some([x] + s)
        else match InsertAsWritten(x, s[1..])
          case None => None
          case Some(rest) =>
            assert multiset(s) == multiset{s[0]} + multiset(s[1..]) by {
              assert s == [s[0]] + s[1..];
            }
            Some([s[0]] + rest)
  }

  /** `groups[dateStr].sort(...)` as written, run as the same stable insertion sort as
      `NewestFirst` but with the source's comparator; `None` once a comparison throws. */
  function SortBucketAsWritten(calls: seq<CallEntry>): (r: Option<seq<CallEntry>>)
    ensures r.Some? ==> multiset(r.value) == multiset(calls)
  {
    if calls == [] then Some([])
    else
      var rest := SortBucketAsWritten(calls[1..]);
      if rest.None? then None
      else
        assert multiset(calls) == multiset(calls[1..]) + multiset{calls[0]} by {
          assert calls == [calls[0]] + calls[1..];
        }
        InsertAsWritten(calls[0], rest.value)
  }

  predicate AllDated(s: seq<CallEntry>) {
    forall i :: 0 <= i < |s| ==> s[i].createdAt.Some?
  }

  /** When no comparison throws, an insertion step as written is the reference one. */
  lemma {:induction false} InsertAsWrittenAgrees(x: CallEntry, s: seq<CallEntry>)
    ensures InsertAsWritten(x, s).Some? ==> InsertAsWritten(x, s).value == Sorting.Insert(x, s, TimeOf)
  {
    if s != [] && CompareAsWritten(x, s[0]).Some? && CompareAsWritten(x, s[0]).value > 0 {
      InsertAsWrittenAgrees(x, s[1..]);
    }
  }

  /** A dated call inserted among dated calls never makes the comparator throw. */
  lemma {:induction false} InsertAsWrittenDated(x: CallEntry, s: seq<CallEntry>)
    requires x.createdAt.Some? && AllDated(s)
    ensures InsertAsWritten(x, s).Some?
  {
    if s != [] {
      assert forall i :: 0 <= i < |s[1..]| ==> s[1..][i] == s[i + 1];
      InsertAsWrittenDated(x, s[1..]);
    }
  }

  /** When it does not throw, the bucket sort as written sorts as `NewestFirst` does. */
  lemma {:induction false} SortBucketAsWrittenAgrees(calls: seq<CallEntry>)
    ensures SortBucketAsWritten(calls).Some? ==> SortBucketAsWritten(calls).value == NewestFirst(calls)
  {
    if calls != [] {
      SortBucketAsWrittenAgrees(calls[1..]);
      var r := SortBucketAsWritten(calls[1..]);
      if r.Some? {
        InsertAsWrittenAgrees(calls[0], r.value);
      }
    }
  }

  /** The bucket sort as written throws exactly when the bucket holds two or more calls and
      one of them is undated. */
  lemma {:induction false} SortBucketAsWrittenThrowsExactly(calls: seq<CallEntry>)
    ensures SortBucketAsWritten(calls).None? <==> |calls| >= 2 && !AllDated(calls)
  {
    if calls != [] {
      var x, tail := calls[0], calls[1..];
      assert AllDated(calls) <==> x.createdAt.Some? && AllDated(tail) by {
        assert forall i :: 0 <= i < |tail| ==> tail[i] == calls[i + 1];
      }
      SortBucketAsWrittenThrowsExactly(tail);
      var r := SortBucketAsWritten(tail);
      if r.Some? {
        var rest := r.value;
        SortBucketAsWrittenAgrees(tail);
        assert multiset(rest) == multiset(tail);
        assert |rest| == |tail| by {
          assert |multiset(rest)| == |multiset(tail)|;
        }
        if tail != [] && x.createdAt.Some? {
          if AllDated(tail) {
            forall k | 0 <= k < |rest| ensures rest[k].createdAt.Some? {
              assert rest[k] in multiset(tail);
            }
            InsertAsWrittenDated(x, rest);
          } else {
            assert rest[0] in multiset(tail);
            assert rest[0] == tail[0];
          }
        }
      }
    }
  }

  /** Two calls still waiting for their server timestamp make the snapshot handler throw. */
  lemma TwoUndatedCallsBreakTheHistory(a: CallEntry, b: CallEntry)
    requires a.createdAt.None? && b.createdAt.None?
    ensures CallsOn([a, b], UnknownDate) == [a, b]
    ensures SortBucketAsWritten(CallsOn([a, b], UnknownDate)).None?
  {
    assert [a, b][..1] == [a];
    assert [a][..0] == [];
    assert CallsOn([a], UnknownDate) == [a];
    SortBucketAsWrittenThrowsExactly([a, b]);
  }

  /** The corrected sort keeps undated calls in snapshot order instead of throwing. */
  lemma UndatedBucketKeepsSnapshotOrder(entries: seq<CallEntry>)
    ensures NewestFirst(CallsOn(entries, UnknownDate)) == CallsOn(entries, UnknownDate)
  {
    var bucket := CallsOn(entries, UnknownDate);
    assert forall i :: 0 <= i < |bucket| ==> bucket[i] in bucket;
    Sorting.SortDescKeepsEqualKeysInOrder(bucket, TimeOf);
  }

  /** On dated buckets the sort as written never throws and agrees with the corrected one. */
  lemma DatedBucketsUnaffected(entries: seq<CallEntry>, n: nat)
    ensures SortBucketAsWritten(CallsOn(entries, Day(n))) == Some(NewestFirst(CallsOn(entries, Day(n))))
  {
    var bucket := CallsOn(entries, Day(n));
    assert forall i :: 0 <= i < |bucket| ==> bucket[i] in bucket;
    SortBucketAsWrittenThrowsExactly(bucket);
    SortBucketAsWrittenAgrees(bucket);
  }

  // ---------------------------------------------------------------------
  // Outcome badges and editing
  // ---------------------------------------------------------------------

  function BadgeVariant(o: Outcome): (r: Variant)
    ensures r == Default <==> o == Resolved
    ensures r == Destructive <==> o == Escalated
    ensures r == Secondary <==> o == FollowUpRequired
  {
    match o
    case Resolved => Default
    case Escalated => Destructive
    case FollowUpRequired => Secondary
  }

  /** Each outcome has its own badge style, and none is drawn in the fallback style. */
  lemma BadgeVariantsDistinct(o1: Outcome, o2: Outcome)
    ensures BadgeVariant(o1) == BadgeVariant(o2) <==> o1 == o2
    ensures BadgeVariant(o1) != Outline
  {
  }

  /** The fields `handleUpdateOutcome` writes. */
  datatype CallUpdate = CallUpdate(outcome: Outcome, setEdited: bool)

  /** The guard of `handleUpdateOutcome` and the update it builds from the selected call. */
  function PlanUpdate(selected: Option<CallEntry>, choice: Option<Outcome>): (u: Option<CallUpdate>)
    ensures u.Some? <==> selected.Some? && choice.Some? && choice.value != selected.value.outcome
    ensures u.Some? ==> u.value.outcome == choice.value && (u.value.setEdited <==> !WasEdited(selected.value))
  {
    if selected.None? || choice.None? || choice.value == selected.value.outcome then None
    else Some(CallUpdate(choice.value, !WasEdited(selected.value)))
  }

  /** A stored record after the update: `edited` is only ever set, never cleared. */
  function ApplyUpdate(c: CallEntry, u: CallUpdate): (r: CallEntry)
    ensures r.outcome == u.outcome
    ensures WasEdited(c) ==> WasEdited(r)
    ensures u.setEdited ==> WasEdited(r)
    ensures r.(outcome := c.outcome, edited := c.edited) == c
  {
    c.(outcome := u.outcome, edited := if u.setEdited then Some(true) else c.edited)
  }

  /** After any write of an edit the call is marked edited. */
  lemma EditMarksCallEdited(c: CallEntry, choice: Option<Outcome>)
    requires PlanUpdate(Some(c), choice).Some?
    ensures WasEdited(ApplyUpdate(c, PlanUpdate(Some(c), choice).value))
    ensures ApplyUpdate(c, PlanUpdate(Some(c), choice).value).outcome == choice.value != c.outcome
  {
  }

  /** `updateDoc` on the record with `id`. */
  function UpdateById(calls: seq<CallEntry>, id: string, u: CallUpdate): (r: seq<CallEntry>)
    ensures |r| == |calls|
    ensures forall i :: 0 <= i < |calls| ==> r[i].id == calls[i].id
    ensures forall i :: 0 <= i < |calls| && calls[i].id != id ==> r[i] == calls[i]
    ensures forall i :: 0 <= i < |calls| && calls[i].id == id ==> r[i] == ApplyUpdate(calls[i], u)
  {
    seq(|calls|, i requires 0 <= i < |calls| => if calls[i].id == id then ApplyUpdate(calls[i], u) else calls[i])
  }

  /** Whether the collection still holds a document with this id; `updateDoc` on a
      missing document rejects. */
  predicate HasCall(calls: seq<CallEntry>, id: string) {
    exists i :: 0 <= i < |calls| && calls[i].id == id
  }

  predicate CallIdsDistinct(calls: seq<CallEntry>) {
    forall i, j :: 0 <= i < j < |calls| ==> calls[i].id != calls[j].id
  }

  /** The edit dialog over the agent's call collection. */
  class OutcomeEditor {
    /** The collection as the latest snapshot delivered it. */
    var calls: seq<CallEntry>
    var dialogOpen: bool
    /** The call as it was when its dialog was opened; a later snapshot does not refresh it. */
    var selected: Option<CallEntry>
    /** The outcome picked in the dialog; `None` is the empty selection. */
    var newOutcome: Option<Outcome>

    ghost predicate Valid()
      reads this
    {
      && CallIdsDistinct(calls)
      && (selected.Some? ==> selected.value.outcome != Resolved)
    }

    constructor (calls0: seq<CallEntry>)
      requires CallIdsDistinct(calls0)
      ensures Valid()
      ensures calls == calls0 && !dialogOpen && selected == None && newOutcome == None
    {
      calls := calls0;
      dialogOpen := false;
      selected := None;
      newOutcome := None;
    }

    /** A new snapshot of the collection replaces the list; the open dialog keeps its call. */
    method OnCallsSnapshot(calls1: seq<CallEntry>)
      requires Valid() && CallIdsDistinct(calls1)
      modifies this`calls
      ensures Valid() && calls == calls1
    {
      calls := calls1;
    }

    /** `openEditDialog` on the row of `calls[i]`: refused for a Resolved call. */
    method OpenEditDialog(i: nat) returns (refused: bool)
      requires Valid() && i < |calls|
      modifies this
      ensures Valid() && calls == old(calls)
      ensures refused == (calls[i].outcome == Resolved)
      ensures refused ==> dialogOpen == old(dialogOpen) && selected == old(selected) && newOutcome == old(newOutcome)
      ensures !refused ==> dialogOpen && selected == Some(calls[i]) && newOutcome == Some(calls[i].outcome)
    {
      refused := calls[i].outcome == Resolved;
      if !refused {
        selected := Some(calls[i]);
        newOutcome := Some(calls[i].outcome);
        dialogOpen := true;
      }
    }

    /** Picking an outcome in the dialog's select. */
    method ChooseOutcome(o: Outcome)
      modifies this`newOutcome
      ensures newOutcome == Some(o)
    {
      newOutcome := Some(o);
    }

    /** Cancel: the dialog closes and nothing else changes. */
    method CloseDialog()
      modifies this`dialogOpen
      ensures !dialogOpen
    {
      dialogOpen := false;
    }

    /** `handleUpdateOutcome`; `writeOk` is whether the backend accepts `updateDoc`, which
        also fails once the selected call's document is gone. The update is planned from the
        selected call as it was when the dialog opened. */
    method UpdateOutcome(writeOk: bool) returns (wrote: bool)
      requires Valid()
      modifies this
      ensures Valid()
      ensures !dialogOpen && newOutcome == old(newOutcome)
      ensures var plan := PlanUpdate(old(selected), old(newOutcome));
        && wrote == (plan.Some? && writeOk && HasCall(old(calls), old(selected).value.id))
        && (plan.None? ==> selected == old(selected) && calls == old(calls))
        && (plan.Some? ==> (selected == None &&
             calls == if wrote then UpdateById(old(calls), old(selected).value.id, plan.value) else old(calls)))
      ensures wrote ==> old(selected).value.outcome != Resolved
      ensures |calls| == |old(calls)|
      ensures forall i :: 0 <= i < |calls| && (old(selected).None? || old(calls)[i].id != old(selected).value.id) ==>
        calls[i] == old(calls)[i]
      ensures old(selected).Some? && old(selected).value in old(calls) ==>
        forall i :: 0 <= i < |calls| && old(calls)[i].outcome == Resolved ==> calls[i] == old(calls)[i]
      ensures forall i :: 0 <= i < |calls| && WasEdited(old(calls)[i]) ==> WasEdited(calls[i])
    {
      var plan := PlanUpdate(selected, newOutcome);
      if plan.None? {
        dialogOpen := false;
        return false;
      }
      var call := selected.value;
      wrote := writeOk && HasCall(calls, call.id);
      if wrote {
        if call in calls {
          ghost var m :| 0 <= m < |calls| && calls[m] == call;
          assert forall i :: 0 <= i < |calls| && calls[i].id == call.id ==> i == m;
        }
        calls := UpdateById(calls, call.id, plan.value);
      }
      dialogOpen := false;
      selected := None;
    }
  }

  /** A call resolved elsewhere while its dialog is open is still overwritten: the guard
      only looked at the call when the dialog opened. */
  method StaleEditOverwritesResolved(c: CallEntry, o: Outcome) returns (before: CallEntry, after: CallEntry)
    requires c.outcome != Resolved && o != c.outcome
    ensures before.id == c.id && before.outcome == Resolved
    ensures after.id == c.id && after.outcome == o
  {
    var editor := new OutcomeEditor([c]);
    var refused := editor.OpenEditDialog(0);
    editor.ChooseOutcome(o);
    before := c.(outcome := Resolved);
    editor.OnCallsSnapshot([before]);
    var wrote := editor.UpdateOutcome(true);
    after := editor.calls[0];
  }

  /** A call deleted elsewhere while its dialog is open cannot be updated: `updateDoc`
      rejects and the list stays as the snapshot left it. */
  method DeletedCallUpdateFails(c: CallEntry, o: Outcome) returns (wrote: bool, calls: seq<CallEntry>)
    requires c.outcome != Resolved && o != c.outcome
    ensures !wrote && calls == []
  {
    var editor := new OutcomeEditor([c]);
    var refused := editor.OpenEditDialog(0);
    editor.ChooseOutcome(o);
    editor.OnCallsSnapshot([]);
    wrote := editor.UpdateOutcome(true);
    calls := editor.calls;
  }
}
