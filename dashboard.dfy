/** DashboardService.summarize: the owner's readings in a time range summed
    into a total, a cost, hour buckets, day buckets and the five devices that
    used the most energy. A TreeMap<String, Double> is a sequence of entries
    in strictly ascending key order; a HashMap<Device, Double> is a sequence
    of entries with distinct keys, in the order the keys first appeared. */
module Dashboard {
  import opened Common
  import opened Energy
  import opened JavaStrings
  import opened Entities
  import opened Seqs
  import opened Repositories

  /** One key of a map with the kWh summed under it. */
  datatype Entry<K> = Entry(key: K, kwh: real)

  /** DashboardSummary.Point: a bucket label and its kWh. */
  type Point = Entry<string>

  /** DashboardSummary.DeviceUsage. */
  datatype DeviceUsage = DeviceUsage(deviceId: Id, name: string, kwh: real)

  /** DashboardSummary. */
  datatype Summary = Summary(
    totalKwh: real,
    totalCost: real,
    byHour: seq<Point>,
    byDay: seq<Point>,
    topDevices: seq<DeviceUsage>)

  /** Price per kWh (COP) when the owner has no tariff. */
  const DEFAULT_PRICE_PER_KWH: real := 650.0

  /** Length of the device ranking. */
  const TOP_DEVICES: nat := 5

  // ---------------------------------------------------------------------
  // Maps as entry sequences

  function Keys<K>(m: seq<Entry<K>>): set<K>
  {
    if m == [] then {} else {m[0].key} + Keys(m[1..])
  }

  /** The value under k, or 0 when k is absent (what merge starts from). */
  function Lookup<K(==)>(m: seq<Entry<K>>, k: K): (v: real)
    ensures k !in Keys(m) ==> v == 0.0
  {
    if m == [] then 0.0 else if m[0].key == k then m[0].kwh else Lookup(m[1..], k)
  }

  function Sum<K>(m: seq<Entry<K>>): real
  {
    if m == [] then 0.0 else m[0].kwh + Sum(m[1..])
  }

  ghost predicate Distinct<K>(m: seq<Entry<K>>)
  {
    forall i, j :: 0 <= i < j < |m| ==> m[i].key != m[j].key
  }

  /** The iteration order of a TreeMap: keys strictly ascending under
      String.compareTo. */
  predicate Ascending(m: seq<Point>)
  {
    forall i, j :: 0 <= i < j < |m| ==> Less(m[i].key, m[j].key)
  }

  lemma {:induction false} KeysIndex<K>(m: seq<Entry<K>>, k: K)
    ensures k in Keys(m) <==> exists i :: 0 <= i < |m| && m[i].key == k
  {
    if m != [] {
      KeysIndex(m[1..], k);
      if k in Keys(m[1..]) {
        var i :| 0 <= i < |m[1..]| && m[1..][i].key == k;
        assert m[i + 1].key == k;
      }
      if exists i :: 0 <= i < |m| && m[i].key == k {
        var i :| 0 <= i < |m| && m[i].key == k;
        if i > 0 {
          assert m[1..][i - 1].key == k;
        }
      }
    }
  }

  lemma AscendingDistinct(m: seq<Point>)
    requires Ascending(m)
    ensures Distinct(m)
  {
    forall i, j | 0 <= i < j < |m| ensures m[i].key != m[j].key {
      if m[i].key == m[j].key {
        LessIrreflexive(m[i].key);
      }
    }
  }

  /** Every key of m lies strictly above lo. */
  lemma AboveAll(lo: string, m: seq<Point>)
    requires forall i :: 0 <= i < |m| ==> Less(lo, m[i].key)
    ensures forall b :: b in Keys(m) ==> Less(lo, b)
  {
    forall b | b in Keys(m) ensures Less(lo, b) {
      KeysIndex(m, b);
    }
  }

  /** TreeMap.merge(k, v, Double::sum). */
  function TreeMerge(m: seq<Point>, k: string, v: real): (r: seq<Point>)
    requires Ascending(m)
    ensures Ascending(r)
    ensures Keys(r) == Keys(m) + {k}
    ensures forall b :: Lookup(r, b) == Lookup(m, b) + (if b == k then v else 0.0)
    ensures Sum(r) == Sum(m) + v
  {
    if m == [] then [Entry(k, v)]
    else if m[0].key == k then
      var r := [Entry(k, m[0].kwh + v)] + m[1..];
      assert r[1..] == m[1..];
      r
    else if Less(k, m[0].key) then
      assert forall i :: 0 <= i < |m| ==> Less(k, m[i].key) by {
        forall i | 0 <= i < |m| ensures Less(k, m[i].key) {
          if i > 0 {
            LessTransitive(k, m[0].key, m[i].key);
          }
        }
      }
      AboveAll(k, m);
      LessIrreflexive(k);
      var r := [Entry(k, v)] + m;
      assert r[1..] == m;
      r
    else
      var rest := TreeMerge(m[1..], k, v);
      LessTotal(k, m[0].key);
      assert forall i :: 0 <= i < |m[1..]| ==> Less(m[0].key, m[1..][i].key);
      AboveAll(m[0].key, m[1..]);
      assert forall i :: 0 <= i < |rest| ==> Less(m[0].key, rest[i].key) by {
        forall i | 0 <= i < |rest| ensures Less(m[0].key, rest[i].key) {
          KeysIndex(rest, rest[i].key);
        }
      }
      var r := [m[0]] + rest;
      assert r[1..] == rest;
      r
  }

  /** HashMap.merge(k, v, Double::sum): a present key is updated in place,
      a new key goes last. */
  function HashMerge<K(==,!new)>(m: seq<Entry<K>>, k: K, v: real): (r: seq<Entry<K>>)
    requires Distinct(m)
    ensures Distinct(r)
    ensures Keys(r) == Keys(m) + {k}
    ensures forall b :: Lookup(r, b) == Lookup(m, b) + (if b == k then v else 0.0)
    ensures Sum(r) == Sum(m) + v
    ensures k !in Keys(m) ==> r == m + [Entry(k, v)]
    ensures k in Keys(m) ==> |r| == |m|
  {
    if m == [] then [Entry(k, v)]
    else if m[0].key == k then
      var r := [Entry(k, m[0].kwh + v)] + m[1..];
      assert r[1..] == m[1..];
      r
    else
      var rest := HashMerge(m[1..], k, v);
      HashMergeCons(m, k, v, rest);
      [m[0]] + rest
  }

  /** The recursive case of HashMerge: an entry with another key kept in
      front of the merged tail. */
  lemma HashMergeCons<K>(m: seq<Entry<K>>, k: K, v: real, rest: seq<Entry<K>>)
    requires Distinct(m) && m != [] && m[0].key != k
    requires Distinct(rest)
    requires Keys(rest) == Keys(m[1..]) + {k}
    requires forall b :: Lookup(rest, b) == Lookup(m[1..], b) + (if b == k then v else 0.0)
    requires Sum(rest) == Sum(m[1..]) + v
    requires k !in Keys(m[1..]) ==> rest == m[1..] + [Entry(k, v)]
    requires k in Keys(m[1..]) ==> |rest| == |m[1..]|
    ensures Distinct([m[0]] + rest)
    ensures Keys([m[0]] + rest) == Keys(m) + {k}
    ensures forall b :: Lookup([m[0]] + rest, b) == Lookup(m, b) + (if b == k then v else 0.0)
    ensures Sum([m[0]] + rest) == Sum(m) + v
    ensures k !in Keys(m) ==> [m[0]] + rest == m + [Entry(k, v)]
    ensures k in Keys(m) ==> |[m[0]] + rest| == |m|
  {
    var r := [m[0]] + rest;
    assert r[1..] == rest;
    assert m[0].key !in Keys(m[1..]) by {
      KeysIndex(m[1..], m[0].key);
    }
    forall i, j | 0 <= i < j < |r| ensures r[i].key != r[j].key {
      if i == 0 {
        KeysIndex(rest, r[j].key);
      } else {
        assert r[i] == rest[i - 1] && r[j] == rest[j - 1];
      }
    }
    if k !in Keys(m) {
      assert m == [m[0]] + m[1..];
    }
  }

  // ---------------------------------------------------------------------
  // The three groupings of summarize

  /** The TreeMap a for-loop of merges builds: bucket keyOf(r) gets the
      kWh of every reading r. */
  function TreeTotals(list: seq<Reading>, keyOf: Reading -> string): (m: seq<Point>)
    ensures Ascending(m)
    ensures Keys(m) == set r | r in list :: keyOf(r)
    ensures forall b :: Lookup(m, b) == KeyedKwh(list, keyOf, b)
    ensures Sum(m) == TotalKwh(list)
  {
    if list == [] then []
    else
      var init := list[..|list| - 1];
      var last := list[|list| - 1];
      assert list == init + [last];
      assert (set r | r in list :: keyOf(r)) == (set r | r in init :: keyOf(r)) + {keyOf(last)};
      TreeMerge(TreeTotals(init, keyOf), keyOf(last), ReadingKwh(last))
  }

  /** The HashMap a for-loop of merges builds, keys in first-appearance
      order. */
  function HashTotals<K(==,!new)>(list: seq<Reading>, keyOf: Reading -> K): (m: seq<Entry<K>>)
    ensures Distinct(m)
    ensures Keys(m) == set r | r in list :: keyOf(r)
    ensures forall b :: Lookup(m, b) == KeyedKwh(list, keyOf, b)
    ensures Sum(m) == TotalKwh(list)
  {
    if list == [] then []
    else
      var init := list[..|list| - 1];
      var last := list[|list| - 1];
      assert list == init + [last];
      assert (set r | r in list :: keyOf(r)) == (set r | r in init :: keyOf(r)) + {keyOf(last)};
      HashMerge(HashTotals(init, keyOf), keyOf(last), ReadingKwh(last))
  }

  /** The loops filling byHour and byDay. */
  method GroupSorted(list: seq<Reading>, keyOf: Reading -> string) returns (m: seq<Point>)
    ensures m == TreeTotals(list, keyOf)
  {
    m := [];
    for i := 0 to |list|
      invariant m == TreeTotals(list[..i], keyOf)
    {
      assert list[..i + 1][..i] == list[..i];
      m := TreeMerge(m, keyOf(list[i]), ReadingKwh(list[i]));
    }
    assert list[..|list|] == list;
  }

  /** The loop filling byDevice. */
  method GroupHashed<K(==,!new)>(list: seq<Reading>, keyOf: Reading -> K) returns (m: seq<Entry<K>>)
    ensures m == HashTotals(list, keyOf)
  {
    m := [];
    for i := 0 to |list|
      invariant m == HashTotals(list[..i], keyOf)
    {
      HashTotalsSnoc(list, keyOf, i);
      m := HashMerge(m, keyOf(list[i]), ReadingKwh(list[i]));
    }
    assert list[..|list|] == list;
  }

  lemma HashTotalsSnoc<K(!new)>(list: seq<Reading>, keyOf: Reading -> K, i: int)
    requires 0 <= i < |list|
    ensures HashTotals(list[..i + 1], keyOf) ==
            HashMerge(HashTotals(list[..i], keyOf), keyOf(list[i]), ReadingKwh(list[i]))
  {
    var prefix := list[..i + 1];
    assert prefix[..|prefix| - 1] == list[..i];
    assert prefix[|prefix| - 1] == list[i];
  }

  /** Every reading lands in exactly one bucket of a grouping, so the
      unrounded bucket sums add up to the unrounded total, and a bucket's
      sum is that of the readings carrying its key. */
  lemma BucketsPartitionTotal(list: seq<Reading>, keyOf: Reading -> string)
    ensures Sum(TreeTotals(list, keyOf)) == TotalKwh(list)
    ensures forall i :: 0 <= i < |TreeTotals(list, keyOf)| ==>
              TreeTotals(list, keyOf)[i].kwh == KeyedKwh(list, keyOf, TreeTotals(list, keyOf)[i].key)
  {
    var m := TreeTotals(list, keyOf);
    AscendingDistinct(m);
    forall i | 0 <= i < |m| ensures m[i].kwh == Lookup(m, m[i].key) {
      LookupAt(m, i);
    }
  }

  /** In a map with distinct keys, the value found under an entry's key is
      that entry's value. */
  lemma {:induction false} LookupAt<K>(m: seq<Entry<K>>, i: int)
    requires Distinct(m) && 0 <= i < |m|
    ensures Lookup(m, m[i].key) == m[i].kwh
  {
    if i > 0 {
      assert m[1..][i - 1] == m[i];
      LookupAt(m[1..], i - 1);
    }
  }

  // ---------------------------------------------------------------------
  // Ranking

  function EntryKwh(e: Entry<Id>): real
  {
    e.kwh
  }

  /** The key of byDevice. All readings of one device share one managed
      Device instance, and Device has no equals of its own, so the HashMap
      holds one entry per device id. */
  function DeviceIdOf(r: Reading): Id
  {
    r.device.id
  }

  /** The device the first reading with that device id carries, if any. */
  function DeviceIn(list: seq<Reading>, id: Id): (d: Option<Device>)
    ensures d.Some? ==> d.value.id == id && exists r :: r in list && r.device == d.value
    ensures d.None? <==> forall r :: r in list ==> r.device.id != id
  {
    if list == [] then None
    else if list[0].device.id == id then Some(list[0].device)
    else
      assert forall r :: r in list <==> r == list[0] || r in list[1..];
      DeviceIn(list[1..], id)
  }

  /** Whatever a descending ranking cuts off at k is worth no more than
      the last entry kept. */
  lemma CutOffBelow(sorted: seq<Entry<Id>>, k: int)
    requires SortedDesc(sorted, EntryKwh) && 0 < k <= |sorted|
    ensures forall e :: e in sorted[k..] ==> e.kwh <= sorted[k - 1].kwh
  {
    forall e | e in sorted[k..] ensures e.kwh <= sorted[k - 1].kwh {
      var j :| 0 <= j < |sorted[k..]| && sorted[k..][j] == e;
      assert sorted[k + j] == e;
    }
  }

  /** entrySet sorted by descending value, limited to five entries. */
  function Ranked(totals: seq<Entry<Id>>): (r: seq<Entry<Id>>)
    ensures |r| == if |totals| < TOP_DEVICES then |totals| else TOP_DEVICES
    ensures SortedDesc(r, EntryKwh)
    ensures multiset(r) <= multiset(totals)
    ensures forall e :: e in totals && e !in r ==> e.kwh <= r[|r| - 1].kwh
  {
    var sorted := SortDesc(totals, EntryKwh);
    var r := Take(sorted, TOP_DEVICES);
    TakeSortedDesc(sorted, EntryKwh, TOP_DEVICES);
    assert sorted == r + sorted[|r|..];
    assert multiset(sorted) == multiset(r) + multiset(sorted[|r|..]);
    assert forall e :: e in totals && e !in r ==> e in sorted[|r|..] by {
      forall e | e in totals && e !in r ensures e in sorted[|r|..] {
        assert e in multiset(sorted);
      }
    }
    if r == [] then r
    else
      CutOffBelow(sorted, |r|);
      r
  }

  /** DeviceUsage(id, name, round3(kWh)) of a ranked entry; the name is
      that of the device the readings of that id carry. */
  function Usage(list: seq<Reading>, e: Entry<Id>): DeviceUsage
  {
    var d := DeviceIn(list, e.key);
    DeviceUsage(e.key, if d.Some? then d.value.name else "", Round3(e.kwh))
  }

  /** topDevices: the ranking mapped to (id, name, round3(kWh)). */
  function TopDevices(list: seq<Reading>): (top: seq<DeviceUsage>)
  {
    Usages(list, Ranked(HashTotals(list, DeviceIdOf)))
  }

  function Usages(list: seq<Reading>, ranked: seq<Entry<Id>>): (top: seq<DeviceUsage>)
    ensures |top| == |ranked|
    ensures forall i :: 0 <= i < |ranked| ==> top[i] == Usage(list, ranked[i])
  {
    seq(|ranked|, i requires 0 <= i < |ranked| => Usage(list, ranked[i]))
  }

  /** Every ranked entry is the id of a device of the readings with the kWh
      of all readings of that device. */
  lemma RankedEntriesAreDeviceTotals(list: seq<Reading>)
    ensures forall e :: e in Ranked(HashTotals(list, DeviceIdOf)) ==>
              exists r :: r in list && e == Entry(r.device.id, KeyedKwh(list, DeviceIdOf, r.device.id))
  {
    var totals := HashTotals(list, DeviceIdOf);
    var ranked := Ranked(totals);
    forall e | e in ranked
      ensures exists r :: r in list && e == Entry(r.device.id, KeyedKwh(list, DeviceIdOf, r.device.id))
    {
      assert e in multiset(ranked);
      assert e in totals;
      var p :| 0 <= p < |totals| && totals[p] == e;
      KeysIndex(totals, e.key);
      LookupAt(totals, p);
      var r :| r in list && DeviceIdOf(r) == e.key;
    }
  }

  /** Entries drawn from a map with distinct keys have distinct keys. */
  lemma SubDistinct<K>(m: seq<Entry<K>>, sub: seq<Entry<K>>)
    requires Distinct(m) && multiset(sub) <= multiset(m)
    ensures Distinct(sub)
  {
    assert NoDuplicates(m);
    SubNoDuplicates(m, sub);
    forall i, j | 0 <= i < j < |sub| ensures sub[i].key != sub[j].key {
      assert sub[i] in multiset(sub) && sub[j] in multiset(sub);
      var p :| 0 <= p < |m| && m[p] == sub[i];
      var q :| 0 <= q < |m| && m[q] == sub[j];
    }
  }

  /** No device id is ranked twice. */
  lemma RankedOnePerDevice(list: seq<Reading>)
    ensures Distinct(Ranked(HashTotals(list, DeviceIdOf)))
  {
    var totals := HashTotals(list, DeviceIdOf);
    SubDistinct(totals, Ranked(totals));
  }

  /** A device of the readings that is not ranked used no more energy than
      the last ranked one. */
  lemma RankedLeavesOutSmaller(list: seq<Reading>)
    ensures forall r :: r in list ==>
              Entry(r.device.id, KeyedKwh(list, DeviceIdOf, r.device.id)) in Ranked(HashTotals(list, DeviceIdOf)) ||
              KeyedKwh(list, DeviceIdOf, r.device.id) <=
                Ranked(HashTotals(list, DeviceIdOf))[|Ranked(HashTotals(list, DeviceIdOf))| - 1].kwh
  {
    var totals := HashTotals(list, DeviceIdOf);
    forall r | r in list
      ensures Entry(r.device.id, KeyedKwh(list, DeviceIdOf, r.device.id)) in totals
    {
      assert DeviceIdOf(r) in Keys(totals);
      KeysIndex(totals, r.device.id);
      var p :| 0 <= p < |totals| && totals[p].key == r.device.id;
      LookupAt(totals, p);
    }
  }

  /** topDevices holds at most five entries, and none exactly when there
      are no readings. */
  lemma TopDevicesSize(list: seq<Reading>)
    ensures |TopDevices(list)| <= TOP_DEVICES
    ensures |TopDevices(list)| == 0 <==> list == []
  {
    var totals := HashTotals(list, DeviceIdOf);
    if list != [] {
      assert DeviceIdOf(list[0]) in Keys(totals);
    }
  }

  /** topDevices is in non-increasing order of rounded kWh. */
  lemma TopDevicesNonIncreasing(list: seq<Reading>)
    ensures forall i, j :: 0 <= i < j < |TopDevices(list)| ==>
              TopDevices(list)[i].kwh >= TopDevices(list)[j].kwh
  {
    var ranked := Ranked(HashTotals(list, DeviceIdOf));
    var top := TopDevices(list);
    forall i, j | 0 <= i < j < |top| ensures top[i].kwh >= top[j].kwh {
      Round3Monotone(ranked[j].kwh, ranked[i].kwh);
    }
  }

  /** No device id is listed twice in topDevices. */
  lemma TopDevicesOnePerDevice(list: seq<Reading>)
    ensures forall i, j :: 0 <= i < j < |TopDevices(list)| ==>
              TopDevices(list)[i].deviceId != TopDevices(list)[j].deviceId
  {
    RankedOnePerDevice(list);
  }

  /** Each listed device is a device of the readings, shown with its id,
      its name and the rounded total of all its readings. */
  lemma TopDevicesAreDevices(list: seq<Reading>)
    ensures forall u :: u in TopDevices(list) ==>
              exists r :: r in list &&
                u == DeviceUsage(r.device.id, r.device.name, Round3(KeyedKwh(list, DeviceIdOf, r.device.id)))
  {
    var ranked := Ranked(HashTotals(list, DeviceIdOf));
    var top := TopDevices(list);
    RankedEntriesAreDeviceTotals(list);
    forall u | u in top
      ensures exists r :: r in list &&
                u == DeviceUsage(r.device.id, r.device.name, Round3(KeyedKwh(list, DeviceIdOf, r.device.id)))
    {
      var i :| 0 <= i < |top| && top[i] == u;
      assert ranked[i] in ranked;
      var r :| r in list && ranked[i] == Entry(r.device.id, KeyedKwh(list, DeviceIdOf, r.device.id));
      var d := DeviceIn(list, r.device.id);
      var r' :| r' in list && r'.device == d.value;
      assert u == DeviceUsage(r'.device.id, r'.device.name, Round3(KeyedKwh(list, DeviceIdOf, r'.device.id)));
    }
  }

  /** When every reading carries a stored device (ids being distinct in the
      device table), each listed device shows the stored device's name. */
  lemma TopDevicesShowStoredNames(list: seq<Reading>, devices: seq<Device>)
    requires forall r :: r in list ==> r.device in devices
    requires forall i, j :: 0 <= i < j < |devices| ==> devices[i].id != devices[j].id
    ensures forall u :: u in TopDevices(list) ==>
              DeviceWithId(devices, u.deviceId).Some? && DeviceWithId(devices, u.deviceId).value.name == u.name
  {
    TopDevicesAreDevices(list);
    forall u | u in TopDevices(list)
      ensures DeviceWithId(devices, u.deviceId).Some? && DeviceWithId(devices, u.deviceId).value.name == u.name
    {
      var r :| r in list &&
        u == DeviceUsage(r.device.id, r.device.name, Round3(KeyedKwh(list, DeviceIdOf, r.device.id)));
      var p :| 0 <= p < |devices| && devices[p] == r.device;
      var found := DeviceWithId(devices, u.deviceId);
      var q :| 0 <= q < |devices| && devices[q] == found.value;
      assert p == q;
    }
  }

  /** A device of the readings is listed with the rounded total of all its
      readings, or used no more energy, rounded, than the last one listed. */
  lemma TopDevicesLeaveOutSmaller(list: seq<Reading>)
    ensures forall r :: r in list ==>
              Usage(list, Entry(r.device.id, KeyedKwh(list, DeviceIdOf, r.device.id))) in TopDevices(list) ||
              Round3(KeyedKwh(list, DeviceIdOf, r.device.id)) <= TopDevices(list)[|TopDevices(list)| - 1].kwh
  {
    var ranked := Ranked(HashTotals(list, DeviceIdOf));
    var top := TopDevices(list);
    assert top == Usages(list, ranked);
    RankedLeavesOutSmaller(list);
    TopDevicesSize(list);
    forall r | r in list
      ensures Usage(list, Entry(r.device.id, KeyedKwh(list, DeviceIdOf, r.device.id))) in top ||
              Round3(KeyedKwh(list, DeviceIdOf, r.device.id)) <= top[|top| - 1].kwh
    {
      ListedOrSmaller(list, ranked, Entry(r.device.id, KeyedKwh(list, DeviceIdOf, r.device.id)));
    }
  }

  lemma ListedOrSmaller(list: seq<Reading>, ranked: seq<Entry<Id>>, e: Entry<Id>)
    requires ranked != []
    requires e in ranked || e.kwh <= ranked[|ranked| - 1].kwh
    ensures Usage(list, e) in Usages(list, ranked) || Round3(e.kwh) <= Usages(list, ranked)[|ranked| - 1].kwh
  {
    var top := Usages(list, ranked);
    if e in ranked {
      var i :| 0 <= i < |ranked| && ranked[i] == e;
      assert top[i] == Usage(list, e);
    } else {
      Round3Monotone(e.kwh, ranked[|ranked| - 1].kwh);
    }
  }

  // ---------------------------------------------------------------------
  // summarize

  /** The tariff's price, or the default when the owner has none. */
  function PriceOf(t: Option<Tariff>): (p: real)
    ensures t.None? ==> p == DEFAULT_PRICE_PER_KWH
    ensures t.Some? ==> p == t.value.pricePerKwh
  {
    if t.Some? then t.value.pricePerKwh else DEFAULT_PRICE_PER_KWH
  }

  /** round2(totalKwh * pricePerKwh). */
  function Cost(totalKwh: real, pricePerKwh: real): (c: real)
    ensures totalKwh == 0.0 ==> c == 0.0
    ensures totalKwh >= 0.0 && pricePerKwh >= 0.0 ==> c >= 0.0
  {
    Round3OfZero();
    assert totalKwh == 0.0 ==> totalKwh * pricePerKwh == 0.0;
    Round2(totalKwh * pricePerKwh)
  }

  /** Each point's value rounded to three decimals, keys kept. */
  function Rounded(m: seq<Point>): (r: seq<Point>)
    ensures |r| == |m|
    ensures forall i :: 0 <= i < |m| ==> r[i].key == m[i].key && r[i].kwh == Round3(m[i].kwh)
  {
    seq(|m|, i requires 0 <= i < |m| => Entry(m[i].key, Round3(m[i].kwh)))
  }

  /** The hour bucket ("yyyy-MM-dd HH:00" in the system zone) of a reading. */
  function HourKey(hourBucket: Instant -> string): Reading -> string
  {
    (r: Reading) => hourBucket(r.recordedAt)
  }

  /** The day bucket ("yyyy-MM-dd" in the system zone) of a reading. */
  function DayKey(dayBucket: Instant -> string): Reading -> string
  {
    (r: Reading) => dayBucket(r.recordedAt)
  }

  class DashboardService {
    const readings: ReadingRepository
    const tariffs: TariffRepository

    constructor (readings: ReadingRepository, tariffs: TariffRepository)
      ensures this.readings == readings && this.tariffs == tariffs
    {
      this.readings := readings;
      this.tariffs := tariffs;
    }

    /** summarize(ownerId, from, to); the zone's formatting of an instant
        into its hour and day bucket is passed in. */
    method Summarize(ownerId: Id, from: Instant, to: Instant,
                     hourBucket: Instant -> string, dayBucket: Instant -> string)
      returns (s: Summary)
      ensures var list := readings.Between(ownerId, from, to);
        && s.totalKwh == Round3(TotalKwh(list))
        && s.totalCost == Cost(TotalKwh(list), PriceOf(tariffs.FindByOwnerId(ownerId)))
        && s.byHour == Rounded(TreeTotals(list, HourKey(hourBucket)))
        && s.byDay == Rounded(TreeTotals(list, DayKey(dayBucket)))
        && s.topDevices == TopDevices(list)
      ensures readings.Between(ownerId, from, to) == [] ==>
        s.totalKwh == 0.0 && s.totalCost == 0.0 && s.byHour == [] && s.byDay == [] && s.topDevices == []
    {
      var list := readings.Between(ownerId, from, to);
      var pricePerKwh := PriceOf(tariffs.FindByOwnerId(ownerId));
      var totalKwh := TotalKwh(list);
      var byHour := GroupSorted(list, HourKey(hourBucket));
      var byDay := GroupSorted(list, DayKey(dayBucket));
      var byDevice := GroupHashed(list, DeviceIdOf);
      var top := Ranked(byDevice);
      var totalCost := Cost(totalKwh, pricePerKwh);
      s := Summary(Round3(totalKwh), totalCost, Rounded(byHour), Rounded(byDay), Usages(list, top));
      if list == [] {
        Round3OfZero();
        TopDevicesSize(list);
      }
    }
  }
}
