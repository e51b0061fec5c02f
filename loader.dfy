/** The `DataLoader` class of data-validator.js: the store of the three
    per-district dictionaries, the loaded flag, the pending completion
    callbacks, and the read-only accessors and data-quality check over them. */
module Loader {
  import opened Wrappers
  import opened Dict
  import opened Csv
  import opened Projection
  import Config

  /** A completion callback, as an opaque handle: the closures themselves are
      not modelled, only which of them was called and with what. */
  type Callback = nat

  /** One call of a callback: `callback(true)` or `callback(false, error)`. */
  datatype Notification = Notification(callback: Callback, success: bool, error: Option<LoadError>)

  /** `callbacks.forEach(cb => cb(success, error))`, as the calls it makes. */
  function Notify(callbacks: seq<Callback>, success: bool, error: Option<LoadError>): (r: seq<Notification>)
    ensures |r| == |callbacks|
    ensures forall i :: 0 <= i < |r| ==> r[i].callback == callbacks[i] && r[i].success == success && r[i].error == error
  {
    seq(|callbacks|, i requires 0 <= i < |callbacks| => Notification(callbacks[i], success, error))
  }

  /** What `getKecamatanDetail` returns for a known district. */
  datatype Detail = Detail(nama: string, lat: Option<real>, lng: Option<real>, cluster: Option<int>,
                           interpretasi: string, demografis: Option<Kontak>)

  /** The placeholder for a district without an interpretation. */
  const NoInterpretation := "Interpretasi belum tersedia."

  /** What `exportData` returns. */
  datatype Export = Export(clustering: Dict<Clustering>, interpretasi: Dict<string>,
                           kontak: Dict<Kontak>, isLoaded: bool)

  /** A data-quality problem `validateData` reports (the source formats each as
      a message; the model keeps the values the message is made of). */
  datatype Issue =
    | BadCoordinates(district: string, lat: Option<real>, lng: Option<real>)
    | BadClusterRange(scenario: ScenarioNum, min: int, max: int)

  datatype Summary = Summary(clusteringData: nat, interpretasiData: nat, kontakData: nat)

  /** What `validateData` returns. */
  datatype Report = Report(valid: bool, issues: seq<Issue>, summary: Summary)

  // ---------------------------------------------------------------------------
  // Specification of the accessors

  /** `data[`cluster_s${s}`]` for every district, in key order. */
  function Column(d: Dict<Clustering>, s: int): (col: seq<Option<int>>)
    requires d.Valid()
    ensures |col| == |d.keys|
  {
    seq(|d.keys|, i requires 0 <= i < |d.keys| => d.entries[d.keys[i]].Cluster(s))
  }

  /** The cluster ids of one scenario, in key order. */
  function IdColumn(d: Dict<Clustering>, s: ScenarioNum): (col: seq<int>)
    requires d.Valid()
    ensures |col| == |d.keys|
  {
    seq(|d.keys|, i requires 0 <= i < |d.keys| => d.entries[d.keys[i]].ClusterId(s))
  }

  /** In scenarios 1..6 every district has a numeric cluster id. */
  lemma IdColumnIsColumn(d: Dict<Clustering>, s: ScenarioNum)
    requires d.Valid()
    ensures forall i :: 0 <= i < |d.keys| ==> Column(d, s)[i] == Some(IdColumn(d, s)[i])
  {
  }

  /** The sum of the counts of a statistics map. */
  ghost function Total<K>(m: map<K, nat>): nat
    decreases |m|
  {
    if m == map[] then 0
    else
      var k :| k in m;
      assert |m - {k}| < |m| by { assert (m - {k}).Keys == m.Keys - {k}; }
      m[k] + Total(m - {k})
  }

  /** The total does not depend on the key taken first. */
  lemma {:induction false} TotalPick<K>(m: map<K, nat>, k: K)
    requires k in m
    ensures Total(m) == m[k] + Total(m - {k})
    decreases |m|
  {
    var j :| j in m && Total(m) == m[j] + Total(m - {j});
    if j != k {
      assert (m - {j}).Keys == m.Keys - {j};
      assert (m - {k}).Keys == m.Keys - {k};
      TotalPick(m - {j}, k);
      TotalPick(m - {k}, j);
      assert m - {j} - {k} == m - {k} - {j};
    }
  }

  /** Counting one more occurrence of `k` adds one to the total. */
  lemma TotalIncrement<K>(m: map<K, nat>, k: K)
    ensures Total(Bump(m, k)) == Total(m) + 1
  {
    var m' := Bump(m, k);
    TotalPick(m', k);
    assert m' - {k} == m - {k};
    if k in m {
      TotalPick(m, k);
    } else {
      assert m - {k} == m;
    }
  }

  /** The statistics map of a sequence of values: each value seen, with the
      number of times it occurs, counted front to back. */
  function Counts<K>(xs: seq<K>): (r: map<K, nat>)
    ensures forall c :: c in r ==> c in xs && r[c] >= 1
  {
    if xs == [] then map[]
    else
      Bump(Counts(xs[..|xs| - 1]), xs[|xs| - 1])
  }

  /** `stats[x] = (stats[x] || 0) + 1`. */
  function Bump<K>(m: map<K, nat>, x: K): (r: map<K, nat>)
    ensures r.Keys == m.Keys + {x}
    ensures r[x] == (if x in m then m[x] else 0) + 1
    ensures forall c :: c in m && c != x ==> r[c] == m[c]
  {
    m[x := (if x in m then m[x] else 0) + 1]
  }

  /** Counting one more value of `xs`. */
  lemma CountsStep<K>(xs: seq<K>, i: nat)
    requires i < |xs|
    ensures Counts(xs[..i + 1]) == Bump(Counts(xs[..i]), xs[i])
  {
    assert xs[..i + 1][..i] == xs[..i];
  }

  /** The statistics map has exactly the values seen as keys, each counted
      as often as it occurs, and its counts add up to the number of values. */
  lemma CountsExact<K>(xs: seq<K>)
    ensures forall c :: c in Counts(xs) <==> c in xs
    ensures forall c :: c in Counts(xs) ==> Counts(xs)[c] == multiset(xs)[c] && Counts(xs)[c] >= 1
    ensures Total(Counts(xs)) == |xs|
  {
    forall c | c in xs ensures c in Counts(xs) {
      CountsHas(xs, c);
    }
    forall c | c in Counts(xs) ensures Counts(xs)[c] == multiset(xs)[c] {
      CountsMultiplicity(xs, c);
    }
    CountsTotal(xs);
  }

  /** Every value seen is a key of the statistics map. */
  lemma {:induction false} CountsHas<K>(xs: seq<K>, c: K)
    requires c in xs
    ensures c in Counts(xs)
  {
    var init := xs[..|xs| - 1];
    if c != xs[|xs| - 1] {
      assert xs == init + [xs[|xs| - 1]];
      CountsHas(init, c);
    }
  }

  /** Each count is the number of occurrences of its value. */
  lemma {:induction false} CountsMultiplicity<K>(xs: seq<K>, c: K)
    ensures (if c in Counts(xs) then Counts(xs)[c] else 0) == multiset(xs)[c]
  {
    if xs != [] {
      var init := xs[..|xs| - 1];
      var x := xs[|xs| - 1];
      CountsMultiplicity(init, c);
      assert xs == init + [x];
      assert multiset(xs) == multiset(init) + multiset{x};
    }
  }

  /** The counts add up to the number of values. */
  lemma {:induction false} CountsTotal<K>(xs: seq<K>)
    ensures Total(Counts(xs)) == |xs|
  {
    if xs != [] {
      CountsTotal(xs[..|xs| - 1]);
      TotalIncrement(Counts(xs[..|xs| - 1]), xs[|xs| - 1]);
    }
  }

  /** The least element of a non-empty sequence (`Math.min`). */
  function SeqMin(xs: seq<int>): (r: int)
    requires xs != []
    ensures r in xs && forall i :: 0 <= i < |xs| ==> r <= xs[i]
  {
    if |xs| == 1 then xs[0]
    else
      var m := SeqMin(xs[1..]);
      assert forall i :: 1 <= i < |xs| ==> xs[i] == xs[1..][i - 1];
      if xs[0] <= m then xs[0] else m
  }

  /** The greatest element of a non-empty sequence (`Math.max`). */
  function SeqMax(xs: seq<int>): (r: int)
    requires xs != []
    ensures r in xs && forall i :: 0 <= i < |xs| ==> xs[i] <= r
  {
    if |xs| == 1 then xs[0]
    else
      var m := SeqMax(xs[1..]);
      assert forall i :: 1 <= i < |xs| ==> xs[i] == xs[1..][i - 1];
      if xs[0] >= m then xs[0] else m
  }

  /** The coordinate check of data-validator.js:231. A NaN coordinate (`None`)
      makes both of its comparisons false. */
  function OutOfArea(e: Clustering): (r: bool)
    ensures r ==> !Config.IsValidCoordinate(e.lat, e.lng)
    ensures e.lat.Some? && e.lng.Some? ==> (r <==> !Config.IsValidCoordinate(e.lat, e.lng))
    ensures e.lat.None? && e.lng.None? ==> !r
    ensures e.lat.None? ==> (r <==> e.lng.Some? && !(119.0 <= e.lng.value <= 121.0))
    ensures e.lng.None? ==> (r <==> e.lat.Some? && !(-6.0 <= e.lat.value <= -4.0))
  {
    || (e.lat.Some? && (e.lat.value < -6.0 || e.lat.value > -4.0))
    || (e.lng.Some? && (e.lng.value < 119.0 || e.lng.value > 121.0))
  }

  /** The coordinate issues for the districts `keys`, in that order. */
  function CoordinateIssues(d: Dict<Clustering>, keys: seq<string>): (issues: seq<Issue>)
    requires forall k :: k in keys ==> k in d.entries
    ensures |issues| <= |keys|
  {
    if keys == [] then []
    else
      var k := keys[|keys| - 1];
      var e := d.entries[k];
      CoordinateIssues(d, keys[..|keys| - 1])
        + (if OutOfArea(e) then [BadCoordinates(k, e.lat, e.lng)] else [])
  }

  /** The range issue of one scenario: its lowest and highest cluster id, when
      there is a district and one of the two leaves 0..10. With no district
      the source's max and min are -Infinity and Infinity and nothing is
      reported. */
  function RangeIssue(d: Dict<Clustering>, s: ScenarioNum): (r: Option<Issue>)
    requires d.Valid()
    ensures r.Some? ==> r.value.BadClusterRange? && r.value.scenario == s
  {
    var ids := IdColumn(d, s);
    if ids == [] then None
    else
      var lo, hi := SeqMin(ids), SeqMax(ids);
      if lo < 0 || hi > 10 then Some(BadClusterRange(s, lo, hi)) else None
  }

  /** The range result of each scenario 1 to 6, in scenario order. */
  function RangeResults(d: Dict<Clustering>): (rs: seq<Option<Issue>>)
    requires d.Valid()
    ensures |rs| == 6 && forall i :: 0 <= i < 6 ==> rs[i] == RangeIssue(d, i + 1)
  {
    var rs := seq(6, i requires 0 <= i < 6 => RangeIssue(d, i + 1));
    assert forall i :: 0 <= i < 6 ==> rs[i] == RangeIssue(d, i + 1);
    rs
  }

  /** The values of the present results, in order. */
  function Present<T>(xs: seq<Option<T>>): (r: seq<T>)
    ensures |r| <= |xs|
  {
    if xs == [] then []
    else
      var last := xs[|xs| - 1];
      Present(xs[..|xs| - 1]) + (if last.Some? then [last.value] else [])
  }

  /** One more result adds its value, when present, at the end. */
  lemma PresentPrefix<T>(xs: seq<Option<T>>, i: nat)
    requires i < |xs|
    ensures Present(xs[..i + 1]) == Present(xs[..i]) + (if xs[i].Some? then [xs[i].value] else [])
  {
    assert xs[..i + 1][..i] == xs[..i];
  }

  /** The report `validateData` computes for a store. */
  function Validation(st: Store): (r: Report)
    requires st.Valid()
    ensures r.valid <==> r.issues == []
    ensures |r.issues| <= |st.clustering.keys| + 6
    ensures r.summary.clusteringData == |st.clustering.keys| && r.summary.interpretasiData == |st.interpretasi.keys|
            && r.summary.kontakData == |st.kontak.keys|
  {
    var issues := CoordinateIssues(st.clustering, st.clustering.keys) + Present(RangeResults(st.clustering));
    Report(|issues| == 0, issues,
           Summary(st.clustering.Size(), st.interpretasi.Size(), st.kontak.Size()))
  }

  /** The districts of `keys` whose scenario-`s` cluster is `c`, in order. */
  function FilterByCluster(d: Dict<Clustering>, keys: seq<string>, s: int, c: int): (r: seq<string>)
    requires forall k :: k in keys ==> k in d.entries
    ensures forall k :: k in r <==> k in keys && d.entries[k].Cluster(s) == Some(c)
    ensures (forall i, j :: 0 <= i < j < |keys| ==> keys[i] != keys[j])
            ==> forall i, j :: 0 <= i < j < |r| ==> r[i] != r[j]
  {
    if keys == [] then []
    else
      var k := keys[|keys| - 1];
      var init := keys[..|keys| - 1];
      assert forall x :: x in keys <==> x in init || x == k;
      FilterByCluster(d, init, s, c) + (if d.entries[k].Cluster(s) == Some(c) then [k] else [])
  }

  /** `rows.forEach(row => { if (…) d[key] = …; })` for one of the three row
      projections: the dictionary after the assignments, in row order. */
  method WriteRows<V>(d: Dict<V>, rows: seq<Row>, p: NumberParsers, f: (Row, NumberParsers) -> Option<(string, V)>)
    returns (r: Dict<V>)
    ensures r == PutAll(d, Collect(rows, p, f))
  {
    r := d;
    for i := 0 to |rows|
      invariant r == PutAll(d, Collect(rows[..i], p, f))
    {
      WriteStep(d, rows, p, f, i);
      var e := f(rows[i], p);
      if e.Some? {
        r := r.Put(e.value.0, e.value.1);
      }
    }
    assert rows[..|rows|] == rows;
  }

  /** Writing one more row applies its assignment, if any, after the others. */
  lemma WriteStep<V>(d: Dict<V>, rows: seq<Row>, p: NumberParsers, f: (Row, NumberParsers) -> Option<(string, V)>, i: nat)
    requires i < |rows|
    ensures var e := f(rows[i], p);
            var before := PutAll(d, Collect(rows[..i], p, f));
            PutAll(d, Collect(rows[..i + 1], p, f)) == if e.Some? then before.Put(e.value.0, e.value.1) else before
  {
    assert rows[..i + 1][..i] == rows[..i];
    var e := f(rows[i], p);
    var es := Collect(rows[..i], p, f);
    assert Collect(rows[..i + 1], p, f) == es + (if e.Some? then [e.value] else []);
    if e.Some? {
      assert (es + [e.value])[..|es|] == es;
    } else {
      assert es + [] == es;
    }
  }

  /** The counting loop of `getClusterStatistics`, over the districts in
      key order. */
  method CountClusters(d: Dict<Clustering>, s: int) returns (stats: map<Option<int>, nat>)
    requires d.Valid()
    ensures stats == Counts(Column(d, s))
  {
    stats := map[];
    for i := 0 to |d.keys|
      invariant stats == Counts(Column(d, s)[..i])
    {
      var data := d.entries[d.keys[i]];
      var clusterNum := data.Cluster(s);
      ColumnCountsStep(d, s, i);
      stats := Bump(stats, clusterNum);
    }
    assert Column(d, s)[..|d.keys|] == Column(d, s);
  }

  /** Counting the cluster of district `i` extends the count of the first `i`. */
  lemma ColumnCountsStep(d: Dict<Clustering>, s: int, i: nat)
    requires d.Valid() && i < |d.keys|
    ensures Counts(Column(d, s)[..i + 1]) == Bump(Counts(Column(d, s)[..i]), d.entries[d.keys[i]].Cluster(s))
  {
    CountsStep(Column(d, s), i);
  }

  /** The coordinate step of `validateData`: one issue per district outside
      the study area, in key order. */
  method CheckCoordinates(d: Dict<Clustering>) returns (issues: seq<Issue>)
    requires d.Valid()
    ensures issues == CoordinateIssues(d, d.keys)
  {
    issues := [];
    for i := 0 to |d.keys|
      invariant issues == CoordinateIssues(d, d.keys[..i])
    {
      assert d.keys[..i + 1][..i] == d.keys[..i];
      var data := d.entries[d.keys[i]];
      if OutOfArea(data) {
        issues := issues + [BadCoordinates(d.keys[i], data.lat, data.lng)];
      }
    }
    assert d.keys[..|d.keys|] == d.keys;
  }

  /** The body of `loadData` on values: parse the three texts, stopping at the
      first that fails, write their rows, and fail when no district has a
      clustering entry. */
  method IngestTexts(st: Store, t: Texts, p: NumberParsers) returns (r: Outcome)
    ensures r == Ingest(st, t, p)
  {
    var pemetaan := ParseCsv(t.pemetaan);
    if pemetaan.Failure? {
      return Outcome(st, false, Some(MalformedCsv(pemetaan.error)));
    }
    var interpretasi := ParseCsv(t.interpretasi);
    if interpretasi.Failure? {
      return Outcome(st, false, Some(MalformedCsv(interpretasi.error)));
    }
    var kontak := ParseCsv(t.kontak);
    if kontak.Failure? {
      return Outcome(st, false, Some(MalformedCsv(kontak.error)));
    }
    var clustering := WriteRows(st.clustering, pemetaan.value, p, ClusteringEntry);
    var interpretasiData := WriteRows(st.interpretasi, interpretasi.value, p, InterpretasiEntry);
    var kontakData := WriteRows(st.kontak, kontak.value, p, KontakEntry);
    var next := Store(clustering, interpretasiData, kontakData);
    if clustering.Size() == 0 {
      return Outcome(next, false, Some(NoClusteringData));
    }
    return Outcome(next, true, None);
  }

  // ---------------------------------------------------------------------------
  // The class

  class DataLoader {
    var clusteringData: Dict<Clustering>
    var interpretasiData: Dict<string>
    var kontakData: Dict<Kontak>
    var isDataLoaded: bool
    var loadingCallbacks: seq<Callback>
    /** Every callback call made so far, oldest first. */
    var notifications: seq<Notification>

    /** The three dictionaries as one value. */
    function Data(): Store
      reads this
    {
      Store(clusteringData, interpretasiData, kontakData)
    }

    ghost predicate Valid()
      reads this
    {
      Data().Valid()
    }

    constructor ()
      ensures Valid() && Data() == EmptyStore()
      ensures !isDataLoaded && loadingCallbacks == [] && notifications == []
    {
      clusteringData, interpretasiData, kontakData := Empty(), Empty(), Empty();
      isDataLoaded := false;
      loadingCallbacks := [];
      notifications := [];
    }

    /** `loadData()` from the moment the three texts have been fetched: the
        dictionaries and the flag become those of the ingestion, and every
        pending callback is called with its success and error (the pending
        list itself is kept, as in the source). */
    method LoadData(t: Texts, p: NumberParsers) returns (ok: bool)
      requires Valid()
      modifies this
      ensures Valid()
      ensures Data() == Ingest(old(Data()), t, p).store
      ensures ok == Ingest(old(Data()), t, p).ok && isDataLoaded == ok
      ensures loadingCallbacks == old(loadingCallbacks)
      ensures notifications == old(notifications) + Notify(loadingCallbacks, ok, Ingest(old(Data()), t, p).error)
    {
      isDataLoaded := false;
      var outcome := IngestTexts(Data(), t, p);
      IngestValid(old(Data()), t, p);
      clusteringData, interpretasiData, kontakData := outcome.store.clustering, outcome.store.interpretasi, outcome.store.kontak;
      isDataLoaded := outcome.ok;
      notifications := notifications + Notify(loadingCallbacks, outcome.ok, outcome.error);
      ok := outcome.ok;
    }

    /** `onLoadComplete(callback)`: call it at once with `true` when the data
        is loaded (without keeping it), otherwise keep it for the next load. */
    method OnLoadComplete(callback: Callback)
      modifies this
      ensures Data() == old(Data()) && isDataLoaded == old(isDataLoaded)
      ensures old(isDataLoaded) ==> loadingCallbacks == old(loadingCallbacks)
                                    && notifications == old(notifications) + [Notification(callback, true, None)]
      ensures !old(isDataLoaded) ==> loadingCallbacks == old(loadingCallbacks) + [callback]
                                     && notifications == old(notifications)
    {
      if isDataLoaded {
        notifications := notifications + [Notification(callback, true, None)];
      } else {
        loadingCallbacks := loadingCallbacks + [callback];
      }
    }

    /** `getClusterStatistics(s)`: how many districts hold each cluster id of
        scenario `s` (the `undefined` id, `None`, for a scenario outside 1..6). */
    method GetClusterStatistics(s: int) returns (stats: map<Option<int>, nat>)
      requires Valid()
      ensures forall c :: c in stats <==> c in Column(clusteringData, s)
      ensures forall c :: c in stats ==> stats[c] == multiset(Column(clusteringData, s))[c] && stats[c] >= 1
      ensures Total(stats) == |clusteringData.entries|
    {
      stats := CountClusters(clusteringData, s);
      CountsExact(Column(clusteringData, s));
      SizeIsCount(clusteringData);
    }

    /** `getKecamatanDetail(kecamatan, s)`: `null` (`None`) exactly for a
        district without clustering entry, whatever the other dictionaries
        hold; otherwise the entry joined with the interpretation (or the
        placeholder) and the contact profile (or `null`). */
    function GetKecamatanDetail(kecamatan: string, s: int): (r: Option<Detail>)
      reads this
      requires Valid()
      ensures r.None? <==> kecamatan !in clusteringData.entries
      ensures r.Some? ==> var e := clusteringData.entries[kecamatan];
                          r.value.nama == kecamatan && r.value.lat == e.lat && r.value.lng == e.lng
                          && r.value.cluster == e.Cluster(s)
      ensures r.Some? ==> r.value.interpretasi
                          == if kecamatan in interpretasiData.entries then interpretasiData.entries[kecamatan]
                             else NoInterpretation
      ensures r.Some? ==> (r.value.demografis.Some? <==> kecamatan in kontakData.entries)
      ensures r.Some? && kecamatan in kontakData.entries ==> r.value.demografis == Some(kontakData.entries[kecamatan])
    {
      var clusteringInfo := clusteringData.Get(kecamatan);
      var interpretasi := interpretasiData.Get(kecamatan);
      var kontakInfo := kontakData.Get(kecamatan);
      if clusteringInfo.None? then None
      else
        var e := clusteringInfo.value;
        Some(Detail(kecamatan, e.lat, e.lng, e.Cluster(s),
                    if interpretasi.Some? && interpretasi.value != "" then interpretasi.value else NoInterpretation,
                    kontakInfo))
    }

    /** `getKecamatanByCluster(s, c)`: the districts whose scenario-`s` cluster
        is `c`, each once, in key order. */
    function GetKecamatanByCluster(s: int, c: int): (r: seq<string>)
      reads this
      requires Valid()
      ensures forall k :: k in r <==> k in clusteringData.entries && clusteringData.entries[k].Cluster(s) == Some(c)
      ensures forall i, j :: 0 <= i < j < |r| ==> r[i] != r[j]
    {
      FilterByCluster(clusteringData, clusteringData.keys, s, c)
    }

    /** `Math.min(...ids)` and `Math.max(...ids)`: `None` for no id, where the
        source gets Infinity and -Infinity and so reports nothing. */
    static method ClusterRange(ids: set<int>) returns (r: Option<(int, int)>)
      ensures r.None? <==> ids == {}
      ensures r.Some? ==> r.value.0 in ids && r.value.1 in ids
                          && forall x :: x in ids ==> r.value.0 <= x <= r.value.1
    {
      if ids == {} {
        return None;
      }
      // The pick below needs a witness that `ids` has an element. Dafny does
      // not derive one from `ids != {}` unaided; the case split supplies it.
      if forall y :: y !in ids { assert false; }
      var first :| first in ids;
      var lo, hi := first, first;
      var rest := ids - {first};
      while rest != {}
        invariant rest <= ids && lo in ids && hi in ids
        invariant forall x :: x in ids && x !in rest ==> lo <= x <= hi
        decreases rest
      {
        if forall y :: y !in rest { assert false; }  // as above, for `rest != {}`
        var x :| x in rest;
        if x < lo { lo := x; }
        if x > hi { hi := x; }
        rest := rest - {x};
      }
      return Some((lo, hi));
    }

    /** `validateData()`: one issue per district outside the study area, then
        at most one cluster-range issue per scenario; valid when there is no
        issue. */
    method ValidateData() returns (r: Report)
      requires Valid()
      ensures r == Validation(Data())
      ensures r.valid <==> r.issues == []
    {
      var d := clusteringData;
      ghost var results := RangeResults(d);
      var coordinateIssues := CheckCoordinates(d);
      var rangeIssues := [];
      for scenario := 1 to 7
        invariant rangeIssues == Present(results[..scenario - 1])
      {
        var issue := CheckClusterRange(scenario);
        PresentPrefix(results, scenario - 1);
        if issue.Some? {
          rangeIssues := rangeIssues + [issue.value];
        }
      }
      assert results[..6] == results;
      var issues := coordinateIssues + rangeIssues;
      assert Data().clustering == d;
      r := Report(|issues| == 0,
                  issues,
                  Summary(clusteringData.Size(), interpretasiData.Size(), kontakData.Size()));
    }

    /** The scenario step of `validateData`: the range of the cluster ids
        `getClusterStatistics(scenario)` finds, reported when it leaves 0..10. */
    method CheckClusterRange(scenario: ScenarioNum) returns (issue: Option<Issue>)
      requires Valid()
      ensures issue == RangeIssue(clusteringData, scenario)
    {
      var stats := GetClusterStatistics(scenario);
      // `Object.keys(stats).map((k) => parseInt(k))`: in scenarios 1..6 every key is an id
      var ids := set c | c in stats && c.Some? :: c.value;
      var range := ClusterRange(ids);
      RangeMatches(clusteringData, scenario, stats, ids, range);
      if range.Some? && (range.value.0 < 0 || range.value.1 > 10) {
        issue := Some(BadClusterRange(scenario, range.value.0, range.value.1));
      } else {
        issue := None;
      }
    }

    /** `exportData()`: a snapshot of the three dictionaries and the flag. */
    function ExportData(): (r: Export)
      reads this
      ensures r.clustering == clusteringData && r.interpretasi == interpretasiData
      ensures r.kontak == kontakData && r.isLoaded == isDataLoaded
    {
      Export(clusteringData, interpretasiData, kontakData, isDataLoaded)
    }

    /** `reset()`: empty dictionaries, not loaded, no pending callback. */
    method Reset()
      modifies this
      ensures Valid() && Data() == EmptyStore()
      ensures !isDataLoaded && loadingCallbacks == [] && notifications == old(notifications)
    {
      clusteringData, interpretasiData, kontakData := Empty(), Empty(), Empty();
      isDataLoaded := false;
      loadingCallbacks := [];
    }
  }

  /** The range the validation loop computes from the statistics of a
      scenario is the one its specification takes from the cluster ids. */
  lemma RangeMatches(d: Dict<Clustering>, s: ScenarioNum, stats: map<Option<int>, nat>,
                     ids: set<int>, range: Option<(int, int)>)
    requires d.Valid()
    requires forall c :: c in stats <==> c in Column(d, s)
    requires ids == set c | c in stats && c.Some? :: c.value
    requires range.None? <==> ids == {}
    requires range.Some? ==> range.value.0 in ids && range.value.1 in ids
                             && forall x :: x in ids ==> range.value.0 <= x <= range.value.1
    ensures RangeIssue(d, s) == if range.Some? && (range.value.0 < 0 || range.value.1 > 10)
                                then Some(BadClusterRange(s, range.value.0, range.value.1)) else None
  {
    var col := IdColumn(d, s);
    IdColumnIsColumn(d, s);
    forall x ensures x in ids <==> x in col {
      if x in col {
        var i :| 0 <= i < |col| && col[i] == x;
        assert Column(d, s)[i] == Some(x);
      }
      if x in ids {
        assert Some(x) in Column(d, s);
        var i :| 0 <= i < |col| && Column(d, s)[i] == Some(x);
      }
    }
    if col != [] {
      assert col[0] in ids;
      var lo, hi := SeqMin(col), SeqMax(col);
      assert lo == range.value.0 && hi == range.value.1;
    }
  }

  // ---------------------------------------------------------------------------
  // Properties of the data-quality check

  /** Exactly one coordinate issue per district outside the study area, and
      each issue carries that district's coordinates. */
  lemma {:induction false} CoordinateIssuesExact(d: Dict<Clustering>, keys: seq<string>)
    requires forall k :: k in keys ==> k in d.entries
    requires forall i, j :: 0 <= i < j < |keys| ==> keys[i] != keys[j]
    ensures var issues := CoordinateIssues(d, keys);
            && (forall i :: 0 <= i < |issues| ==>
                  && issues[i].BadCoordinates? && issues[i].district in keys
                  && OutOfArea(d.entries[issues[i].district])
                  && issues[i].lat == d.entries[issues[i].district].lat
                  && issues[i].lng == d.entries[issues[i].district].lng)
            && (forall k :: k in keys && OutOfArea(d.entries[k])
                  ==> BadCoordinates(k, d.entries[k].lat, d.entries[k].lng) in issues)
            && (forall i, j :: 0 <= i < j < |issues| ==> issues[i].district != issues[j].district)
  {
    if keys != [] {
      var init := keys[..|keys| - 1];
      var k := keys[|keys| - 1];
      assert forall x :: x in keys <==> x in init || x == k;
      assert k !in init by {
        forall i | 0 <= i < |init| ensures init[i] != k {
          assert init[i] == keys[i];
        }
      }
      CoordinateIssuesExact(d, init);
    }
  }

  /** The range issue of a scenario is reported exactly when some district's
      cluster id leaves 0..10, and its bounds are the least and the greatest
      cluster id of that scenario. */
  lemma RangeIssueExact(d: Dict<Clustering>, s: ScenarioNum)
    requires d.Valid()
    ensures RangeIssue(d, s).Some?
            <==> exists k :: k in d.entries && !Config.IsValidCluster(d.entries[k].ClusterId(s))
    ensures RangeIssue(d, s).Some? ==>
              var issue := RangeIssue(d, s).value;
              && issue.BadClusterRange? && issue.scenario == s
              && (forall k :: k in d.entries ==> issue.min <= d.entries[k].ClusterId(s) <= issue.max)
              && (exists k :: k in d.entries && d.entries[k].ClusterId(s) == issue.min)
              && (exists k :: k in d.entries && d.entries[k].ClusterId(s) == issue.max)
  {
    var col := IdColumn(d, s);
    forall k | k in d.entries ensures d.entries[k].ClusterId(s) in col {
      var i :| 0 <= i < |d.keys| && d.keys[i] == k;
      assert col[i] == d.entries[k].ClusterId(s);
    }
    forall x | x in col ensures exists k :: k in d.entries && d.entries[k].ClusterId(s) == x {
      var i :| 0 <= i < |col| && col[i] == x;
      assert d.keys[i] in d.entries;
    }
    if exists k :: k in d.entries && !Config.IsValidCluster(d.entries[k].ClusterId(s)) {
      var k :| k in d.entries && !Config.IsValidCluster(d.entries[k].ClusterId(s));
      assert d.entries[k].ClusterId(s) in col;
    }
  }

  /** The present results are exactly the values of the results that are
      there, each once and in order. */
  lemma {:induction false} PresentExact<T>(xs: seq<Option<T>>)
    ensures forall i :: 0 <= i < |Present(xs)| ==> exists j :: 0 <= j < |xs| && xs[j] == Some(Present(xs)[i])
    ensures forall j :: 0 <= j < |xs| && xs[j].Some? ==> xs[j].value in Present(xs)
  {
    if xs != [] {
      var init := xs[..|xs| - 1];
      PresentExact(init);
      var before := Present(init);
      assert forall j :: 0 <= j < |init| ==> xs[j] == init[j];
      forall i | 0 <= i < |Present(xs)| ensures exists j :: 0 <= j < |xs| && xs[j] == Some(Present(xs)[i]) {
        if i < |before| {
          var j :| 0 <= j < |init| && init[j] == Some(before[i]);
          assert xs[j] == Some(Present(xs)[i]);
        } else {
          assert xs[|xs| - 1] == Some(Present(xs)[i]);
        }
      }
    } else {
      assert Present(xs) == [];
    }
  }

  /** When the result at position `j` can only be an issue of scenario
      `j + 1`, the present issues come in strictly increasing scenario order:
      at most one per scenario. */
  lemma {:induction false} PresentScenarios(rs: seq<Option<Issue>>)
    requires forall j :: 0 <= j < |rs| && rs[j].Some? ==> rs[j].value.BadClusterRange? && rs[j].value.scenario == j + 1
    ensures forall i :: 0 <= i < |Present(rs)| ==> Present(rs)[i].BadClusterRange? && Present(rs)[i].scenario <= |rs|
    ensures forall i, j :: 0 <= i < j < |Present(rs)| ==> Present(rs)[i].scenario < Present(rs)[j].scenario
  {
    if rs != [] {
      var init := rs[..|rs| - 1];
      assert forall j :: 0 <= j < |init| ==> rs[j] == init[j];
      PresentScenarios(init);
    }
  }

  /** The range issues: each is the range issue of its scenario, they come
      in strictly increasing scenario order, and every scenario with a range
      issue has it reported. */
  lemma RangeIssuesOrdered(d: Dict<Clustering>)
    requires d.Valid()
    ensures forall i :: 0 <= i < |Present(RangeResults(d))| ==>
              && Present(RangeResults(d))[i].BadClusterRange?
              && RangeIssue(d, Present(RangeResults(d))[i].scenario) == Some(Present(RangeResults(d))[i])
    ensures forall i, j :: 0 <= i < j < |Present(RangeResults(d))| ==>
              Present(RangeResults(d))[i].scenario < Present(RangeResults(d))[j].scenario
    ensures forall s: ScenarioNum :: RangeIssue(d, s).Some? ==> RangeIssue(d, s).value in Present(RangeResults(d))
  {
    var rs := RangeResults(d);
    PresentExact(rs);
    PresentScenarios(rs);
    forall s: ScenarioNum | RangeIssue(d, s).Some? ensures RangeIssue(d, s).value in Present(rs) {
      assert rs[s - 1] == RangeIssue(d, s);
    }
  }

  /** No coordinate issue exactly when no district lies outside the study area. */
  lemma CoordinateIssuesNone(d: Dict<Clustering>)
    requires d.Valid()
    ensures CoordinateIssues(d, d.keys) == [] <==> forall k :: k in d.entries ==> !OutOfArea(d.entries[k])
  {
    CoordinateIssuesExact(d, d.keys);
    var coordinate := CoordinateIssues(d, d.keys);
    if coordinate != [] {
      assert coordinate[0].district in d.keys;
    }
    if exists k :: k in d.entries && OutOfArea(d.entries[k]) {
      var k :| k in d.entries && OutOfArea(d.entries[k]);
      assert BadCoordinates(k, d.entries[k].lat, d.entries[k].lng) in coordinate;
    }
  }

  /** No range issue exactly when every cluster id of every scenario is
      within 0..10. */
  lemma RangeIssuesNone(d: Dict<Clustering>)
    requires d.Valid()
    ensures Present(RangeResults(d)) == []
            <==> forall s: ScenarioNum, k :: k in d.entries ==> Config.IsValidCluster(d.entries[k].ClusterId(s))
  {
    RangeIssuesOrdered(d);
    var ranges := Present(RangeResults(d));
    if ranges != [] {
      var s := ranges[0].scenario;
      RangeIssueExact(d, s);
    }
    if exists s: ScenarioNum, k :: k in d.entries && !Config.IsValidCluster(d.entries[k].ClusterId(s)) {
      var s: ScenarioNum, k :| k in d.entries && !Config.IsValidCluster(d.entries[k].ClusterId(s));
      RangeIssueExact(d, s);
      assert RangeIssue(d, s).value in ranges;
    }
  }

  /** `valid` holds exactly when no district lies outside the study area and
      every cluster id of every scenario is within 0..10; in particular the
      empty store is valid. */
  lemma ValidationValid(st: Store)
    requires st.Valid()
    ensures Validation(st).valid <==>
              && (forall k :: k in st.clustering.entries ==> !OutOfArea(st.clustering.entries[k]))
              && (forall s: ScenarioNum, k :: k in st.clustering.entries
                    ==> Config.IsValidCluster(st.clustering.entries[k].ClusterId(s)))
    ensures st == EmptyStore() ==> Validation(st).valid
  {
    CoordinateIssuesNone(st.clustering);
    RangeIssuesNone(st.clustering);
  }

  /** The summary counts the districts each dictionary holds. */
  lemma ValidationSummary(st: Store)
    requires st.Valid()
    ensures Validation(st).summary
            == Summary(|st.clustering.entries|, |st.interpretasi.entries|, |st.kontak.entries|)
  {
    SizeIsCount(st.clustering);
    SizeIsCount(st.interpretasi);
    SizeIsCount(st.kontak);
  }
}
