/** The post-fetch part of `DataLoader.loadData` (data-validator.js:88-147) as
    values: how parsed rows become the three per-district records, and how one
    ingestion changes the three dictionaries of the store. */
module Projection {
  import opened Wrappers
  import opened Csv
  import opened Dict

  /** JavaScript's `parseInt` and `parseFloat`, supplied by the caller; `None`
      stands for NaN. */
  datatype NumberParsers = NumberParsers(parseInt: string -> Option<int>, parseFloat: string -> Option<real>)

  /** A scenario number, 1 to 6. */
  type ScenarioNum = s: int | 1 <= s <= 6 witness 1

  /** A clustering entry: the coordinates as `parseFloat` read them (`None`
      for NaN; they are not defaulted) and the cluster id per scenario. */
  datatype Clustering = Clustering(lat: Option<real>, lng: Option<real>,
                                   s1: int, s2: int, s3: int, s4: int, s5: int, s6: int)
  {
    /** `cluster_s{s}` for a scenario number. */
    function ClusterId(s: ScenarioNum): int {
      match s
      case 1 => s1 case 2 => s2 case 3 => s3
      case 4 => s4 case 5 => s5 case 6 => s6
    }

    /** `data[`cluster_s${s}`]` for any number: `undefined` (`None`) outside 1..6. */
    function Cluster(s: int): (r: Option<int>)
      ensures r.Some? <==> 1 <= s <= 6
    {
      if 1 <= s <= 6 then Some(ClusterId(s)) else None
    }
  }

  /** A contact profile: twelve numeric fields, each 0 when its cell fails to
      parse. */
  datatype Kontak = Kontak(rataRataUmur: real, totalKontak: int, totalDirujuk: int,
                           jumlahFasyankesUnik: int, lakiLaki: int, perempuan: int,
                           kontakSerumah: int, batuk: int, sesakNafas: int, perokok: int,
                           diabetesMellitus: int, lansia: int)

  /** `row.name` is truthy: the column exists and the cell is not empty. */
  predicate Filled(row: Row, name: string) {
    name in row && row[name] != ""
  }

  /** `parseInt(row.name)`; a missing column reads as `undefined`, which
      parses to NaN. */
  function IntField(row: Row, name: string, p: NumberParsers): Option<int> {
    if name in row then p.parseInt(row[name]) else None
  }

  /** `parseFloat(row.name)`, likewise. */
  function FloatField(row: Row, name: string, p: NumberParsers): Option<real> {
    if name in row then p.parseFloat(row[name]) else None
  }

  /** `x || 0` on a parsed number: NaN and 0 both give 0. */
  function OrZero(n: Option<int>): (r: int)
    ensures n.None? ==> r == 0
    ensures n.Some? ==> r == n.value
  {
    n.GetOr(0)
  }

  function RealOrZero(n: Option<real>): (r: real)
    ensures n.None? ==> r == 0.0
    ensures n.Some? ==> r == n.value
  {
    n.GetOr(0.0)
  }

  /** The column holding a scenario's cluster id, `cluster_s1` to `cluster_s6`. */
  function ClusterColumn(s: ScenarioNum): string {
    "cluster_s" + [('0' as int + s) as char]
  }

  /** What one clustering row assigns (data-validator.js:95-105). */
  function ClusteringEntry(row: Row, p: NumberParsers): (r: Option<(string, Clustering)>)
    ensures r.Some? <==> Filled(row, "alamat") && Filled(row, "latitude") && Filled(row, "longitude")
    ensures r.Some? ==> r.value.0 == row["alamat"] && r.value.0 != ""
    ensures r.Some? ==> r.value.1.lat == FloatField(row, "latitude", p)
                        && r.value.1.lng == FloatField(row, "longitude", p)
    ensures r.Some? ==> forall s: ScenarioNum ::
              r.value.1.ClusterId(s) == OrZero(IntField(row, ClusterColumn(s), p))
  {
    if Filled(row, "alamat") && Filled(row, "latitude") && Filled(row, "longitude") then
      Some((row["alamat"], Clustering(
        FloatField(row, "latitude", p), FloatField(row, "longitude", p),
        OrZero(IntField(row, ClusterColumn(1), p)), OrZero(IntField(row, ClusterColumn(2), p)),
        OrZero(IntField(row, ClusterColumn(3), p)), OrZero(IntField(row, ClusterColumn(4), p)),
        OrZero(IntField(row, ClusterColumn(5), p)), OrZero(IntField(row, ClusterColumn(6), p)))))
    else None
  }

  /** The interpretation text column. */
  const InterpretationColumn := "Interpretasi klaster dan rekomendasi"

  /** What one interpretation row assigns (data-validator.js:112-114). */
  function InterpretasiEntry(row: Row, p: NumberParsers): (r: Option<(string, string)>)
    ensures r.Some? <==> Filled(row, "Kecamatan") && Filled(row, InterpretationColumn)
    ensures r.Some? ==> r.value == (row["Kecamatan"], row[InterpretationColumn])
                        && r.value.0 != "" && r.value.1 != ""
  {
    if Filled(row, "Kecamatan") && Filled(row, InterpretationColumn) then
      Some((row["Kecamatan"], row[InterpretationColumn]))
    else None
  }

  /** What one contact row assigns (data-validator.js:120-134). */
  function KontakEntry(row: Row, p: NumberParsers): (r: Option<(string, Kontak)>)
    ensures r.Some? <==> Filled(row, "alamat")
    ensures r.Some? ==> r.value.0 == row["alamat"] && r.value.0 != ""
    ensures r.Some? ==> r.value.1 == Kontak(
              RealOrZero(FloatField(row, "rata_rata_umur", p)),
              OrZero(IntField(row, "total_kontak", p)), OrZero(IntField(row, "total_dirujuk", p)),
              OrZero(IntField(row, "jumlah_fasyankes_unik", p)), OrZero(IntField(row, "laki-laki", p)),
              OrZero(IntField(row, "perempuan", p)), OrZero(IntField(row, "kontak_serumah", p)),
              OrZero(IntField(row, "batuk", p)), OrZero(IntField(row, "sesak_nafas", p)),
              OrZero(IntField(row, "perokok", p)), OrZero(IntField(row, "diabetes_mellitus", p)),
              OrZero(IntField(row, "lansia", p)))
  {
    if Filled(row, "alamat") then
      Some((row["alamat"], Kontak(
        RealOrZero(FloatField(row, "rata_rata_umur", p)),
        OrZero(IntField(row, "total_kontak", p)), OrZero(IntField(row, "total_dirujuk", p)),
        OrZero(IntField(row, "jumlah_fasyankes_unik", p)), OrZero(IntField(row, "laki-laki", p)),
        OrZero(IntField(row, "perempuan", p)), OrZero(IntField(row, "kontak_serumah", p)),
        OrZero(IntField(row, "batuk", p)), OrZero(IntField(row, "sesak_nafas", p)),
        OrZero(IntField(row, "perokok", p)), OrZero(IntField(row, "diabetes_mellitus", p)),
        OrZero(IntField(row, "lansia", p)))))
    else None
  }

  /** The assignments a `forEach` over `rows` makes, in row order. */
  function Collect<V>(rows: seq<Row>, p: NumberParsers, f: (Row, NumberParsers) -> Option<(string, V)>)
    : (es: seq<(string, V)>)
    ensures |es| <= |rows|
  {
    if rows == [] then []
    else
      var last := f(rows[|rows| - 1], p);
      Collect(rows[..|rows| - 1], p, f) + (if last.Some? then [last.value] else [])
  }

  /** A row assigns `k` when `f` gives it an entry keyed `k`. */
  predicate Assigns<V>(row: Row, p: NumberParsers, f: (Row, NumberParsers) -> Option<(string, V)>, k: string) {
    f(row, p).Some? && f(row, p).value.0 == k
  }

  /** The keys the rows assign are exactly the keys of some row, and the value
      each ends with is the one some row assigned it. */
  lemma CollectKeys<V>(rows: seq<Row>, p: NumberParsers, f: (Row, NumberParsers) -> Option<(string, V)>)
    ensures forall k :: k in MapOf(Collect(rows, p, f)) <==> exists i :: 0 <= i < |rows| && Assigns(rows[i], p, f, k)
    ensures forall k :: k in MapOf(Collect(rows, p, f)) ==>
              exists i :: 0 <= i < |rows| && f(rows[i], p) == Some((k, MapOf(Collect(rows, p, f))[k]))
  {
    CollectValues(rows, p, f);
    forall k | exists i :: 0 <= i < |rows| && Assigns(rows[i], p, f, k)
      ensures k in MapOf(Collect(rows, p, f))
    {
      var i :| 0 <= i < |rows| && Assigns(rows[i], p, f, k);
      CollectHas(rows, p, f, i);
    }
  }

  /** Every row that assigns a key leaves that key in the map. */
  lemma {:induction false} CollectHas<V>(rows: seq<Row>, p: NumberParsers, f: (Row, NumberParsers) -> Option<(string, V)>, i: nat)
    requires i < |rows| && f(rows[i], p).Some?
    ensures f(rows[i], p).value.0 in MapOf(Collect(rows, p, f))
  {
    CollectStep(rows, p, f);
    if i < |rows| - 1 {
      var init := rows[..|rows| - 1];
      assert init[i] == rows[i];
      CollectHas(init, p, f, i);
    }
  }

  /** The value a key ends with is the one some row assigned it. */
  lemma {:induction false} CollectValues<V>(rows: seq<Row>, p: NumberParsers, f: (Row, NumberParsers) -> Option<(string, V)>)
    ensures forall k :: k in MapOf(Collect(rows, p, f)) ==>
              exists i :: 0 <= i < |rows| && f(rows[i], p) == Some((k, MapOf(Collect(rows, p, f))[k]))
  {
    if rows != [] {
      var init := rows[..|rows| - 1];
      var last := f(rows[|rows| - 1], p);
      var es := Collect(init, p, f);
      CollectValues(init, p, f);
      CollectStep(rows, p, f);
      forall k | k in MapOf(Collect(rows, p, f))
        ensures exists i :: 0 <= i < |rows| && f(rows[i], p) == Some((k, MapOf(Collect(rows, p, f))[k]))
      {
        if last.Some? && last.value.0 == k {
          assert f(rows[|rows| - 1], p) == Some((k, MapOf(Collect(rows, p, f))[k]));
        } else {
          var i :| 0 <= i < |init| && f(init[i], p) == Some((k, MapOf(es)[k]));
          assert f(rows[i], p) == Some((k, MapOf(Collect(rows, p, f))[k]));
        }
      }
    }
  }

  /** The map the rows build grows by the last row's assignment, if any. */
  lemma CollectStep<V>(rows: seq<Row>, p: NumberParsers, f: (Row, NumberParsers) -> Option<(string, V)>)
    requires rows != []
    ensures var es := Collect(rows[..|rows| - 1], p, f);
            var last := f(rows[|rows| - 1], p);
            MapOf(Collect(rows, p, f)) == if last.Some? then MapOf(es)[last.value.0 := last.value.1] else MapOf(es)
  {
    var es := Collect(rows[..|rows| - 1], p, f);
    var last := f(rows[|rows| - 1], p);
    if last.Some? {
      assert (es + [last.value])[..|es|] == es;
    } else {
      assert es + [] == es;
    }
  }

  /** For a repeated key the last row wins. */
  lemma {:induction false} CollectLastWins<V>(rows: seq<Row>, p: NumberParsers,
                                             f: (Row, NumberParsers) -> Option<(string, V)>, i: nat)
    requires i < |rows| && f(rows[i], p).Some?
    requires forall j :: i < j < |rows| ==> !Assigns(rows[j], p, f, f(rows[i], p).value.0)
    ensures var e := f(rows[i], p).value;
            e.0 in MapOf(Collect(rows, p, f)) && MapOf(Collect(rows, p, f))[e.0] == e.1
  {
    var init := rows[..|rows| - 1];
    var last := f(rows[|rows| - 1], p);
    var es := Collect(init, p, f);
    CollectStep(rows, p, f);
    if i < |init| {
      CollectLastWins(init, p, f, i);
    }
  }

  // ---------------------------------------------------------------------------
  // The store and one ingestion

  /** The three dictionaries of a `DataLoader`. */
  datatype Store = Store(clustering: Dict<Clustering>, interpretasi: Dict<string>, kontak: Dict<Kontak>)
  {
    /** Each dictionary is well formed, no district name is empty and no
        stored interpretation is empty (the projection writes only such). */
    ghost predicate Valid() {
      && clustering.Valid() && interpretasi.Valid() && kontak.Valid()
      && (forall k :: k in clustering.entries ==> k != "")
      && (forall k :: k in kontak.entries ==> k != "")
      && (forall k :: k in interpretasi.entries ==> k != "" && interpretasi.entries[k] != "")
    }
  }

  /** The store of a fresh or reset loader. */
  function EmptyStore(): (st: Store)
    ensures st.Valid()
    ensures st.clustering.Size() == 0 && st.interpretasi.Size() == 0 && st.kontak.Size() == 0
  {
    Store(Empty(), Empty(), Empty())
  }

  /** Why an ingestion failed: a file had no data line (the `parseCSV`
      exception), or no clustering row was usable ("No clustering data
      loaded"). */
  datatype LoadError = MalformedCsv(CsvError) | NoClusteringData

  /** What one ingestion leaves: the new store, whether it succeeded, and the
      error handed to the callbacks when it did not. */
  datatype Outcome = Outcome(store: Store, ok: bool, error: Option<LoadError>)

  /** The three texts of one ingestion. */
  datatype Texts = Texts(pemetaan: string, interpretasi: string, kontak: string)

  /** The store after writing the rows of the three files into `st`. */
  function Project(st: Store, pemetaan: seq<Row>, interpretasi: seq<Row>, kontak: seq<Row>, p: NumberParsers): (r: Store)
    ensures st.clustering.keys <= r.clustering.keys
    ensures st.interpretasi.keys <= r.interpretasi.keys
    ensures st.kontak.keys <= r.kontak.keys
  {
    Store(PutAll(st.clustering, Collect(pemetaan, p, ClusteringEntry)),
          PutAll(st.interpretasi, Collect(interpretasi, p, InterpretasiEntry)),
          PutAll(st.kontak, Collect(kontak, p, KontakEntry)))
  }

  /** `loadData` after the fetches: parse the three texts (any failure aborts
      before a dictionary is touched), write the rows into the dictionaries
      without clearing them, then fail if the clustering dictionary is empty. */
  function Ingest(st: Store, t: Texts, p: NumberParsers): (r: Outcome)
    ensures r.ok <==> r.error.None?
  {
    var a := Parse(t.pemetaan);
    var b := Parse(t.interpretasi);
    var c := Parse(t.kontak);
    if a.Failure? then Outcome(st, false, Some(MalformedCsv(a.error)))
    else if b.Failure? then Outcome(st, false, Some(MalformedCsv(b.error)))
    else if c.Failure? then Outcome(st, false, Some(MalformedCsv(c.error)))
    else
      var next := Project(st, a.value, b.value, c.value, p);
      if next.clustering.Size() == 0 then Outcome(next, false, Some(NoClusteringData))
      else Outcome(next, true, None)
  }

  /** Do all three texts parse? */
  predicate AllParse(t: Texts) {
    Parse(t.pemetaan).Success? && Parse(t.interpretasi).Success? && Parse(t.kontak).Success?
  }

  /** Writing rows keeps the store well formed. */
  lemma ProjectValid(st: Store, a: seq<Row>, b: seq<Row>, c: seq<Row>, p: NumberParsers)
    requires st.Valid()
    ensures Project(st, a, b, c, p).Valid()
  {
    var next := Project(st, a, b, c, p);
    PutAllEntries(st.clustering, Collect(a, p, ClusteringEntry));
    PutAllEntries(st.interpretasi, Collect(b, p, InterpretasiEntry));
    PutAllEntries(st.kontak, Collect(c, p, KontakEntry));
    CollectKeys(a, p, ClusteringEntry);
    CollectKeys(b, p, InterpretasiEntry);
    CollectKeys(c, p, KontakEntry);
    forall k | k in next.interpretasi.entries
      ensures k != "" && next.interpretasi.entries[k] != ""
    {
      var m := MapOf(Collect(b, p, InterpretasiEntry));
      if k in m {
        var i :| 0 <= i < |b| && InterpretasiEntry(b[i], p) == Some((k, m[k]));
      }
    }
    forall k | k in next.clustering.entries ensures k != "" {
      var m := MapOf(Collect(a, p, ClusteringEntry));
      if k in m {
        var i :| 0 <= i < |a| && ClusteringEntry(a[i], p) == Some((k, m[k]));
      }
    }
    forall k | k in next.kontak.entries ensures k != "" {
      var m := MapOf(Collect(c, p, KontakEntry));
      if k in m {
        var i :| 0 <= i < |c| && KontakEntry(c[i], p) == Some((k, m[k]));
      }
    }
  }

  /** When the texts parse, ingestion writes their rows. */
  lemma IngestProjects(st: Store, t: Texts, p: NumberParsers)
    requires AllParse(t)
    ensures Ingest(st, t, p).store == Project(st, Parse(t.pemetaan).value, Parse(t.interpretasi).value, Parse(t.kontak).value, p)
  {
  }

  /** Ingestion keeps the store well formed. */
  lemma IngestValid(st: Store, t: Texts, p: NumberParsers)
    requires st.Valid()
    ensures Ingest(st, t, p).store.Valid()
  {
    if AllParse(t) {
      ProjectValid(st, Parse(t.pemetaan).value, Parse(t.interpretasi).value, Parse(t.kontak).value, p);
    }
  }

  /** Ingestion succeeds exactly when all three texts parse and the clustering
      dictionary is non-empty afterwards. */
  lemma IngestSucceeds(st: Store, t: Texts, p: NumberParsers)
    requires st.Valid()
    ensures var r := Ingest(st, t, p);
            r.ok <==> AllParse(t) && |r.store.clustering.entries| > 0
  {
    IngestValid(st, t, p);
    SizeIsCount(Ingest(st, t, p).store.clustering);
  }

  /** A text that does not parse leaves all three dictionaries as they were. */
  lemma IngestParseFailure(st: Store, t: Texts, p: NumberParsers)
    requires !AllParse(t)
    ensures Ingest(st, t, p) == Outcome(st, false, Some(MalformedCsv(TooFewLines)))
  {
  }

  /** When the texts parse, the interpretation and contact rows are written
      whether or not the clustering dictionary ends up empty. */
  lemma IngestWritesAll(st: Store, t: Texts, p: NumberParsers)
    requires AllParse(t)
    ensures var r := Ingest(st, t, p);
            && r.store.interpretasi == PutAll(st.interpretasi, Collect(Parse(t.interpretasi).value, p, InterpretasiEntry))
            && r.store.kontak == PutAll(st.kontak, Collect(Parse(t.kontak).value, p, KontakEntry))
            && (r.store.clustering.Size() == 0 ==> r.error == Some(NoClusteringData))
  {
    IngestProjects(st, t, p);
  }

  /** No key is ever removed, and every old key keeps its place in the key
      order. */
  lemma IngestKeepsKeys(st: Store, t: Texts, p: NumberParsers)
    requires st.Valid()
    ensures var r := Ingest(st, t, p).store;
            && st.clustering.entries.Keys <= r.clustering.entries.Keys
            && st.interpretasi.entries.Keys <= r.interpretasi.entries.Keys
            && st.kontak.entries.Keys <= r.kontak.entries.Keys
            && st.clustering.keys <= r.clustering.keys
            && st.interpretasi.keys <= r.interpretasi.keys
            && st.kontak.keys <= r.kontak.keys
  {
    if AllParse(t) {
      var a, b, c := Parse(t.pemetaan).value, Parse(t.interpretasi).value, Parse(t.kontak).value;
      IngestProjects(st, t, p);
      PutAllEntries(st.clustering, Collect(a, p, ClusteringEntry));
      PutAllEntries(st.interpretasi, Collect(b, p, InterpretasiEntry));
      PutAllEntries(st.kontak, Collect(c, p, KontakEntry));
    }
  }

  /** After an ingestion whose texts parse, a district has a clustering
      entry exactly when it had one before or some row named it with a
      non-empty latitude and longitude. */
  lemma IngestClusteringKeys(st: Store, t: Texts, p: NumberParsers, k: string)
    requires AllParse(t)
    ensures var rows := Parse(t.pemetaan).value;
            k in Ingest(st, t, p).store.clustering.entries
            <==> k in st.clustering.entries
                 || exists i :: 0 <= i < |rows| && Filled(rows[i], "alamat") && rows[i]["alamat"] == k
                                && Filled(rows[i], "latitude") && Filled(rows[i], "longitude")
  {
    IngestProjects(st, t, p);
    ClusteringKeys(st.clustering, Parse(t.pemetaan).value, p, k);
  }

  /** Writing clustering rows adds exactly the districts of the rows with a
      non-empty name, latitude and longitude. */
  lemma ClusteringKeys(d: Dict<Clustering>, rows: seq<Row>, p: NumberParsers, k: string)
    ensures k in PutAll(d, Collect(rows, p, ClusteringEntry)).entries
            <==> k in d.entries
                 || exists i :: 0 <= i < |rows| && Filled(rows[i], "alamat") && rows[i]["alamat"] == k
                                && Filled(rows[i], "latitude") && Filled(rows[i], "longitude")
  {
    PutAllEntries(d, Collect(rows, p, ClusteringEntry));
    CollectKeys(rows, p, ClusteringEntry);
    forall i | 0 <= i < |rows|
      ensures Assigns(rows[i], p, ClusteringEntry, k)
              <==> Filled(rows[i], "alamat") && rows[i]["alamat"] == k
                   && Filled(rows[i], "latitude") && Filled(rows[i], "longitude")
    {
    }
  }

  /** The last usable clustering row for a district decides its entry. */
  lemma IngestClusteringLastWins(st: Store, t: Texts, p: NumberParsers, i: nat)
    requires AllParse(t)
    requires var rows := Parse(t.pemetaan).value;
             i < |rows| && ClusteringEntry(rows[i], p).Some?
             && forall j :: i < j < |rows| ==> !Assigns(rows[j], p, ClusteringEntry, rows[i]["alamat"])
    ensures var rows := Parse(t.pemetaan).value;
            var e := ClusteringEntry(rows[i], p).value;
            e.0 in Ingest(st, t, p).store.clustering.entries
            && Ingest(st, t, p).store.clustering.entries[e.0] == e.1
  {
    var rows := Parse(t.pemetaan).value;
    IngestProjects(st, t, p);
    PutAllEntries(st.clustering, Collect(rows, p, ClusteringEntry));
    CollectLastWins(rows, p, ClusteringEntry, i);
  }

  /** Writing the same rows twice leaves the store as writing them once. */
  lemma ProjectIdempotent(st: Store, a: seq<Row>, b: seq<Row>, c: seq<Row>, p: NumberParsers)
    ensures Project(Project(st, a, b, c, p), a, b, c, p) == Project(st, a, b, c, p)
  {
    PutAllIdempotent(st.clustering, Collect(a, p, ClusteringEntry));
    PutAllIdempotent(st.interpretasi, Collect(b, p, InterpretasiEntry));
    PutAllIdempotent(st.kontak, Collect(c, p, KontakEntry));
  }

  /** Ingesting the same texts twice leaves the same store and the same
      result as ingesting them once. */
  lemma IngestIdempotent(st: Store, t: Texts, p: NumberParsers)
    ensures var once := Ingest(st, t, p);
            var twice := Ingest(once.store, t, p);
            twice.store == once.store && twice.ok == once.ok
  {
    var once := Ingest(st, t, p);
    if AllParse(t) {
      var a, b, c := Parse(t.pemetaan).value, Parse(t.interpretasi).value, Parse(t.kontak).value;
      ProjectIdempotent(st, a, b, c, p);
      IngestProjects(st, t, p);
      IngestProjects(once.store, t, p);
    } else {
      assert once.store == st;
    }
  }
}
