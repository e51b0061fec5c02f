/** The constant tables of config.js (the six clustering scenarios, the
    interpretation aspects and their mapping onto scenarios, the validation
    ranges) and the `ConfigUtils` helpers that read them. */
module Config {
  import opened Wrappers
  import opened Strings

  /** One clustering scenario: `clusters` clusters, a colour per cluster id
      (an array indexed by id) and an interpretation per cluster id (an object
      keyed by id). */
  datatype Scenario = Scenario(name: string, description: string, features: seq<string>, clusters: nat,
                               colors: seq<string>, interpretation: map<int, string>)

  /** One interpretation aspect and the colour of each of its status words. */
  datatype Aspect = Aspect(name: string, fields: seq<string>, statusColors: map<string, string>)

  /** An inclusive range. */
  datatype Bounds<T> = Bounds(min: T, max: T)

  const Red := "#e74c3c"
  const Blue := "#3498db"
  const Orange := "#f39c12"
  const Green := "#2ecc71"
  const Purple := "#9b59b6"
  const Teal := "#1abc9c"
  const Slate := "#34495e"
  const Yellow := "#f1c40f"
  const DarkRed := "#8b0000"

  /** `CONFIG.scenarios`. */
  const Scenarios: map<int, Scenario> := map[
    1 := Scenario("Paparan & Umur",
                  "Clustering berdasarkan profil demografi dan paparan kontak TB",
                  ["rata_rata_umur", "total_kontak", "kontak_serumah"],
                  4, [Red, Blue, Orange, Green],
                  map[0 := "Kelompok risiko rendah - paparan minimal",
                      1 := "Kelompok risiko sedang - paparan terkontrol",
                      2 := "Kelompok risiko tinggi - paparan intensif",
                      3 := "Kelompok risiko sangat tinggi - membutuhkan intervensi"]),
    2 := Scenario("Gejala Klinis",
                  "Clustering berdasarkan manifestasi gejala klinis kontak TB",
                  ["batuk_pct", "sesak_nafas_pct", "keringat_malam_pct", "demam_meriang_pct"],
                  5, [Red, Blue, Orange, Green, Purple],
                  map[0 := "Asimptomatik - tidak ada gejala signifikan",
                      1 := "Gejala ringan - perlu pemantauan",
                      2 := "Gejala sedang - screening lanjutan",
                      3 := "Gejala berat - evaluasi medis segera",
                      4 := "Gejala sangat berat - rujukan darurat"]),
    3 := Scenario("Faktor Risiko",
                  "Clustering berdasarkan faktor risiko individu kontak TB",
                  ["perokok_pct", "diabetes_mellitus_pct", "lansia_pct", "berobat_tidak_tuntas_pct"],
                  4, [Red, Blue, Orange, Green],
                  map[0 := "Risiko minimal - populasi sehat",
                      1 := "Risiko rendah - faktor protektif",
                      2 := "Risiko sedang - perlu monitor",
                      3 := "Risiko tinggi - intervensi prioritas"]),
    4 := Scenario("Demografi Kontak",
                  "Clustering berdasarkan karakteristik demografi kontak TB",
                  ["rata_rata_umur", "laki_laki_pct", "perempuan_pct"],
                  8, [Red, Blue, Orange, Green, Purple, Teal, Slate, Yellow],
                  map[0 := "Anak dan remaja",
                      1 := "Dewasa muda laki-laki",
                      2 := "Dewasa muda perempuan",
                      3 := "Dewasa tengah laki-laki",
                      4 := "Dewasa tengah perempuan",
                      5 := "Lansia laki-laki",
                      6 := "Lansia perempuan",
                      7 := "Populasi campuran"]),
    5 := Scenario("Alur Pasien & Beban",
                  "Clustering berdasarkan alur pasien dan beban layanan kesehatan",
                  ["total_kontak", "dirujuk_pct", "jumlah_fasyankes_unik"],
                  4, [Red, Blue, Orange, Green],
                  map[0 := "Beban rendah - kapasitas mencukupi",
                      1 := "Beban sedang - optimalisasi diperlukan",
                      2 := "Beban tinggi - penguatan sistem",
                      3 := "Beban sangat tinggi - intervensi darurat"]),
    6 := Scenario("Geospasial & Akses",
                  "Clustering berdasarkan lokasi geografis dan akses layanan",
                  ["latitude", "longitude", "jumlah_fasyankes_unik"],
                  6, [Red, Blue, Orange, Green, Purple, Teal],
                  map[0 := "Akses sangat baik - urban center",
                      1 := "Akses baik - sub-urban",
                      2 := "Akses sedang - semi rural",
                      3 := "Akses terbatas - rural",
                      4 := "Akses sangat terbatas - remote",
                      5 := "Akses khusus - area tertentu"])
  ]

  /** `CONFIG.aspectMapping`: the scenario each aspect interprets. */
  const AspectMapping: map<string, int> :=
    map["paparan" := 1, "gejala" := 2, "risiko" := 3, "demografi" := 4, "alur" := 5, "akses" := 6]

  /** The status colours shared by the four aspects graded from low to very high. */
  const GradedColors: map<string, string> :=
    map["rendah" := Green, "sedang" := Orange, "tinggi" := Red, "sangat tinggi" := DarkRed]

  /** `CONFIG.aspects`. */
  const Aspects: map<string, Aspect> := map[
    "paparan" := Aspect("Paparan & Umur",
                        ["paparan_status", "paparan_total_kontak", "paparan_serumah_pct", "paparan_umur_mean"],
                        GradedColors),
    "gejala" := Aspect("Gejala Klinis",
                       ["gejala_status", "gejala_indeks_pct", "gejala_batuk_pct", "gejala_sesak_pct",
                        "gejala_keringat_pct", "gejala_demam_pct"],
                       GradedColors),
    "risiko" := Aspect("Faktor Risiko Individu",
                       ["risiko_status", "risiko_ibu_hamil_pct", "risiko_lansia_pct", "risiko_dm_pct",
                        "risiko_perokok_pct", "risiko_tidak_tuntas_pct"],
                       GradedColors),
    "demografi" := Aspect("Demografi Kontak",
                          ["demografi_status", "demografi_umur_mean", "demografi_laki_pct", "demografi_perempuan_pct"],
                          map["muda" := Blue, "dewasa" := Orange, "campuran" := Purple, "lansia" := Red]),
    "alur" := Aspect("Alur Pasien & Beban",
                     ["alur_status", "alur_total_kontak", "alur_rujukan_pct", "alur_fasyankes_mean"],
                     GradedColors),
    "akses" := Aspect("Geospasial & Akses",
                      ["akses_status", "akses_fasyankes_mean"],
                      map["baik" := Green, "sedang" := Orange, "terbatas" := Red, "sangat terbatas" := DarkRed])
  ]

  /** `CONFIG.validation`. */
  const LatRange: Bounds<real> := Bounds(-6.0, -4.0)
  const LngRange: Bounds<real> := Bounds(119.0, 121.0)
  const ClusterRange: Bounds<int> := Bounds(0, 10)

  const UnknownClusterColor := "#cccccc"
  const NoClusterInterpretation := "Tidak ada interpretasi"
  const UnknownStatusColor := "#95a5a6"
  const Gowa := "Kabupaten Gowa"
  const Makassar := "Kota Makassar"

  /** `getScenario(n)`: the scenario, or `null` (`None`) outside 1..6. */
  function GetScenario(scenarioNum: int): (r: Option<Scenario>)
    ensures r.Some? <==> 1 <= scenarioNum <= 6
    ensures r.Some? ==> r.value == Scenarios[scenarioNum]
    ensures r.Some? ==> |r.value.colors| == r.value.clusters
                        && forall c :: c in r.value.interpretation <==> 0 <= c < r.value.clusters
  {
    if scenarioNum in Scenarios then Some(Scenarios[scenarioNum]) else None
  }

  /** `getAspect(name)`: the aspect, or `null` (`None`) for an unknown name. */
  function GetAspect(aspectName: string): (r: Option<Aspect>)
    ensures r.Some? <==> aspectName in AspectMapping
    ensures r.Some? ==> r.value == Aspects[aspectName]
  {
    if aspectName in Aspects then Some(Aspects[aspectName]) else None
  }

  /** `getClusterColor(s, c)`: the colour of cluster `c` of scenario `s`;
      "#cccccc" for an unknown scenario, and `undefined` (`None`) for a
      cluster id past the colour array of a known one. */
  function GetClusterColor(scenarioNum: int, clusterNum: int): (r: Option<string>)
    ensures !(1 <= scenarioNum <= 6) ==> r == Some(UnknownClusterColor)
    ensures 1 <= scenarioNum <= 6 ==> (r.Some? <==> 0 <= clusterNum < Scenarios[scenarioNum].clusters)
    ensures r.Some? ==> (r.value != UnknownClusterColor
                         <==> 1 <= scenarioNum <= 6 && 0 <= clusterNum < Scenarios[scenarioNum].clusters)
  {
    var scenario := GetScenario(scenarioNum);
    if scenario.None? then Some(UnknownClusterColor)
    else if 0 <= clusterNum < |scenario.value.colors| then Some(scenario.value.colors[clusterNum])
    else None
  }

  /** `getClusterInterpretation(s, c)`: the interpretation of cluster `c` of
      scenario `s`, or "Tidak ada interpretasi" when there is none. */
  function GetClusterInterpretation(scenarioNum: int, clusterNum: int): (r: string)
    ensures r != NoClusterInterpretation <==> 1 <= scenarioNum <= 6 && 0 <= clusterNum < Scenarios[scenarioNum].clusters
    ensures r != NoClusterInterpretation ==> r == Scenarios[scenarioNum].interpretation[clusterNum]
  {
    var scenario := GetScenario(scenarioNum);
    if scenario.Some? && clusterNum in scenario.value.interpretation
       && scenario.value.interpretation[clusterNum] != ""
    then scenario.value.interpretation[clusterNum]
    else NoClusterInterpretation
  }

  /** `getStatusColor(aspect, status)`: the colour of the lower-cased status
      in the aspect's table; "#95a5a6" for an unknown aspect, an empty status
      or a status the table does not list. */
  function GetStatusColor(aspectName: string, status: string): (r: string)
    ensures r == UnknownStatusColor
            <==> aspectName !in Aspects || status == []
                 || ToLower(status) !in Aspects[aspectName].statusColors
    ensures r != UnknownStatusColor ==> r == Aspects[aspectName].statusColors[ToLower(status)]
  {
    var aspect := GetAspect(aspectName);
    if aspect.None? || status == [] then UnknownStatusColor
    else
      var lowerStatus := ToLower(status);
      if lowerStatus in aspect.value.statusColors && aspect.value.statusColors[lowerStatus] != ""
      then aspect.value.statusColors[lowerStatus]
      else UnknownStatusColor
  }

  /** `isValidCoordinate(lat, lng)`, both bounds inclusive; a NaN coordinate
      (`None`) fails every comparison and so is never valid. */
  function IsValidCoordinate(lat: Option<real>, lng: Option<real>): (r: bool)
    ensures r <==> lat.Some? && lng.Some? && -6.0 <= lat.value <= -4.0 && 119.0 <= lng.value <= 121.0
    ensures lat.None? || lng.None? ==> !r
  {
    && lat.Some? && LatRange.min <= lat.value && lat.value <= LatRange.max
    && lng.Some? && LngRange.min <= lng.value && lng.value <= LngRange.max
  }

  /** `isValidCluster(n)`, both bounds inclusive. */
  function IsValidCluster(clusterNum: int): (r: bool)
    ensures r <==> 0 <= clusterNum <= 10
  {
    ClusterRange.min <= clusterNum <= ClusterRange.max
  }

  /** `getRegionType(alamat)`: the regency when the address names it, else the city. */
  function GetRegionType(alamat: string): (r: string)
    ensures r == Gowa <==> exists i :: OccursAt(alamat, Gowa, i)
    ensures r != Gowa ==> r == Makassar
  {
    if Includes(alamat, Gowa) then Gowa else Makassar
  }

  /** `getShortName(alamat)`: the trimmed text before the first comma. */
  function GetShortName(alamat: string): (r: string)
    ensures ',' !in r
    ensures exists j :: 0 <= j <= |alamat| && ',' !in alamat[..j]
                        && (j == |alamat| || alamat[j] == ',') && r == Trim(alamat[..j])
    ensures ',' !in alamat ==> r == Trim(alamat)
  {
    var first := Split(alamat, ',')[0];
    SplitFirst(alamat, ',');
    TrimSubset(first, ',');
    assert ',' !in alamat ==> first == alamat by {
      if ',' !in alamat { SplitNoSeparator(alamat, ','); }
    }
    assert first == alamat[..|first|];
    Trim(first)
  }

  /** Every scenario has one colour and one non-empty interpretation per
      cluster id, so in-range lookups never fall back. */
  lemma {:induction false} ScenarioTablesComplete(s: int, c: int)
    requires 1 <= s <= 6 && 0 <= c < Scenarios[s].clusters
    ensures GetClusterColor(s, c) == Some(Scenarios[s].colors[c])
    ensures GetClusterInterpretation(s, c) == Scenarios[s].interpretation[c] != NoClusterInterpretation
  {
    var sc := Scenarios[s];
    assert |sc.colors| == sc.clusters && c in sc.interpretation;
  }

  /** `aspectMapping` takes the six aspects one-to-one onto scenarios 1..6,
      and every mapped aspect has a table. */
  lemma AspectMappingBijective()
    ensures forall a :: a in AspectMapping ==> 1 <= AspectMapping[a] <= 6
    ensures forall a, b :: a in AspectMapping && b in AspectMapping && AspectMapping[a] == AspectMapping[b] ==> a == b
    ensures AspectMapping.Values == {1, 2, 3, 4, 5, 6}
  {
    assert AspectMapping["paparan"] == 1 && AspectMapping["gejala"] == 2 && AspectMapping["risiko"] == 3;
    assert AspectMapping["demografi"] == 4 && AspectMapping["alur"] == 5 && AspectMapping["akses"] == 6;
  }

  /** The numbered aspects are exactly the configured ones. */
  lemma AspectNamesAgree()
    ensures AspectMapping.Keys == Aspects.Keys
  {
    assert "paparan" in Aspects && "gejala" in Aspects && "risiko" in Aspects;
    assert "demografi" in Aspects && "alur" in Aspects && "akses" in Aspects;
  }

  /** The status colour depends only on the lower-cased status. */
  lemma {:induction false} StatusColorCaseInsensitive(aspectName: string, status: string)
    ensures GetStatusColor(aspectName, status) == GetStatusColor(aspectName, ToLower(status))
  {
    ToLowerIdempotent(status);
  }
}
