// Traffic records as stored per location and hour (backend/models/traffic_data.go),
// the flattening of their zone/class nesting, and the peak-hour search that
// the MKJI and PKJI analyses share.

module Traffic {
  import opened Common

  /** One vehicle class counted in one direction zone (TrafficKelasDetail). */
  datatype KelasDetail = KelasDetail(
    idKlasifikasi: string,
    namaKelas: string,
    kelas: int,
    jumlahKendaraan: int,
    kecepatanRataRata: real)

  /** One direction zone of a record (TrafficZonaArahData). */
  datatype ZonaArahData = ZonaArahData(
    idZonaArah: string,
    namaArah: string,
    kelasData: seq<KelasDetail>,
    totalKendaraan: int)

  /** Hour of day of a record's timestamp; the clock itself is not modelled. */
  type Hour = h: int | 0 <= h < 24

  /** A stored traffic record (TrafficData); `hour` stands for its timestamp. */
  datatype TrafficData = TrafficData(
    lokasiId: string,
    hour: Hour,
    tipeLokasi: string,
    zonaArahData: seq<ZonaArahData>,
    totalKendaraan: int,
    intervalMenit: int)

  /** Timestamp.Format("15:00"): the two-digit hour followed by ":00". */
  function JamKey(h: Hour): (k: string)
    ensures |k| == 5
  {
    [DigitChar(h / 10), DigitChar(h % 10)] + ":00"
  }

  // ---------------------------------------------------------------------
  // Flattening records -> zones -> classes, in iteration order
  // ---------------------------------------------------------------------

  function ZoneClasses(zones: seq<ZonaArahData>): seq<KelasDetail>
  {
    if zones == [] then []
    else ZoneClasses(zones[..|zones| - 1]) + zones[|zones| - 1].kelasData
  }

  function RecordClasses(td: TrafficData): seq<KelasDetail>
  {
    ZoneClasses(td.zonaArahData)
  }

  function AllClasses(list: seq<TrafficData>): seq<KelasDetail>
  {
    if list == [] then []
    else AllClasses(list[..|list| - 1]) + RecordClasses(list[|list| - 1])
  }

  /** Sum of JumlahKendaraan over a class list. */
  function SumCounts(cs: seq<KelasDetail>): int
  {
    if cs == [] then 0 else SumCounts(cs[..|cs| - 1]) + cs[|cs| - 1].jumlahKendaraan
  }

  lemma ZoneClassesStep(zones: seq<ZonaArahData>, z: nat)
    requires z < |zones|
    ensures ZoneClasses(zones[..z + 1]) == ZoneClasses(zones[..z]) + zones[z].kelasData
  {
    assert zones[..z + 1][..z] == zones[..z];
  }

  lemma AllClassesStep(list: seq<TrafficData>, i: nat)
    requires i < |list|
    ensures AllClasses(list[..i + 1]) == AllClasses(list[..i]) + RecordClasses(list[i])
  {
    assert list[..i + 1][..i] == list[..i];
  }

  // ---------------------------------------------------------------------
  // Hourly weighted sums and the peak hour
  // ---------------------------------------------------------------------

  /** Sum of w(c) over a class list. */
  function WeightedSum(cs: seq<KelasDetail>, w: KelasDetail -> real): real
  {
    if cs == [] then 0.0 else WeightedSum(cs[..|cs| - 1], w) + w(cs[|cs| - 1])
  }

  /** Vehicles in the classes that satisfy p. */
  function CountIf(cs: seq<KelasDetail>, p: KelasDetail -> bool): int
  {
    if cs == [] then 0
    else CountIf(cs[..|cs| - 1], p) + (if p(cs[|cs| - 1]) then cs[|cs| - 1].jumlahKendaraan else 0)
  }

  /** Sum of w(c) over the classes that satisfy p. */
  function WeightIf(cs: seq<KelasDetail>, p: KelasDetail -> bool, w: KelasDetail -> real): real
  {
    if cs == [] then 0.0
    else WeightIf(cs[..|cs| - 1], p, w) + (if p(cs[|cs| - 1]) then w(cs[|cs| - 1]) else 0.0)
  }

  lemma Distributes(t: int, j: int, e: real)
    ensures ((t + j) as real) * e == (t as real) * e + (j as real) * e
  {
  }

  /** When every selected class weighs e per vehicle, the selection weighs e times its count. */
  lemma {:induction false} WeightIfUniform(cs: seq<KelasDetail>, p: KelasDetail -> bool, w: KelasDetail -> real, e: real)
    requires forall c :: p(c) ==> w(c) == (c.jumlahKendaraan as real) * e
    ensures WeightIf(cs, p, w) == (CountIf(cs, p) as real) * e
  {
    if cs != [] {
      var c := cs[|cs| - 1];
      WeightIfUniform(cs[..|cs| - 1], p, w, e);
      if p(c) {
        Distributes(CountIf(cs[..|cs| - 1], p), c.jumlahKendaraan, e);
      }
    }
  }

  /** Reference definition: the weighted total of all records in hour `key`. */
  function HourTotal(list: seq<TrafficData>, key: string, w: KelasDetail -> real): real
  {
    if list == [] then 0.0
    else
      var last := list[|list| - 1];
      HourTotal(list[..|list| - 1], key, w)
      + (if JamKey(last.hour) == key then WeightedSum(RecordClasses(last), w) else 0.0)
  }

  function Get(m: map<string, real>, k: string): real
  {
    if k in m then m[k] else 0.0
  }

  /** `jamData[key] += w(c)` for each class c in turn. */
  function AddClasses(m: map<string, real>, key: string, cs: seq<KelasDetail>, w: KelasDetail -> real): map<string, real>
  {
    if cs == [] then m
    else
      var m' := AddClasses(m, key, cs[..|cs| - 1], w);
      m'[key := Get(m', key) + w(cs[|cs| - 1])]
  }

  /** The `jamData` map after the first |list| records. */
  function JamData(list: seq<TrafficData>, w: KelasDetail -> real): map<string, real>
  {
    if list == [] then map[]
    else
      var last := list[|list| - 1];
      AddClasses(JamData(list[..|list| - 1], w), JamKey(last.hour), RecordClasses(last), w)
  }

  lemma {:induction false} AddClassesMeaning(m: map<string, real>, key: string, cs: seq<KelasDetail>, w: KelasDetail -> real, k: string)
    ensures Get(AddClasses(m, key, cs, w), k) == Get(m, k) + (if k == key then WeightedSum(cs, w) else 0.0)
    ensures k in AddClasses(m, key, cs, w) <==> k in m || (k == key && cs != [])
  {
    if cs != [] {
      AddClassesMeaning(m, key, cs[..|cs| - 1], w, k);
    }
  }

  /** Every hour's entry in `jamData` is that hour's reference total. */
  lemma {:induction false} JamDataValue(list: seq<TrafficData>, w: KelasDetail -> real, k: string)
    ensures Get(JamData(list, w), k) == HourTotal(list, k, w)
  {
    if list != [] {
      var n := |list| - 1;
      JamDataValue(list[..n], w, k);
      AddClassesMeaning(JamData(list[..n], w), JamKey(list[n].hour), RecordClasses(list[n]), w, k);
    }
  }

  /** Holds when some record of hour `k` has at least one class entry. */
  predicate HasHour(list: seq<TrafficData>, k: string)
  {
    exists i :: 0 <= i < |list| && JamKey(list[i].hour) == k && RecordClasses(list[i]) != []
  }

  /** `jamData` holds exactly the hours that some non-empty record falls in. */
  lemma {:induction false} JamDataKeys(list: seq<TrafficData>, w: KelasDetail -> real, k: string)
    ensures k in JamData(list, w) <==> HasHour(list, k)
  {
    if list != [] {
      var n := |list| - 1;
      var last := list[n];
      JamDataKeys(list[..n], w, k);
      AddClassesMeaning(JamData(list[..n], w), JamKey(last.hour), RecordClasses(last), w, k);
      HasHourStep(list, k);
    }
  }

  /** A record of hour k with classes is among the first n records or is the last one. */
  lemma HasHourStep(list: seq<TrafficData>, k: string)
    requires list != []
    ensures HasHour(list, k) <==>
      HasHour(list[..|list| - 1], k) || (JamKey(list[|list| - 1].hour) == k && RecordClasses(list[|list| - 1]) != [])
  {
    var n := |list| - 1;
    if HasHour(list[..n], k) {
      var i :| 0 <= i < n && JamKey(list[..n][i].hour) == k && RecordClasses(list[..n][i]) != [];
      assert list[i] == list[..n][i];
    }
    if HasHour(list, k) {
      var i :| 0 <= i < |list| && JamKey(list[i].hour) == k && RecordClasses(list[i]) != [];
      if i < n {
        assert list[..n][i] == list[i];
      }
    }
  }

  /** The bucket scan: the first strictly larger sum in the map's iteration order wins. */
  method PeakOf(jamData: map<string, real>) returns (peak: real, jam: string)
    requires "" !in jamData
    ensures peak >= 0.0
    ensures jam == "" ==> peak == 0.0 && forall k :: k in jamData ==> jamData[k] <= 0.0
    ensures jam != "" ==> jam in jamData && jamData[jam] == peak && peak > 0.0
    ensures forall k :: k in jamData ==> jamData[k] <= peak
  {
    peak, jam := 0.0, "";
    var remaining := jamData.Keys;
    while remaining != {}
      invariant remaining <= jamData.Keys
      invariant peak >= 0.0
      invariant jam == "" ==> peak == 0.0
      invariant jam != "" ==> jam in jamData && jamData[jam] == peak && peak > 0.0
      invariant forall k :: k in jamData && k !in remaining ==> jamData[k] <= peak
      decreases |remaining|
    {
      var k :| k in remaining;
      if jamData[k] > peak {
        peak, jam := jamData[k], k;
      }
      remaining := remaining - {k};
    }
  }

  /** Adds one zone's classes to the bucket of hour `key`, class by class. */
  method AddZone(m: map<string, real>, key: string, ghost base: map<string, real>, ghost done: seq<KelasDetail>,
                 cs: seq<KelasDetail>, w: KelasDetail -> real)
    returns (m': map<string, real>)
    requires m == AddClasses(base, key, done, w)
    ensures m' == AddClasses(base, key, done + cs, w)
  {
    m' := m;
    var c := 0;
    assert done + cs[..c] == done;
    while c < |cs|
      invariant 0 <= c <= |cs|
      invariant m' == AddClasses(base, key, done + cs[..c], w)
    {
      assert (done + cs[..c + 1])[..|done + cs[..c]|] == done + cs[..c];
      m' := m'[key := Get(m', key) + w(cs[c])];
      c := c + 1;
    }
    assert cs[..c] == cs;
  }

  /** The first loop of the peak-hour search: every record's classes into its hour's bucket. */
  method BuildJamData(list: seq<TrafficData>, w: KelasDetail -> real) returns (jamData: map<string, real>)
    ensures jamData == JamData(list, w)
  {
    jamData := map[];
    var i := 0;
    while i < |list|
      invariant 0 <= i <= |list|
      invariant jamData == JamData(list[..i], w)
    {
      var key := JamKey(list[i].hour);
      var zones := list[i].zonaArahData;
      ghost var before := jamData;
      var z := 0;
      while z < |zones|
        invariant 0 <= z <= |zones|
        invariant jamData == AddClasses(before, key, ZoneClasses(zones[..z]), w)
      {
        jamData := AddZone(jamData, key, before, ZoneClasses(zones[..z]), zones[z].kelasData, w);
        ZoneClassesStep(zones, z);
        z := z + 1;
      }
      assert zones[..z] == zones;
      assert list[..i + 1][..i] == list[..i];
      i := i + 1;
    }
    assert list[..i] == list;
  }

  /**
   * The shared peak-hour loop (HitungArusLaluLintas, HitungVolumePKJI):
   * sum w over every class of every record into the hour's bucket, then scan
   * the buckets in Go's unspecified map order keeping the first strictly
   * larger sum, starting from 0.
   */
  method HourlyPeak(list: seq<TrafficData>, w: KelasDetail -> real) returns (peak: real, jam: string)
    ensures |list| == 0 ==> peak == 0.0 && jam == ""
    ensures peak >= 0.0
    ensures jam == "" ==> peak == 0.0
    ensures jam == "" <==> forall i :: 0 <= i < |list| ==> HourTotal(list, JamKey(list[i].hour), w) <= 0.0
    ensures jam != "" ==>
      (exists i :: 0 <= i < |list| && JamKey(list[i].hour) == jam) && peak == HourTotal(list, jam, w)
    ensures forall i :: 0 <= i < |list| ==> HourTotal(list, JamKey(list[i].hour), w) <= peak
  {
    if |list| == 0 {
      return 0.0, "";
    }
    var jamData := BuildJamData(list, w);
    // Every bucket key is some record's hour key, so never "".
    if "" in jamData {
      JamDataKeys(list, w, "");
      assert false;
    }
    peak, jam := PeakOf(jamData);

    forall j | 0 <= j < |list|
      ensures HourTotal(list, JamKey(list[j].hour), w) <= peak
    {
      JamDataValue(list, w, JamKey(list[j].hour));
    }
    if jam != "" {
      JamDataValue(list, w, jam);
      JamDataKeys(list, w, jam);
    } else {
      forall j | 0 <= j < |list|
        ensures HourTotal(list, JamKey(list[j].hour), w) <= 0.0
      {
        JamDataValue(list, w, JamKey(list[j].hour));
      }
    }
  }

  // ---------------------------------------------------------------------
  // Level of service letters, shared by the MKJI and PKJI classifications
  // ---------------------------------------------------------------------

  /** Level of service, A (free flow) to F (forced flow). */
  datatype ServiceLevel = A | B | C | D | E | F

  function Rank(l: ServiceLevel): nat
  {
    match l
    case A => 0
    case B => 1
    case C => 2
    case D => 3
    case E => 4
    case F => 5
  }

  function Letter(l: ServiceLevel): (s: string)
    ensures |s| == 1 && s[0] == "ABCDEF"[Rank(l)]
  {
    match l
    case A => "A"
    case B => "B"
    case C => "C"
    case D => "D"
    case E => "E"
    case F => "F"
  }

  /** Index of the first upper bound in `maxima` that `ds` does not exceed. */
  function FirstWithin(ds: real, maxima: seq<real>): (i: nat)
    ensures i <= |maxima|
    ensures forall j :: 0 <= j < i ==> ds > maxima[j]
    ensures i < |maxima| ==> ds <= maxima[i]
  {
    if maxima == [] || ds <= maxima[0] then 0 else 1 + FirstWithin(ds, maxima[1..])
  }
}
