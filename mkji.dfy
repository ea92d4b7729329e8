// backend/models/mkji.go: road capacity and level of service after the
// Indonesian Highway Capacity Manual of 1997 (MKJI 1997). Vehicle classes
// map to the categories MC (motorcycle), LV (light), HV (heavy) and UM
// (unmotorised); counts are weighted into passenger-car units (SMP).

module Mkji {
  import opened Common
  import opened Traffic
  import opened LocationModel

  datatype KategoriMKJI = MC | LV | HV | UM

  function KategoriName(k: KategoriMKJI): string
  {
    match k
    case MC => "MC"
    case LV => "LV"
    case HV => "HV"
    case UM => "UM"
  }

  /** SMPValues: passenger-car equivalents per category. */
  function SmpValue(k: KategoriMKJI): real
  {
    match k
    case MC => 0.4
    case LV => 1.0
    case HV => 1.3
    case UM => 0.0
  }

  const Kelas12ToMKJI: map<int, KategoriMKJI> :=
    map[1 := MC, 2 := LV, 3 := LV, 4 := LV, 5 := LV, 6 := HV, 7 := HV,
        8 := HV, 9 := HV, 10 := HV, 11 := UM, 12 := LV]
  const KelasPerkotaanToMKJI: map<int, KategoriMKJI> := map[1 := MC, 2 := LV, 3 := HV]
  const KelasLuarKotaToMKJI: map<int, KategoriMKJI> := map[1 := MC, 2 := LV, 3 := LV, 4 := HV, 5 := HV]
  const KelasBebasHambatanToMKJI: map<int, KategoriMKJI> := map[1 := LV, 2 := LV, 3 := HV, 4 := HV]

  /** The class table used for a location type, if it has one. */
  function TableFor(tipeLokasi: string): Option<map<int, KategoriMKJI>>
  {
    match tipeLokasi
    case "12_kelas" => Some(Kelas12ToMKJI)
    case "perkotaan" => Some(KelasPerkotaanToMKJI)
    case "luar_kota" => Some(KelasLuarKotaToMKJI)
    case "bebas_hambatan" => Some(KelasBebasHambatanToMKJI)
    case _ => None
  }

  /**
   * The 12-class mapping as published by the classification endpoint
   * (backend/controllers/mkji.controller.go:192-205), for classes 1..12.
   */
  const PublishedMapping12: seq<string> :=
    ["MC", "LV", "LV", "LV", "LV", "HV", "HV", "HV", "HV", "HV", "UM", "LV"]

  function GetKategoriMKJI(tipeLokasi: string, kelas: int): (k: KategoriMKJI)
    ensures !IsValidTipeLokasi(tipeLokasi) ==> k == LV
    ensures kelas < 1 ==> k == LV
  {
    match tipeLokasi
    case "12_kelas" => if kelas in Kelas12ToMKJI then Kelas12ToMKJI[kelas] else LV
    case "perkotaan" => if kelas in KelasPerkotaanToMKJI then KelasPerkotaanToMKJI[kelas] else LV
    case "luar_kota" => if kelas in KelasLuarKotaToMKJI then KelasLuarKotaToMKJI[kelas] else LV
    case "bebas_hambatan" => if kelas in KelasBebasHambatanToMKJI then KelasBebasHambatanToMKJI[kelas] else LV
    case _ => LV
  }

  /** The category is the table entry for a known pair, and LV otherwise. */
  lemma KategoriMKJIFromTable(tipeLokasi: string, kelas: int)
    ensures TableFor(tipeLokasi).Some? && kelas in TableFor(tipeLokasi).value ==>
      GetKategoriMKJI(tipeLokasi, kelas) == TableFor(tipeLokasi).value[kelas]
    ensures TableFor(tipeLokasi).None? || kelas !in TableFor(tipeLokasi).value ==>
      GetKategoriMKJI(tipeLokasi, kelas) == LV
  {
  }

  /** The 12-class table agrees with the mapping the classification endpoint publishes. */
  lemma KategoriMKJIMatchesPublished(kelas: int)
    requires 1 <= kelas <= 12
    ensures KategoriName(GetKategoriMKJI("12_kelas", kelas)) == PublishedMapping12[kelas - 1]
  {
  }

  // ---------------------------------------------------------------------
  // Counting (HitungMKJICount)
  // ---------------------------------------------------------------------

  datatype MkjiCount = MkjiCount(mc: int, lv: int, hv: int, um: int, totalMotor: int, totalSmp: real)

  /** Reference definition: the vehicles of category k in a class list. */
  function Tally(cs: seq<KelasDetail>, tipeLokasi: string, k: KategoriMKJI): int
  {
    if cs == [] then 0
    else
      var c := cs[|cs| - 1];
      Tally(cs[..|cs| - 1], tipeLokasi, k)
      + (if GetKategoriMKJI(tipeLokasi, c.kelas) == k then c.jumlahKendaraan else 0)
  }

  /** One class's contribution to the SMP sum: count times its category's SMP. */
  function SmpWeight(tipeLokasi: string): KelasDetail -> real
  {
    (kd: KelasDetail) => (kd.jumlahKendaraan as real) * SmpValue(GetKategoriMKJI(tipeLokasi, kd.kelas))
  }

  /** Every vehicle falls in exactly one category. */
  lemma {:induction false} TallyConserves(cs: seq<KelasDetail>, tipeLokasi: string)
    ensures Tally(cs, tipeLokasi, MC) + Tally(cs, tipeLokasi, LV) + Tally(cs, tipeLokasi, HV)
            + Tally(cs, tipeLokasi, UM) == SumCounts(cs)
  {
    if cs != [] {
      TallyConserves(cs[..|cs| - 1], tipeLokasi);
    }
  }

  /** Weighting the category totals equals weighting each class; UM weighs nothing. */
  lemma {:induction false} TallySmp(cs: seq<KelasDetail>, tipeLokasi: string)
    ensures 0.4 * (Tally(cs, tipeLokasi, MC) as real) + 1.0 * (Tally(cs, tipeLokasi, LV) as real)
            + 1.3 * (Tally(cs, tipeLokasi, HV) as real) == WeightedSum(cs, SmpWeight(tipeLokasi))
  {
    if cs != [] {
      TallySmp(cs[..|cs| - 1], tipeLokasi);
    }
  }

  /** The four category totals of a class list. */
  function Tallies(cs: seq<KelasDetail>, tipeLokasi: string): (int, int, int, int)
  {
    (Tally(cs, tipeLokasi, MC), Tally(cs, tipeLokasi, LV), Tally(cs, tipeLokasi, HV), Tally(cs, tipeLokasi, UM))
  }

  /** Adds j vehicles to the total of category k. */
  function Bump(t: (int, int, int, int), k: KategoriMKJI, j: int): (int, int, int, int)
  {
    match k
    case MC => (t.0 + j, t.1, t.2, t.3)
    case LV => (t.0, t.1 + j, t.2, t.3)
    case HV => (t.0, t.1, t.2 + j, t.3)
    case UM => (t.0, t.1, t.2, t.3 + j)
  }

  lemma TalliesStep(done: seq<KelasDetail>, kd: KelasDetail, tipeLokasi: string)
    ensures Tallies(done + [kd], tipeLokasi)
      == Bump(Tallies(done, tipeLokasi), GetKategoriMKJI(tipeLokasi, kd.kelas), kd.jumlahKendaraan)
  {
    assert (done + [kd])[..|done|] == done;
  }

  /** Adds one zone's classes to the running category totals. */
  method TallyZone(t: (int, int, int, int), ghost done: seq<KelasDetail>, cs: seq<KelasDetail>, tipeLokasi: string)
    returns (t': (int, int, int, int))
    requires t == Tallies(done, tipeLokasi)
    ensures t' == Tallies(done + cs, tipeLokasi)
  {
    t' := t;
    var c := 0;
    assert done + cs[..c] == done;
    while c < |cs|
      invariant 0 <= c <= |cs|
      invariant t' == Tallies(done + cs[..c], tipeLokasi)
    {
      var kd := cs[c];
      TalliesStep(done + cs[..c], kd, tipeLokasi);
      t' := Bump(t', GetKategoriMKJI(tipeLokasi, kd.kelas), kd.jumlahKendaraan);
      assert done + cs[..c + 1] == done + cs[..c] + [kd];
      c := c + 1;
    }
    assert cs[..c] == cs;
  }

  /** Adds every zone of one record to the running category totals. */
  method TallyZones(t: (int, int, int, int), ghost before: seq<KelasDetail>, zones: seq<ZonaArahData>, tipeLokasi: string)
    returns (t': (int, int, int, int))
    requires t == Tallies(before, tipeLokasi)
    ensures t' == Tallies(before + ZoneClasses(zones), tipeLokasi)
  {
    t' := t;
    var z := 0;
    assert before + ZoneClasses(zones[..z]) == before;
    while z < |zones|
      invariant 0 <= z <= |zones|
      invariant t' == Tallies(before + ZoneClasses(zones[..z]), tipeLokasi)
    {
      t' := TallyZone(t', before + ZoneClasses(zones[..z]), zones[z].kelasData, tipeLokasi);
      ZoneClassesStep(zones, z);
      assert before + ZoneClasses(zones[..z + 1]) == before + ZoneClasses(zones[..z]) + zones[z].kelasData;
      z := z + 1;
    }
    assert zones[..z] == zones;
  }

  /** The nested loops of HitungMKJICount: every class of every zone of every record. */
  method TallyRecords(list: seq<TrafficData>, tipeLokasi: string) returns (t: (int, int, int, int))
    ensures t == Tallies(AllClasses(list), tipeLokasi)
  {
    t := (0, 0, 0, 0);
    var i := 0;
    while i < |list|
      invariant 0 <= i <= |list|
      invariant t == Tallies(AllClasses(list[..i]), tipeLokasi)
    {
      t := TallyZones(t, AllClasses(list[..i]), list[i].zonaArahData, tipeLokasi);
      AllClassesStep(list, i);
      i := i + 1;
    }
    assert list[..i] == list;
  }

  method HitungMKJICount(list: seq<TrafficData>, tipeLokasi: string) returns (count: MkjiCount)
    ensures (count.mc, count.lv, count.hv, count.um) == Tallies(AllClasses(list), tipeLokasi)
    ensures count.mc + count.lv + count.hv + count.um == SumCounts(AllClasses(list))
    ensures count.totalMotor == count.mc + count.lv + count.hv
    ensures count.totalSmp == 0.4 * (count.mc as real) + 1.0 * (count.lv as real) + 1.3 * (count.hv as real)
    ensures count.totalSmp == WeightedSum(AllClasses(list), SmpWeight(tipeLokasi))
  {
    var t := TallyRecords(list, tipeLokasi);
    TallyConserves(AllClasses(list), tipeLokasi);
    TallySmp(AllClasses(list), tipeLokasi);
    var (mc, lv, hv, um) := t;
    count := MkjiCount(mc, lv, hv, um, mc + lv + hv,
      (mc as real) * SmpValue(MC) + (lv as real) * SmpValue(LV) + (hv as real) * SmpValue(HV));
  }

  // ---------------------------------------------------------------------
  // Daily averages and peak-hour flow
  // ---------------------------------------------------------------------

  /** HitungLHR: average vehicles per day over `jumlahHari` days. */
  function HitungLHR(totalKendaraan: int, jumlahHari: int): (lhr: real)
    ensures jumlahHari <= 0 ==> lhr == 0.0
    ensures jumlahHari > 0 ==> lhr * (jumlahHari as real) == totalKendaraan as real
  {
    if jumlahHari <= 0 then 0.0 else (totalKendaraan as real) / (jumlahHari as real)
  }

  /** HitungLHRSMP: average SMP per day. */
  function HitungLHRSMP(count: MkjiCount, jumlahHari: int): (lhr: real)
    ensures jumlahHari <= 0 ==> lhr == 0.0
    ensures jumlahHari > 0 ==> lhr * (jumlahHari as real) == count.totalSmp
  {
    if jumlahHari <= 0 then 0.0 else count.totalSmp / (jumlahHari as real)
  }

  /**
   * HitungArusLaluLintas: the peak hour and its SMP flow. Among hours with
   * the same maximal sum the one returned depends on Go's map order.
   */
  method HitungArusLaluLintas(list: seq<TrafficData>, tipeLokasi: string) returns (arus: real, jamPuncak: string)
    ensures |list| == 0 ==> arus == 0.0 && jamPuncak == ""
    ensures arus >= 0.0
    ensures jamPuncak == "" ==> arus == 0.0
    ensures jamPuncak == "" <==>
      forall i :: 0 <= i < |list| ==> HourTotal(list, JamKey(list[i].hour), SmpWeight(tipeLokasi)) <= 0.0
    ensures jamPuncak != "" ==>
      (exists i :: 0 <= i < |list| && JamKey(list[i].hour) == jamPuncak)
      && arus == HourTotal(list, jamPuncak, SmpWeight(tipeLokasi))
    ensures forall i :: 0 <= i < |list| ==> HourTotal(list, JamKey(list[i].hour), SmpWeight(tipeLokasi)) <= arus
  {
    arus, jamPuncak := HourlyPeak(list, SmpWeight(tipeLokasi));
  }

  // ---------------------------------------------------------------------
  // Capacity C = Co x FCW x FCSP x FCSF x FCCS
  // ---------------------------------------------------------------------

  /** GetKapasitasDasar: base capacity Co in SMP per hour. */
  function GetKapasitasDasar(tipeArah: string, tipeLokasi: string): (co: real)
    ensures tipeLokasi == "bebas_hambatan" ==> co == (if tipeArah == "62d" then 6900.0 else 4600.0)
    ensures tipeLokasi != "bebas_hambatan" ==>
      co == (match tipeArah case "42d" => 3300.0 case "42ud" => 3000.0 case "62d" => 4950.0 case _ => 2900.0)
    ensures 2900.0 <= co <= 6900.0
  {
    if tipeLokasi == "bebas_hambatan" then
      match tipeArah
      case "42d" => 2300.0 * 2.0
      case "62d" => 2300.0 * 3.0
      case _ => 2300.0 * 2.0
    else
      match tipeArah
      case "22ud" => 2900.0
      case "42d" => 1650.0 * 2.0
      case "42ud" => 1500.0 * 2.0
      case "62d" => 1650.0 * 3.0
      case _ => 2900.0
  }

  /** GetFCW: carriageway-width factor; 7 m is the reference width. */
  function GetFCW(lebarJalur: int, tipeArah: string): (f: real)
    ensures tipeArah == "22ud" ==> f in {0.56, 0.87, 1.00, 1.14}
    ensures tipeArah != "22ud" ==> f in {0.69, 0.91, 1.00, 1.04, 1.08}
    ensures lebarJalur == 7 ==> f == 1.0
    ensures 0.56 <= f <= 1.14
  {
    if tipeArah == "22ud" then
      if lebarJalur <= 5 then 0.56
      else if lebarJalur == 6 then 0.87
      else if lebarJalur == 7 then 1.00
      else if lebarJalur >= 8 then 1.14
      else 1.00
    else
      if lebarJalur <= 5 then 0.69
      else if lebarJalur == 6 then 0.91
      else if lebarJalur == 7 then 1.00
      else if lebarJalur == 8 then 1.04
      else if lebarJalur >= 9 then 1.08
      else 1.00
  }

  /** A wider carriageway never lowers the width factor. */
  lemma FcwNondecreasing(a: int, b: int, tipeArah: string)
    requires a <= b
    ensures GetFCW(a, tipeArah) <= GetFCW(b, tipeArah)
  {
  }

  /** GetFCSP: directional-split factor; divided roads ignore the split. */
  function GetFCSP(persentase: string, tipeArah: string): (f: real)
    ensures tipeArah == "42d" || tipeArah == "62d" ==> f == 1.0
    ensures !IsValidPersentase(persentase) ==> f == 1.0
    ensures 0.88 <= f <= 1.0
  {
    if tipeArah == "42d" || tipeArah == "62d" then 1.0
    else
      match persentase
      case "50-50" => 1.00
      case "55-45" => 0.97
      case "60-40" => 0.94
      case "65-35" => 0.91
      case "70-30" => 0.88
      case _ => 1.00
  }

  /** Rank of a side-friction class, VL (0) to VH (4). */
  function FrictionRank(kelasHambatan: string): int
  {
    match kelasHambatan
    case "VL" => 0
    case "L" => 1
    case "M" => 2
    case "H" => 3
    case "VH" => 4
    case _ => -1
  }

  /**
   * GetFCSF: side-friction factor (MKJI 1997 table) by friction type and
   * class; the shoulder width argument does not influence the value.
   */
  function GetFCSF(tipeHambatan: string, kelasHambatan: string, lebarBahu: real): (f: real)
    ensures !IsValidTipeHambatan(tipeHambatan) || !IsValidKelasHambatan(kelasHambatan) ==> f == 0.95
    ensures 0.78 <= f <= 1.0
  {
    match tipeHambatan
    case "bahu_jalan" =>
      (match kelasHambatan
       case "VL" => 1.00 case "L" => 0.98 case "M" => 0.95 case "H" => 0.90 case "VH" => 0.85
       case _ => 0.95)
    case "kereb" =>
      (match kelasHambatan
       case "VL" => 0.98 case "L" => 0.95 case "M" => 0.91 case "H" => 0.85 case "VH" => 0.78
       case _ => 0.95)
    case _ => 0.95
  }

  /** More side friction never raises FCSF, and a kerb never beats a shoulder. */
  lemma FcsfOrdering(tipeHambatan: string, k1: string, k2: string, lebarBahu: real)
    requires IsValidTipeHambatan(tipeHambatan) && IsValidKelasHambatan(k1) && IsValidKelasHambatan(k2)
    requires FrictionRank(k1) <= FrictionRank(k2)
    ensures GetFCSF(tipeHambatan, k2, lebarBahu) <= GetFCSF(tipeHambatan, k1, lebarBahu)
    ensures GetFCSF("kereb", k1, lebarBahu) <= GetFCSF("bahu_jalan", k1, lebarBahu)
  {
  }

  /** GetFCCS: city-size factor by population in millions. */
  function GetFCCS(ukuranKota: real): (f: real)
    ensures 0.86 <= f <= 1.04
    ensures 1.0 <= ukuranKota < 3.0 ==> f == 1.0
  {
    if ukuranKota < 0.1 then 0.86
    else if ukuranKota < 0.5 then 0.90
    else if ukuranKota < 1.0 then 0.94
    else if ukuranKota < 3.0 then 1.00
    else 1.04
  }

  lemma FccsNondecreasing(a: real, b: real)
    requires a <= b
    ensures GetFCCS(a) <= GetFCCS(b)
  {
  }

  datatype MkjiCapacity = MkjiCapacity(kapasitas: real, co: real, fcw: real, fcsp: real, fcsf: real, fccs: real)

  lemma MulBounds(a: real, b: real, loA: real, hiA: real, loB: real, hiB: real)
    requires 0.0 <= loA <= a <= hiA && 0.0 <= loB <= b <= hiB
    ensures loA * loB <= a * b <= hiA * hiB
  {
    assert a * b - loA * loB == a * (b - loB) + loB * (a - loA);
    assert hiA * hiB - a * b == hiA * (hiB - b) + b * (hiA - a);
  }

  lemma ProductBounds(co: real, fcw: real, fcsp: real, fcsf: real, fccs: real)
    requires 2900.0 <= co <= 6900.0 && 0.56 <= fcw <= 1.14 && 0.88 <= fcsp <= 1.0
    requires 0.78 <= fcsf <= 1.0 && 0.86 <= fccs <= 1.04
    ensures 2900.0 * 0.56 * 0.88 * 0.78 * 0.86 <= CapacityOf(co, fcw, fcsp, fcsf, fccs).kapasitas
    ensures CapacityOf(co, fcw, fcsp, fcsf, fccs).kapasitas <= 6900.0 * 1.14 * 1.0 * 1.0 * 1.04
  {
    MulBounds(co, fcw, 2900.0, 6900.0, 0.56, 1.14);
    MulBounds(co * fcw, fcsp, 2900.0 * 0.56, 6900.0 * 1.14, 0.88, 1.0);
    MulBounds(co * fcw * fcsp, fcsf, 2900.0 * 0.56 * 0.88, 6900.0 * 1.14 * 1.0, 0.78, 1.0);
    MulBounds(co * fcw * fcsp * fcsf, fccs, 2900.0 * 0.56 * 0.88 * 0.78, 6900.0 * 1.14 * 1.0 * 1.0, 0.86, 1.04);
  }

  /** C = Co x FCW x FCSP x FCSF x FCCS, keeping every factor for the report. */
  function CapacityOf(co: real, fcw: real, fcsp: real, fcsf: real, fccs: real): MkjiCapacity
  {
    MkjiCapacity(co * fcw * fcsp * fcsf * fccs, co, fcw, fcsp, fcsf, fccs)
  }

  /** HitungKapasitas: capacity of a location; FCSF is read at a 1.5 m shoulder. */
  function HitungKapasitas(location: Location): (c: MkjiCapacity)
    ensures c == CapacityOf(c.co, c.fcw, c.fcsp, c.fcsf, c.fccs)
    ensures c.co == GetKapasitasDasar(location.tipeArah, location.tipeLokasi)
    ensures c.fcw == GetFCW(location.lebarJalur, location.tipeArah)
    ensures c.fcsp == GetFCSP(location.persentase, location.tipeArah)
    ensures c.fcsf == GetFCSF(location.tipeHambatan, location.kelasHambatan, 1.5)
    ensures c.fccs == GetFCCS(location.ukuranKota)
  {
    CapacityOf(
      GetKapasitasDasar(location.tipeArah, location.tipeLokasi),
      GetFCW(location.lebarJalur, location.tipeArah),
      GetFCSP(location.persentase, location.tipeArah),
      GetFCSF(location.tipeHambatan, location.kelasHambatan, 1.5),
      GetFCCS(location.ukuranKota))
  }

  /** Whatever the location's fields, the capacity stays within the extremes of the tables. */
  lemma KapasitasBounds(location: Location)
    ensures 2900.0 * 0.56 * 0.88 * 0.78 * 0.86 <= HitungKapasitas(location).kapasitas
    ensures HitungKapasitas(location).kapasitas <= 6900.0 * 1.14 * 1.0 * 1.0 * 1.04
  {
    var co := GetKapasitasDasar(location.tipeArah, location.tipeLokasi);
    var fcw := GetFCW(location.lebarJalur, location.tipeArah);
    var fcsp := GetFCSP(location.persentase, location.tipeArah);
    var fcsf := GetFCSF(location.tipeHambatan, location.kelasHambatan, 1.5);
    var fccs := GetFCCS(location.ukuranKota);
    ProductBounds(co, fcw, fcsp, fcsf, fccs);
    assert HitungKapasitas(location) == CapacityOf(co, fcw, fcsp, fcsf, fccs);
  }

  /**
   * Under the manual's reference conditions (7 m carriageway, 50-50 split,
   * very low friction on a shoulder, a city of 1 to 3 million) the capacity
   * is the base capacity.
   */
  lemma KapasitasAtReference(location: Location)
    requires location.lebarJalur == 7 && location.persentase == "50-50"
    requires location.tipeHambatan == "bahu_jalan" && location.kelasHambatan == "VL"
    requires 1.0 <= location.ukuranKota < 3.0
    ensures HitungKapasitas(location).kapasitas == GetKapasitasDasar(location.tipeArah, location.tipeLokasi)
  {
    var co := GetKapasitasDasar(location.tipeArah, location.tipeLokasi);
    assert GetFCW(7, location.tipeArah) == 1.0;
    assert GetFCSP("50-50", location.tipeArah) == 1.0;
    assert GetFCSF("bahu_jalan", "VL", 1.5) == 1.0;
    assert GetFCCS(location.ukuranKota) == 1.0;
    assert HitungKapasitas(location) == CapacityOf(co, 1.0, 1.0, 1.0, 1.0);
  }

  /** HitungDerajatKejenuhan: degree of saturation DS = Q / C. */
  function HitungDerajatKejenuhan(arus: real, kapasitas: real): (ds: real)
    ensures kapasitas <= 0.0 ==> ds == 0.0
    ensures kapasitas > 0.0 ==> ds * kapasitas == arus
    ensures kapasitas > 0.0 && arus >= 0.0 ==> ds >= 0.0
  {
    if kapasitas <= 0.0 then 0.0 else arus / kapasitas
  }

  // ---------------------------------------------------------------------
  // Level of service
  // ---------------------------------------------------------------------

  /** The ds_max column published by the classification endpoint, A to F. */
  const PublishedDsMax: seq<real> := [0.35, 0.55, 0.75, 0.85, 1.00, 999.0]

  /** The level-of-service thresholds of GetTingkatPelayanan. */
  function TingkatPelayanan(ds: real): (l: ServiceLevel)
    ensures l == A <==> ds <= 0.35
    ensures l == F <==> ds > 1.0
  {
    if ds <= 0.35 then A
    else if ds <= 0.55 then B
    else if ds <= 0.75 then C
    else if ds <= 0.85 then D
    else if ds <= 1.00 then E
    else F
  }

  /** GetTingkatPelayanan: the level-of-service letter and its description. */
  function GetTingkatPelayanan(ds: real): (los: (string, string))
    ensures los.0 == "A" <==> ds <= 0.35
    ensures los.0 == "F" <==> ds > 1.0
    ensures los.0 == Letter(TingkatPelayanan(ds))
  {
    match TingkatPelayanan(ds)
    case A => ("A", "Arus bebas, kecepatan tinggi, kepadatan lalu lintas rendah")
    case B => ("B", "Arus stabil, kecepatan sedikit terbatas oleh lalu lintas")
    case C => ("C", "Arus stabil, kecepatan dan kebebasan bergerak lebih terbatas")
    case D => ("D", "Arus mendekati tidak stabil, kecepatan menurun")
    case E => ("E", "Arus tidak stabil, kecepatan rendah dan bervariasi")
    case F => ("F", "Arus terhenti, kondisi macet total")
  }

  /** A higher degree of saturation never gives a better letter. */
  lemma TingkatPelayananMonotone(ds1: real, ds2: real)
    requires ds1 <= ds2
    ensures Rank(TingkatPelayanan(ds1)) <= Rank(TingkatPelayanan(ds2))
  {
  }

  /** The letter is the first row of the published table whose ds_max covers ds. */
  lemma {:induction false} TingkatPelayananMatchesPublished(ds: real)
    requires ds <= 999.0
    ensures Rank(TingkatPelayanan(ds)) == FirstWithin(ds, PublishedDsMax)
  {
    var t0 := PublishedDsMax;
    var t1 := [0.55, 0.75, 0.85, 1.00, 999.0];
    var t2 := [0.75, 0.85, 1.00, 999.0];
    var t3 := [0.85, 1.00, 999.0];
    var t4 := [1.00, 999.0];
    var t5 := [999.0];
    assert t0[1..] == t1 && t1[1..] == t2 && t2[1..] == t3;
    assert t3[1..] == t4 && t4[1..] == t5;
    assert FirstWithin(ds, t5) == 0;
    assert FirstWithin(ds, t4) == if ds <= 1.00 then 0 else 1;
    assert FirstWithin(ds, t3) == if ds <= 0.85 then 0 else 1 + FirstWithin(ds, t4);
    assert FirstWithin(ds, t2) == if ds <= 0.75 then 0 else 1 + FirstWithin(ds, t3);
    assert FirstWithin(ds, t1) == if ds <= 0.55 then 0 else 1 + FirstWithin(ds, t2);
    assert FirstWithin(ds, t0) == if ds <= 0.35 then 0 else 1 + FirstWithin(ds, t1);
  }
}
