// backend/models/pkji.go: road capacity and level of service after the
// Indonesian Highway Capacity Guideline of 2023 (PKJI 2023). Vehicle classes
// map to SM (motorcycle), KR (light), KB (heavy) and KTB (non-motorised);
// counts are weighted into passenger-car equivalents (SKR) by EMP values.

module Pkji {
  import opened Common
  import opened Traffic
  import opened LocationModel

  datatype KategoriPKJI = SM | KR | KB | KTB

  const Kelas12ToPKJI: map<int, KategoriPKJI> :=
    map[1 := SM, 2 := KR, 3 := KR, 4 := KR, 5 := KR, 6 := KB, 7 := KB,
        8 := KB, 9 := KB, 10 := KB, 11 := KTB, 12 := KR]
  const KelasPerkotaanToPKJI: map<int, KategoriPKJI> := map[1 := SM, 2 := KR, 3 := KB]
  const KelasLuarKotaToPKJI: map<int, KategoriPKJI> := map[1 := SM, 2 := KR, 3 := KR, 4 := KB, 5 := KB]
  const KelasBebasHambatanToPKJI: map<int, KategoriPKJI> := map[1 := KR, 2 := KR, 3 := KB, 4 := KB]

  /** The class table used for a location type, if it has one. */
  function TableFor(tipeLokasi: string): Option<map<int, KategoriPKJI>>
  {
    match tipeLokasi
    case "12_kelas" => Some(Kelas12ToPKJI)
    case "perkotaan" => Some(KelasPerkotaanToPKJI)
    case "luar_kota" => Some(KelasLuarKotaToPKJI)
    case "bebas_hambatan" => Some(KelasBebasHambatanToPKJI)
    case _ => None
  }

  /**
   * GetKategoriPKJI: the category of a class under the table of its location
   * type; a class the table does not list, or a type without a table, is KR.
   * Written by cases; KategoriPKJIFromTable shows it agrees with the tables.
   */
  function GetKategoriPKJI(tipeLokasi: string, kelas: int): (k: KategoriPKJI)
    ensures k == SM ==> kelas == 1 && tipeLokasi != "bebas_hambatan"
    ensures k == KTB <==> tipeLokasi == "12_kelas" && kelas == 11
    ensures !IsValidTipeLokasi(tipeLokasi) ==> k == KR
  {
    match tipeLokasi
    case "12_kelas" => if kelas == 1 then SM else if 6 <= kelas <= 10 then KB else if kelas == 11 then KTB else KR
    case "perkotaan" => if kelas == 1 then SM else if kelas == 3 then KB else KR
    case "luar_kota" => if kelas == 1 then SM else if kelas == 4 || kelas == 5 then KB else KR
    case "bebas_hambatan" => if kelas == 3 || kelas == 4 then KB else KR
    case _ => KR
  }

  /** The category is the table entry for a known pair, and KR otherwise. */
  lemma KategoriPKJIFromTable(tipeLokasi: string, kelas: int)
    ensures TableFor(tipeLokasi).Some? && kelas in TableFor(tipeLokasi).value ==>
      GetKategoriPKJI(tipeLokasi, kelas) == TableFor(tipeLokasi).value[kelas]
    ensures TableFor(tipeLokasi).None? || kelas !in TableFor(tipeLokasi).value ==>
      GetKategoriPKJI(tipeLokasi, kelas) == KR
  {
    if tipeLokasi == "12_kelas" {
      TableAgrees(tipeLokasi, Kelas12ToPKJI, kelas);
    } else if tipeLokasi == "perkotaan" {
      TableAgrees(tipeLokasi, KelasPerkotaanToPKJI, kelas);
    } else if tipeLokasi == "luar_kota" {
      TableAgrees(tipeLokasi, KelasLuarKotaToPKJI, kelas);
    } else if tipeLokasi == "bebas_hambatan" {
      TableAgrees(tipeLokasi, KelasBebasHambatanToPKJI, kelas);
    }
  }

  /** One table against GetKategoriPKJI, checked class by class. */
  lemma TableAgrees(tipeLokasi: string, table: map<int, KategoriPKJI>, kelas: int)
    requires TableFor(tipeLokasi) == Some(table)
    ensures kelas in table ==> GetKategoriPKJI(tipeLokasi, kelas) == table[kelas]
    ensures kelas !in table ==> GetKategoriPKJI(tipeLokasi, kelas) == KR
  {
  }

  /** The road types the EMPValuesPKJI table has a column for. */
  predicate HasEmpColumn(tipeLokasi: string)
  {
    tipeLokasi == "perkotaan" || tipeLokasi == "luar_kota" || tipeLokasi == "bebas_hambatan"
  }

  /**
   * GetEMPPKJI: the EMPValuesPKJI entry for a category and road type, or
   * 1.0 for a road type the table has no column for.
   */
  function GetEMPPKJI(k: KategoriPKJI, tipeLokasi: string): (e: real)
    ensures k == KR ==> e == 1.0
    ensures k == KB ==> e == (if tipeLokasi in {"perkotaan", "luar_kota", "bebas_hambatan"} then 1.2 else 1.0)
    ensures 0.0 <= e <= 1.2
  {
    match tipeLokasi
    case "perkotaan" => (match k case SM => 0.25 case KR => 1.0 case KB => 1.2 case KTB => 0.0)
    case "luar_kota" => (match k case SM => 0.5 case KR => 1.0 case KB => 1.2 case KTB => 0.0)
    case "bebas_hambatan" => (match k case SM => 0.0 case KR => 1.0 case KB => 1.2 case KTB => 0.0)
    case _ => 1.0
  }

  /**
   * The EMP table: a road type without a column weighs every category 1.0;
   * cars are the unit; heavy vehicles weigh 1.2 and non-motorised ones
   * nothing on the three tabulated road types; no weight exceeds 1.2.
   */
  lemma EmpValues(k: KategoriPKJI, tipeLokasi: string)
    ensures !HasEmpColumn(tipeLokasi) ==> GetEMPPKJI(k, tipeLokasi) == 1.0
    ensures k == KR ==> GetEMPPKJI(k, tipeLokasi) == 1.0
    ensures HasEmpColumn(tipeLokasi) && k == KB ==> GetEMPPKJI(k, tipeLokasi) == 1.2
    ensures HasEmpColumn(tipeLokasi) && k == KTB ==> GetEMPPKJI(k, tipeLokasi) == 0.0
    ensures 0.0 <= GetEMPPKJI(k, tipeLokasi) <= 1.2
  {
  }

  // ---------------------------------------------------------------------
  // Counting (HitungPKJICount)
  // ---------------------------------------------------------------------

  datatype PkjiCount = PkjiCount(sm: int, kr: int, kb: int, ktb: int, totalMotor: int, totalSkr: real)

  /** Selects the classes that fall in category k. */
  function InCategory(tipeLokasi: string, k: KategoriPKJI): KelasDetail -> bool
  {
    (kd: KelasDetail) => GetKategoriPKJI(tipeLokasi, kd.kelas) == k
  }

  /** Reference definition: the vehicles of category k in a class list. */
  function Tally(cs: seq<KelasDetail>, tipeLokasi: string, k: KategoriPKJI): int
  {
    if cs == [] then 0
    else
      var c := cs[|cs| - 1];
      Tally(cs[..|cs| - 1], tipeLokasi, k)
      + (if GetKategoriPKJI(tipeLokasi, c.kelas) == k then c.jumlahKendaraan else 0)
  }

  lemma {:induction false} TallyIsCountIf(cs: seq<KelasDetail>, tipeLokasi: string, k: KategoriPKJI)
    ensures Tally(cs, tipeLokasi, k) == CountIf(cs, InCategory(tipeLokasi, k))
  {
    if cs != [] {
      TallyIsCountIf(cs[..|cs| - 1], tipeLokasi, k);
    }
  }

  /** One class's contribution to the hourly SKR sum: count times its category's EMP. */
  function EmpWeight(tipeLokasi: string): KelasDetail -> real
  {
    (kd: KelasDetail) => (kd.jumlahKendaraan as real) * GetEMPPKJI(GetKategoriPKJI(tipeLokasi, kd.kelas), tipeLokasi)
  }

  /** Every vehicle falls in exactly one category. */
  lemma {:induction false} TallyConserves(cs: seq<KelasDetail>, tipeLokasi: string)
    ensures Tally(cs, tipeLokasi, SM) + Tally(cs, tipeLokasi, KR) + Tally(cs, tipeLokasi, KB)
            + Tally(cs, tipeLokasi, KTB) == SumCounts(cs)
  {
    if cs != [] {
      TallyConserves(cs[..|cs| - 1], tipeLokasi);
    }
  }

  /** Within one category every vehicle weighs that category's EMP. */
  lemma EmpUniform(tipeLokasi: string, k: KategoriPKJI)
    ensures forall c :: InCategory(tipeLokasi, k)(c) ==>
      EmpWeight(tipeLokasi)(c) == (c.jumlahKendaraan as real) * GetEMPPKJI(k, tipeLokasi)
  {
    forall c | InCategory(tipeLokasi, k)(c)
      ensures EmpWeight(tipeLokasi)(c) == (c.jumlahKendaraan as real) * GetEMPPKJI(k, tipeLokasi)
    {
      assert GetKategoriPKJI(tipeLokasi, c.kelas) == k;
    }
  }

  lemma CategoryWeight(cs: seq<KelasDetail>, tipeLokasi: string, k: KategoriPKJI)
    ensures WeightIf(cs, InCategory(tipeLokasi, k), EmpWeight(tipeLokasi))
      == (CountIf(cs, InCategory(tipeLokasi, k)) as real) * GetEMPPKJI(k, tipeLokasi)
  {
    EmpUniform(tipeLokasi, k);
    WeightIfUniform(cs, InCategory(tipeLokasi, k), EmpWeight(tipeLokasi), GetEMPPKJI(k, tipeLokasi));
  }

  /** Weighting a category class by class is weighting its tally n once. */
  lemma CategoryWeightIsTally(cs: seq<KelasDetail>, tipeLokasi: string, k: KategoriPKJI, n: int)
    requires n == Tally(cs, tipeLokasi, k)
    ensures WeightIf(cs, InCategory(tipeLokasi, k), EmpWeight(tipeLokasi)) == (n as real) * GetEMPPKJI(k, tipeLokasi)
  {
    CategoryWeight(cs, tipeLokasi, k);
    TallyIsCountIf(cs, tipeLokasi, k);
  }

  /** The class-by-class weight splits into the four categories. */
  lemma {:induction false} WeightSplits(cs: seq<KelasDetail>, tipeLokasi: string)
    ensures WeightIf(cs, InCategory(tipeLokasi, SM), EmpWeight(tipeLokasi))
            + WeightIf(cs, InCategory(tipeLokasi, KR), EmpWeight(tipeLokasi))
            + WeightIf(cs, InCategory(tipeLokasi, KB), EmpWeight(tipeLokasi))
            + WeightIf(cs, InCategory(tipeLokasi, KTB), EmpWeight(tipeLokasi))
            == WeightedSum(cs, EmpWeight(tipeLokasi))
  {
    if cs != [] {
      WeightSplits(cs[..|cs| - 1], tipeLokasi);
    }
  }

  /** The SKR total HitungPKJICount reports for category totals (sm, kr, kb, ktb): KTB is left out. */
  function SkrOf(t: (int, int, int, int), tipeLokasi: string): real
  {
    (t.0 as real) * GetEMPPKJI(SM, tipeLokasi) + (t.1 as real) * GetEMPPKJI(KR, tipeLokasi)
    + (t.2 as real) * GetEMPPKJI(KB, tipeLokasi)
  }

  lemma SkrOfParts(cs: seq<KelasDetail>, tipeLokasi: string, sm: real, kr: real, kb: real)
    requires sm == (Tally(cs, tipeLokasi, SM) as real) * GetEMPPKJI(SM, tipeLokasi)
    requires kr == (Tally(cs, tipeLokasi, KR) as real) * GetEMPPKJI(KR, tipeLokasi)
    requires kb == (Tally(cs, tipeLokasi, KB) as real) * GetEMPPKJI(KB, tipeLokasi)
    ensures SkrOf(Tallies(cs, tipeLokasi), tipeLokasi) == sm + kr + kb
  {
  }

  lemma SkrWeights(cs: seq<KelasDetail>, tipeLokasi: string)
    ensures SkrOf(Tallies(cs, tipeLokasi), tipeLokasi)
      == WeightIf(cs, InCategory(tipeLokasi, SM), EmpWeight(tipeLokasi))
       + WeightIf(cs, InCategory(tipeLokasi, KR), EmpWeight(tipeLokasi))
       + WeightIf(cs, InCategory(tipeLokasi, KB), EmpWeight(tipeLokasi))
  {
    CategoryWeightIsTally(cs, tipeLokasi, SM, Tally(cs, tipeLokasi, SM));
    CategoryWeightIsTally(cs, tipeLokasi, KR, Tally(cs, tipeLokasi, KR));
    CategoryWeightIsTally(cs, tipeLokasi, KB, Tally(cs, tipeLokasi, KB));
    var w := EmpWeight(tipeLokasi);
    SkrOfParts(cs, tipeLokasi, WeightIf(cs, InCategory(tipeLokasi, SM), w),
      WeightIf(cs, InCategory(tipeLokasi, KR), w), WeightIf(cs, InCategory(tipeLokasi, KB), w));
  }

  lemma TallyEmp(cs: seq<KelasDetail>, tipeLokasi: string)
    ensures SkrOf(Tallies(cs, tipeLokasi), tipeLokasi) + (Tally(cs, tipeLokasi, KTB) as real) * GetEMPPKJI(KTB, tipeLokasi)
            == WeightedSum(cs, EmpWeight(tipeLokasi))
  {
    SkrWeights(cs, tipeLokasi);
    CategoryWeightIsTally(cs, tipeLokasi, KTB, Tally(cs, tipeLokasi, KTB));
    WeightSplits(cs, tipeLokasi);
  }

  /** The four category totals of a class list. */
  function Tallies(cs: seq<KelasDetail>, tipeLokasi: string): (int, int, int, int)
  {
    (Tally(cs, tipeLokasi, SM), Tally(cs, tipeLokasi, KR), Tally(cs, tipeLokasi, KB), Tally(cs, tipeLokasi, KTB))
  }

  /** Adds j vehicles to the total of category k. */
  function Bump(t: (int, int, int, int), k: KategoriPKJI, j: int): (int, int, int, int)
  {
    match k
    case SM => (t.0 + j, t.1, t.2, t.3)
    case KR => (t.0, t.1 + j, t.2, t.3)
    case KB => (t.0, t.1, t.2 + j, t.3)
    case KTB => (t.0, t.1, t.2, t.3 + j)
  }

  lemma TalliesStep(done: seq<KelasDetail>, kd: KelasDetail, tipeLokasi: string)
    ensures Tallies(done + [kd], tipeLokasi)
      == Bump(Tallies(done, tipeLokasi), GetKategoriPKJI(tipeLokasi, kd.kelas), kd.jumlahKendaraan)
  {
    assert (done + [kd])[..|done|] == done;
  }

  /** Adds one zone's classes to the running category totals. */
  method TallyZone(t: (int, int, int, int), ghost done: seq<KelasDetail>, cs: seq<KelasDetail>, tipeLokasi: string)
    returns (t': (int, int, int, int))
    requires t == Tallies(done, tipeLokasi)
    ensures t' == Tallies(done + cs, tipeLokasi)
  {
    t' := t;
    var c := 0;
    assert done + cs[..c] == done;
    while c < |cs|
      invariant 0 <= c <= |cs|
      invariant t' == Tallies(done + cs[..c], tipeLokasi)
    {
      var kd := cs[c];
      TalliesStep(done + cs[..c], kd, tipeLokasi);
      t' := Bump(t', GetKategoriPKJI(tipeLokasi, kd.kelas), kd.jumlahKendaraan);
      assert done + cs[..c + 1] == done + cs[..c] + [kd];
      c := c + 1;
    }
    assert cs[..c] == cs;
  }

  /** Adds every zone of one record to the running category totals. */
  method TallyZones(t: (int, int, int, int), ghost before: seq<KelasDetail>, zones: seq<ZonaArahData>, tipeLokasi: string)
    returns (t': (int, int, int, int))
    requires t == Tallies(before, tipeLokasi)
    ensures t' == Tallies(before + ZoneClasses(zones), tipeLokasi)
  {
    t' := t;
    var z := 0;
    assert before + ZoneClasses(zones[..z]) == before;
    while z < |zones|
      invariant 0 <= z <= |zones|
      invariant t' == Tallies(before + ZoneClasses(zones[..z]), tipeLokasi)
    {
      t' := TallyZone(t', before + ZoneClasses(zones[..z]), zones[z].kelasData, tipeLokasi);
      ZoneClassesStep(zones, z);
      assert before + ZoneClasses(zones[..z + 1]) == before + ZoneClasses(zones[..z]) + zones[z].kelasData;
      z := z + 1;
    }
    assert zones[..z] == zones;
  }

  /** The nested loops of HitungPKJICount: every class of every zone of every record. */
  method TallyRecords(list: seq<TrafficData>, tipeLokasi: string) returns (t: (int, int, int, int))
    ensures t == Tallies(AllClasses(list), tipeLokasi)
  {
    t := (0, 0, 0, 0);
    var i := 0;
    while i < |list|
      invariant 0 <= i <= |list|
      invariant t == Tallies(AllClasses(list[..i]), tipeLokasi)
    {
      t := TallyZones(t, AllClasses(list[..i]), list[i].zonaArahData, tipeLokasi);
      AllClassesStep(list, i);
      i := i + 1;
    }
    assert list[..i] == list;
  }

  method HitungPKJICount(list: seq<TrafficData>, tipeLokasi: string) returns (count: PkjiCount)
    ensures (count.sm, count.kr, count.kb, count.ktb) == Tallies(AllClasses(list), tipeLokasi)
    ensures count.sm + count.kr + count.kb + count.ktb == SumCounts(AllClasses(list))
    ensures count.totalMotor == count.sm + count.kr + count.kb
    ensures count.totalSkr == SkrOf((count.sm, count.kr, count.kb, count.ktb), tipeLokasi)
    ensures count.totalSkr + (count.ktb as real) * GetEMPPKJI(KTB, tipeLokasi)
      == WeightedSum(AllClasses(list), EmpWeight(tipeLokasi))
  {
    var t := TallyRecords(list, tipeLokasi);
    TallyConserves(AllClasses(list), tipeLokasi);
    TallyEmp(AllClasses(list), tipeLokasi);
    count := PkjiCount(t.0, t.1, t.2, t.3, t.0 + t.1 + t.2, SkrOf(t, tipeLokasi));
  }

  /**
   * On the three road types of the EMP table, non-motorised vehicles weigh
   * nothing, so the reported SKR total is the class-by-class EMP sum.
   */
  lemma TotalSkrMatchesHourlyWeights(list: seq<TrafficData>, tipeLokasi: string, count: PkjiCount)
    requires HasEmpColumn(tipeLokasi)
    requires count.totalSkr + (count.ktb as real) * GetEMPPKJI(KTB, tipeLokasi)
      == WeightedSum(AllClasses(list), EmpWeight(tipeLokasi))
    ensures count.totalSkr == WeightedSum(AllClasses(list), EmpWeight(tipeLokasi))
  {
    EmpValues(KTB, tipeLokasi);
  }

  /**
   * HitungVolumePKJI: the peak hour and its SKR volume. Among hours with the
   * same maximal sum the one returned depends on Go's map order.
   */
  method HitungVolumePKJI(list: seq<TrafficData>, tipeLokasi: string) returns (volume: real, jamPuncak: string)
    ensures |list| == 0 ==> volume == 0.0 && jamPuncak == ""
    ensures volume >= 0.0
    ensures jamPuncak == "" ==> volume == 0.0
    ensures jamPuncak == "" <==>
      forall i :: 0 <= i < |list| ==> HourTotal(list, JamKey(list[i].hour), EmpWeight(tipeLokasi)) <= 0.0
    ensures jamPuncak != "" ==>
      (exists i :: 0 <= i < |list| && JamKey(list[i].hour) == jamPuncak)
      && volume == HourTotal(list, jamPuncak, EmpWeight(tipeLokasi))
    ensures forall i :: 0 <= i < |list| ==> HourTotal(list, JamKey(list[i].hour), EmpWeight(tipeLokasi)) <= volume
  {
    volume, jamPuncak := HourlyPeak(list, EmpWeight(tipeLokasi));
  }

  // ---------------------------------------------------------------------
  // Capacity C = C0 x FCLJ x FCPA x FCHS x FCUK
  // ---------------------------------------------------------------------

  /** GetKapasitasDasarPKJI: base capacity C0 in SKR per hour. */
  function GetKapasitasDasarPKJI(tipeArah: string, tipeLokasi: string): (c0: real)
    ensures tipeLokasi == "bebas_hambatan" ==> c0 == (if tipeArah == "62d" then 6900.0 else 4600.0)
    ensures tipeLokasi == "perkotaan" ==>
      c0 == (match tipeArah case "42d" => 3300.0 case "42ud" => 3000.0 case "62d" => 4950.0 case _ => 2900.0)
    ensures tipeLokasi == "luar_kota" || tipeLokasi == "12_kelas" ==>
      c0 == (match tipeArah case "42d" => 3400.0 case "42ud" => 3100.0 case "62d" => 5100.0 case _ => 3100.0)
    ensures !IsValidTipeLokasi(tipeLokasi) ==> c0 == 2900.0
    ensures 2900.0 <= c0 <= 6900.0
  {
    match tipeLokasi
    case "bebas_hambatan" =>
      (match tipeArah
       case "42d" => 2300.0 * 2.0
       case "62d" => 2300.0 * 3.0
       case _ => 2300.0 * 2.0)
    case "perkotaan" =>
      (match tipeArah
       case "22ud" => 2900.0
       case "42d" => 1650.0 * 2.0
       case "42ud" => 1500.0 * 2.0
       case "62d" => 1650.0 * 3.0
       case _ => 2900.0)
    case "luar_kota" | "12_kelas" =>
      (match tipeArah
       case "22ud" => 3100.0
       case "42d" => 1700.0 * 2.0
       case "42ud" => 1550.0 * 2.0
       case "62d" => 1700.0 * 3.0
       case _ => 3100.0)
    case _ => 2900.0
  }

  /** GetFCLJ: lane-width factor; the freeway table applies whatever the direction type. */
  function GetFCLJ(lebarJalur: int, tipeArah: string, tipeLokasi: string): (f: real)
    ensures tipeLokasi == "bebas_hambatan" ==> f in {0.90, 0.95, 1.00, 1.03}
    ensures tipeLokasi != "bebas_hambatan" && tipeArah == "22ud" ==> f in {0.56, 0.87, 1.00, 1.14}
    ensures tipeLokasi != "bebas_hambatan" && tipeArah != "22ud" ==> f in {0.69, 0.91, 1.00, 1.04, 1.08}
    ensures lebarJalur == 7 ==> f == 1.0
    ensures 0.56 <= f <= 1.14
  {
    if tipeLokasi == "bebas_hambatan" then
      if lebarJalur <= 5 then 0.90
      else if lebarJalur == 6 then 0.95
      else if lebarJalur == 7 then 1.00
      else if lebarJalur >= 8 then 1.03
      else 1.00
    else if tipeArah == "22ud" then
      if lebarJalur <= 5 then 0.56
      else if lebarJalur == 6 then 0.87
      else if lebarJalur == 7 then 1.00
      else if lebarJalur >= 8 then 1.14
      else 1.00
    else
      if lebarJalur <= 5 then 0.69
      else if lebarJalur == 6 then 0.91
      else if lebarJalur == 7 then 1.00
      else if lebarJalur == 8 then 1.04
      else if lebarJalur >= 9 then 1.08
      else 1.00
  }

  /** A wider lane never lowers FCLJ. */
  lemma FcljNondecreasing(a: int, b: int, tipeArah: string, tipeLokasi: string)
    requires a <= b
    ensures GetFCLJ(a, tipeArah, tipeLokasi) <= GetFCLJ(b, tipeArah, tipeLokasi)
  {
  }

  /** GetFCPA: directional-split factor; divided roads ignore the split. */
  function GetFCPA(persentase: string, tipeArah: string): (f: real)
    ensures tipeArah == "42d" || tipeArah == "62d" ==> f == 1.0
    ensures !IsValidPersentase(persentase) ==> f == 1.0
    ensures 0.88 <= f <= 1.0
  {
    if tipeArah == "42d" || tipeArah == "62d" then 1.0
    else
      match persentase
      case "50-50" => 1.00
      case "55-45" => 0.97
      case "60-40" => 0.94
      case "65-35" => 0.91
      case "70-30" => 0.88
      case _ => 1.00
  }

  /** The GetFCHS table for roads other than freeways. */
  function FchsTable(tipeHambatan: string): map<string, real>
  {
    match tipeHambatan
    case "bahu_jalan" => map["VL" := 1.00, "L" := 0.97, "M" := 0.93, "H" := 0.87, "VH" := 0.81]
    case "kereb" => map["VL" := 0.98, "L" := 0.94, "M" := 0.89, "H" := 0.82, "VH" := 0.73]
    case _ => map[]
  }

  /** GetFCHS: side-friction factor; 1.0 on freeways, 0.93 for an unknown pair. */
  function GetFCHS(tipeHambatan: string, kelasHambatan: string, tipeLokasi: string): (f: real)
    ensures tipeLokasi == "bebas_hambatan" ==> f == 1.0
    ensures tipeLokasi != "bebas_hambatan" && kelasHambatan in FchsTable(tipeHambatan) ==>
      f == FchsTable(tipeHambatan)[kelasHambatan]
    ensures tipeLokasi != "bebas_hambatan" && kelasHambatan !in FchsTable(tipeHambatan) ==> f == 0.93
    ensures 0.73 <= f <= 1.0
  {
    if tipeLokasi == "bebas_hambatan" then 1.0
    else
      var t := FchsTable(tipeHambatan);
      if kelasHambatan in t then t[kelasHambatan] else 0.93
  }

  /** GetFCUK: city-size factor, applied to urban roads only. */
  function GetFCUK(ukuranKota: real, tipeLokasi: string): (f: real)
    ensures tipeLokasi != "perkotaan" ==> f == 1.0
    ensures 0.86 <= f <= 1.04
  {
    if tipeLokasi != "perkotaan" then 1.0
    else if ukuranKota < 0.1 then 0.86
    else if ukuranKota < 0.5 then 0.90
    else if ukuranKota < 1.0 then 0.94
    else if ukuranKota < 3.0 then 1.00
    else 1.04
  }

  /** A larger city never lowers FCUK. */
  lemma FcukNondecreasing(a: real, b: real, tipeLokasi: string)
    requires a <= b
    ensures GetFCUK(a, tipeLokasi) <= GetFCUK(b, tipeLokasi)
  {
  }

  /** C = C0 x FCLJ x FCPA x FCHS x FCUK. */
  function Capacity(c0: real, fclj: real, fcpa: real, fchs: real, fcuk: real): real
  {
    c0 * fclj * fcpa * fchs * fcuk
  }

  lemma CapacityWithoutFcuk(c0: real, fclj: real, fcpa: real, fchs: real)
    ensures Capacity(c0, fclj, fcpa, fchs, 1.0) == c0 * fclj * fcpa * fchs
  {
  }

  lemma CapacityWithoutFchsFcuk(c0: real, fclj: real, fcpa: real)
    ensures Capacity(c0, fclj, fcpa, 1.0, 1.0) == c0 * fclj * fcpa
  {
  }

  lemma CapacityPositive(c0: real, fclj: real, fcpa: real, fchs: real, fcuk: real)
    requires c0 > 0.0 && fclj > 0.0 && fcpa > 0.0 && fchs > 0.0 && fcuk > 0.0
    ensures Capacity(c0, fclj, fcpa, fchs, fcuk) > 0.0
  {
    assert c0 * fclj > 0.0;
    assert c0 * fclj * fcpa > 0.0;
    assert c0 * fclj * fcpa * fchs > 0.0;
  }

  /**
   * HitungKapasitasPKJI: the named results are the five factors as looked
   * up, then the road-type switch overwrites the ones that do not apply.
   * Whatever the switch does, the reported factors multiply to the capacity.
   */
  method HitungKapasitasPKJI(location: Location) returns (kapasitas: real, c0: real, fclj: real, fcpa: real, fchs: real, fcuk: real)
    ensures c0 == GetKapasitasDasarPKJI(location.tipeArah, location.tipeLokasi)
    ensures fclj == GetFCLJ(location.lebarJalur, location.tipeArah, location.tipeLokasi)
    ensures fcpa == GetFCPA(location.persentase, location.tipeArah)
    ensures location.tipeLokasi == "bebas_hambatan" ==> fchs == 1.0 && fcuk == 1.0
    ensures location.tipeLokasi != "bebas_hambatan" ==>
      fchs == GetFCHS(location.tipeHambatan, location.kelasHambatan, location.tipeLokasi)
    ensures location.tipeLokasi == "luar_kota" || location.tipeLokasi == "12_kelas" ==> fcuk == 1.0
    ensures location.tipeLokasi == "perkotaan" ==> fcuk == GetFCUK(location.ukuranKota, "perkotaan")
    ensures !IsValidTipeLokasi(location.tipeLokasi) ==> fcuk == 1.0
    ensures kapasitas == Capacity(c0, fclj, fcpa, fchs, fcuk)
    ensures kapasitas > 0.0
  {
    c0 := GetKapasitasDasarPKJI(location.tipeArah, location.tipeLokasi);
    fclj := GetFCLJ(location.lebarJalur, location.tipeArah, location.tipeLokasi);
    fcpa := GetFCPA(location.persentase, location.tipeArah);
    fchs := GetFCHS(location.tipeHambatan, location.kelasHambatan, location.tipeLokasi);
    fcuk := GetFCUK(location.ukuranKota, location.tipeLokasi);

    match location.tipeLokasi {
      case "perkotaan" =>
        kapasitas := Capacity(c0, fclj, fcpa, fchs, fcuk);
      case "luar_kota" | "12_kelas" =>
        fcuk := 1.0;
        kapasitas := c0 * fclj * fcpa * fchs;
        CapacityWithoutFcuk(c0, fclj, fcpa, fchs);
      case "bebas_hambatan" =>
        fchs := 1.0;
        fcuk := 1.0;
        kapasitas := c0 * fclj * fcpa;
        CapacityWithoutFchsFcuk(c0, fclj, fcpa);
      case _ =>
        kapasitas := Capacity(c0, fclj, fcpa, fchs, fcuk);
    }
    CapacityPositive(c0, fclj, fcpa, fchs, fcuk);
  }

  /** HitungDerajatKejenuhanPKJI: degree of saturation DJ = V / C. */
  function HitungDerajatKejenuhanPKJI(volume: real, kapasitas: real): (dj: real)
    ensures kapasitas <= 0.0 ==> dj == 0.0
    ensures kapasitas > 0.0 ==> dj * kapasitas == volume
    ensures kapasitas > 0.0 && volume >= 0.0 ==> dj >= 0.0
  {
    if kapasitas <= 0.0 then 0.0 else volume / kapasitas
  }

  // ---------------------------------------------------------------------
  // Level of service
  // ---------------------------------------------------------------------

  /** The level-of-service thresholds of GetTingkatPelayananPKJI. */
  function TingkatPelayananPKJI(dj: real): (l: ServiceLevel)
    ensures l == A <==> dj <= 0.35
    ensures l == F <==> dj > 1.0
  {
    if dj <= 0.35 then A
    else if dj <= 0.54 then B
    else if dj <= 0.77 then C
    else if dj <= 0.93 then D
    else if dj <= 1.00 then E
    else F
  }

  /** GetTingkatPelayananPKJI: the level-of-service letter and its description. */
  function GetTingkatPelayananPKJI(dj: real): (los: (string, string))
    ensures los.0 == "A" <==> dj <= 0.35
    ensures los.0 == "F" <==> dj > 1.0
    ensures los.0 == Letter(TingkatPelayananPKJI(dj))
  {
    match TingkatPelayananPKJI(dj)
    case A => ("A", "Kondisi arus bebas, kecepatan tinggi, volume rendah")
    case B => ("B", "Arus stabil, kecepatan mulai dipengaruhi kondisi lalu lintas")
    case C => ("C", "Arus stabil, kecepatan dan gerak kendaraan dikendalikan")
    case D => ("D", "Arus mendekati tidak stabil, kecepatan menurun")
    case E => ("E", "Volume mendekati/pada kapasitas, arus tidak stabil")
    case F => ("F", "Arus terhenti, terjadi antrian panjang")
  }

  /** The PKJI 2023 bounds of letters A to E, in order. */
  const DjMax: seq<real> := [0.35, 0.54, 0.77, 0.93, 1.00]

  /** A higher DJ never gives a better letter. */
  lemma TingkatPelayananPKJIMonotone(dj1: real, dj2: real)
    requires dj1 <= dj2
    ensures Rank(TingkatPelayananPKJI(dj1)) <= Rank(TingkatPelayananPKJI(dj2))
  {
  }

  /** The letter is the first of the PKJI bounds that covers DJ, F when none does. */
  lemma {:induction false} TingkatPelayananPKJIMatchesBounds(dj: real)
    ensures Rank(TingkatPelayananPKJI(dj)) == FirstWithin(dj, DjMax)
  {
    var t0 := DjMax;
    var t1 := [0.54, 0.77, 0.93, 1.00];
    var t2 := [0.77, 0.93, 1.00];
    var t3 := [0.93, 1.00];
    var t4 := [1.00];
    assert t0[1..] == t1 && t1[1..] == t2 && t2[1..] == t3 && t3[1..] == t4;
    assert t4[1..] == [];
    assert FirstWithin(dj, t4) == if dj <= 1.00 then 0 else 1;
    assert FirstWithin(dj, t3) == if dj <= 0.93 then 0 else 1 + FirstWithin(dj, t4);
    assert FirstWithin(dj, t2) == if dj <= 0.77 then 0 else 1 + FirstWithin(dj, t3);
    assert FirstWithin(dj, t1) == if dj <= 0.54 then 0 else 1 + FirstWithin(dj, t2);
    assert FirstWithin(dj, t0) == if dj <= 0.35 then 0 else 1 + FirstWithin(dj, t1);
  }
}
