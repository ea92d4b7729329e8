// The vehicle-length class master data (backend/models/klasifikasi_kendaraan.go):
// the per-road-type templates and the seeding of the master collection.

module Klasifikasi {
  import opened Common

  /** A stored length class (KlasifikasiKendaraan); lengths in metres. */
  datatype KlasifikasiKendaraan = KlasifikasiKendaraan(
    id: string,
    tipeLokasi: string,
    kelas: int,
    namaKelas: string,
    isKelasTerakhir: bool,
    defaultPanjangAwal: real,
    defaultBatasPanjang: real)

  /** A template row (KlasifikasiTemplate). */
  datatype KlasifikasiTemplate = KlasifikasiTemplate(
    kelas: int,
    namaKelas: string,
    isKelasTerakhir: bool,
    defaultPanjangAwal: real,
    defaultBatasPanjang: real)

  /** A row of the tables; the final flag is written per row, as the tables write it. */
  function Row(kelas: int, final: bool, awal: real, batas: real): KlasifikasiTemplate
  {
    KlasifikasiTemplate(kelas, "Kendaraan Kelas " + FormatInt(kelas), final, awal, batas)
  }

  /** GetKlasifikasiTemplateByTipeLokasi: the constant class lists; unknown types have none. */
  function GetKlasifikasiTemplateByTipeLokasi(tipeLokasi: string): (ts: seq<KlasifikasiTemplate>)
    ensures ts != [] <==> tipeLokasi in {"perkotaan", "luar_kota", "bebas_hambatan", "12_kelas"}
    ensures ts != [] ==> ts[0].kelas == 1 && ts[|ts| - 1].isKelasTerakhir
  {
    match tipeLokasi
    case "perkotaan" => [Row(1, false, 0.0, 2.5), Row(2, false, 2.5, 5.5), Row(3, true, 5.5, 0.0)]
    case "luar_kota" => [Row(1, false, 0.0, 2.5), Row(2, false, 2.5, 5.5), Row(3, false, 5.5, 9.0), Row(4, false, 9.0, 12.5), Row(5, true, 12.5, 0.0)]
    case "bebas_hambatan" => [Row(1, false, 0.0, 5.5), Row(2, false, 5.5, 9.0), Row(3, false, 9.0, 12.5), Row(4, true, 12.5, 0.0)]
    case "12_kelas" =>
      [Row(1, false, 1.0, 2.0), Row(2, false, 2.0, 3.0), Row(3, false, 3.0, 4.0), Row(4, false, 4.0, 5.0), Row(5, false, 5.0, 6.0), Row(6, false, 6.0, 7.0),
       Row(7, false, 7.0, 8.0), Row(8, false, 8.0, 9.0), Row(9, false, 9.0, 10.0), Row(10, false, 10.0, 11.0), Row(11, false, 11.0, 12.0), Row(12, true, 12.0, 0.0)]
    case _ => []
  }

  /** Classes are numbered 1..n in list order. */
  predicate NumberedInOrder(ts: seq<KlasifikasiTemplate>)
  {
    forall i :: 0 <= i < |ts| ==> ts[i].kelas == i + 1
  }

  /** Exactly the final row is the open-ended last class, and its upper bound is 0. */
  predicate OnlyLastIsFinal(ts: seq<KlasifikasiTemplate>)
  {
    (forall i :: 0 <= i < |ts| ==> (ts[i].isKelasTerakhir <==> i == |ts| - 1))
    && (ts != [] ==> ts[|ts| - 1].defaultBatasPanjang == 0.0)
  }

  /** Each row starts where the previous one ends. */
  predicate Contiguous(ts: seq<KlasifikasiTemplate>)
  {
    forall i :: 0 < i < |ts| ==> ts[i].defaultPanjangAwal == ts[i - 1].defaultBatasPanjang
  }

  /** Non-final upper bounds are positive and strictly increasing. */
  predicate BoundsIncrease(ts: seq<KlasifikasiTemplate>)
  {
    (|ts| > 1 ==> ts[0].defaultBatasPanjang > 0.0)
    && forall i :: 0 < i < |ts| - 1 ==> ts[i - 1].defaultBatasPanjang < ts[i].defaultBatasPanjang
  }

  predicate WellFormedTemplate(ts: seq<KlasifikasiTemplate>)
  {
    NumberedInOrder(ts) && OnlyLastIsFinal(ts) && Contiguous(ts) && BoundsIncrease(ts)
  }

  /** The templates have 3, 5, 4 and 12 classes, and none for any other road type. */
  lemma TemplateSizes(tipeLokasi: string)
    ensures |GetKlasifikasiTemplateByTipeLokasi(tipeLokasi)| ==
      match tipeLokasi
      case "perkotaan" => 3
      case "luar_kota" => 5
      case "bebas_hambatan" => 4
      case "12_kelas" => 12
      case _ => 0
  {
  }


  /** Every template is a contiguous, numbered partition of lengths that the bulk-update check accepts. */
  lemma {:induction false} TemplatesWellFormed(tipeLokasi: string)
    ensures WellFormedTemplate(GetKlasifikasiTemplateByTipeLokasi(tipeLokasi))
  {
    var ts := GetKlasifikasiTemplateByTipeLokasi(tipeLokasi);
    match tipeLokasi
    case "perkotaan" =>
      assert ts == [Row(1, false, 0.0, 2.5), Row(2, false, 2.5, 5.5), Row(3, true, 5.5, 0.0)];
    case "luar_kota" =>
      assert ts == [Row(1, false, 0.0, 2.5), Row(2, false, 2.5, 5.5), Row(3, false, 5.5, 9.0), Row(4, false, 9.0, 12.5), Row(5, true, 12.5, 0.0)];
    case "bebas_hambatan" =>
      assert ts == [Row(1, false, 0.0, 5.5), Row(2, false, 5.5, 9.0), Row(3, false, 9.0, 12.5), Row(4, true, 12.5, 0.0)];
    case "12_kelas" =>
      TwelveClassesWellFormed();
    case _ =>
      assert ts == [];
  }

  /** In every template a row is marked final exactly when its default upper bound is 0. */
  lemma FinalIffOpenEnded(tipeLokasi: string)
    ensures var ts := GetKlasifikasiTemplateByTipeLokasi(tipeLokasi);
      forall i :: 0 <= i < |ts| ==> (ts[i].isKelasTerakhir <==> ts[i].defaultBatasPanjang == 0.0)
  {
    var ts := GetKlasifikasiTemplateByTipeLokasi(tipeLokasi);
    TemplatesWellFormed(tipeLokasi);
    forall i | 0 <= i < |ts| - 1
      ensures ts[i].defaultBatasPanjang > 0.0
    {
      NonFinalBoundsPositive(ts, i);
    }
  }

  /** With increasing bounds, every row before the last has a positive upper bound. */
  lemma {:induction false} NonFinalBoundsPositive(ts: seq<KlasifikasiTemplate>, i: nat)
    requires BoundsIncrease(ts) && i < |ts| - 1
    ensures ts[i].defaultBatasPanjang > 0.0
  {
    if i > 0 {
      NonFinalBoundsPositive(ts, i - 1);
    }
  }

  function TwelveRow(i: nat): KlasifikasiTemplate
  {
    Row(i + 1, i == 11, (i + 1) as real, if i == 11 then 0.0 else (i + 2) as real)
  }

  lemma TwelveRowsWellFormed(ts: seq<KlasifikasiTemplate>)
    requires |ts| == 12 && forall i :: 0 <= i < 12 ==> ts[i] == TwelveRow(i)
    ensures WellFormedTemplate(ts)
  {
  }

  lemma TwelveClassesWellFormed()
    ensures WellFormedTemplate(GetKlasifikasiTemplateByTipeLokasi("12_kelas"))
  {
    var ts := GetKlasifikasiTemplateByTipeLokasi("12_kelas");
    assert ts[0] == TwelveRow(0);
    assert ts[1] == TwelveRow(1);
    assert ts[2] == TwelveRow(2);
    assert ts[3] == TwelveRow(3);
    assert ts[4] == TwelveRow(4);
    assert ts[5] == TwelveRow(5);
    assert ts[6] == TwelveRow(6);
    assert ts[7] == TwelveRow(7);
    assert ts[8] == TwelveRow(8);
    assert ts[9] == TwelveRow(9);
    assert ts[10] == TwelveRow(10);
    assert ts[11] == TwelveRow(11);
    TwelveRowsWellFormed(ts);
  }

  // ---------------------------------------------------------------------
  // Seeding (InitMasterKlasifikasi)
  // ---------------------------------------------------------------------

  const TipeLokasiList: seq<string> := ["perkotaan", "luar_kota", "bebas_hambatan", "12_kelas"]

  /** The stored class built from template row t with number n ("KK-%05d"). */
  function Document(tipeLokasi: string, t: KlasifikasiTemplate, n: int): KlasifikasiKendaraan
  {
    KlasifikasiKendaraan(FormatId("KK-", n), tipeLokasi, t.kelas, t.namaKelas, t.isKelasTerakhir,
      t.defaultPanjangAwal, t.defaultBatasPanjang)
  }

  /** The ID numbers of k documents seeded from nextNum on: nextNum, nextNum + 1, ... (Go int arithmetic). */
  function SeedNumbers(nextNum: int, k: nat): (r: seq<int>)
    ensures |r| == k
  {
    if k == 0 then [] else SeedNumbers(nextNum, k - 1) + [Wrap64(nextNum + k - 1)]
  }

  /** The documents seeded for one road type from its template ts, numbered by nums. */
  function SeedFor(tipeLokasi: string, ts: seq<KlasifikasiTemplate>, nums: seq<int>): (r: seq<KlasifikasiKendaraan>)
    requires |nums| == |ts|
    ensures |r| == |ts|
  {
    if ts == [] then []
    else SeedFor(tipeLokasi, ts[..|ts| - 1], nums[..|ts| - 1]) + [Document(tipeLokasi, ts[|ts| - 1], nums[|ts| - 1])]
  }

  /** Number i of the seeding is nextNum + i, wrapped as Go's int. */
  lemma {:induction false} SeedNumbersAt(nextNum: int, k: nat, i: int)
    requires 0 <= i < k
    ensures SeedNumbers(nextNum, k)[i] == Wrap64(nextNum + i)
  {
    if i < k - 1 {
      SeedNumbersAt(nextNum, k - 1, i);
    }
  }

  /** Row i of the seeded documents is template row i with number nums[i]. */
  lemma {:induction false} SeedForAt(tipeLokasi: string, ts: seq<KlasifikasiTemplate>, nums: seq<int>, i: int)
    requires |nums| == |ts|
    requires 0 <= i < |ts|
    ensures SeedFor(tipeLokasi, ts, nums)[i] == Document(tipeLokasi, ts[i], nums[i])
  {
    if i < |ts| - 1 {
      SeedForAt(tipeLokasi, ts[..|ts| - 1], nums[..|ts| - 1], i);
    }
  }

  /** The documents for one road type: its template numbered from nextNum on. */
  function SeedRun(tipeLokasi: string, ts: seq<KlasifikasiTemplate>, nextNum: int): (r: seq<KlasifikasiKendaraan>)
    ensures |r| == |ts|
  {
    SeedFor(tipeLokasi, ts, SeedNumbers(nextNum, |ts|))
  }

  /**
   * The number InitMasterKlasifikasi starts from: 1 on an empty collection,
   * otherwise the number of the highest stored ID `last` plus one.
   */
  function NextNum(last: Option<string>): (n: int)
    ensures InInt64(n)
    ensures last.None? ==> n == 1
  {
    match last
    case None => 1
    case Some(id) => Wrap64(ScanNumber("KK-", id) + 1)
  }

  /** NextNum is what Sscanf reads back from NextKlasifikasiKendaraanID's formatted ID. */
  lemma NextNumScansNextId(last: Option<string>)
    ensures NextNum(last) == ScanNumber("KK-", NextId("KK-", last))
  {
    match last
    case None =>
      NextIdFirst("KK-");
      ScanFormatRoundTrip("KK-", 1);
    case Some(id) =>
      NextIdStep("KK-", id);
  }

  /**
   * Reference definition of the seeding: road types that already have
   * classes are skipped; the others get their template, numbered after the
   * highest stored ID `last`. The newest ID is taken as the highest, which
   * holds in string order only while IDs have five digits (up to KK-99999).
   */
  function Seeded(tipes: seq<string>, existing: set<string>, last: Option<string>,
                  templates: string -> seq<KlasifikasiTemplate>): seq<KlasifikasiKendaraan>
    decreases |tipes|
  {
    if tipes == [] then []
    else if tipes[0] in existing then Seeded(tipes[1..], existing, last, templates)
    else
      var docs := SeedRun(tipes[0], templates(tipes[0]), NextNum(last));
      docs + Seeded(tipes[1..], existing, StoredAfter(last, docs), templates)
  }

  /** The highest ID stored once docs are inserted after last. */
  function StoredAfter(last: Option<string>, docs: seq<KlasifikasiKendaraan>): Option<string>
  {
    if docs == [] then last else Some(docs[|docs| - 1].id)
  }

  /**
   * InitMasterKlasifikasi. `existing` stands for the road types whose
   * CountDocuments is positive and `last` for NextKlasifikasiKendaraanID's
   * read of the highest stored ID; the returned list is what InsertMany stores.
   */
  method InitMasterKlasifikasi(existing: set<string>, last: Option<string>) returns (inserted: seq<KlasifikasiKendaraan>)
    ensures inserted == Seeded(TipeLokasiList, existing, last, GetKlasifikasiTemplateByTipeLokasi)
  {
    inserted := SeedTypes(TipeLokasiList, existing, last, GetKlasifikasiTemplateByTipeLokasi);
  }

  /** The loop over the road types, for any template lookup. */
  method SeedTypes(tipes: seq<string>, existing: set<string>, last: Option<string>,
                   templates: string -> seq<KlasifikasiTemplate>) returns (inserted: seq<KlasifikasiKendaraan>)
    ensures inserted == Seeded(tipes, existing, last, templates)
  {
    inserted := [];
    var stored := last;
    var k := 0;
    while k < |tipes|
      invariant 0 <= k <= |tipes|
      invariant inserted + Seeded(tipes[k..], existing, stored, templates) == Seeded(tipes, existing, last, templates)
    {
      var tipeLokasi := tipes[k];
      if tipeLokasi !in existing {
        var nextNum := NextNum(stored);
        var documents := SeedTemplates(tipeLokasi, templates(tipeLokasi), nextNum);
        SeededTake(tipes, k, existing, stored, templates, documents);
        ghost var rest := Seeded(tipes[k + 1..], existing, StoredAfter(stored, documents), templates);
        assert inserted + (documents + rest) == (inserted + documents) + rest;
        inserted := inserted + documents;
        stored := StoredAfter(stored, documents);
      } else {
        SeededSkip(tipes, k, existing, stored, templates);
      }
      k := k + 1;
    }
  }

  /** A road type that already has classes contributes nothing. */
  lemma SeededSkip(tipes: seq<string>, k: nat, existing: set<string>, last: Option<string>,
                   templates: string -> seq<KlasifikasiTemplate>)
    requires k < |tipes| && tipes[k] in existing
    ensures Seeded(tipes[k..], existing, last, templates) == Seeded(tipes[k + 1..], existing, last, templates)
  {
    assert tipes[k..][1..] == tipes[k + 1..];
  }

  /**
   * A road type without classes contributes its run of documents, and the
   * later types are numbered after the last of them.
   */
  lemma SeededTake(tipes: seq<string>, k: nat, existing: set<string>, last: Option<string>,
                   templates: string -> seq<KlasifikasiTemplate>, docs: seq<KlasifikasiKendaraan>)
    requires k < |tipes| && tipes[k] !in existing
    requires docs == SeedRun(tipes[k], templates(tipes[k]), NextNum(last))
    ensures Seeded(tipes[k..], existing, last, templates)
      == docs + Seeded(tipes[k + 1..], existing, StoredAfter(last, docs), templates)
  {
    assert tipes[k..][1..] == tipes[k + 1..];
  }

  /** The loop over one template (the body of InitMasterKlasifikasi for a road type with no classes). */
  method SeedTemplates(tipeLokasi: string, templates: seq<KlasifikasiTemplate>, nextNum: int)
    returns (documents: seq<KlasifikasiKendaraan>)
    ensures documents == SeedRun(tipeLokasi, templates, nextNum)
  {
    ghost var nums := SeedNumbers(nextNum, |templates|);
    documents := [];
    var i := 0;
    while i < |templates|
      invariant 0 <= i <= |templates|
      invariant documents == SeedFor(tipeLokasi, templates[..i], nums[..i])
    {
      var n := Wrap64(nextNum + i);
      SeedNumbersAt(nextNum, |templates|, i);
      assert templates[..i + 1][..i] == templates[..i] && nums[..i + 1][..i] == nums[..i];
      documents := documents + [Document(tipeLokasi, templates[i], n)];
      i := i + 1;
    }
    assert templates[..i] == templates && nums[..i] == nums;
  }

  /** Seeding never touches a road type that already has classes, and adds only listed types. */
  lemma {:induction false} SeededSkipsExisting(tipes: seq<string>, existing: set<string>, last: Option<string>,
                                               templates: string -> seq<KlasifikasiTemplate>)
    ensures forall d :: d in Seeded(tipes, existing, last, templates) ==> d.tipeLokasi in tipes && d.tipeLokasi !in existing
    decreases |tipes|
  {
    if tipes != [] {
      if tipes[0] in existing {
        SeededSkipsExisting(tipes[1..], existing, last, templates);
      } else {
        var docs := SeedRun(tipes[0], templates(tipes[0]), NextNum(last));
        SeedRunOfType(tipes[0], templates(tipes[0]), NextNum(last));
        SeededSkipsExisting(tipes[1..], existing, StoredAfter(last, docs), templates);
      }
    }
  }

  /** Every document seeded for a road type carries that road type and its template's class. */
  lemma SeedRunOfType(tipeLokasi: string, ts: seq<KlasifikasiTemplate>, nextNum: int)
    ensures forall i :: 0 <= i < |ts| ==>
      SeedRun(tipeLokasi, ts, nextNum)[i].tipeLokasi == tipeLokasi && SeedRun(tipeLokasi, ts, nextNum)[i].kelas == ts[i].kelas
  {
    var nums := SeedNumbers(nextNum, |ts|);
    forall i | 0 <= i < |ts|
      ensures SeedFor(tipeLokasi, ts, nums)[i].tipeLokasi == tipeLokasi && SeedFor(tipeLokasi, ts, nums)[i].kelas == ts[i].kelas
    {
      SeedForAt(tipeLokasi, ts, nums, i);
    }
  }

  /** The ID of a seeded document reads back as its number. */
  lemma SeedForNumber(tipeLokasi: string, ts: seq<KlasifikasiTemplate>, nums: seq<int>, i: int)
    requires |nums| == |ts| && 0 <= i < |ts|
    requires InInt64(nums[i])
    ensures ScanNumber("KK-", SeedFor(tipeLokasi, ts, nums)[i].id) == nums[i]
  {
    SeedForAt(tipeLokasi, ts, nums, i);
    ScanFormatRoundTrip("KK-", nums[i]);
  }

  /** Within one road type the IDs count up by one from nextNum. */
  lemma SeedRunNumbers(tipeLokasi: string, ts: seq<KlasifikasiTemplate>, nextNum: int, i: int)
    requires 0 <= i < |ts|
    ensures ScanNumber("KK-", SeedRun(tipeLokasi, ts, nextNum)[i].id) == Wrap64(nextNum + i)
  {
    var nums := SeedNumbers(nextNum, |ts|);
    SeedNumbersAt(nextNum, |ts|, i);
    SeedForNumber(tipeLokasi, ts, nums, i);
  }

  /** The numbers Sscanf reads back from a list of stored IDs. */
  function IdNumbers(docs: seq<KlasifikasiKendaraan>): (r: seq<int>)
    ensures |r| == |docs|
  {
    if docs == [] then [] else IdNumbers(docs[..|docs| - 1]) + [ScanNumber("KK-", docs[|docs| - 1].id)]
  }

  lemma {:induction false} IdNumbersAt(docs: seq<KlasifikasiKendaraan>, i: int)
    requires 0 <= i < |docs|
    ensures IdNumbers(docs)[i] == ScanNumber("KK-", docs[i].id)
  {
    if i < |docs| - 1 {
      IdNumbersAt(docs[..|docs| - 1], i);
    }
  }

  lemma {:induction false} IdNumbersAppend(docs: seq<KlasifikasiKendaraan>, rest: seq<KlasifikasiKendaraan>)
    ensures IdNumbers(docs + rest) == IdNumbers(docs) + IdNumbers(rest)
    decreases |rest|
  {
    if rest != [] {
      assert (docs + rest)[..|docs + rest| - 1] == docs + rest[..|rest| - 1];
      IdNumbersAppend(docs, rest[..|rest| - 1]);
    } else {
      assert docs + rest == docs;
    }
  }

  /** The seeded IDs of one road type read back as exactly the numbers nextNum, nextNum + 1, ... */
  lemma SeedRunIds(tipeLokasi: string, ts: seq<KlasifikasiTemplate>, nextNum: int)
    ensures IdNumbers(SeedRun(tipeLokasi, ts, nextNum)) == SeedNumbers(nextNum, |ts|)
  {
    var docs := SeedRun(tipeLokasi, ts, nextNum);
    forall i | 0 <= i < |ts|
      ensures IdNumbers(docs)[i] == SeedNumbers(nextNum, |ts|)[i]
    {
      IdNumbersAt(docs, i);
      SeedRunNumbers(tipeLokasi, ts, nextNum, i);
      SeedNumbersAt(nextNum, |ts|, i);
    }
  }

  /** Consecutive numbers: each is its predecessor plus one, as Go's int. */
  predicate Consecutive(nums: seq<int>)
  {
    forall i :: 0 < i < |nums| ==> nums[i] == Wrap64(nums[i - 1] + 1)
  }

  lemma {:induction false} SeedNumbersConsecutive(nextNum: int, k: nat)
    ensures Consecutive(SeedNumbers(nextNum, k))
  {
    if k > 1 {
      SeedNumbersConsecutive(nextNum, k - 1);
      SeedNumbersAt(nextNum, k, k - 2);
      Wrap64Add(nextNum + k - 2, 1);
    }
  }

  /** Two consecutive runs joined where the second continues the first are consecutive. */
  lemma ConsecutiveAppend(a: seq<int>, b: seq<int>)
    requires Consecutive(a) && Consecutive(b)
    requires a != [] && b != [] ==> b[0] == Wrap64(a[|a| - 1] + 1)
    ensures Consecutive(a + b)
  {
  }

  /**
   * Across the whole seeding the IDs are consecutive, and the first one
   * follows the highest stored ID (or is KK-00001 on an empty collection).
   */
  lemma {:induction false} SeededConsecutive(tipes: seq<string>, existing: set<string>, last: Option<string>,
                                             templates: string -> seq<KlasifikasiTemplate>)
    ensures Consecutive(IdNumbers(Seeded(tipes, existing, last, templates)))
    ensures Seeded(tipes, existing, last, templates) != [] ==>
      IdNumbers(Seeded(tipes, existing, last, templates))[0] == NextNum(last)
    decreases |tipes|
  {
    if tipes != [] {
      if tipes[0] in existing {
        SeededConsecutive(tipes[1..], existing, last, templates);
      } else {
        var ts := templates(tipes[0]);
        var docs := SeedRun(tipes[0], ts, NextNum(last));
        var last' := StoredAfter(last, docs);
        var rest := Seeded(tipes[1..], existing, last', templates);
        SeededConsecutive(tipes[1..], existing, last', templates);
        RunThenRest(tipes[0], ts, last, rest);
      }
    }
  }

  /** One road type's documents followed by what the later types seed stays consecutive. */
  lemma RunThenRest(tipe: string, ts: seq<KlasifikasiTemplate>, last: Option<string>, rest: seq<KlasifikasiKendaraan>)
    requires Consecutive(IdNumbers(rest))
    requires var docs := SeedRun(tipe, ts, NextNum(last));
      rest != [] ==> IdNumbers(rest)[0] == NextNum(StoredAfter(last, docs))
    ensures Consecutive(IdNumbers(SeedRun(tipe, ts, NextNum(last)) + rest))
    ensures SeedRun(tipe, ts, NextNum(last)) + rest != [] ==>
      IdNumbers(SeedRun(tipe, ts, NextNum(last)) + rest)[0] == NextNum(last)
  {
    var n := NextNum(last);
    var docs := SeedRun(tipe, ts, n);
    var a, b := IdNumbers(docs), IdNumbers(rest);
    SeedRunIds(tipe, ts, n);
    SeedNumbersConsecutive(n, |ts|);
    IdNumbersAppend(docs, rest);
    if docs != [] {
      SeedNumbersAt(n, |ts|, 0);
      IdNumbersAt(docs, |docs| - 1);
      assert StoredAfter(last, docs) == Some(docs[|docs| - 1].id);
      assert b != [] ==> b[0] == Wrap64(a[|a| - 1] + 1);
    }
    ConsecutiveAppend(a, b);
  }
}
