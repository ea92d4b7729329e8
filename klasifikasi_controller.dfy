// The master-class endpoints (backend/controllers/klasifikasi_kendaraan.controller.go):
// the road-type filter of GetAllMasterKlasifikasi and the bulk update of the
// class boundaries, which sorts the stored classes in place, checks that the
// boundaries strictly increase and rewrites the start/end chain.

module KlasifikasiController {
  import opened Klasifikasi

  // ---------------------------------------------------------------------
  // GetAllMasterKlasifikasi: the tipe_lokasi filter
  // ---------------------------------------------------------------------

  /** Reference definition: the entries of road type tipeLokasi, in list order. */
  function Filtered(list: seq<KlasifikasiKendaraan>, tipeLokasi: string): seq<KlasifikasiKendaraan>
  {
    if list == [] then []
    else Filtered(list[..|list| - 1], tipeLokasi)
         + (if list[|list| - 1].tipeLokasi == tipeLokasi then [list[|list| - 1]] else [])
  }

  /** The filter keeps exactly the entries of the requested type. */
  lemma {:induction false} FilteredMembers(list: seq<KlasifikasiKendaraan>, tipeLokasi: string, k: KlasifikasiKendaraan)
    ensures k in Filtered(list, tipeLokasi) <==> k in list && k.tipeLokasi == tipeLokasi
  {
    if list != [] {
      var init := list[..|list| - 1];
      FilteredMembers(init, tipeLokasi, k);
      assert list == init + [list[|list| - 1]];
    }
  }

  /** The filter keeps list order: filtering a concatenation filters each part. */
  lemma {:induction false} FilteredAppend(a: seq<KlasifikasiKendaraan>, b: seq<KlasifikasiKendaraan>, tipeLokasi: string)
    ensures Filtered(a + b, tipeLokasi) == Filtered(a, tipeLokasi) + Filtered(b, tipeLokasi)
    decreases |b|
  {
    if b == [] {
      assert a + b == a;
    } else {
      var init := b[..|b| - 1];
      assert (a + b)[..|a + b| - 1] == a + init;
      assert (a + b)[|a + b| - 1] == b[|b| - 1];
      FilteredAppend(a, init, tipeLokasi);
    }
  }

  /**
   * GetAllMasterKlasifikasi after the DB read: no tipe_lokasi query keeps
   * the whole list; otherwise the matching entries, in order.
   */
  method FilterByTipe(list: seq<KlasifikasiKendaraan>, tipeLokasi: string) returns (r: seq<KlasifikasiKendaraan>)
    ensures tipeLokasi == "" ==> r == list
    ensures tipeLokasi != "" ==> r == Filtered(list, tipeLokasi)
  {
    if tipeLokasi == "" {
      return list;
    }
    r := [];
    var i := 0;
    while i < |list|
      invariant 0 <= i <= |list|
      invariant r == Filtered(list[..i], tipeLokasi)
    {
      assert list[..i + 1][..i] == list[..i];
      if list[i].tipeLokasi == tipeLokasi {
        r := r + [list[i]];
      }
      i := i + 1;
    }
    assert list[..i] == list;
  }

  // ---------------------------------------------------------------------
  // UpdateBulkMasterKlasifikasi: sorting by kelas
  // ---------------------------------------------------------------------

  predicate SortedByKelas(s: seq<KlasifikasiKendaraan>)
  {
    forall p, q :: 0 <= p < q < |s| ==> s[p].kelas <= s[q].kelas
  }

  /** The exchange sort of the stored classes, in place. */
  method SortByKelas(a: array<KlasifikasiKendaraan>)
    modifies a
    ensures SortedByKelas(a[..])
    ensures multiset(a[..]) == multiset(old(a[..]))
  {
    var i := 0;
    while i < a.Length - 1
      invariant 0 <= i <= a.Length
      invariant forall p, q :: 0 <= p < i && p < q < a.Length ==> a[p].kelas <= a[q].kelas
      invariant multiset(a[..]) == multiset(old(a[..]))
    {
      MinToFront(a, i, if i == 0 then 0 else a[i - 1].kelas);
      i := i + 1;
    }
  }

  /**
   * The inner loop of the exchange sort: afterwards a[i] has the least kelas
   * of a[i..]. Only a[i..] is permuted, so a lower bound lo of those keys
   * (the kelas of a[i - 1] when there is one) still holds.
   */
  method MinToFront(a: array<KlasifikasiKendaraan>, i: int, ghost lo: int)
    requires 0 <= i < a.Length
    requires i > 0 ==> forall q :: i <= q < a.Length ==> lo <= a[q].kelas
    modifies a
    ensures forall l :: 0 <= l < i ==> a[l] == old(a[l])
    ensures forall q :: i < q < a.Length ==> a[i].kelas <= a[q].kelas
    ensures i > 0 ==> forall q :: i <= q < a.Length ==> lo <= a[q].kelas
    ensures multiset(a[..]) == multiset(old(a[..]))
  {
    var j := i + 1;
    while j < a.Length
      invariant i + 1 <= j <= a.Length
      invariant forall l :: 0 <= l < i ==> a[l] == old(a[l])
      invariant forall q :: i < q < j ==> a[i].kelas <= a[q].kelas
      invariant i > 0 ==> forall q :: i <= q < a.Length ==> lo <= a[q].kelas
      invariant multiset(a[..]) == multiset(old(a[..]))
    {
      if a[i].kelas > a[j].kelas {
        Swap(a, i, j);
      }
      j := j + 1;
    }
  }

  /** Exchanges a[i] and a[j]. */
  method Swap(a: array<KlasifikasiKendaraan>, i: int, j: int)
    requires 0 <= i < j < a.Length
    modifies a
    ensures a[i] == old(a[j]) && a[j] == old(a[i])
    ensures forall l :: 0 <= l < a.Length && l != i && l != j ==> a[l] == old(a[l])
    ensures multiset(a[..]) == multiset(old(a[..]))
  {
    a[i], a[j] := a[j], a[i];
  }

  // ---------------------------------------------------------------------
  // UpdateBulkMasterKlasifikasi: the requested boundaries
  // ---------------------------------------------------------------------

  /** One element of the request's data list. */
  datatype BatasItem = BatasItem(kelas: int, batasPanjang: real)

  /** Reference definition of reqMap: a later item for the same kelas overrides an earlier one. */
  function ReqMap(data: seq<BatasItem>): map<int, real>
  {
    if data == [] then map[]
    else ReqMap(data[..|data| - 1])[data[|data| - 1].kelas := data[|data| - 1].batasPanjang]
  }

  /** reqMap has a key for every requested kelas and no other. */
  lemma {:induction false} ReqMapDomain(data: seq<BatasItem>, k: int)
    ensures k in ReqMap(data) <==> exists j :: 0 <= j < |data| && data[j].kelas == k
  {
    if data != [] {
      var init := data[..|data| - 1];
      ReqMapDomain(init, k);
      if exists j :: 0 <= j < |init| && init[j].kelas == k {
        var j :| 0 <= j < |init| && init[j].kelas == k;
        assert data[j] == init[j];
      }
      if exists j :: 0 <= j < |data| && data[j].kelas == k {
        var j :| 0 <= j < |data| && data[j].kelas == k;
        if j < |init| {
          assert init[j] == data[j];
        }
      }
    }
  }

  /** The last item for a kelas decides its requested boundary. */
  lemma {:induction false} ReqMapLaterWins(data: seq<BatasItem>, j: int)
    requires 0 <= j < |data|
    requires forall l :: j < l < |data| ==> data[l].kelas != data[j].kelas
    ensures data[j].kelas in ReqMap(data) && ReqMap(data)[data[j].kelas] == data[j].batasPanjang
  {
    if j < |data| - 1 {
      var init := data[..|data| - 1];
      assert init[j] == data[j];
      forall l | j < l < |init| ensures init[l].kelas != init[j].kelas {
        assert init[l] == data[l];
      }
      ReqMapLaterWins(init, j);
    }
  }

  method BuildReqMap(data: seq<BatasItem>) returns (m: map<int, real>)
    ensures m == ReqMap(data)
  {
    m := map[];
    var i := 0;
    while i < |data|
      invariant 0 <= i <= |data|
      invariant m == ReqMap(data[..i])
    {
      assert data[..i + 1][..i] == data[..i];
      m := m[data[i].kelas := data[i].batasPanjang];
      i := i + 1;
    }
    assert data[..i] == data;
  }

  // ---------------------------------------------------------------------
  // UpdateBulkMasterKlasifikasi: validation of the boundary order
  // ---------------------------------------------------------------------

  /** The boundary a class ends up with: the requested one, else its stored default. */
  function Effective(k: KlasifikasiKendaraan, m: map<int, real>): real
  {
    if k.kelas in m then m[k.kelas] else k.defaultBatasPanjang
  }

  /** The outcome of the validation loop: the threaded reqMap, or the first violation. */
  datatype Validation =
    | Valid(reqMap: map<int, real>)
    | Invalid(kelas: int, newBatas: real, previous: real)

  /**
   * Reference definition of the validation loop over ks, with reqMap m and
   * the previous boundary current. Final classes are skipped; each other
   * class's boundary must exceed the previous one and is written back into m.
   */
  function ValidateFrom(ks: seq<KlasifikasiKendaraan>, m: map<int, real>, current: real): Validation
  {
    if ks == [] then Valid(m)
    else if ks[0].isKelasTerakhir then ValidateFrom(ks[1..], m, current)
    else
      var newBatas := Effective(ks[0], m);
      if newBatas <= current then Invalid(ks[0].kelas, newBatas, current)
      else ValidateFrom(ks[1..], m[ks[0].kelas := newBatas], newBatas)
  }

  method ValidateBatas(ks: seq<KlasifikasiKendaraan>, reqMap: map<int, real>) returns (v: Validation)
    ensures v == ValidateFrom(ks, reqMap, 0.0)
  {
    var current := 0.0;
    var m := reqMap;
    var i := 0;
    while i < |ks|
      invariant 0 <= i <= |ks|
      invariant ValidateFrom(ks[i..], m, current) == ValidateFrom(ks, reqMap, 0.0)
    {
      var k := ks[i];
      assert ks[i..][0] == k && ks[i..][1..] == ks[i + 1..];
      if !k.isKelasTerakhir {
        var newBatas := if k.kelas in m then m[k.kelas] else k.defaultBatasPanjang;
        if newBatas <= current {
          return Invalid(k.kelas, newBatas, current);
        }
        current := newBatas;
        m := m[k.kelas := newBatas];
      }
      i := i + 1;
    }
    return Valid(m);
  }

  /** The boundaries of the non-final classes, in list order. */
  function Bounds(ks: seq<KlasifikasiKendaraan>, m: map<int, real>): seq<real>
  {
    if ks == [] then []
    else if ks[0].isKelasTerakhir then Bounds(ks[1..], m)
    else [Effective(ks[0], m)] + Bounds(ks[1..], m)
  }

  /** bs strictly increases and its first element exceeds start. */
  predicate IncreasingFrom(start: real, bs: seq<real>)
  {
    bs == [] || (start < bs[0] && forall i :: 0 <= i < |bs| - 1 ==> bs[i] < bs[i + 1])
  }

  /** No two non-final classes share a kelas. */
  predicate DistinctNonFinal(ks: seq<KlasifikasiKendaraan>)
  {
    forall i, j :: 0 <= i < j < |ks| && !ks[i].isKelasTerakhir && !ks[j].isKelasTerakhir ==> ks[i].kelas != ks[j].kelas
  }

  /** Writing the boundary of kelas c into m does not change a class of another kelas. */
  lemma {:induction false} BoundsIgnoreOtherKelas(ks: seq<KlasifikasiKendaraan>, m: map<int, real>, c: int, b: real)
    requires forall i :: 0 <= i < |ks| && !ks[i].isKelasTerakhir ==> ks[i].kelas != c
    ensures Bounds(ks, m[c := b]) == Bounds(ks, m)
  {
    if ks != [] {
      forall i | 0 <= i < |ks[1..]| && !ks[1..][i].isKelasTerakhir ensures ks[1..][i].kelas != c {
        assert ks[1..][i] == ks[i + 1];
      }
      BoundsIgnoreOtherKelas(ks[1..], m, c, b);
    }
  }

  lemma IncreasingFromCons(start: real, b: real, bs: seq<real>)
    ensures IncreasingFrom(start, [b] + bs) <==> start < b && IncreasingFrom(b, bs)
  {
    var s := [b] + bs;
    assert s[0] == b;
    if start < b && IncreasingFrom(b, bs) {
      forall i | 0 <= i < |s| - 1 ensures s[i] < s[i + 1] {
        if i > 0 {
          assert s[i] == bs[i - 1] && s[i + 1] == bs[i];
        }
      }
    }
    if IncreasingFrom(start, s) && bs != [] {
      assert s[1] == bs[0] && s[0] < s[1];
      forall i | 0 <= i < |bs| - 1 ensures bs[i] < bs[i + 1] {
        assert s[i + 1] == bs[i] && s[i + 2] == bs[i + 1];
      }
    }
  }

  lemma DistinctNonFinalTail(ks: seq<KlasifikasiKendaraan>)
    requires ks != [] && DistinctNonFinal(ks)
    ensures DistinctNonFinal(ks[1..])
    ensures !ks[0].isKelasTerakhir ==>
      forall i :: 0 <= i < |ks[1..]| && !ks[1..][i].isKelasTerakhir ==> ks[1..][i].kelas != ks[0].kelas
  {
    forall i, j | 0 <= i < j < |ks[1..]| && !ks[1..][i].isKelasTerakhir && !ks[1..][j].isKelasTerakhir
      ensures ks[1..][i].kelas != ks[1..][j].kelas
    {
      assert ks[1..][i] == ks[i + 1] && ks[1..][j] == ks[j + 1];
    }
  }

  /**
   * When no two non-final classes share a kelas, the validation accepts
   * exactly when the boundaries (requested, else default) strictly increase
   * from the starting boundary.
   */
  lemma {:induction false} ValidIffIncreasing(ks: seq<KlasifikasiKendaraan>, m: map<int, real>, current: real)
    requires DistinctNonFinal(ks)
    ensures ValidateFrom(ks, m, current).Valid? <==> IncreasingFrom(current, Bounds(ks, m))
  {
    if ks != [] {
      DistinctNonFinalTail(ks);
      if ks[0].isKelasTerakhir {
        ValidIffIncreasing(ks[1..], m, current);
      } else {
        var b := Effective(ks[0], m);
        ValidIffIncreasing(ks[1..], m[ks[0].kelas := b], b);
        BoundsIgnoreOtherKelas(ks[1..], m, ks[0].kelas, b);
        IncreasingFromCons(current, b, Bounds(ks[1..], m));
      }
    }
  }

  /**
   * Once a non-final class's kelas holds a boundary no greater than the
   * current one, the validation fails when it reaches that class.
   */
  lemma {:induction false} StaleBoundFails(ks: seq<KlasifikasiKendaraan>, m: map<int, real>, current: real, j: int)
    requires 0 <= j < |ks| && !ks[j].isKelasTerakhir
    requires ks[j].kelas in m && m[ks[j].kelas] <= current
    ensures ValidateFrom(ks, m, current).Invalid?
  {
    if j > 0 {
      assert ks[1..][j - 1] == ks[j];
      if ks[0].isKelasTerakhir {
        StaleBoundFails(ks[1..], m, current, j - 1);
      } else {
        var b := Effective(ks[0], m);
        if current < b {
          StaleBoundFails(ks[1..], m[ks[0].kelas := b], b, j - 1);
        }
      }
    }
  }

  /**
   * The loop writes each accepted boundary back into reqMap, so two
   * non-final classes with the same kelas always make the request fail:
   * the second one meets its own kelas's boundary as the previous one.
   */
  lemma {:induction false} DuplicateKelasRejected(ks: seq<KlasifikasiKendaraan>, m: map<int, real>, current: real, i: int, j: int)
    requires 0 <= i < j < |ks| && !ks[i].isKelasTerakhir && !ks[j].isKelasTerakhir && ks[i].kelas == ks[j].kelas
    ensures ValidateFrom(ks, m, current).Invalid?
  {
    assert ks[1..][j - 1] == ks[j];
    if i == 0 {
      var b := Effective(ks[0], m);
      if current < b {
        StaleBoundFails(ks[1..], m[ks[0].kelas := b], b, j - 1);
      }
    } else {
      assert ks[1..][i - 1] == ks[i];
      if ks[0].isKelasTerakhir {
        DuplicateKelasRejected(ks[1..], m, current, i - 1, j - 1);
      } else {
        var b := Effective(ks[0], m);
        if current < b {
          DuplicateKelasRejected(ks[1..], m[ks[0].kelas := b], b, i - 1, j - 1);
        }
      }
    }
  }

  /** An accepted validation leaves each non-final class's effective boundary in reqMap. */
  lemma {:induction false} ValidatedMap(ks: seq<KlasifikasiKendaraan>, m: map<int, real>, current: real)
    requires ValidateFrom(ks, m, current).Valid?
    ensures DistinctNonFinal(ks)
    ensures forall i :: 0 <= i < |ks| && !ks[i].isKelasTerakhir ==>
      ks[i].kelas in ValidateFrom(ks, m, current).reqMap
      && ValidateFrom(ks, m, current).reqMap[ks[i].kelas] == Effective(ks[i], m)
  {
    if !DistinctNonFinal(ks) {
      var i, j :| 0 <= i < j < |ks| && !ks[i].isKelasTerakhir && !ks[j].isKelasTerakhir && ks[i].kelas == ks[j].kelas;
      DuplicateKelasRejected(ks, m, current, i, j);
    }
    if ks != [] {
      var final := ValidateFrom(ks, m, current).reqMap;
      DistinctNonFinalTail(ks);
      if ks[0].isKelasTerakhir {
        ValidatedMap(ks[1..], m, current);
        forall i | 0 < i < |ks| && !ks[i].isKelasTerakhir
          ensures ks[i].kelas in final && final[ks[i].kelas] == Effective(ks[i], m)
        {
          assert ks[1..][i - 1] == ks[i];
        }
      } else {
        var b := Effective(ks[0], m);
        var m' := m[ks[0].kelas := b];
        ValidatedMap(ks[1..], m', b);
        KeptUntouched(ks[1..], m', b, ks[0].kelas);
        forall i | 0 < i < |ks| && !ks[i].isKelasTerakhir
          ensures ks[i].kelas in final && final[ks[i].kelas] == Effective(ks[i], m)
        {
          assert ks[1..][i - 1] == ks[i];
        }
      }
    }
  }

  /** A kelas that no later non-final class carries keeps its reqMap entry through validation. */
  lemma {:induction false} KeptUntouched(ks: seq<KlasifikasiKendaraan>, m: map<int, real>, current: real, c: int)
    requires ValidateFrom(ks, m, current).Valid?
    requires c in m
    requires forall i :: 0 <= i < |ks| && !ks[i].isKelasTerakhir ==> ks[i].kelas != c
    ensures c in ValidateFrom(ks, m, current).reqMap && ValidateFrom(ks, m, current).reqMap[c] == m[c]
  {
    if ks != [] {
      forall i | 0 <= i < |ks[1..]| && !ks[1..][i].isKelasTerakhir ensures ks[1..][i].kelas != c {
        assert ks[1..][i] == ks[i + 1];
      }
      if ks[0].isKelasTerakhir {
        KeptUntouched(ks[1..], m, current, c);
      } else {
        var b := Effective(ks[0], m);
        KeptUntouched(ks[1..], m[ks[0].kelas := b], b, c);
      }
    }
  }

  /** With an empty request, the boundaries checked are the stored defaults of all classes but the last. */
  lemma {:induction false} BoundsAreDefaults(ks: seq<KlasifikasiKendaraan>)
    requires forall i :: 0 <= i < |ks| ==> (ks[i].isKelasTerakhir <==> i == |ks| - 1)
    ensures |Bounds(ks, map[])| == if ks == [] then 0 else |ks| - 1
    ensures forall i :: 0 <= i < |Bounds(ks, map[])| ==> Bounds(ks, map[])[i] == ks[i].defaultBatasPanjang
  {
    if ks != [] && |ks| > 1 {
      forall i | 0 <= i < |ks[1..]| ensures ks[1..][i].isKelasTerakhir <==> i == |ks[1..]| - 1 {
        assert ks[1..][i] == ks[i + 1];
      }
      BoundsAreDefaults(ks[1..]);
    }
  }

  /**
   * The seeded classes of every road type are already in kelas order and
   * pass the boundary check unchanged: a bulk update that requests nothing
   * is accepted.
   */
  lemma SeededClassesPassValidation(tipeLokasi: string, nextNum: int)
    ensures SortedByKelas(SeedRun(tipeLokasi, GetKlasifikasiTemplateByTipeLokasi(tipeLokasi), nextNum))
    ensures ValidateFrom(SeedRun(tipeLokasi, GetKlasifikasiTemplateByTipeLokasi(tipeLokasi), nextNum), ReqMap([]), 0.0).Valid?
  {
    TemplatesWellFormed(tipeLokasi);
    WellFormedSeedPasses(tipeLokasi, GetKlasifikasiTemplateByTipeLokasi(tipeLokasi), nextNum);
  }

  /** Classes seeded from a well-formed template are in kelas order and pass the boundary check. */
  lemma WellFormedSeedPasses(tipeLokasi: string, ts: seq<KlasifikasiTemplate>, nextNum: int)
    requires WellFormedTemplate(ts)
    ensures SortedByKelas(SeedRun(tipeLokasi, ts, nextNum))
    ensures ValidateFrom(SeedRun(tipeLokasi, ts, nextNum), map[], 0.0).Valid?
  {
    var ks := SeedRun(tipeLokasi, ts, nextNum);
    var nums := SeedNumbers(nextNum, |ts|);
    forall i | 0 <= i < |ts|
      ensures ks[i].kelas == i + 1 && ks[i].isKelasTerakhir == ts[i].isKelasTerakhir
      ensures ks[i].defaultBatasPanjang == ts[i].defaultBatasPanjang
    {
      SeedForAt(tipeLokasi, ts, nums, i);
    }
    BoundsAreDefaults(ks);
    var bs := Bounds(ks, map[]);
    forall i | 0 <= i < |bs| ensures bs[i] == ts[i].defaultBatasPanjang {
    }
    DefaultsIncrease(bs, ts);
    ValidIffIncreasing(ks, map[], 0.0);
  }

  /** The non-final default boundaries of a template increase from 0. */
  lemma DefaultsIncrease(bs: seq<real>, ts: seq<KlasifikasiTemplate>)
    requires BoundsIncrease(ts)
    requires |bs| < |ts| || bs == []
    requires forall i :: 0 <= i < |bs| ==> bs[i] == ts[i].defaultBatasPanjang
    ensures IncreasingFrom(0.0, bs)
  {
    if bs != [] {
      forall i | 0 <= i < |bs| - 1 ensures bs[i] < bs[i + 1] {
        assert ts[i + 1].defaultBatasPanjang > ts[i].defaultBatasPanjang;
      }
    }
  }

  // ---------------------------------------------------------------------
  // UpdateBulkMasterKlasifikasi: the rewritten chain
  // ---------------------------------------------------------------------

  /** One UpdateMasterKlasifikasi call: the class and the two values it sets. */
  datatype Update = Update(entry: KlasifikasiKendaraan, panjangAwal: real, batasPanjang: real)

  /** Go's reqMap[k.Kelas]: the zero value for a missing key. */
  function Lookup(m: map<int, real>, kelas: int): real
  {
    if kelas in m then m[kelas] else 0.0
  }

  /** The update loop: each class starts where the previous one ended; a final class ends at 0. */
  method ChainUpdates(ks: seq<KlasifikasiKendaraan>, reqMap: map<int, real>) returns (us: seq<Update>)
    ensures |us| == |ks|
    ensures forall i :: 0 <= i < |ks| ==> us[i].entry == ks[i]
    ensures forall i :: 0 <= i < |ks| ==>
      us[i].batasPanjang == if ks[i].isKelasTerakhir then 0.0 else Lookup(reqMap, ks[i].kelas)
    ensures |ks| > 0 ==> us[0].panjangAwal == 0.0
    ensures forall i :: 0 < i < |ks| ==> us[i].panjangAwal == us[i - 1].batasPanjang
  {
    us := [];
    var lastBatasPanjang := 0.0;
    var i := 0;
    while i < |ks|
      invariant 0 <= i <= |ks|
      invariant |us| == i
      invariant forall l :: 0 <= l < i ==> us[l].entry == ks[l]
      invariant forall l :: 0 <= l < i ==>
        us[l].batasPanjang == if ks[l].isKelasTerakhir then 0.0 else Lookup(reqMap, ks[l].kelas)
      invariant i > 0 ==> us[0].panjangAwal == 0.0 && lastBatasPanjang == us[i - 1].batasPanjang
      invariant forall l :: 0 < l < i ==> us[l].panjangAwal == us[l - 1].batasPanjang
    {
      var k := ks[i];
      var panjangAwal := 0.0;
      if i > 0 {
        panjangAwal := lastBatasPanjang;
      }
      var batasPanjang := if k.isKelasTerakhir then 0.0 else Lookup(reqMap, k.kelas);
      us := us + [Update(k, panjangAwal, batasPanjang)];
      lastBatasPanjang := batasPanjang;
      i := i + 1;
    }
  }

  // ---------------------------------------------------------------------
  // The handler
  // ---------------------------------------------------------------------

  datatype BulkRequest = BulkRequest(tipeLokasi: string, data: seq<BatasItem>)

  /** The handler's answer: 400 or 404 with a message, 400 for a violation, or the updates it issued. */
  datatype BulkResponse =
    | BadRequest(error: string)
    | NotFound(error: string)
    | OrderViolation(kelas: int, newBatas: real, previous: real)
    | Updated(updates: seq<Update>)

  function Entries(us: seq<Update>): (r: seq<KlasifikasiKendaraan>)
    ensures |r| == |us|
  {
    seq(|us|, i requires 0 <= i < |us| => us[i].entry)
  }

  /**
   * UpdateBulkMasterKlasifikasi after the request is decoded; `stored` is
   * GetMasterKlasifikasiByTipeLokasi's result for the requested type.
   */
  method UpdateBulkMasterKlasifikasi(req: BulkRequest, stored: seq<KlasifikasiKendaraan>) returns (r: BulkResponse)
    ensures req.tipeLokasi == "" <==> r == BadRequest("Tipe lokasi diperlukan")
    ensures req.tipeLokasi != "" && stored == [] <==> r == NotFound("Tipe lokasi tidak ditemukan")
    ensures r.Updated? ==>
      var us := r.updates;
      multiset(Entries(us)) == multiset(stored) && SortedByKelas(Entries(us))
      && DistinctNonFinal(Entries(us))
      && IncreasingFrom(0.0, Bounds(Entries(us), ReqMap(req.data)))
      && us[0].panjangAwal == 0.0
      && (forall i :: 0 < i < |us| ==> us[i].panjangAwal == us[i - 1].batasPanjang)
      && (forall i :: 0 <= i < |us| ==>
            us[i].batasPanjang == if us[i].entry.isKelasTerakhir then 0.0 else Effective(us[i].entry, ReqMap(req.data)))
    ensures r.OrderViolation? ==>
      exists sorted :: multiset(sorted) == multiset(stored) && SortedByKelas(sorted)
        && ValidateFrom(sorted, ReqMap(req.data), 0.0) == Invalid(r.kelas, r.newBatas, r.previous)
  {
    if req.tipeLokasi == "" {
      return BadRequest("Tipe lokasi diperlukan");
    }
    if stored == [] {
      return NotFound("Tipe lokasi tidak ditemukan");
    }
    var a := new KlasifikasiKendaraan[|stored|](i requires 0 <= i < |stored| => stored[i]);
    assert a[..] == stored;
    SortByKelas(a);
    var sorted := a[..];
    var reqMap := BuildReqMap(req.data);
    var v := ValidateBatas(sorted, reqMap);
    if v.Invalid? {
      return OrderViolation(v.kelas, v.newBatas, v.previous);
    }
    ValidatedMap(sorted, reqMap, 0.0);
    ValidIffIncreasing(sorted, reqMap, 0.0);
    var us := ChainUpdates(sorted, v.reqMap);
    assert Entries(us) == sorted;
    return Updated(us);
  }
}
