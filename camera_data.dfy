// Normalisation of a camera message (backend/models/camera_data.go): the
// pre-cleaning of the XML text, the reconciliation of the reported zones
// with the camera's configured zones, the totals, the sampling interval,
// the Utc offset attribute, and the real-time MKJI and PKJI analyses.

module CameraData {
  import opened Common
  import opened Traffic
  import opened LocationModel
  import opened CameraModel
  import opened Klasifikasi
  import Mkji
  import Pkji

  // ---------------------------------------------------------------------
  // The decoded message (CameraBody, CameraZone, CameraClass)
  // ---------------------------------------------------------------------

  datatype CameraClass = CameraClass(classNr: int, numVeh: int, speed: real, gapTime: real)

  datatype CameraZone = CameraZone(
    zoneId: int,
    occupancy: real,
    confidence: real,
    length: real,
    headWay: real,
    density: real,
    classes: seq<CameraClass>)

  /** The attributes of the message body that the backend reads. */
  datatype CameraBody = CameraBody(intervalTime: int, utc: string, zones: seq<CameraZone>)

  // ---------------------------------------------------------------------
  // ParseCameraXML: pre-cleaning before the XML decoder
  // ---------------------------------------------------------------------

  /** The two-character sequence backslash, double quote. */
  const EscapedQuote: string := "\\\""

  /** Escaped quotes replaced, then one leading and one trailing quote removed. */
  function Unescaped(xmlData: string): string
  {
    TrimSuffix(TrimPrefix(ReplaceAll(xmlData, EscapedQuote, "\""), "\""), "\"")
  }

  /** The decoder's test: after trimming white space the text opens an XML document or a Root element. */
  predicate LooksLikeXml(s: string)
  {
    HasPrefix(TrimSpace(s), "<?xml") || HasPrefix(TrimSpace(s), "<Root")
  }

  /** A text wrapped in a Root element passes the test, whatever it holds. */
  lemma WrappedLooksLikeXml(s: string)
    ensures LooksLikeXml("<Root>" + s + "</Root>")
  {
    var w := "<Root>" + s + "</Root>";
    assert w[0] == '<' && !IsSpace(w[0]);
    assert TrimLeftSpace(w) == w;
    assert w[|w| - 1] == '>' && !IsSpace(w[|w| - 1]);
    assert TrimRightSpace(w) == w;
    assert w[..5] == "<Root";
  }

  /**
   * ParseCameraXML's clean-up: the decoder always receives text that opens
   * an XML document or a Root element; the text is wrapped in
   * <Root>...</Root> exactly when it did not already.
   */
  method PreClean(xmlData: string) returns (r: string)
    ensures LooksLikeXml(r)
    ensures LooksLikeXml(Unescaped(xmlData)) ==> r == Unescaped(xmlData)
    ensures !LooksLikeXml(Unescaped(xmlData)) ==> r == "<Root>" + Unescaped(xmlData) + "</Root>"
  {
    r := ReplaceAll(xmlData, EscapedQuote, "\"");
    r := TrimPrefix(r, "\"");
    r := TrimSuffix(r, "\"");
    if !HasPrefix(TrimSpace(r), "<?xml") && !HasPrefix(TrimSpace(r), "<Root") {
      WrappedLooksLikeXml(r);
      r := "<Root>" + r + "</Root>";
    }
  }

  /** Text without a backslash has no escaped quote to replace. */
  lemma {:induction false} ReplaceWithoutBackslash(s: string)
    requires '\\' !in s
    ensures ReplaceAll(s, EscapedQuote, "\"") == s
    decreases |s|
  {
    if |s| >= 2 {
      assert s[..2][0] == s[0] != '\\' == EscapedQuote[0];
      ReplaceWithoutBackslash(s[1..]);
      assert [s[0]] + s[1..] == s;
    }
  }

  /** A quoted payload without backslashes loses exactly its surrounding quotes. */
  lemma QuotedPayload(t: string)
    requires '\\' !in t
    ensures Unescaped("\"" + t + "\"") == t
  {
    var q := "\"" + t + "\"";
    assert forall i :: 0 <= i < |q| ==> q[i] == '"' || q[i] in t;
    ReplaceWithoutBackslash(q);
    assert q[..1] == "\"" && q[1..] == t + "\"";
    assert (t + "\"")[|t|..] == "\"" && (t + "\"")[..|t|] == t;
  }

  /** The replacement is a single left-to-right pass: a backslash before an escaped quote survives it. */
  lemma ReplaceIsSinglePass(t: string)
    ensures ReplaceAll("\\" + EscapedQuote + t, EscapedQuote, "\"") == "\\\"" + ReplaceAll(t, EscapedQuote, "\"")
  {
    var s := "\\" + EscapedQuote + t;
    assert s[..2][1] == '\\' != '"' == EscapedQuote[1];
    assert s[1..] == EscapedQuote + t;
    assert s[1..][..2] == EscapedQuote;
    assert s[1..][2..] == t;
  }

  // ---------------------------------------------------------------------
  // Maps built from lists: a later entry overwrites an earlier one
  // ---------------------------------------------------------------------

  /** Reference definition: the map `m[key(x)] = x` filled in list order. */
  function LastByKey<T>(xs: seq<T>, key: T -> int): map<int, T>
  {
    if xs == [] then map[]
    else LastByKey(xs[..|xs| - 1], key)[key(xs[|xs| - 1]) := xs[|xs| - 1]]
  }

  /** The keys are exactly the keys of the list's entries. */
  lemma {:induction false} LastByKeyDomain<T>(xs: seq<T>, key: T -> int, k: int)
    ensures k in LastByKey(xs, key) <==> exists j :: 0 <= j < |xs| && key(xs[j]) == k
  {
    if xs != [] {
      var init := xs[..|xs| - 1];
      LastByKeyDomain(init, key, k);
      if exists j :: 0 <= j < |init| && key(init[j]) == k {
        var j :| 0 <= j < |init| && key(init[j]) == k;
        assert xs[j] == init[j];
      }
      if exists j :: 0 <= j < |xs| && key(xs[j]) == k {
        var j :| 0 <= j < |xs| && key(xs[j]) == k;
        if j < |init| {
          assert init[j] == xs[j];
        }
      }
    }
  }

  /** Each key maps to the last entry that carries it. */
  lemma {:induction false} LastByKeyWins<T>(xs: seq<T>, key: T -> int, j: int)
    requires 0 <= j < |xs|
    requires forall l :: j < l < |xs| ==> key(xs[l]) != key(xs[j])
    ensures key(xs[j]) in LastByKey(xs, key) && LastByKey(xs, key)[key(xs[j])] == xs[j]
  {
    if j < |xs| - 1 {
      var init := xs[..|xs| - 1];
      assert init[j] == xs[j];
      forall l | j < l < |init| ensures key(init[l]) != key(init[j]) {
        assert init[l] == xs[l];
      }
      LastByKeyWins(init, key, j);
    }
  }

  /** The map-building loops of ConvertCameraDataToTrafficData and SaveRawDataFromCamera. */
  method BuildMap<T>(xs: seq<T>, key: T -> int) returns (m: map<int, T>)
    ensures m == LastByKey(xs, key)
  {
    m := map[];
    var i := 0;
    while i < |xs|
      invariant 0 <= i <= |xs|
      invariant m == LastByKey(xs[..i], key)
    {
      assert xs[..i + 1][..i] == xs[..i];
      m := m[key(xs[i]) := xs[i]];
      i := i + 1;
    }
    assert xs[..i] == xs;
  }

  function ZoneIdOf(z: CameraZone): int { z.zoneId }

  function KelasOf(k: KlasifikasiKendaraan): int { k.kelas }

  // ---------------------------------------------------------------------
  // ConvertCameraDataToTrafficData: classes and zones
  // ---------------------------------------------------------------------

  /** The stored class for a reported class: from the master list, or a generated name. */
  function ClassDetail(c: CameraClass, klasifikasi: map<int, KlasifikasiKendaraan>, tipeLokasi: string): KelasDetail
  {
    if c.classNr in klasifikasi then
      KelasDetail(klasifikasi[c.classNr].id, klasifikasi[c.classNr].namaKelas, c.classNr, c.numVeh, c.speed)
    else
      KelasDetail("KK-" + tipeLokasi + "-" + FormatInt(c.classNr), "Kelas " + FormatInt(c.classNr), c.classNr, c.numVeh, c.speed)
  }

  /** A class missing from the master list is named after its number, which reads back from the name. */
  lemma GeneratedClassName(c: CameraClass, klasifikasi: map<int, KlasifikasiKendaraan>, tipeLokasi: string)
    requires c.classNr !in klasifikasi && InInt64(c.classNr)
    ensures HasPrefix(ClassDetail(c, klasifikasi, tipeLokasi).idKlasifikasi, "KK-" + tipeLokasi + "-")
    ensures ParseInt64(ClassDetail(c, klasifikasi, tipeLokasi).namaKelas[6..]) == Some(c.classNr)
    ensures ClassDetail(c, klasifikasi, tipeLokasi).kelas == c.classNr
    ensures ClassDetail(c, klasifikasi, tipeLokasi).jumlahKendaraan == c.numVeh
  {
    var d := ClassDetail(c, klasifikasi, tipeLokasi);
    var p := "KK-" + tipeLokasi + "-";
    assert d.idKlasifikasi[..|p|] == p;
    assert d.namaKelas[6..] == FormatInt(c.classNr);
    FormatParseRoundTrip(c.classNr);
  }

  function ClassDetails(classes: seq<CameraClass>, klasifikasi: map<int, KlasifikasiKendaraan>, tipeLokasi: string): (r: seq<KelasDetail>)
    ensures |r| == |classes|
  {
    seq(|classes|, i requires 0 <= i < |classes| => ClassDetail(classes[i], klasifikasi, tipeLokasi))
  }

  /** Vehicles reported for one zone. */
  function SumNumVeh(classes: seq<CameraClass>): int
  {
    if classes == [] then 0 else SumNumVeh(classes[..|classes| - 1]) + classes[|classes| - 1].numVeh
  }

  /** Converting the classes keeps every count. */
  lemma {:induction false} ClassDetailsCount(classes: seq<CameraClass>, klasifikasi: map<int, KlasifikasiKendaraan>, tipeLokasi: string)
    ensures SumCounts(ClassDetails(classes, klasifikasi, tipeLokasi)) == SumNumVeh(classes)
  {
    if classes != [] {
      var init := classes[..|classes| - 1];
      assert ClassDetails(classes, klasifikasi, tipeLokasi)[..|init|] == ClassDetails(init, klasifikasi, tipeLokasi);
      ClassDetailsCount(init, klasifikasi, tipeLokasi);
    }
  }

  /** The zone's entry: the configured direction, with the reported classes if the zone was reported. */
  function ZoneEntry(cfg: CameraZonaArah, zoneId: int, incoming: map<int, CameraZone>,
                     klasifikasi: map<int, KlasifikasiKendaraan>, tipeLokasi: string): ZonaArahData
  {
    if zoneId in incoming then
      var cs := ClassDetails(incoming[zoneId].classes, klasifikasi, tipeLokasi);
      ZonaArahData(cfg.idZonaArah, cfg.arah, cs, SumCounts(cs))
    else ZonaArahData(cfg.idZonaArah, cfg.arah, [], 0)
  }

  /** One configured zone: the loop over its reported classes. */
  method ConvertZone(cfg: CameraZonaArah, zoneId: int, incoming: map<int, CameraZone>,
                     klasifikasi: map<int, KlasifikasiKendaraan>, tipeLokasi: string) returns (za: ZonaArahData)
    ensures za == ZoneEntry(cfg, zoneId, incoming, klasifikasi, tipeLokasi)
  {
    if zoneId in incoming {
      var kelasData, totalKendaraan := ConvertClasses(incoming[zoneId].classes, klasifikasi, tipeLokasi);
      za := ZonaArahData(cfg.idZonaArah, cfg.arah, kelasData, totalKendaraan);
    } else {
      za := ZonaArahData(cfg.idZonaArah, cfg.arah, [], 0);
    }
  }

  /** The class loop of one reported zone, with the zone total kept alongside. */
  method ConvertClasses(classes: seq<CameraClass>, klasifikasi: map<int, KlasifikasiKendaraan>, tipeLokasi: string)
    returns (kelasData: seq<KelasDetail>, totalKendaraan: int)
    ensures kelasData == ClassDetails(classes, klasifikasi, tipeLokasi)
    ensures totalKendaraan == SumCounts(kelasData)
  {
    kelasData := [];
    totalKendaraan := 0;
    var c := 0;
    while c < |classes|
      invariant 0 <= c <= |classes|
      invariant |kelasData| == c
      invariant forall l :: 0 <= l < c ==> kelasData[l] == ClassDetail(classes[l], klasifikasi, tipeLokasi)
      invariant totalKendaraan == SumCounts(kelasData)
    {
      var kd := ClassDetail(classes[c], klasifikasi, tipeLokasi);
      assert (kelasData + [kd])[..c] == kelasData;
      kelasData := kelasData + [kd];
      totalKendaraan := totalKendaraan + kd.jumlahKendaraan;
      c := c + 1;
    }
    assert kelasData == ClassDetails(classes, klasifikasi, tipeLokasi);
  }

  /**
   * The order in which Go ranges over the configured-zone map: every zone
   * ID 1..n exactly once, in an order the runtime chooses.
   */
  predicate IsOrderOf(order: seq<int>, n: int)
  {
    |order| == n
    && (forall j :: 0 <= j < |order| ==> 1 <= order[j] <= n)
    && (forall j, l :: 0 <= j < l < |order| ==> order[j] != order[l])
    && (forall id :: 1 <= id <= n ==> id in order)
  }

  /** Reference definition of the direction list: one entry per configured zone, in map order. */
  function Reconciled(configured: seq<CameraZonaArah>, incoming: map<int, CameraZone>, order: seq<int>,
                      klasifikasi: map<int, KlasifikasiKendaraan>, tipeLokasi: string): (r: seq<ZonaArahData>)
    requires IsOrderOf(order, |configured|)
    ensures |r| == |configured|
  {
    seq(|order|, j requires 0 <= j < |order| => ZoneEntry(configured[order[j] - 1], order[j], incoming, klasifikasi, tipeLokasi))
  }

  /** The zone loop of ConvertCameraDataToTrafficData. */
  method ReconcileZones(configured: seq<CameraZonaArah>, incoming: map<int, CameraZone>, order: seq<int>,
                        klasifikasi: map<int, KlasifikasiKendaraan>, tipeLokasi: string)
    returns (zonaArahData: seq<ZonaArahData>)
    requires IsOrderOf(order, |configured|)
    ensures zonaArahData == Reconciled(configured, incoming, order, klasifikasi, tipeLokasi)
  {
    zonaArahData := [];
    var j := 0;
    while j < |order|
      invariant 0 <= j <= |order|
      invariant |zonaArahData| == j
      invariant forall l :: 0 <= l < j ==>
        zonaArahData[l] == ZoneEntry(configured[order[l] - 1], order[l], incoming, klasifikasi, tipeLokasi)
    {
      var zoneId := order[j];
      var za := ConvertZone(configured[zoneId - 1], zoneId, incoming, klasifikasi, tipeLokasi);
      zonaArahData := zonaArahData + [za];
      j := j + 1;
    }
  }

  /** Every configured zone appears exactly once, with its configured ID and direction name. */
  lemma ReconciledCoversConfigured(configured: seq<CameraZonaArah>, incoming: map<int, CameraZone>, order: seq<int>,
                                   klasifikasi: map<int, KlasifikasiKendaraan>, tipeLokasi: string, i: int)
    requires IsOrderOf(order, |configured|)
    requires 0 <= i < |configured|
    ensures exists j :: (0 <= j < |order| && order[j] == i + 1
      && Reconciled(configured, incoming, order, klasifikasi, tipeLokasi)[j].idZonaArah == configured[i].idZonaArah
      && Reconciled(configured, incoming, order, klasifikasi, tipeLokasi)[j].namaArah == configured[i].arah)
    ensures forall j, l :: 0 <= j < l < |order| ==> order[j] != order[l]
  {
    assert i + 1 in order;
    var j :| 0 <= j < |order| && order[j] == i + 1;
    var r := Reconciled(configured, incoming, order, klasifikasi, tipeLokasi);
    assert r[j] == ZoneEntry(configured[i], i + 1, incoming, klasifikasi, tipeLokasi);
  }

  /** A configured zone the camera did not report gets no classes and a zero total. */
  lemma ReconciledMissingZone(configured: seq<CameraZonaArah>, incoming: map<int, CameraZone>, order: seq<int>,
                              klasifikasi: map<int, KlasifikasiKendaraan>, tipeLokasi: string, j: int)
    requires IsOrderOf(order, |configured|)
    requires 0 <= j < |order| && order[j] !in incoming
    ensures Reconciled(configured, incoming, order, klasifikasi, tipeLokasi)[j].kelasData == []
    ensures Reconciled(configured, incoming, order, klasifikasi, tipeLokasi)[j].totalKendaraan == 0
  {
  }

  /** A reported zone keeps all its classes, and its total is the sum of the reported counts. */
  lemma ReconciledReportedZone(configured: seq<CameraZonaArah>, incoming: map<int, CameraZone>, order: seq<int>,
                               klasifikasi: map<int, KlasifikasiKendaraan>, tipeLokasi: string, j: int)
    requires IsOrderOf(order, |configured|)
    requires 0 <= j < |order| && order[j] in incoming
    ensures |Reconciled(configured, incoming, order, klasifikasi, tipeLokasi)[j].kelasData| == |incoming[order[j]].classes|
    ensures Reconciled(configured, incoming, order, klasifikasi, tipeLokasi)[j].totalKendaraan == SumNumVeh(incoming[order[j]].classes)
  {
    ClassDetailsCount(incoming[order[j]].classes, klasifikasi, tipeLokasi);
  }

  /** Every direction total is the sum of its class counts. */
  lemma ReconciledTotals(configured: seq<CameraZonaArah>, incoming: map<int, CameraZone>, order: seq<int>,
                         klasifikasi: map<int, KlasifikasiKendaraan>, tipeLokasi: string)
    requires IsOrderOf(order, |configured|)
    ensures forall za :: za in Reconciled(configured, incoming, order, klasifikasi, tipeLokasi) ==>
      za.totalKendaraan == SumCounts(za.kelasData)
  {
  }

  /** The reported zones whose IDs are configured. */
  function Configured(incoming: map<int, CameraZone>, n: int): map<int, CameraZone>
  {
    map id | id in incoming && 1 <= id <= n :: incoming[id]
  }

  /** Zones reported under an ID the camera does not have are dropped without a trace. */
  lemma ExtraZonesIgnored(configured: seq<CameraZonaArah>, incoming: map<int, CameraZone>, order: seq<int>,
                          klasifikasi: map<int, KlasifikasiKendaraan>, tipeLokasi: string)
    requires IsOrderOf(order, |configured|)
    ensures Reconciled(configured, incoming, order, klasifikasi, tipeLokasi)
      == Reconciled(configured, Configured(incoming, |configured|), order, klasifikasi, tipeLokasi)
  {
    var a := Reconciled(configured, incoming, order, klasifikasi, tipeLokasi);
    var b := Reconciled(configured, Configured(incoming, |configured|), order, klasifikasi, tipeLokasi);
    forall j | 0 <= j < |order| ensures a[j] == b[j] {
      var id := order[j];
      assert id in incoming <==> id in Configured(incoming, |configured|);
    }
  }

  // ---------------------------------------------------------------------
  // Totals, interval and the Utc attribute
  // ---------------------------------------------------------------------

  /** Reference definition: the sum of the direction totals. */
  function SumTotals(zs: seq<ZonaArahData>): int
  {
    if zs == [] then 0 else SumTotals(zs[..|zs| - 1]) + zs[|zs| - 1].totalKendaraan
  }

  /** The record total loop. */
  method RecordTotal(zs: seq<ZonaArahData>) returns (total: int)
    ensures total == SumTotals(zs)
  {
    total := 0;
    var j := 0;
    while j < |zs|
      invariant 0 <= j <= |zs|
      invariant total == SumTotals(zs[..j])
    {
      assert zs[..j + 1][..j] == zs[..j];
      total := total + zs[j].totalKendaraan;
      j := j + 1;
    }
    assert zs[..j] == zs;
  }

  lemma {:induction false} SumCountsAppend(a: seq<KelasDetail>, b: seq<KelasDetail>)
    ensures SumCounts(a + b) == SumCounts(a) + SumCounts(b)
    decreases |b|
  {
    if b == [] {
      assert a + b == a;
    } else {
      assert (a + b)[..|a + b| - 1] == a + b[..|b| - 1];
      SumCountsAppend(a, b[..|b| - 1]);
    }
  }

  /** When each direction total is its classes' sum, the record total counts every vehicle once. */
  lemma {:induction false} SumTotalsCountsVehicles(zs: seq<ZonaArahData>)
    requires forall za :: za in zs ==> za.totalKendaraan == SumCounts(za.kelasData)
    ensures SumTotals(zs) == SumCounts(ZoneClasses(zs))
  {
    if zs != [] {
      var init := zs[..|zs| - 1];
      assert forall za :: za in init ==> za in zs;
      SumTotalsCountsVehicles(init);
      SumCountsAppend(ZoneClasses(init), zs[|zs| - 1].kelasData);
    }
  }

  /** Go's integer division, which truncates toward zero. */
  function GoDiv(a: int, b: int): (q: int)
    requires b > 0
    ensures a >= 0 ==> q == a / b
    ensures a < 0 ==> q == -((-a) / b)
  {
    if a >= 0 then a / b else -((-a) / b)
  }

  /** IntervalMenit: whole minutes of IntervalTime seconds, 5 when that is not positive. */
  function IntervalMenit(intervalTime: int): (m: int)
    ensures m >= 1
    ensures intervalTime >= 60 ==> m * 60 <= intervalTime < (m + 1) * 60
    ensures intervalTime < 60 ==> m == 5
  {
    var q := GoDiv(intervalTime, 60);
    if q <= 0 then 5 else q
  }

  /** An offset text: a 64-bit integer from -12 to 14. */
  predicate OffsetText(t: string, n: int)
  {
    ParseInt64(t) == Some(n) && -12 <= n <= 14
  }

  /** The Utc attribute's offset, if it names one: bare, or after an exact "utc" or "UTC". */
  function ZoneOffset(utc: string): (r: Option<int>)
    ensures r.Some? ==> -12 <= r.value <= 14
    ensures r.Some? ==> OffsetText(utc, r.value) || (|utc| >= 4 && (utc[..3] == "utc" || utc[..3] == "UTC") && OffsetText(utc[3..], r.value))
    ensures r.None? ==> forall n :: !OffsetText(utc, n)
    ensures r.None? && |utc| >= 4 && (utc[..3] == "utc" || utc[..3] == "UTC") ==>
      forall n :: !OffsetText(utc[3..], n)
  {
    if utc == "" || utc == "$utcVar" then None
    else match ParseInt64(utc)
      case Some(n) =>
        if -12 <= n <= 14 then Some(n)
        else if |utc| >= 4 && (utc[..3] == "utc" || utc[..3] == "UTC") then ParsePrefixed(utc)
        else None
      case None =>
        if |utc| >= 4 && (utc[..3] == "utc" || utc[..3] == "UTC") then ParsePrefixed(utc)
        else None
  }

  function ParsePrefixed(utc: string): (r: Option<int>)
    requires |utc| >= 4
  {
    match ParseInt64(utc[3..])
    case Some(n) => if -12 <= n <= 14 then Some(n) else None
    case None => None
  }

  /**
   * The timestamp's offset from UTC in hours (lines setting `parsed` and
   * `zoneOffset`): the camera's offset when it names one, otherwise the
   * location's Zona_waktu (0 meaning plain UTC).
   */
  method TimestampOffset(utc: string, zonaWaktu: real) returns (offsetHours: real)
    ensures ZoneOffset(utc).Some? ==> offsetHours == ZoneOffset(utc).value as real
    ensures ZoneOffset(utc).None? ==> offsetHours == zonaWaktu
  {
    var parsed := false;
    var zoneOffset := 0;
    if utc != "" && utc != "$utcVar" {
      var bare := ParseInt64(utc);
      if bare.Some? && -12 <= bare.value <= 14 {
        zoneOffset := bare.value;
        parsed := true;
      } else if |utc| >= 4 && (utc[..3] == "utc" || utc[..3] == "UTC") {
        var prefixed := ParseInt64(utc[3..]);
        if prefixed.Some? && -12 <= prefixed.value <= 14 {
          zoneOffset := prefixed.value;
          parsed := true;
        }
      }
    }
    if parsed {
      offsetHours := zoneOffset as real;
    } else {
      offsetHours := zonaWaktu;
    }
  }

  /** A bare offset from -12 to 14 is understood. */
  lemma ZoneOffsetBare(n: int)
    requires -12 <= n <= 14
    ensures ZoneOffset(FormatInt(n)) == Some(n)
  {
    FormatParseRoundTrip(n);
    var d := FormatInt(n);
    assert d != "" && d != "$utcVar" by {
      if n < 0 { assert d[0] == '-'; } else { assert IsDigit(d[0]); }
    }
  }

  /** An offset from -12 to 14 is understood after an exact "utc" or "UTC" prefix. */
  lemma ZoneOffsetPrefixed(prefix: string, n: int)
    requires prefix == "utc" || prefix == "UTC"
    requires -12 <= n <= 14
    ensures ZoneOffset(prefix + FormatInt(n)) == Some(n)
  {
    FormatParseRoundTrip(n);
    var d := FormatInt(n);
    var u := prefix + d;
    assert |d| >= 1 by {
      if n < 0 { assert d[0] == '-'; } else { assert IsDigit(d[0]); }
    }
    assert u[..3] == prefix && u[3..] == d;
    assert u[0] == prefix[0] && !IsDigit(u[0]) && u[0] != '+' && u[0] != '-';
    assert ParseInt64(u) == None;
    assert ParsePrefixed(u) == Some(n);
  }

  /** The prefix is matched exactly: a mixed-case prefix or an offset out of range names no offset. */
  lemma ZoneOffsetRejects()
    ensures ZoneOffset("Utc7") == None
    ensures ZoneOffset("15") == None
    ensures ZoneOffset("UTC-13") == None
    ensures ZoneOffset("") == None && ZoneOffset("$utcVar") == None
  {
    ZoneOffsetRejectsMixedCase();
    ZoneOffsetRejectsBareOutOfRange();
    ZoneOffsetRejectsPrefixedOutOfRange();
  }

  /** Every int64 offset outside -12..14, written bare, names no offset. */
  lemma ZoneOffsetRejectsOutOfRange(n: int)
    requires InInt64(n) && (n < -12 || n > 14)
    ensures ZoneOffset(FormatInt(n)) == None
  {
    FormatParseRoundTrip(n);
    var s := FormatInt(n);
    var m := if n < 0 then -n else n;
    assert IsDigit(DecimalDigits(m)[0]) by { DigitsValueOfDecimal(m); }
    assert s[0] == '-' || IsDigit(s[0]);
  }

  /**
   * A text that is no integer and does not start with exactly "utc" or
   * "UTC" names no offset, whatever else it holds.
   */
  lemma ZoneOffsetRejectsUnprefixed(utc: string)
    requires ParseInt64(utc).None?
    requires |utc| >= 4 ==> utc[..3] != "utc" && utc[..3] != "UTC"
    ensures ZoneOffset(utc) == None
  {
  }

  lemma ZoneOffsetRejectsMixedCase()
    ensures ZoneOffset("Utc7") == None
  {
    assert ParseInt64("Utc7") == None by { assert !IsDigit('U'); }
    assert "Utc7"[..3] == "Utc";
  }

  lemma ZoneOffsetRejectsBareOutOfRange()
    ensures ZoneOffset("15") == None
  {
    assert ParseInt64("15") == Some(15) by { FormatParseRoundTrip(15); assert FormatInt(15) == "15"; }
  }

  lemma ZoneOffsetRejectsPrefixedOutOfRange()
    ensures ZoneOffset("UTC-13") == None
  {
    assert ParseInt64("UTC-13") == None by { assert !IsDigit('U'); }
    assert "UTC-13"[3..] == "-13";
    assert ParseInt64("-13") == Some(-13) by { FormatParseRoundTrip(-13); assert FormatInt(-13) == "-13"; }
  }

  // ---------------------------------------------------------------------
  // The timestamp
  // ---------------------------------------------------------------------

  /** The offset the timestamp is shifted by, in hours. */
  function OffsetHours(utc: string, zonaWaktu: real): real
  {
    if ZoneOffset(utc).Some? then ZoneOffset(utc).value as real else zonaWaktu
  }

  /**
   * time.Duration of a float number of hours: the offset in seconds,
   * truncated toward zero (Go keeps nanoseconds, the model whole seconds).
   */
  function OffsetSeconds(offsetHours: real): (s: int)
    ensures offsetHours >= 0.0 ==> 0 <= s && s as real <= offsetHours * 3600.0 < s as real + 1.0
    ensures offsetHours < 0.0 ==> s <= 0 && s as real - 1.0 < offsetHours * 3600.0 <= s as real
  {
    var x := offsetHours * 3600.0;
    if x >= 0.0 then x.Floor else -((-x).Floor)
  }

  /** Truncation, unlike flooring, is symmetric: a negative offset is the mirror of the positive one. */
  lemma OffsetSecondsSymmetric(offsetHours: real)
    ensures OffsetSeconds(-offsetHours) == -OffsetSeconds(offsetHours)
  {
    if offsetHours < 0.0 {
      assert (-offsetHours) * 3600.0 == -(offsetHours * 3600.0);
    } else if offsetHours > 0.0 {
      assert (-offsetHours) * 3600.0 == -(offsetHours * 3600.0);
    }
  }

  /**
   * The hour of the day of the server's clock, `nowUtc` seconds after a UTC
   * midnight, shifted by `offsetHours`.
   */
  function LocalHour(nowUtc: int, offsetHours: real): (h: Hour)
    ensures offsetHours == 0.0 ==> h == (nowUtc % 86400) / 3600
    ensures 3600 * h <= (nowUtc + OffsetSeconds(offsetHours)) % 86400 < 3600 * (h + 1)
  {
    ((nowUtc + OffsetSeconds(offsetHours)) % 86400) / 3600
  }

  /** A whole-hour offset moves the hour of the day by that many hours, modulo a day. */
  lemma LocalHourShift(nowUtc: int, n: int)
    ensures LocalHour(nowUtc, n as real) == (LocalHour(nowUtc, 0.0) + n) % 24
  {
    var a := nowUtc / 86400;
    var rest := nowUtc % 86400;
    var h := rest / 3600;
    var sec := rest % 3600;
    assert nowUtc == 86400 * a + 3600 * h + sec;
    assert OffsetSeconds(n as real) == 3600 * n;
    assert LocalHour(nowUtc, 0.0) == h;
    var b := (h + n) / 24;
    var m := (h + n) % 24;
    assert nowUtc + 3600 * n == 86400 * (a + b) + (3600 * m + sec);
    assert 0 <= 3600 * m + sec < 86400;
    assert (nowUtc + 3600 * n) % 86400 == 3600 * m + sec;
    assert (3600 * m + sec) / 3600 == m;
  }

  // ---------------------------------------------------------------------
  // ConvertCameraDataToTrafficData
  // ---------------------------------------------------------------------

  /**
   * ConvertCameraDataToTrafficData for a camera at `lokasiId` whose configured
   * directions are `configured`. `location` is the stored location (None when
   * the lookup fails, which is the function's only error); `klasifikasiList`
   * is the master list for its road type (empty when that lookup fails, which
   * is only logged); `order` is Go's order over the configured-zone map and
   * `nowUtc` the server clock.
   */
  method ConvertCameraData(body: CameraBody, lokasiId: string, configured: seq<CameraZonaArah>,
                           location: Option<Location>, klasifikasiList: seq<KlasifikasiKendaraan>,
                           order: seq<int>, nowUtc: int)
    returns (r: Option<TrafficData>)
    requires IsOrderOf(order, |configured|)
    ensures location.None? ==> r.None?
    ensures location.Some? ==>
      r.Some?
      && r.value.lokasiId == lokasiId
      && r.value.tipeLokasi == location.value.tipeLokasi
      && r.value.zonaArahData == Reconciled(configured, LastByKey(body.zones, ZoneIdOf), order,
                                            LastByKey(klasifikasiList, KelasOf), location.value.tipeLokasi)
      && r.value.totalKendaraan == SumCounts(RecordClasses(r.value))
      && r.value.intervalMenit == IntervalMenit(body.intervalTime)
      && r.value.hour == LocalHour(nowUtc, OffsetHours(body.utc, location.value.zonaWaktu))
  {
    if location.None? {
      return None;
    }
    var loc := location.value;
    var klasifikasi := BuildMap(klasifikasiList, KelasOf);
    var incoming := BuildMap(body.zones, ZoneIdOf);
    var zonaArahData := ReconcileZones(configured, incoming, order, klasifikasi, loc.tipeLokasi);

    var q := if body.intervalTime >= 0 then body.intervalTime / 60 else -((-body.intervalTime) / 60);
    var intervalMenit := if q <= 0 then 5 else q;

    var offsetHours := TimestampOffset(body.utc, loc.zonaWaktu);
    var hour := LocalHour(nowUtc, offsetHours);

    var totalKendaraan := RecordTotal(zonaArahData);
    ReconciledTotals(configured, incoming, order, klasifikasi, loc.tipeLokasi);
    SumTotalsCountsVehicles(zonaArahData);
    r := Some(TrafficData(lokasiId, hour, loc.tipeLokasi, zonaArahData, totalKendaraan, intervalMenit));
  }

  // ---------------------------------------------------------------------
  // SaveRawDataFromCamera
  // ---------------------------------------------------------------------

  datatype RawKelasData = RawKelasData(kelas: int, jumlahKendaraan: int, kecepatan: real, gapTime: real)

  datatype RawZonaData = RawZonaData(
    idZonaArah: string,
    zonaId: int,
    namaArah: string,
    occupancy: real,
    confidence: real,
    length: real,
    headWay: real,
    density: real,
    kelasData: seq<RawKelasData>,
    totalKendaraan: int)

  /** The raw record that SaveRawData stores; `hour` stands for its timestamp. */
  datatype RawRecord = RawRecord(lokasiId: string, hour: Hour, zonaData: seq<RawZonaData>,
                                 intervalMenit: int, totalKendaraan: int)

  function RawClass(c: CameraClass): RawKelasData
  {
    RawKelasData(c.classNr, c.numVeh, c.speed, c.gapTime)
  }

  function RawClasses(cs: seq<CameraClass>): (r: seq<RawKelasData>)
    ensures |r| == |cs|
  {
    seq(|cs|, i requires 0 <= i < |cs| => RawClass(cs[i]))
  }

  function SumRawCounts(ks: seq<RawKelasData>): int
  {
    if ks == [] then 0 else SumRawCounts(ks[..|ks| - 1]) + ks[|ks| - 1].jumlahKendaraan
  }

  /** Reference definition of one configured zone's raw entry; a missing zone reads all zeros. */
  function RawEntry(cfg: CameraZonaArah, zoneId: int, incoming: map<int, CameraZone>): RawZonaData
  {
    if zoneId in incoming then
      var z := incoming[zoneId];
      var ks := RawClasses(z.classes);
      RawZonaData(cfg.idZonaArah, zoneId, cfg.arah, z.occupancy, z.confidence, z.length, z.headWay, z.density,
                  ks, SumRawCounts(ks))
    else RawZonaData(cfg.idZonaArah, zoneId, cfg.arah, 0.0, 0.0, 0.0, 0.0, 0.0, [], 0)
  }

  function RawReconciled(configured: seq<CameraZonaArah>, incoming: map<int, CameraZone>, order: seq<int>): (r: seq<RawZonaData>)
    requires IsOrderOf(order, |configured|)
    ensures |r| == |configured|
  {
    seq(|order|, j requires 0 <= j < |order| => RawEntry(configured[order[j] - 1], order[j], incoming))
  }

  function SumRawTotals(zs: seq<RawZonaData>): int
  {
    if zs == [] then 0 else SumRawTotals(zs[..|zs| - 1]) + zs[|zs| - 1].totalKendaraan
  }

  /** One configured zone of the raw loop. */
  method RawZone(cfg: CameraZonaArah, zoneId: int, incoming: map<int, CameraZone>) returns (zd: RawZonaData)
    ensures zd == RawEntry(cfg, zoneId, incoming)
  {
    if zoneId in incoming {
      var zone := incoming[zoneId];
      var kelasData: seq<RawKelasData> := [];
      var total := 0;
      var c := 0;
      while c < |zone.classes|
        invariant 0 <= c <= |zone.classes|
        invariant |kelasData| == c
        invariant forall l :: 0 <= l < c ==> kelasData[l] == RawClass(zone.classes[l])
        invariant total == SumRawCounts(kelasData)
      {
        var k := RawClass(zone.classes[c]);
        assert (kelasData + [k])[..c] == kelasData;
        kelasData := kelasData + [k];
        total := total + k.jumlahKendaraan;
        c := c + 1;
      }
      assert kelasData == RawClasses(zone.classes);
      zd := RawZonaData(cfg.idZonaArah, zoneId, cfg.arah, zone.occupancy, zone.confidence, zone.length,
                        zone.headWay, zone.density, kelasData, total);
    } else {
      zd := RawZonaData(cfg.idZonaArah, zoneId, cfg.arah, 0.0, 0.0, 0.0, 0.0, 0.0, [], 0);
    }
  }

  /**
   * SaveRawDataFromCamera, up to the store: one entry per configured zone
   * with its zone number, and the record total summed in the same loop.
   */
  method RawDataFromCamera(body: CameraBody, lokasiId: string, configured: seq<CameraZonaArah>,
                           location: Option<Location>, order: seq<int>, nowUtc: int)
    returns (r: Option<RawRecord>)
    requires IsOrderOf(order, |configured|)
    ensures location.None? ==> r.None?
    ensures location.Some? ==>
      r.Some?
      && r.value.lokasiId == lokasiId
      && r.value.zonaData == RawReconciled(configured, LastByKey(body.zones, ZoneIdOf), order)
      && r.value.totalKendaraan == SumRawTotals(r.value.zonaData)
      && r.value.intervalMenit == IntervalMenit(body.intervalTime)
      && r.value.hour == LocalHour(nowUtc, OffsetHours(body.utc, location.value.zonaWaktu))
  {
    if location.None? {
      return None;
    }
    var offsetHours := TimestampOffset(body.utc, location.value.zonaWaktu);
    var hour := LocalHour(nowUtc, offsetHours);
    var q := if body.intervalTime >= 0 then body.intervalTime / 60 else -((-body.intervalTime) / 60);
    var intervalMenit := if q <= 0 then 5 else q;

    var incoming := BuildMap(body.zones, ZoneIdOf);
    var zonaData, totalKendaraan := RawZones(configured, incoming, order);
    r := Some(RawRecord(lokasiId, hour, zonaData, intervalMenit, totalKendaraan));
  }

  /**
   * The zone loop of SaveRawDataFromCamera: one raw entry per configured
   * zone, in the chosen order, with the record total accumulated alongside.
   */
  method RawZones(configured: seq<CameraZonaArah>, incoming: map<int, CameraZone>, order: seq<int>)
    returns (zonaData: seq<RawZonaData>, totalKendaraan: int)
    requires IsOrderOf(order, |configured|)
    ensures zonaData == RawReconciled(configured, incoming, order)
    ensures totalKendaraan == SumRawTotals(zonaData)
  {
    zonaData := [];
    totalKendaraan := 0;
    var j := 0;
    while j < |order|
      invariant 0 <= j <= |order|
      invariant |zonaData| == j
      invariant forall l :: 0 <= l < j ==> zonaData[l] == RawEntry(configured[order[l] - 1], order[l], incoming)
      invariant totalKendaraan == SumRawTotals(zonaData)
    {
      var zoneId := order[j];
      var zd := RawZone(configured[zoneId - 1], zoneId, incoming);
      assert (zonaData + [zd])[..j] == zonaData;
      zonaData := zonaData + [zd];
      totalKendaraan := totalKendaraan + zd.totalKendaraan;
      j := j + 1;
    }
  }

  /** A configured zone the camera did not report is stored with every measurement zero. */
  lemma RawMissingZoneIsZero(configured: seq<CameraZonaArah>, incoming: map<int, CameraZone>, order: seq<int>, j: int)
    requires IsOrderOf(order, |configured|)
    requires 0 <= j < |order| && order[j] !in incoming
    ensures RawReconciled(configured, incoming, order)[j].zonaId == order[j]
    ensures RawReconciled(configured, incoming, order)[j].idZonaArah == configured[order[j] - 1].idZonaArah
    ensures RawReconciled(configured, incoming, order)[j].kelasData == []
    ensures RawReconciled(configured, incoming, order)[j].totalKendaraan == 0
    ensures RawReconciled(configured, incoming, order)[j].occupancy == 0.0
    ensures RawReconciled(configured, incoming, order)[j].density == 0.0
    ensures RawReconciled(configured, incoming, order)[j].confidence == 0.0
    ensures RawReconciled(configured, incoming, order)[j].length == 0.0
    ensures RawReconciled(configured, incoming, order)[j].headWay == 0.0
    ensures RawReconciled(configured, incoming, order)[j].namaArah == configured[order[j] - 1].arah
  {
  }

  /** A reported zone keeps its measurements, and its total is what the camera counted. */
  lemma RawReportedZone(configured: seq<CameraZonaArah>, incoming: map<int, CameraZone>, order: seq<int>, j: int)
    requires IsOrderOf(order, |configured|)
    requires 0 <= j < |order| && order[j] in incoming
    ensures RawReconciled(configured, incoming, order)[j].zonaId == order[j]
    ensures RawReconciled(configured, incoming, order)[j].occupancy == incoming[order[j]].occupancy
    ensures RawReconciled(configured, incoming, order)[j].kelasData == RawClasses(incoming[order[j]].classes)
    ensures RawReconciled(configured, incoming, order)[j].totalKendaraan == SumNumVeh(incoming[order[j]].classes)
  {
    RawClassesCount(incoming[order[j]].classes);
  }

  lemma {:induction false} RawClassesCount(cs: seq<CameraClass>)
    ensures SumRawCounts(RawClasses(cs)) == SumNumVeh(cs)
  {
    if cs != [] {
      var init := cs[..|cs| - 1];
      assert RawClasses(cs)[..|init|] == RawClasses(init);
      RawClassesCount(init);
    }
  }

  /** The raw and the converted record of one message count the same vehicles in every zone. */
  lemma RawAgreesWithConverted(configured: seq<CameraZonaArah>, incoming: map<int, CameraZone>, order: seq<int>,
                               klasifikasi: map<int, KlasifikasiKendaraan>, tipeLokasi: string, j: int)
    requires IsOrderOf(order, |configured|)
    requires 0 <= j < |order|
    ensures RawReconciled(configured, incoming, order)[j].totalKendaraan
      == Reconciled(configured, incoming, order, klasifikasi, tipeLokasi)[j].totalKendaraan
    ensures RawReconciled(configured, incoming, order)[j].idZonaArah
      == Reconciled(configured, incoming, order, klasifikasi, tipeLokasi)[j].idZonaArah
  {
    if order[j] in incoming {
      RawReportedZone(configured, incoming, order, j);
      ReconciledReportedZone(configured, incoming, order, klasifikasi, tipeLokasi, j);
    }
  }

  // ---------------------------------------------------------------------
  // CalculateRealTimeMKJI and CalculateRealTimePKJI
  // ---------------------------------------------------------------------

  /** The interval a record is scaled by; a record without a positive interval counts as 5 minutes. */
  function EffectiveInterval(intervalMenit: int): (m: int)
    ensures m > 0
    ensures intervalMenit > 0 ==> m == intervalMenit
    ensures intervalMenit <= 0 ==> m == 5
  {
    if intervalMenit <= 0 then 5 else intervalMenit
  }

  /** `perHour` is `total`, counted over the interval, scaled to 60 minutes. */
  predicate ScaledToHour(perHour: real, total: real, intervalMenit: int)
  {
    perHour * (EffectiveInterval(intervalMenit) as real) == total * 60.0
  }

  /** The count of one interval scaled to an hour: multiplied by 60 / interval minutes. */
  method PerHour(total: real, intervalMenit: int) returns (perHour: real)
    ensures ScaledToHour(perHour, total, intervalMenit)
    ensures total >= 0.0 ==> perHour >= 0.0
  {
    var m := intervalMenit;
    if m <= 0 {
      m := 5;
    }
    var multiplier := 60.0 / (m as real);
    perHour := total * multiplier;
  }

  /**
   * The road-type switch of the real-time MKJI capacity, over the looked-up
   * factors: C = Co x FCW x FCSP x FCSF x FCCS on urban roads and unknown
   * types, FCCS dropped outside cities and on 12-class sites, FCSF and FCCS
   * dropped on motorways.
   */
  method RealTimeSwitchMKJI(tipeLokasi: string, co: real, fcw: real, fcsp: real, fcsfLookup: real, fccsLookup: real)
    returns (kapasitas: real, fcsf: real, fccs: real)
    ensures tipeLokasi == "bebas_hambatan" ==> fcsf == 1.0 && fccs == 1.0
    ensures tipeLokasi != "bebas_hambatan" ==> fcsf == fcsfLookup
    ensures tipeLokasi == "luar_kota" || tipeLokasi == "12_kelas" ==> fccs == 1.0
    ensures tipeLokasi !in {"luar_kota", "12_kelas", "bebas_hambatan"} ==> fccs == fccsLookup
    ensures Mkji.CapacityOf(co, fcw, fcsp, fcsf, fccs).kapasitas == kapasitas
  {
    fcsf := fcsfLookup;
    fccs := fccsLookup;
    match tipeLokasi {
      case "perkotaan" =>
        kapasitas := co * fcw * fcsp * fcsf * fccs;
      case "luar_kota" | "12_kelas" =>
        fccs := 1.0;
        kapasitas := co * fcw * fcsp * fcsf;
      case "bebas_hambatan" =>
        fcsf := 1.0;
        fccs := 1.0;
        kapasitas := co * fcw * fcsp;
      case _ =>
        kapasitas := co * fcw * fcsp * fcsf * fccs;
    }
  }

  /** The factors and capacity CalculateRealTimeMKJI reports for a location. */
  predicate RealTimeCapacityMKJI(location: Location, kapasitas: real, co: real, fcw: real, fcsp: real, fcsf: real, fccs: real)
  {
    co == Mkji.GetKapasitasDasar(location.tipeArah, location.tipeLokasi)
    && fcw == Mkji.GetFCW(location.lebarJalur, location.tipeArah)
    && fcsp == Mkji.GetFCSP(location.persentase, location.tipeArah)
    && (location.tipeLokasi == "bebas_hambatan" ==> fcsf == 1.0 && fccs == 1.0)
    && (location.tipeLokasi != "bebas_hambatan" ==>
         fcsf == Mkji.GetFCSF(location.tipeHambatan, location.kelasHambatan, 1.5))
    && (location.tipeLokasi == "luar_kota" || location.tipeLokasi == "12_kelas" ==> fccs == 1.0)
    && (location.tipeLokasi !in {"luar_kota", "12_kelas", "bebas_hambatan"} ==>
         fccs == Mkji.GetFCCS(location.ukuranKota))
    && Mkji.CapacityOf(co, fcw, fcsp, fcsf, fccs).kapasitas == kapasitas
  }

  method RealTimeKapasitasMKJI(location: Location) returns (kapasitas: real, co: real, fcw: real, fcsp: real, fcsf: real, fccs: real)
    ensures RealTimeCapacityMKJI(location, kapasitas, co, fcw, fcsp, fcsf, fccs)
  {
    co := Mkji.GetKapasitasDasar(location.tipeArah, location.tipeLokasi);
    fcw := Mkji.GetFCW(location.lebarJalur, location.tipeArah);
    fcsp := Mkji.GetFCSP(location.persentase, location.tipeArah);
    kapasitas, fcsf, fccs := RealTimeSwitchMKJI(location.tipeLokasi, co, fcw, fcsp,
      Mkji.GetFCSF(location.tipeHambatan, location.kelasHambatan, 1.5), Mkji.GetFCCS(location.ukuranKota));
  }

  /** On urban roads the real-time capacity is the daily analysis' capacity, factor for factor. */
  lemma RealTimeUrbanMatchesDaily(location: Location, kapasitas: real, co: real, fcw: real, fcsp: real, fcsf: real, fccs: real)
    requires location.tipeLokasi == "perkotaan"
    requires RealTimeCapacityMKJI(location, kapasitas, co, fcw, fcsp, fcsf, fccs)
    ensures Mkji.HitungKapasitas(location) == Mkji.MkjiCapacity(kapasitas, co, fcw, fcsp, fcsf, fccs)
  {
    assert Mkji.HitungKapasitas(location) == Mkji.CapacityOf(co, fcw, fcsp, fcsf, fccs);
  }

  /** DS = Q / C, zero without a capacity, and its level of service. */
  method SaturationMKJI(arus: real, kapasitas: real) returns (ds: real, los: string, keterangan: string)
    ensures ds == Mkji.HitungDerajatKejenuhan(arus, kapasitas)
    ensures (los, keterangan) == Mkji.GetTingkatPelayanan(ds)
  {
    ds := 0.0;
    if kapasitas > 0.0 {
      ds := arus / kapasitas;
    }
    los, keterangan := Mkji.GetTingkatPelayanan(ds).0, Mkji.GetTingkatPelayanan(ds).1;
  }

  datatype MkjiAnalysis = MkjiAnalysis(
    mc: int, lv: int, hv: int, um: int, totalMotor: int, totalSmp: real, arusSmp: real,
    kapasitasDasar: real, fcw: real, fcsp: real, fcsf: real, fccs: real, kapasitas: real,
    derajatKejenuhan: real, tingkatPelayanan: string, keterangan: string)

  /** What a real-time MKJI analysis states beyond its category totals. */
  predicate MkjiMeasures(a: MkjiAnalysis, intervalMenit: int, location: Location)
  {
    a.totalMotor == a.mc + a.lv + a.hv
    && a.totalSmp == 0.4 * (a.mc as real) + 1.0 * (a.lv as real) + 1.3 * (a.hv as real)
    && ScaledToHour(a.arusSmp, a.totalSmp, intervalMenit)
    && RealTimeCapacityMKJI(location, a.kapasitas, a.kapasitasDasar, a.fcw, a.fcsp, a.fcsf, a.fccs)
    && a.derajatKejenuhan == Mkji.HitungDerajatKejenuhan(a.arusSmp, a.kapasitas)
    && (a.tingkatPelayanan, a.keterangan) == Mkji.GetTingkatPelayanan(a.derajatKejenuhan)
  }

  /** From the category totals of one record to its flow, capacity, DS and level of service. */
  method AnalyseMKJI(t: (int, int, int, int), intervalMenit: int, location: Location) returns (a: MkjiAnalysis)
    ensures (a.mc, a.lv, a.hv, a.um) == t
    ensures MkjiMeasures(a, intervalMenit, location)
  {
    var (mc, lv, hv, um) := t;
    var totalMotor := mc + lv + hv;
    var totalSmp := (mc as real) * Mkji.SmpValue(Mkji.MC) + (lv as real) * Mkji.SmpValue(Mkji.LV)
                    + (hv as real) * Mkji.SmpValue(Mkji.HV);
    assert totalSmp == 0.4 * (mc as real) + 1.0 * (lv as real) + 1.3 * (hv as real);
    var arusSmp := PerHour(totalSmp, intervalMenit);
    var kapasitas, co, fcw, fcsp, fcsf, fccs := RealTimeKapasitasMKJI(location);
    var ds, los, keterangan := SaturationMKJI(arusSmp, kapasitas);
    a := MkjiAnalysis(mc, lv, hv, um, totalMotor, totalSmp, arusSmp, co, fcw, fcsp, fcsf, fccs,
                      kapasitas, ds, los, keterangan);
  }

  /**
   * CalculateRealTimeMKJI on one record: the category totals over all its
   * classes, SMP, the flow per hour, the capacity of the location, DS and
   * the level of service. `location` is None when the lookup fails.
   * Categories follow the record's road type, capacity the location's.
   */
  method CalculateRealTimeMKJI(td: TrafficData, location: Option<Location>) returns (r: Option<MkjiAnalysis>)
    ensures location.None? ==> r.None?
    ensures location.Some? ==> r.Some? && MkjiMeasures(r.value, td.intervalMenit, location.value)
    ensures r.Some? ==>
      (r.value.mc, r.value.lv, r.value.hv, r.value.um) == Mkji.Tallies(RecordClasses(td), td.tipeLokasi)
      && r.value.mc + r.value.lv + r.value.hv + r.value.um == SumCounts(RecordClasses(td))
      && r.value.totalSmp == WeightedSum(RecordClasses(td), Mkji.SmpWeight(td.tipeLokasi))
  {
    if location.None? {
      return None;
    }
    var t := Mkji.TallyZones((0, 0, 0, 0), [], td.zonaArahData, td.tipeLokasi);
    assert [] + ZoneClasses(td.zonaArahData) == RecordClasses(td);
    Mkji.TallyConserves(RecordClasses(td), td.tipeLokasi);
    Mkji.TallySmp(RecordClasses(td), td.tipeLokasi);
    var a := AnalyseMKJI(t, td.intervalMenit, location.value);
    r := Some(a);
  }

  /** DJ = V / C, zero without a capacity, and its level of service. */
  method SaturationPKJI(volume: real, kapasitas: real) returns (dj: real, los: string, keterangan: string)
    ensures dj == Pkji.HitungDerajatKejenuhanPKJI(volume, kapasitas)
    ensures (los, keterangan) == Pkji.GetTingkatPelayananPKJI(dj)
  {
    dj := 0.0;
    if kapasitas > 0.0 {
      dj := volume / kapasitas;
    }
    los, keterangan := Pkji.GetTingkatPelayananPKJI(dj).0, Pkji.GetTingkatPelayananPKJI(dj).1;
  }

  datatype PkjiAnalysis = PkjiAnalysis(
    sm: int, kr: int, kb: int, ktb: int, totalMotor: int, totalSkr: real, volumeSkr: real,
    kapasitasDasar: real, fclj: real, fcpa: real, fchs: real, fcuk: real, kapasitas: real,
    derajatKejenuhan: real, tingkatPelayanan: string, keterangan: string)

  /** The factors and capacity HitungKapasitasPKJI gives a location, as CalculateRealTimePKJI reports them. */
  predicate RealTimeCapacityPKJI(location: Location, kapasitas: real, c0: real, fclj: real, fcpa: real, fchs: real, fcuk: real)
  {
    c0 == Pkji.GetKapasitasDasarPKJI(location.tipeArah, location.tipeLokasi)
    && fclj == Pkji.GetFCLJ(location.lebarJalur, location.tipeArah, location.tipeLokasi)
    && fcpa == Pkji.GetFCPA(location.persentase, location.tipeArah)
    && (location.tipeLokasi == "bebas_hambatan" ==> fchs == 1.0 && fcuk == 1.0)
    && (location.tipeLokasi != "bebas_hambatan" ==>
         fchs == Pkji.GetFCHS(location.tipeHambatan, location.kelasHambatan, location.tipeLokasi))
    && (location.tipeLokasi == "luar_kota" || location.tipeLokasi == "12_kelas" ==> fcuk == 1.0)
    && (location.tipeLokasi == "perkotaan" ==> fcuk == Pkji.GetFCUK(location.ukuranKota, "perkotaan"))
    && (!IsValidTipeLokasi(location.tipeLokasi) ==> fcuk == 1.0)
    && kapasitas == Pkji.Capacity(c0, fclj, fcpa, fchs, fcuk)
  }

  /**
   * The location alone decides the PKJI capacity and its factors: two
   * reports that both hold for one location are the same report.
   */
  lemma RealTimeCapacityPKJIDetermined(location: Location,
                                       k1: real, c1: real, l1: real, p1: real, h1: real, u1: real,
                                       k2: real, c2: real, l2: real, p2: real, h2: real, u2: real)
    requires RealTimeCapacityPKJI(location, k1, c1, l1, p1, h1, u1)
    requires RealTimeCapacityPKJI(location, k2, c2, l2, p2, h2, u2)
    ensures (k1, c1, l1, p1, h1, u1) == (k2, c2, l2, p2, h2, u2)
  {
  }

  /** On every road type the reported PKJI capacity is positive. */
  lemma RealTimeCapacityPKJIPositive(location: Location, kapasitas: real, c0: real, fclj: real, fcpa: real, fchs: real, fcuk: real)
    requires RealTimeCapacityPKJI(location, kapasitas, c0, fclj, fcpa, fchs, fcuk)
    ensures kapasitas > 0.0
  {
    Pkji.CapacityPositive(c0, fclj, fcpa, fchs, fcuk);
  }

  /** What a real-time PKJI analysis states beyond its category totals. */
  predicate PkjiMeasures(a: PkjiAnalysis, tipeLokasi: string, intervalMenit: int, location: Location)
  {
    a.totalMotor == a.sm + a.kr + a.kb
    && a.totalSkr == Pkji.SkrOf((a.sm, a.kr, a.kb, a.ktb), tipeLokasi)
    && ScaledToHour(a.volumeSkr, a.totalSkr, intervalMenit)
    && RealTimeCapacityPKJI(location, a.kapasitas, a.kapasitasDasar, a.fclj, a.fcpa, a.fchs, a.fcuk)
    && a.kapasitas > 0.0
    && a.derajatKejenuhan == Pkji.HitungDerajatKejenuhanPKJI(a.volumeSkr, a.kapasitas)
    && (a.tingkatPelayanan, a.keterangan) == Pkji.GetTingkatPelayananPKJI(a.derajatKejenuhan)
  }

  /** From the category totals of one record to its volume, capacity, DJ and level of service. */
  method AnalysePKJI(t: (int, int, int, int), tipeLokasi: string, intervalMenit: int, location: Location) returns (a: PkjiAnalysis)
    ensures (a.sm, a.kr, a.kb, a.ktb) == t
    ensures PkjiMeasures(a, tipeLokasi, intervalMenit, location)
  {
    var (sm, kr, kb, ktb) := t;
    var totalMotor := sm + kr + kb;
    var totalSkr := Pkji.SkrOf(t, tipeLokasi);
    var volumeSkr := PerHour(totalSkr, intervalMenit);
    var kapasitas, c0, fclj, fcpa, fchs, fcuk := Pkji.HitungKapasitasPKJI(location);
    var dj, los, keterangan := SaturationPKJI(volumeSkr, kapasitas);
    a := PkjiAnalysis(sm, kr, kb, ktb, totalMotor, totalSkr, volumeSkr, c0, fclj, fcpa, fchs, fcuk,
                      kapasitas, dj, los, keterangan);
  }

  /**
   * The SKR of a real-time PKJI analysis is the EMP-weighted sum of every
   * class of the record, less the unmotorised vehicles it leaves out.
   */
  lemma SkrAccountsForAll(cs: seq<KelasDetail>, tipeLokasi: string, a: PkjiAnalysis)
    requires (a.sm, a.kr, a.kb, a.ktb) == Pkji.Tallies(cs, tipeLokasi)
    requires a.totalSkr == Pkji.SkrOf((a.sm, a.kr, a.kb, a.ktb), tipeLokasi)
    ensures a.totalSkr + (a.ktb as real) * Pkji.GetEMPPKJI(Pkji.KTB, tipeLokasi) == WeightedSum(cs, Pkji.EmpWeight(tipeLokasi))
  {
    Pkji.TallyEmp(cs, tipeLokasi);
  }

  /**
   * CalculateRealTimePKJI on one record: category totals, SKR without the
   * unmotorised class, the volume per hour, the PKJI capacity, DJ and the
   * level of service.
   */
  method CalculateRealTimePKJI(td: TrafficData, location: Option<Location>) returns (r: Option<PkjiAnalysis>)
    ensures location.None? ==> r.None?
    ensures location.Some? ==> r.Some? && PkjiMeasures(r.value, td.tipeLokasi, td.intervalMenit, location.value)
    ensures r.Some? ==>
      (r.value.sm, r.value.kr, r.value.kb, r.value.ktb) == Pkji.Tallies(RecordClasses(td), td.tipeLokasi)
      && r.value.sm + r.value.kr + r.value.kb + r.value.ktb == SumCounts(RecordClasses(td))
  {
    if location.None? {
      return None;
    }
    var t := Pkji.TallyZones((0, 0, 0, 0), [], td.zonaArahData, td.tipeLokasi);
    assert [] + ZoneClasses(td.zonaArahData) == RecordClasses(td);
    Pkji.TallyConserves(RecordClasses(td), td.tipeLokasi);
    var a := AnalysePKJI(t, td.tipeLokasi, td.intervalMenit, location.value);
    r := Some(a);
  }
}
