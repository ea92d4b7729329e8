// backend/controllers/traffic_data.controller.go: the request checks of
// CreateTrafficData, the in-place recomputation of every zone's total,
// and the defaults of the limit and days query parameters.

module TrafficDataController {
  import opened Common
  import opened Traffic
  import CameraData

  /** The zone with its total replaced by the sum of its class counts. */
  function Recounted(za: ZonaArahData): (r: ZonaArahData)
    ensures r.totalKendaraan == SumCounts(za.kelasData)
    ensures r.idZonaArah == za.idZonaArah && r.namaArah == za.namaArah && r.kelasData == za.kelasData
  {
    za.(totalKendaraan := SumCounts(za.kelasData))
  }

  /** Sum of one zone's class counts: the inner loop of the recomputation. */
  method ZoneTotal(kelasData: seq<KelasDetail>) returns (total: int)
    ensures total == SumCounts(kelasData)
  {
    total := 0;
    var j := 0;
    while j < |kelasData|
      invariant 0 <= j <= |kelasData|
      invariant total == SumCounts(kelasData[..j])
    {
      assert kelasData[..j + 1][..j] == kelasData[..j];
      total := total + kelasData[j].jumlahKendaraan;
      j := j + 1;
    }
    assert kelasData[..j] == kelasData;
  }

  /**
   * The loop over req.ZonaArahData: each zone's TotalKendaraan is
   * overwritten with the sum of its classes; nothing else changes.
   */
  method RecomputeTotals(zones: array<ZonaArahData>)
    modifies zones
    ensures forall i :: 0 <= i < zones.Length ==> zones[i] == Recounted(old(zones[i]))
  {
    var i := 0;
    while i < zones.Length
      invariant 0 <= i <= zones.Length
      invariant forall k :: 0 <= k < i ==> zones[k] == Recounted(old(zones[k]))
      invariant forall k :: i <= k < zones.Length ==> zones[k] == old(zones[k])
    {
      var total := ZoneTotal(zones[i].kelasData);
      zones[i] := zones[i].(totalKendaraan := total);
      i := i + 1;
    }
  }

  datatype TrafficDataRequest = TrafficDataRequest(lokasiId: string, zonaArahData: seq<ZonaArahData>, intervalMenit: int)

  /** The outcome of CreateTrafficData up to the database insert. */
  datatype CreateOutcome =
    | BadRequest(error: string)
    | Accepted(lokasiId: string, zonaArahData: seq<ZonaArahData>, intervalMenit: int)

  /**
   * CreateTrafficData: lokasi_id is required, then a non-empty zone list;
   * an accepted request goes on with every zone total recomputed.
   */
  method CreateTrafficData(req: TrafficDataRequest) returns (r: CreateOutcome)
    ensures req.lokasiId == "" ==> r == BadRequest("lokasi_id diperlukan")
    ensures req.lokasiId != "" && req.zonaArahData == [] ==> r == BadRequest("zona_arah_data diperlukan")
    ensures r.Accepted? <==> req.lokasiId != "" && req.zonaArahData != []
    ensures r.Accepted? ==>
      r.lokasiId == req.lokasiId && r.intervalMenit == req.intervalMenit &&
      |r.zonaArahData| == |req.zonaArahData| &&
      forall i :: 0 <= i < |r.zonaArahData| ==> r.zonaArahData[i] == Recounted(req.zonaArahData[i])
  {
    if req.lokasiId == "" {
      return BadRequest("lokasi_id diperlukan");
    }
    if |req.zonaArahData| == 0 {
      return BadRequest("zona_arah_data diperlukan");
    }
    var zones := new ZonaArahData[|req.zonaArahData|](i requires 0 <= i < |req.zonaArahData| => req.zonaArahData[i]);
    RecomputeTotals(zones);
    r := Accepted(req.lokasiId, zones[..], req.intervalMenit);
  }

  /** After the recomputation the zone totals add up to every class count of the record. */
  lemma RecountedTotalsCountVehicles(zones: seq<ZonaArahData>, recounted: seq<ZonaArahData>)
    requires |recounted| == |zones|
    requires forall i :: 0 <= i < |zones| ==> recounted[i] == Recounted(zones[i])
    ensures CameraData.SumTotals(recounted) == SumCounts(ZoneClasses(zones))
  {
    assert forall za :: za in recounted ==> za.totalKendaraan == SumCounts(za.kelasData);
    CameraData.SumTotalsCountsVehicles(recounted);
    SameClasses(zones, recounted);
  }

  lemma {:induction false} SameClasses(zones: seq<ZonaArahData>, recounted: seq<ZonaArahData>)
    requires |recounted| == |zones|
    requires forall i :: 0 <= i < |zones| ==> recounted[i].kelasData == zones[i].kelasData
    ensures ZoneClasses(recounted) == ZoneClasses(zones)
  {
    if zones != [] {
      SameClasses(zones[..|zones| - 1], recounted[..|recounted| - 1]);
    }
  }

  /**
   * c.Query(key, default) read by strconv.Atoi: an empty value is replaced
   * by the default written in decimal, and a value Atoi refuses by the
   * same default.
   */
  function QueryInt(value: string, fallback: int): (n: int)
    requires InInt64(fallback)
    ensures value == "" ==> n == fallback
    ensures ParseInt64(value).None? ==> n == fallback
    ensures ParseInt64(value).Some? ==> n == ParseInt64(value).value
  {
    FormatParseRoundTrip(fallback);
    var parsed := ParseInt64(if value == "" then FormatInt(fallback) else value);
    if parsed.Some? then parsed.value else fallback
  }

  /** GetAllTrafficData's limit: 100 unless the query is an integer. */
  function Limit(value: string): (n: int)
    ensures ParseInt64(value).None? ==> n == 100
    ensures ParseInt64(value).Some? ==> n == ParseInt64(value).value
  {
    QueryInt(value, 100)
  }

  /** CleanupOldTrafficData's and ArchiveTrafficData's age in days: 30 unless the query is an integer. */
  function Days(value: string): (n: int)
    ensures ParseInt64(value).None? ==> n == 30
    ensures ParseInt64(value).Some? ==> n == ParseInt64(value).value
  {
    QueryInt(value, 30)
  }

  /** A limit written out by the client is read back as written. */
  lemma LimitRoundTrip(n: int)
    requires InInt64(n)
    ensures Limit(FormatInt(n)) == n
  {
    FormatParseRoundTrip(n);
  }
}
