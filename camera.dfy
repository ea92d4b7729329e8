// Camera configuration checks (backend/models/camera.go): the camera type
// options and the validation of a camera's list of direction zones.

module CameraModel {
  import opened Common

  const TipeKameraOptions: seq<string> := ["trafficam", "x_stream", "thermicam", "cctv"]
  const MaxZonaArah: int := 8
  const MinZonaArah: int := 1

  /** One configured direction zone of a camera (CameraZonaArah). */
  datatype CameraZonaArah = CameraZonaArah(idZonaArah: string, arah: string)

  /** IsValidTipeKamera: a loop search of TipeKameraOptions. */
  method IsValidTipeKamera(value: string) returns (ok: bool)
    ensures ok <==> value == "trafficam" || value == "x_stream" || value == "thermicam" || value == "cctv"
  {
    ok := LinearSearch(TipeKameraOptions, value);
  }

  /** Entry i repeats the non-empty zone ID of an earlier entry. */
  predicate DuplicateAt(list: seq<CameraZonaArah>, i: int)
    requires 0 <= i < |list|
  {
    list[i].idZonaArah != "" && exists j :: 0 <= j < i && list[j].idZonaArah == list[i].idZonaArah
  }

  /** Entry i is rejected: its direction name is empty or its ID is a duplicate. */
  predicate BadAt(list: seq<CameraZonaArah>, i: int)
    requires 0 <= i < |list|
  {
    list[i].arah == "" || DuplicateAt(list, i)
  }

  /** The message for a rejected entry i; an empty name is reported first. */
  function ErrorAt(list: seq<CameraZonaArah>, i: nat): string
    requires i < |list|
  {
    if list[i].arah == "" then "zona_arah[" + FormatInt(i) + "].arah tidak boleh kosong"
    else "zona_arah[" + FormatInt(i) + "].id_zona_arah duplikat"
  }

  /**
   * ValidateZonaArahList: the count bounds first, then the first entry with
   * an empty direction name or a repeated non-empty ID. Empty IDs are never
   * remembered, so they never clash.
   */
  method ValidateZonaArahList(list: seq<CameraZonaArah>) returns (msg: string, ok: bool)
    ensures |list| < MinZonaArah ==> msg == "minimal harus ada 1 zona arah" && !ok
    ensures |list| > MaxZonaArah ==> msg == "maksimal hanya boleh 8 zona arah" && !ok
    ensures ok <==> MinZonaArah <= |list| <= MaxZonaArah && forall i :: 0 <= i < |list| ==> !BadAt(list, i)
    ensures ok ==> msg == ""
    ensures !ok && MinZonaArah <= |list| <= MaxZonaArah ==>
      exists i :: 0 <= i < |list| && BadAt(list, i) && (forall j :: 0 <= j < i ==> !BadAt(list, j))
        && msg == ErrorAt(list, i)
  {
    if |list| < MinZonaArah {
      return "minimal harus ada 1 zona arah", false;
    }
    if |list| > MaxZonaArah {
      return "maksimal hanya boleh 8 zona arah", false;
    }
    var seenIDs: set<string> := {};
    var i := 0;
    while i < |list|
      invariant 0 <= i <= |list|
      invariant forall j :: 0 <= j < i ==> !BadAt(list, j)
      invariant forall id :: id in seenIDs <==> id != "" && exists j :: 0 <= j < i && list[j].idZonaArah == id
    {
      var za := list[i];
      if za.arah == "" {
        assert BadAt(list, i);
        return ErrorAt(list, i), false;
      }
      if za.idZonaArah != "" {
        if za.idZonaArah in seenIDs {
          assert DuplicateAt(list, i) && BadAt(list, i);
          return ErrorAt(list, i), false;
        }
        seenIDs := seenIDs + {za.idZonaArah};
      }
      i := i + 1;
    }
    return "", true;
  }
}
