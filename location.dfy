// backend/models/location.go: the monitored road segment, the option lists
// its fields are validated against, and the "LOC-%05d" identifier sequence.

module LocationModel {
  import opened Common

  const TipeLokasiOptions: seq<string> := ["perkotaan", "luar_kota", "bebas_hambatan", "12_kelas"]
  const TipeArahOptions: seq<string> := ["22ud", "42d", "42ud", "62d"]
  const LebarJalurOptions: seq<int> := [5, 6, 7, 8, 9, 10, 11]
  const PersentaseOptions: seq<string> := ["50-50", "55-45", "60-40", "65-35", "70-30"]
  const TipeHambatanOptions: seq<string> := ["bahu_jalan", "kereb"]
  const KelasHambatanOptions: seq<string> := ["VL", "L", "M", "H", "VH"]
  const IntervalOptions: seq<int> := [1, 3, 5, 10, 15, 20, 30, 60]
  const ProvinsiOptions: seq<string> := [
    "Aceh", "Sumatera Utara", "Sumatera Barat", "Riau", "Jambi",
    "Sumatera Selatan", "Bengkulu", "Lampung", "Kepulauan Bangka Belitung", "Kepulauan Riau",
    "DKI Jakarta", "Jawa Barat", "Jawa Tengah", "DI Yogyakarta", "Jawa Timur", "Banten",
    "Bali", "Nusa Tenggara Barat", "Nusa Tenggara Timur",
    "Kalimantan Barat", "Kalimantan Tengah", "Kalimantan Selatan", "Kalimantan Timur", "Kalimantan Utara",
    "Sulawesi Utara", "Sulawesi Tengah", "Sulawesi Selatan", "Sulawesi Tenggara", "Gorontalo", "Sulawesi Barat",
    "Maluku", "Maluku Utara",
    "Papua", "Papua Barat", "Papua Selatan", "Papua Tengah", "Papua Pegunungan", "Papua Barat Daya"]

  /** The fields of a Location that the analyses and access rules read. */
  datatype Location = Location(
    id: string,
    userId: string,
    balai: string,
    namaLokasi: string,
    tipeLokasi: string,
    tipeArah: string,
    lebarJalur: int,
    persentase: string,
    tipeHambatan: string,
    kelasHambatan: string,
    ukuranKota: real,
    zonaWaktu: real,
    interval: int,
    publik: bool)

  // The IsValid* checks: membership in the option list above.

  function IsValidTipeLokasi(value: string): (ok: bool)
    ensures ok <==> value == "perkotaan" || value == "luar_kota" || value == "bebas_hambatan" || value == "12_kelas"
  {
    value in TipeLokasiOptions
  }

  function IsValidTipeArah(value: string): (ok: bool)
    ensures ok <==> value == "22ud" || value == "42d" || value == "42ud" || value == "62d"
  {
    value in TipeArahOptions
  }

  function IsValidLebarJalur(value: int): (ok: bool)
    ensures ok <==> 5 <= value <= 11
  {
    value in LebarJalurOptions
  }

  function IsValidPersentase(value: string): (ok: bool)
    ensures ok <==> value == "50-50" || value == "55-45" || value == "60-40" || value == "65-35" || value == "70-30"
  {
    value in PersentaseOptions
  }

  function IsValidTipeHambatan(value: string): (ok: bool)
    ensures ok <==> value == "bahu_jalan" || value == "kereb"
  {
    value in TipeHambatanOptions
  }

  function IsValidKelasHambatan(value: string): (ok: bool)
    ensures ok <==> value == "VL" || value == "L" || value == "M" || value == "H" || value == "VH"
  {
    value in KelasHambatanOptions
  }

  function IsValidInterval(value: int): (ok: bool)
    ensures ok <==> value in {1, 3, 5, 10, 15, 20, 30, 60}
    ensures ok ==> 60 % value == 0
  {
    value in IntervalOptions
  }

  /** Membership in the 38 province names; the list is its whole contract. */
  function IsValidProvinsi(value: string): bool
  {
    value in ProvinsiOptions
  }

  /**
   * NextLocationID: "LOC-00001" when no location is stored, otherwise the
   * number of the last stored ID plus one, wrapped to 64 bits and written
   * with %05d (a minus sign counts toward the width, so -4 gives "-0004").
   */
  function NextLocationId(last: Option<string>): (id: string)
    ensures HasPrefix(id, "LOC-") && |id| >= 9
  {
    NextId("LOC-", last)
  }

  lemma NextLocationIdFirst()
    ensures NextLocationId(None) == "LOC-00001"
  {
    NextIdFirst("LOC-");
  }

  /** The number in the new ID is the number in the last one plus one, wrapped to int64. */
  lemma NextLocationIdStep(last: string)
    ensures ScanNumber("LOC-", NextLocationId(Some(last))) == Wrap64(ScanNumber("LOC-", last) + 1)
  {
    NextIdStep("LOC-", last);
  }

  /** Below the int64 limit the new number is exactly one more. */
  lemma NextLocationIdIncrements(last: string)
    requires InInt64(ScanNumber("LOC-", last) + 1)
    ensures ScanNumber("LOC-", NextLocationId(Some(last))) == ScanNumber("LOC-", last) + 1
  {
    var n := ScanNumber("LOC-", last);
    var next := NextLocationId(Some(last));
    NextLocationIdStep(last);
    assert Wrap64(n + 1) == n + 1;
  }
}
