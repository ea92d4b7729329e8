// backend/controllers/location.controller.go: the request validator, the
// balai a new location is filed under, the listing filter, and the access
// decisions taken before a location is shown, changed or deleted.

module LocationController {
  import opened Common
  import opened LocationModel

  const Superadmin := "superadmin"

  /** The JSON body accepted by CreateLocation and UpdateLocation. */
  datatype LocationRequest = LocationRequest(
    balai: string,
    namaLokasi: string,
    alamatLokasi: string,
    tipeLokasi: string,
    tipeArah: string,
    lebarJalur: int,
    persentase: string,
    tipeHambatan: string,
    kelasHambatan: string,
    ukuranKota: real,
    latitude: real,
    longitude: real,
    zonaWaktu: real,
    interval: int,
    publik: bool,
    hideLokasi: bool,
    keterangan: string,
    sourceType: string,
    sourceData: string)

  /** The (message, valid) pair the validator returns. */
  datatype Verdict = Verdict(message: string, valid: bool)

  /** One guard of the validator: whether it passes, and its message when it does not. */
  datatype Check = Check(passes: bool, message: string)

  /**
   * The guards of validateLocationRequest as data, in the order the
   * validator applies them. The balai registry is not part of this model,
   * so its membership test is the parameter isValidBalai.
   */
  function Checks(req: LocationRequest, isValidBalai: string -> bool): (cs: seq<Check>)
    ensures |cs| == 9
    ensures forall i :: 0 <= i < |cs| ==> cs[i].message != ""
  {
    [ Check(req.namaLokasi != "", "nama_lokasi diperlukan"),
      Check(isValidBalai(req.balai), "balai tidak valid."),
      Check(IsValidTipeLokasi(req.tipeLokasi), "tipe_lokasi tidak valid."),
      Check(IsValidTipeArah(req.tipeArah), "tipe_arah tidak valid."),
      Check(IsValidLebarJalur(req.lebarJalur), "lebar_jalur tidak valid."),
      Check(IsValidPersentase(req.persentase), "persentase tidak valid."),
      Check(IsValidTipeHambatan(req.tipeHambatan), "tipe_hambatan tidak valid."),
      Check(IsValidKelasHambatan(req.kelasHambatan), "kelas_hambatan tidak valid."),
      Check(IsValidInterval(req.interval), "interval tidak valid.") ]
  }

  /** First-failure-wins over a list of guards. */
  function FirstFailure(cs: seq<Check>): Verdict
  {
    if cs == [] then Verdict("", true)
    else if !cs[0].passes then Verdict(cs[0].message, false)
    else FirstFailure(cs[1..])
  }

  /** What FirstFailure means: valid iff every guard passes, else the earliest failing guard's message. */
  lemma {:induction false} FirstFailureMeaning(cs: seq<Check>)
    ensures FirstFailure(cs).valid <==> forall i :: 0 <= i < |cs| ==> cs[i].passes
    ensures FirstFailure(cs).valid ==> FirstFailure(cs).message == ""
    ensures !FirstFailure(cs).valid ==>
      exists j :: 0 <= j < |cs| && !cs[j].passes && FirstFailure(cs).message == cs[j].message &&
        forall k :: 0 <= k < j ==> cs[k].passes
  {
    if cs != [] && cs[0].passes {
      FirstFailureMeaning(cs[1..]);
      assert forall i :: 1 <= i < |cs| ==> cs[i] == cs[1..][i - 1];
      if !FirstFailure(cs).valid {
        var j :| 0 <= j < |cs| - 1 && !cs[1..][j].passes && FirstFailure(cs[1..]).message == cs[1..][j].message &&
          forall k :: 0 <= k < j ==> cs[1..][k].passes;
        assert !cs[j + 1].passes && forall k :: 0 <= k < j + 1 ==> cs[k].passes;
      }
    } else if cs != [] {
      assert !cs[0].passes;
    }
  }

  /** Every field the validator inspects holds an accepted value. */
  predicate AllFieldsValid(req: LocationRequest, isValidBalai: string -> bool)
  {
    req.namaLokasi != "" && isValidBalai(req.balai) &&
    IsValidTipeLokasi(req.tipeLokasi) && IsValidTipeArah(req.tipeArah) &&
    IsValidLebarJalur(req.lebarJalur) && IsValidPersentase(req.persentase) &&
    IsValidTipeHambatan(req.tipeHambatan) && IsValidKelasHambatan(req.kelasHambatan) &&
    IsValidInterval(req.interval)
  }

  /**
   * validateLocationRequest: a chain of guarded returns. The name is checked
   * before anything else, so an empty name always gives its own message.
   */
  function ValidateLocationRequest(req: LocationRequest, isValidBalai: string -> bool): (v: Verdict)
    ensures v.valid <==> AllFieldsValid(req, isValidBalai)
    ensures v.valid <==> v.message == ""
    ensures req.namaLokasi == "" ==> v == Verdict("nama_lokasi diperlukan", false)
  {
    if req.namaLokasi == "" then Verdict("nama_lokasi diperlukan", false)
    else if !isValidBalai(req.balai) then Verdict("balai tidak valid.", false)
    else if !IsValidTipeLokasi(req.tipeLokasi) then Verdict("tipe_lokasi tidak valid.", false)
    else if !IsValidTipeArah(req.tipeArah) then Verdict("tipe_arah tidak valid.", false)
    else if !IsValidLebarJalur(req.lebarJalur) then Verdict("lebar_jalur tidak valid.", false)
    else if !IsValidPersentase(req.persentase) then Verdict("persentase tidak valid.", false)
    else if !IsValidTipeHambatan(req.tipeHambatan) then Verdict("tipe_hambatan tidak valid.", false)
    else if !IsValidKelasHambatan(req.kelasHambatan) then Verdict("kelas_hambatan tidak valid.", false)
    else if !IsValidInterval(req.interval) then Verdict("interval tidak valid.", false)
    else Verdict("", true)
  }

  lemma FirstFailureCons(c: Check, cs: seq<Check>)
    ensures FirstFailure([c] + cs) == if c.passes then FirstFailure(cs) else Verdict(c.message, false)
  {
    assert ([c] + cs)[1..] == cs;
  }

  /** FirstFailure over nine guards, unrolled into the chain of guarded returns. */
  lemma {:induction false} FirstFailureOfNine(cs: seq<Check>)
    requires |cs| == 9
    ensures FirstFailure(cs) ==
      if !cs[0].passes then Verdict(cs[0].message, false)
      else if !cs[1].passes then Verdict(cs[1].message, false)
      else if !cs[2].passes then Verdict(cs[2].message, false)
      else if !cs[3].passes then Verdict(cs[3].message, false)
      else if !cs[4].passes then Verdict(cs[4].message, false)
      else if !cs[5].passes then Verdict(cs[5].message, false)
      else if !cs[6].passes then Verdict(cs[6].message, false)
      else if !cs[7].passes then Verdict(cs[7].message, false)
      else if !cs[8].passes then Verdict(cs[8].message, false)
      else Verdict("", true)
  {
    FirstFailureCons(cs[8], []);
    assert cs[8..] == [cs[8]] + [];
    FirstFailureCons(cs[7], cs[8..]);
    assert cs[7..] == [cs[7]] + cs[8..];
    FirstFailureCons(cs[6], cs[7..]);
    assert cs[6..] == [cs[6]] + cs[7..];
    FirstFailureCons(cs[5], cs[6..]);
    assert cs[5..] == [cs[5]] + cs[6..];
    FirstFailureCons(cs[4], cs[5..]);
    assert cs[4..] == [cs[4]] + cs[5..];
    FirstFailureCons(cs[3], cs[4..]);
    assert cs[3..] == [cs[3]] + cs[4..];
    FirstFailureCons(cs[2], cs[3..]);
    assert cs[2..] == [cs[2]] + cs[3..];
    FirstFailureCons(cs[1], cs[2..]);
    assert cs[1..] == [cs[1]] + cs[2..];
    FirstFailureCons(cs[0], cs[1..]);
    assert cs == [cs[0]] + cs[1..];
  }

  /**
   * The validator returns exactly the message of the first guard, in the
   * order name, balai, tipe_lokasi, tipe_arah, lebar_jalur, persentase,
   * tipe_hambatan, kelas_hambatan, interval, that the request fails.
   */
  lemma ValidateIsFirstFailure(req: LocationRequest, isValidBalai: string -> bool)
    ensures ValidateLocationRequest(req, isValidBalai) == FirstFailure(Checks(req, isValidBalai))
  {
    FirstFailureOfNine(Checks(req, isValidBalai));
  }

  /**
   * The balai a new location is filed under: a superadmin may name one in
   * the request; everyone else, and a superadmin who leaves it empty, gets
   * the balai of their own user record.
   */
  function LocationBalai(role: string, reqBalai: string, userBalai: string): (b: string)
    ensures b == reqBalai || b == userBalai
    ensures role != Superadmin ==> b == userBalai
    ensures b == "" ==> userBalai == ""
    ensures reqBalai != "" && role == Superadmin ==> b == reqBalai
  {
    if role == Superadmin && reqBalai != "" then reqBalai else userBalai
  }

  /** Outcome of an access check: go ahead, or an HTTP status with its error text. */
  datatype Access = Allowed | Refused(status: int, error: string)

  /**
   * GetLocationByID: 404 when the location is missing; a non-superadmin
   * needs their user record (500 when it cannot be read) and must be in
   * the location's balai (403 otherwise). userBalai is None when the user
   * record cannot be read.
   */
  function ViewAccess(loc: Option<Location>, role: string, userBalai: Option<string>): (a: Access)
    ensures loc.None? ==> a == Refused(404, "lokasi tidak ditemukan")
    ensures loc.Some? && role == Superadmin ==> a == Allowed
    ensures loc.Some? && role != Superadmin && userBalai.None? ==> a == Refused(500, "gagal mengambil data user")
    ensures loc.Some? && userBalai.Some? ==>
      (a == Allowed <==> role == Superadmin || loc.value.balai == userBalai.value)
    ensures a.Refused? && a.status == 403 ==> a.error == "tidak memiliki akses untuk melihat lokasi ini"
  {
    if loc.None? then Refused(404, "lokasi tidak ditemukan")
    else if role != Superadmin then
      if userBalai.None? then Refused(500, "gagal mengambil data user")
      else if loc.value.balai != userBalai.value then Refused(403, "tidak memiliki akses untuk melihat lokasi ini")
      else Allowed
    else Allowed
  }

  /**
   * UpdateLocation up to the database write: 404 for a missing location,
   * 403 unless the caller owns it or is superadmin, then 400 with the
   * validator's message for an invalid body.
   */
  function UpdateAccess(loc: Option<Location>, userId: string, role: string,
                        req: LocationRequest, isValidBalai: string -> bool): (a: Access)
    ensures loc.None? <==> a == Refused(404, "lokasi tidak ditemukan")
    ensures loc.Some? && loc.value.userId != userId && role != Superadmin ==>
      a == Refused(403, "tidak memiliki akses untuk mengubah lokasi ini")
    ensures a == Allowed <==>
      loc.Some? && (loc.value.userId == userId || role == Superadmin) && AllFieldsValid(req, isValidBalai)
    ensures a.Refused? && a.status == 400 ==> a.error == ValidateLocationRequest(req, isValidBalai).message
  {
    if loc.None? then Refused(404, "lokasi tidak ditemukan")
    else if loc.value.userId != userId && role != Superadmin then
      Refused(403, "tidak memiliki akses untuk mengubah lokasi ini")
    else
      var v := ValidateLocationRequest(req, isValidBalai);
      if !v.valid then Refused(400, v.message) else Allowed
  }

  /** DeleteLocation: 404 for a missing location, then only a superadmin may go on. */
  function DeleteAccess(loc: Option<Location>, role: string): (a: Access)
    ensures a == Allowed <==> loc.Some? && role == Superadmin
    ensures loc.Some? && role != Superadmin ==>
      a == Refused(403, "tidak memiliki akses untuk menghapus lokasi ini")
    ensures loc.None? ==> a == Refused(404, "lokasi tidak ditemukan")
  {
    if loc.None? then Refused(404, "lokasi tidak ditemukan")
    else if role != Superadmin then Refused(403, "tidak memiliki akses untuk menghapus lokasi ini")
    else Allowed
  }

  datatype CreateOutcome = Filed(balai: string) | NotCreated(status: int, error: string)

  /**
   * CreateLocation up to the ID allocation: 400 with the validator's
   * message, 500 when the user record cannot be read, else the balai the
   * location is filed under.
   */
  function CreateBalai(req: LocationRequest, isValidBalai: string -> bool,
                       role: string, userBalai: Option<string>): (r: CreateOutcome)
    ensures r.Filed? <==> AllFieldsValid(req, isValidBalai) && userBalai.Some?
    ensures r.Filed? ==> r.balai == LocationBalai(role, req.balai, userBalai.value)
    ensures !AllFieldsValid(req, isValidBalai) ==>
      r == NotCreated(400, ValidateLocationRequest(req, isValidBalai).message)
  {
    var v := ValidateLocationRequest(req, isValidBalai);
    if !v.valid then NotCreated(400, v.message)
    else if userBalai.None? then NotCreated(500, "gagal mengambil data user")
    else Filed(LocationBalai(role, req.balai, userBalai.value))
  }

  /** The query filters of GetAllLocations; an empty string means "not given". */
  datatype ListQuery = ListQuery(userId: string, tipeLokasi: string, publik: string)

  /**
   * GetAllLocations: a non-superadmin sees only their balai; the optional
   * user_id and tipe_lokasi filters compare for equality, and a non-empty
   * publik filter selects publik == (value == "true").
   */
  function Listed(loc: Location, role: string, userBalai: string, q: ListQuery): (ok: bool)
    ensures ok ==> role == Superadmin || loc.balai == userBalai
    ensures ok && q.userId != "" ==> loc.userId == q.userId
    ensures ok && q.tipeLokasi != "" ==> loc.tipeLokasi == q.tipeLokasi
    ensures ok && q.publik != "" ==> loc.publik == (q.publik == "true")
    ensures (role == Superadmin || loc.balai == userBalai) && q == ListQuery("", "", "") ==> ok
  {
    (role == Superadmin || loc.balai == userBalai) &&
    (q.userId == "" || loc.userId == q.userId) &&
    (q.tipeLokasi == "" || loc.tipeLokasi == q.tipeLokasi) &&
    (q.publik == "" || loc.publik == (q.publik == "true"))
  }

  /** Whatever the listing shows, fetching it by ID is allowed to the same user. */
  lemma ListedIsViewable(loc: Location, role: string, userBalai: string, q: ListQuery)
    requires Listed(loc, role, userBalai, q)
    ensures ViewAccess(Some(loc), role, Some(userBalai)) == Allowed
  {
  }

  /** Whoever creates a location may view it afterwards. */
  lemma CreatorCanView(req: LocationRequest, isValidBalai: string -> bool, role: string,
                       userBalai: string, loc: Location)
    requires CreateBalai(req, isValidBalai, role, Some(userBalai)).Filed?
    requires loc.balai == CreateBalai(req, isValidBalai, role, Some(userBalai)).balai
    ensures ViewAccess(Some(loc), role, Some(userBalai)) == Allowed
  {
  }

  /** Whoever may delete a location may also change and view it (given a valid body and a user record). */
  lemma DeleteIsStrongest(loc: Location, userId: string, role: string, userBalai: Option<string>,
                          req: LocationRequest, isValidBalai: string -> bool)
    requires DeleteAccess(Some(loc), role) == Allowed
    requires AllFieldsValid(req, isValidBalai)
    ensures UpdateAccess(Some(loc), userId, role, req, isValidBalai) == Allowed
    ensures ViewAccess(Some(loc), role, userBalai) == Allowed
  {
  }

  /**
   * The update rule looks at ownership and the view rule at the balai, so
   * an owner whose location is filed under another balai may change it but
   * not fetch it.
   */
  lemma OwnerOutsideBalai(loc: Location, role: string, userBalai: string, req: LocationRequest,
                           isValidBalai: string -> bool)
    requires role != Superadmin && loc.balai != userBalai
    requires AllFieldsValid(req, isValidBalai)
    ensures UpdateAccess(Some(loc), loc.userId, role, req, isValidBalai) == Allowed
    ensures ViewAccess(Some(loc), role, Some(userBalai)) == Refused(403, "tidak memiliki akses untuk melihat lokasi ini")
  {
  }
}
