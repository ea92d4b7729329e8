# Traffic-monitoring backend: capacity engine, camera ingestion and request logic

This project models the core of a Go backend that collects vehicle counts from
roadside cameras and rates each monitored road by the Indonesian road-capacity
manuals MKJI 1997 and PKJI 2023. It covers:

- **The capacity engine** (`Mkji`, `Pkji`, with the shared record shapes and
  hourly aggregation in `Traffic`):
  - vehicle class to category (MC/LV/HV/UM or SM/KR/KB/KTB) per location type;
  - passenger-car-unit totals (SMP / SKR);
  - base capacity and its adjustment factors, capacity and degree of
    saturation;
  - the A–F level of service and the peak hour.
- **Camera-message normalisation** (`CameraData`): the XML pre-clean, the
  reconciliation of reported zones against the configured ones, the totals,
  the sampling interval, the `Utc` offset attribute, the raw-data record, and
  the real-time MKJI/PKJI analysis of one record.
- **The vehicle-length class table** (`Klasifikasi`, `KlasifikasiController`):
  the templates, the seeding with consecutive `KK-%05d` identifiers, and the
  bulk update. The bulk update sorts in place, checks that the class
  boundaries strictly increase, and rewrites the start/end chain.
- **Request validators and access decisions** for cameras, locations and
  location sources (`CameraModel`, `LocationModel`, `LocationController`,
  `LocationSourceController`).
- **URL and picture helpers** (`LocationSourceController`,
  `RtspStreamController`, `ImageUtils`, `LocationSourceModel`):
  - http/https and YouTube detection and video-id extraction;
  - playable-URL classification;
  - RTSP guards;
  - location initials;
  - base64 clean-up and data-URI header removal (RFC 2397 section 3).
- **The traffic-data controller** (`TrafficDataController`): the request checks
  of `CreateTrafficData`, the in-place recomputation of every zone total, and
  the `limit` / `days` query defaults.

**How Go is represented:**
- Floating-point quantities (SMP/EMP weights, factors, thresholds) are `real`.
- Counts are unbounded `int`. The one place where a 64-bit wrap-around is
  reachable, the `+1` of the identifier counters, is written out (`Wrap64`).
- Go's truncating division (`GoDiv`), `strconv.Atoi` (`ParseInt64`),
  `fmt.Sscanf("%d")` (`ScanNumber`) and `%05d` (`Format05d`) are modelled
  explicitly.
- Go's `string(w[0])` on a multi-byte character is modelled by `LeadByte`.
- Go's `len` on strings counts bytes (`Utf8Length`).

**Database, clock and service inputs:**
- Database reads become parameters: the stored class list, the location, the
  existing source, the last identifier, and the stream status.
- The wall clock becomes a parameter `nowUtc`, in seconds.
- Go map iteration order becomes a parameter or a choice. The order in which
  zones are emitted is the permutation `order`. Among hours tied for the peak,
  `PeakOf` picks any one.

**Code that appears twice:**
- The `isYouTubeURL` / `extractYouTubeVideoID` helpers appear in both
  `location_source.controller.go` and `rtsp_stream.controller.go`. Their
  bodies are the same, so they are modelled once, in `LocationSourceController`.
- The two `GetPlayableURL` variants are modelled separately
  (`LocationSourceController.PlayableUrl`, `RtspStreamController.GetPlayableUrl`).
- Both files belong to package `controllers` and both declare
  `isYouTubeURL`, `extractYouTubeVideoID` and `GetPlayableURL`
  (`location_source.controller.go:28,34,299`, `rtsp_stream.controller.go:142,201,206`).
  Go refuses such a redeclaration, so as written the package does not
  compile, and the source text does not decide which `GetPlayableURL` would
  be served. Both variants are modelled, and `RtspBeforeYouTube` states
  where they differ.
- `getInitials` in `backend/models/location_source.go:210-226` has the same
  body as `GetInitials` in `backend/utils/image.go:18-35`, so
  `ImageUtils.GetInitials` models both.

**Behaviour of the code as written that a reader may not expect:**
- `isYouTubeURL` lower-cases the URL, but the markers in
  `extractYouTubeVideoID` are matched case-sensitively. A short link written
  in capitals is therefore a YouTube link without a video id
  (`UpperCaseShortLink`).
- Every marker other than `youtu.be/` is searched only when the URL contains
  `youtube.com` in lower case.
- In the bulk update the boundary map is threaded through the loop. A request
  whose stored list holds the same non-final `kelas` twice is therefore always
  rejected (`DuplicateKelasRejected`).
- `GetInitials` substitutes `"LOC"` before removing the non-alphanumerics. A
  name whose words all start with a symbol therefore gets the empty string
  (`InitialsOfSymbolWords`).

## Model

| member | source | states |
|---|---|---|
| Mkji.KategoriMKJIFromTable | backend/models/mkji.go:102-122 | A (tipe_lokasi, kelas) pair present in the MKJI tables gets its table category; an unknown type or class gets LV (the tables are at lines 31-65) |
| Mkji.KategoriMKJIMatchesPublished | backend/controllers/mkji.controller.go:192-205 | For classes 1..12 the 12-class category equals the one published by the mapping endpoint |
| Mkji.GetKategoriMKJI | backend/models/mkji.go:102-122 | LV for an unknown tipe_lokasi and for any kelas below 1 |
| Mkji.TallyConserves | backend/models/mkji.go:124-145 | MC+LV+HV+UM tallies add up to the sum of every class count |
| Mkji.TallySmp | backend/models/mkji.go:147-149 | 0.4·MC + 1.0·LV + 1.3·HV equals the per-class SMP-weighted sum; UM weighs nothing (the SMP weights are at lines 24-29) |
| Mkji.TallyZone | backend/models/mkji.go:129-141 | The inner loop over a zone's classes extends the category tallies by exactly those classes |
| Mkji.TallyZones | backend/models/mkji.go:128-142 | The loop over zones extends the tallies by the classes of every zone, in order |
| Mkji.TallyRecords | backend/models/mkji.go:127-143 | The loop over records yields the tallies of all classes of all records |
| Mkji.HitungMKJICount | backend/models/mkji.go:124-152 | Category counts are the tallies, they conserve the total vehicle count, TotalMotor = MC+LV+HV excludes UM, TotalSMP = 0.4·MC+1.0·LV+1.3·HV = the SMP-weighted sum of all classes |
| Mkji.HitungLHR | backend/models/mkji.go:154-159 | 0 when jumlahHari ≤ 0, otherwise the value whose product with jumlahHari is the total |
| Mkji.HitungLHRSMP | backend/models/mkji.go:161-166 | 0 when jumlahHari ≤ 0, otherwise TotalSMP divided by jumlahHari |
| Mkji.HitungArusLaluLintas | backend/models/mkji.go:168-196 | (0, "") for no records or when no hour has positive SMP; otherwise an hour of the data whose SMP sum is ≥ every hour's sum, with that sum |
| Mkji.GetKapasitasDasar | backend/models/mkji.go:198-222 | Base capacity per (tipe_arah, tipe_lokasi) including the defaults; always in 2900..6900 |
| Mkji.GetFCW | backend/models/mkji.go:224-254 | Width factor is total, takes its values from the table for the road type, is 1.0 at 7 m |
| Mkji.FcwNondecreasing | backend/models/mkji.go:224-254 | A wider carriageway never gets a smaller width factor |
| Mkji.GetFCSP | backend/models/mkji.go:256-275 | 1.0 for divided 42d/62d roads and for unknown splits; otherwise in 0.88..1.0 |
| Mkji.GetFCSF | backend/models/mkji.go:277-302 | 0.95 for an unknown (tipe, kelas) pair; always in 0.78..1.0 |
| Mkji.FcsfOrdering | backend/models/mkji.go:277-302 | Heavier side friction never raises the factor, and a kerb never beats a shoulder |
| Mkji.GetFCCS | backend/models/mkji.go:304-317 | City-size factor in 0.86..1.04, 1.0 for 1–3 million |
| Mkji.FccsNondecreasing | backend/models/mkji.go:304-317 | A larger city never gets a smaller factor |
| Mkji.KapasitasBounds | backend/models/mkji.go:319-329 | The capacity, the product of the five factors, lies between the products of their bounds |
| Mkji.KapasitasAtReference | backend/models/mkji.go:319-329 | At the reference road (7 m, 50-50, shoulder, VL, 1–3 million) capacity equals the base capacity |
| Mkji.HitungKapasitas | backend/models/mkji.go:319-329 | Reports the base capacity and the four factors of the location and a capacity that is their product |
| Mkji.HitungDerajatKejenuhan | backend/models/mkji.go:331-336 | 0 when kapasitas ≤ 0, otherwise ds·kapasitas = arus, non-negative for non-negative flow |
| Mkji.TingkatPelayanan | backend/models/mkji.go:338-353 | A exactly when ds ≤ 0.35, F exactly when ds > 1.00 |
| Mkji.GetTingkatPelayanan | backend/models/mkji.go:338-353 | The letter returned is A iff ds ≤ 0.35, F iff ds > 1.00, and is the letter of the service level |
| Mkji.TingkatPelayananMonotone | backend/models/mkji.go:338-353 | A larger ds never gives a better letter |
| Mkji.TingkatPelayananMatchesPublished | backend/controllers/mkji.controller.go:206-213 | The letter is the first published level whose ds_max bounds ds |
| Pkji.KategoriPKJIFromTable | backend/models/pkji.go:118-138 | A known pair gets its table category; anything else KR (the tables are at lines 47-81) |
| Pkji.TableAgrees | backend/models/pkji.go:118-138 | The lookup agrees with the table of the location type for every kelas |
| Pkji.GetKategoriPKJI | backend/models/pkji.go:118-138 | SM only for kelas 1 off the motorway, KTB exactly for kelas 11 of the 12-class scheme, KR for an unknown tipe_lokasi |
| Pkji.GetEMPPKJI | backend/models/pkji.go:140-147 | 1.0 for KR; for KB 1.2 on the three road types with an EMP column and 1.0 otherwise; always in 0..1.2 |
| Pkji.EmpValues | backend/models/pkji.go:140-147 | EMP is 1.0 for a location type without an EMP column (12_kelas) and for KR, 1.2 for KB, 0 for KTB otherwise (the EMP table is at lines 24-45) |
| Pkji.TallyIsCountIf | backend/models/pkji.go:149-170 | Each category tally counts exactly the vehicles of that category |
| Pkji.TallyConserves | backend/models/pkji.go:149-170 | SM+KR+KB+KTB add up to the sum of every class count |
| Pkji.CategoryWeight | backend/models/pkji.go:172-174 | A category's EMP-weighted sum is its count times its EMP |
| Pkji.WeightSplits | backend/models/pkji.go:172-174 | The EMP-weighted sum splits into the four categories |
| Pkji.SkrWeights | backend/models/pkji.go:172-174 | TotalSkr is the EMP-weighted sum over SM, KR and KB only |
| Pkji.TallyEmp | backend/models/pkji.go:172-174 | TotalSkr plus KTB's weight is the EMP-weighted sum of all classes |
| Pkji.TallyZone | backend/models/pkji.go:154-166 | The inner loop extends the tallies by exactly the zone's classes |
| Pkji.TallyZones | backend/models/pkji.go:153-167 | The loop over zones extends the tallies by all their classes |
| Pkji.TallyRecords | backend/models/pkji.go:152-168 | The loop over records yields the tallies of all classes |
| Pkji.HitungPKJICount | backend/models/pkji.go:149-174 | Category counts are the tallies, conserve vehicles, TotalMotor = SM+KR+KB, TotalSkr = Σ count·EMP over SM, KR, KB |
| Pkji.TotalSkrMatchesHourlyWeights | backend/models/pkji.go:179-207 | Where KTB weighs 0, TotalSkr equals the per-class weighting used for the hourly volume (TotalSkr is at lines 172-174) |
| Pkji.HitungVolumePKJI | backend/models/pkji.go:179-207 | (0, "") for no records or no positive hour; otherwise an hour of the data with the maximal SKR sum, and that sum |
| Pkji.GetKapasitasDasarPKJI | backend/models/pkji.go:211-255 | Base capacity per (tipe_arah, tipe_lokasi) with every default; in 2900..6900 |
| Pkji.GetFCLJ | backend/models/pkji.go:257-303 | bebas_hambatan's table takes precedence over tipe_arah; values from the table; 1.0 at 7 m |
| Pkji.FcljNondecreasing | backend/models/pkji.go:257-303 | A wider lane never gets a smaller factor |
| Pkji.GetFCPA | backend/models/pkji.go:305-325 | 1.0 for 42d/62d and unknown splits; in 0.88..1.0 |
| Pkji.GetFCHS | backend/models/pkji.go:327-356 | 1.0 for bebas_hambatan, the table value for a known pair, 0.93 for an unknown one |
| Pkji.GetFCUK | backend/models/pkji.go:358-376 | 1.0 unless perkotaan; in 0.86..1.04 |
| Pkji.FcukNondecreasing | backend/models/pkji.go:358-376 | A larger city never gets a smaller factor |
| Pkji.CapacityPositive | backend/models/pkji.go:378-403 | Positive factors give a positive capacity |
| Pkji.HitungKapasitasPKJI | backend/models/pkji.go:378-403 | Per tipe_lokasi, the factors reported and used (fchs = fcuk = 1 for bebas_hambatan, fcuk = 1 outside perkotaan) and a positive capacity that is their product |
| Pkji.HitungDerajatKejenuhanPKJI | backend/models/pkji.go:406-412 | 0 when kapasitas ≤ 0, otherwise dj·kapasitas = volume |
| Pkji.TingkatPelayananPKJI | backend/models/pkji.go:414-429 | A exactly when dj ≤ 0.35, F exactly when dj > 1.00 |
| Pkji.GetTingkatPelayananPKJI | backend/models/pkji.go:414-429 | The letter is A iff dj ≤ 0.35, F iff dj > 1.00, and is the letter of the service level |
| Pkji.TingkatPelayananPKJIMonotone | backend/models/pkji.go:414-429 | A larger dj never gives a better letter |
| Pkji.TingkatPelayananPKJIMatchesBounds | backend/models/pkji.go:414-429 | The letter is the first of the bounds 0.35/0.54/0.77/0.93/1.00 that dj does not exceed |
| Traffic.JamKey | backend/models/mkji.go:175 | The hour key ("15:00" layout) is five characters |
| Traffic.AddClassesMeaning | backend/models/mkji.go:177-183 | Adding a zone's classes raises exactly that hour's entry by their weighted sum |
| Traffic.JamDataValue | backend/models/mkji.go:173-184 | The hourly map holds, for each hour, the weighted sum of that hour's records |
| Traffic.JamDataKeys | backend/models/mkji.go:173-184 | An hour is in the map iff some record of that hour has a class |
| Traffic.AddZone | backend/models/mkji.go:177-183 | The loop over a zone's classes adds exactly their weights to the hour's entry |
| Traffic.BuildJamData | backend/models/mkji.go:173-184 | The loops build exactly the hourly map |
| Traffic.PeakOf | backend/models/mkji.go:186-193 | A non-empty result names an entry of positive maximal value; "" only when no entry is positive |
| Traffic.HourlyPeak | backend/models/mkji.go:168-196 | The peak hour exists in the data and its sum bounds every hour's sum; ("", 0) iff none is positive |
| Traffic.FirstWithin | backend/controllers/mkji.controller.go:206-213 | The index of the first threshold not below the value |
| CameraData.PreClean | backend/models/camera_data.go:55-62 | The escaped quotes are replaced and surrounding quotes dropped, and the text is wrapped in Root exactly when it does not already start as XML; the result always starts as XML |
| CameraData.WrappedLooksLikeXml | backend/models/camera_data.go:59-61 | Wrapping always yields text that starts as XML |
| CameraData.QuotedPayload | backend/models/camera_data.go:56-58 | A quoted payload without backslashes is given back unquoted |
| CameraData.ReplaceIsSinglePass | backend/models/camera_data.go:56 | The replacement is one left-to-right pass: for any rest t, a backslash before an escaped quote survives and only the escaped quote is replaced |
| CameraData.LastByKeyDomain | backend/models/camera_data.go:108-123 | A key is in the map iff some element carries it |
| CameraData.LastByKeyWins | backend/models/camera_data.go:120-123 | The last element with a key is the one kept |
| CameraData.BuildMap | backend/models/camera_data.go:120-123 | The map-building loop gives the last-wins map |
| CameraData.GeneratedClassName | backend/models/camera_data.go:158-164 | A class unknown to the master list gets id "KK-<tipe>-…", name "Kelas <n>", its number and count |
| CameraData.ClassDetailsCount | backend/models/camera_data.go:156-175 | The converted classes count as many vehicles as the camera reported |
| CameraData.ConvertZone | backend/models/camera_data.go:150-181 | One configured zone becomes its direction entry, reported or zero-filled |
| CameraData.ConvertClasses | backend/models/camera_data.go:156-175 | The class loop converts every class and its total is their sum |
| CameraData.ReconcileZones | backend/models/camera_data.go:147-189 | The zone loop yields exactly one entry per configured zone in the chosen order |
| CameraData.ReconciledCoversConfigured | backend/models/camera_data.go:147-189 | Every configured zone appears once, with its id and direction |
| CameraData.ReconciledMissingZone | backend/models/camera_data.go:176-180 | A configured zone absent from the message gets no classes and total 0 |
| CameraData.ReconciledReportedZone | backend/models/camera_data.go:150-175 | A reported zone keeps all its classes and totals their counts |
| CameraData.ReconciledTotals | backend/models/camera_data.go:156-175 | Every direction total is the sum of its class counts |
| CameraData.ExtraZonesIgnored | backend/models/camera_data.go:147-189 | Zones with ids outside 1..n have no effect on the output (the lookup maps are built at lines 113-131) |
| CameraData.RecordTotal | backend/models/camera_data.go:237-240 | The record total is the sum of direction totals |
| CameraData.SumTotalsCountsVehicles | backend/models/camera_data.go:237-240 | With consistent directions, the record total counts every vehicle |
| CameraData.GoDiv | backend/models/camera_data.go:191-194 | Go's integer division truncates toward zero |
| CameraData.IntervalMenit | backend/models/camera_data.go:191-194 | IntervalTime div 60, and 5 when that is ≤ 0; always ≥ 1 |
| CameraData.ZoneOffset | backend/models/camera_data.go:198-212 | An offset is found only as an integer in -12..14, bare or after "utc"/"UTC"; none only when neither the bare text nor, after an exact "utc"/"UTC", the rest reads as such an integer |
| CameraData.TimestampOffset | backend/models/camera_data.go:198-213 | The attribute's offset when it has one, the location's zona_waktu otherwise |
| CameraData.ZoneOffsetBare | backend/models/camera_data.go:200-205 | Every bare offset in -12..14 is read back |
| CameraData.ZoneOffsetPrefixed | backend/models/camera_data.go:206-211 | Every prefixed offset in -12..14 is read back |
| CameraData.ZoneOffsetRejects | backend/models/camera_data.go:198-212 | Worked examples: a mixed-case prefix, the values 15 and -13, "" and "$utcVar" give no offset |
| CameraData.ZoneOffsetRejectsOutOfRange | backend/models/camera_data.go:198-212 | Every 64-bit integer outside -12..14, written in decimal, gives no offset |
| CameraData.ZoneOffsetRejectsUnprefixed | backend/models/camera_data.go:198-212 | Text that is not an integer and has no exact "utc"/"UTC" prefix gives no offset |
| CameraData.OffsetSeconds | backend/models/camera_data.go:220-228 | time.Duration of a float offset: the seconds truncated toward zero, within one second of the exact offset and of its sign |
| CameraData.OffsetSecondsSymmetric | backend/models/camera_data.go:220-228 | Truncation is symmetric: a negated offset gives the negated seconds |
| CameraData.LocalHour | backend/models/camera_data.go:214-229 | The hour is the one of the UTC instant shifted by the truncated offset; with offset 0 it is the UTC hour |
| CameraData.LocalHourShift | backend/models/camera_data.go:214-229 | A whole-hour offset shifts the local hour modulo 24 |
| CameraData.ConvertCameraData | backend/models/camera_data.go:97-254 | No record without the location; otherwise the reconciled zones, the consistent total, the interval and the local hour |
| CameraData.RawZone | backend/models/camera_data.go:427-472 | One configured zone becomes its raw entry |
| CameraData.RawZones | backend/models/camera_data.go:427-472 | The zone loop yields exactly one raw entry per configured zone in the chosen order, and the record total is the sum of their totals |
| CameraData.RawDataFromCamera | backend/models/camera_data.go:335-480 | The raw record carries the reconciled raw zones, their summed total, the interval and the local hour |
| CameraData.RawMissingZoneIsZero | backend/models/camera_data.go:448-457 | A missing zone keeps its configured id and direction and is zero in count, classes, occupancy, confidence, length, headway and density |
| CameraData.RawReportedZone | backend/models/camera_data.go:433-447 | A reported zone keeps its measurements and class counts |
| CameraData.RawClassesCount | backend/models/camera_data.go:434-442 | Raw class counts add up to the reported vehicles |
| CameraData.RawAgreesWithConverted | backend/models/camera_data.go:427-472 | Raw and converted records agree zone by zone on id and total (the converted records are built at lines 147-189) |
| CameraData.EffectiveInterval | backend/models/camera_data.go:511-516 | A non-positive interval is treated as 5 (the interval is read again at line 615) |
| CameraData.PerHour | backend/models/camera_data.go:608-613 | The flow is scaled to an hour: total · 60 / interval, non-negative for non-negative totals (with the interval of lines 511-516) |
| CameraData.RealTimeSwitchMKJI | backend/models/camera_data.go:518-545 | The per-tipe_lokasi switch fixes FCSF and FCCS and multiplies the factors |
| CameraData.RealTimeKapasitasMKJI | backend/models/camera_data.go:518-545 | The real-time capacity and its factors |
| CameraData.RealTimeUrbanMatchesDaily | backend/models/camera_data.go:518-545 | For perkotaan the real-time capacity equals the daily MKJI capacity |
| CameraData.SaturationMKJI | backend/models/camera_data.go:547-552 | ds and the service level as the MKJI functions give them |
| CameraData.AnalyseMKJI | backend/models/camera_data.go:505-552 | The analysis carries the tallies and the measures computed from them |
| CameraData.CalculateRealTimeMKJI | backend/models/camera_data.go:482-577 | No analysis without the location; the tallies conserve the record's vehicles and TotalSMP is their weighted sum |
| CameraData.SaturationPKJI | backend/models/camera_data.go:617-622 | dj and the service level as the PKJI functions give them |
| CameraData.RealTimeCapacityPKJIDetermined | backend/models/camera_data.go:615 | The location alone fixes the reported capacity and its five factors |
| CameraData.RealTimeCapacityPKJIPositive | backend/models/pkji.go:378-403 | The reported capacity is positive on every road type |
| CameraData.AnalysePKJI | backend/models/camera_data.go:602-622 | The analysis carries the tallies, TotalSkr over SM, KR and KB, the volume per hour, the capacity and factors HitungKapasitasPKJI gives the location, and DJ and the level of service computed from them |
| CameraData.SkrAccountsForAll | backend/models/camera_data.go:602-606 | TotalSkr plus KTB's weight is the EMP-weighted sum of the record |
| CameraData.CalculateRealTimePKJI | backend/models/camera_data.go:579-647 | No analysis without the location; the tallies conserve the record's vehicles; the capacity, its factors, DJ and the level of service are those of the location |
| Klasifikasi.TemplateSizes | backend/models/klasifikasi_kendaraan.go:31-72 | 3, 5, 4 and 12 entries for the four types, none otherwise |
| Klasifikasi.FinalIffOpenEnded | backend/models/klasifikasi_kendaraan.go:31-72 | In every template, the row the table marks IsKelasTerakhir is exactly the row whose default upper bound is 0 |
| Klasifikasi.TemplatesWellFormed | backend/models/klasifikasi_kendaraan.go:31-72 | Every template numbers 1..n, ends in its only final row, is contiguous and has increasing boundaries |
| Klasifikasi.TwelveClassesWellFormed | backend/models/klasifikasi_kendaraan.go:58-67 | The same for the 12-class template |
| Klasifikasi.GetKlasifikasiTemplateByTipeLokasi | backend/models/klasifikasi_kendaraan.go:31-72 | A template exists exactly for the four location types; it starts at kelas 1 and ends in a final row |
| Klasifikasi.SeedNumbersAt | backend/models/klasifikasi_kendaraan.go:114-115 | The i-th identifier number is nextNum + i, wrapped to 64 bits |
| Klasifikasi.NextNum | backend/models/klasifikasi_kendaraan.go:74-88 | A 64-bit number, 1 when there is no identifier yet |
| Klasifikasi.NextNumScansNextId | backend/models/klasifikasi_kendaraan.go:74-88 | The starting number is the scan of the next identifier (the scan is at lines 111-112) |
| Klasifikasi.SeedTemplates | backend/models/klasifikasi_kendaraan.go:114-127 | The template loop builds one document per template |
| Klasifikasi.SeedTypes | backend/models/klasifikasi_kendaraan.go:95-135 | The loop over types inserts the seeded documents |
| Klasifikasi.InitMasterKlasifikasi | backend/models/klasifikasi_kendaraan.go:90-138 | Seeding the four location types inserts exactly the seeded documents |
| Klasifikasi.SeededSkip | backend/models/klasifikasi_kendaraan.go:96-102 | A road type already present contributes nothing |
| Klasifikasi.SeededTake | backend/models/klasifikasi_kendaraan.go:104-135 | A road type without classes contributes its documents, and the later types are numbered after them |
| Klasifikasi.SeededSkipsExisting | backend/models/klasifikasi_kendaraan.go:96-102 | No document is inserted for a type that already has entries |
| Klasifikasi.SeedRunOfType | backend/models/klasifikasi_kendaraan.go:117-125 | Each document carries its type and its template's kelas |
| Klasifikasi.SeedRunNumbers | backend/models/klasifikasi_kendaraan.go:114-115 | The i-th document's identifier reads back as nextNum + i |
| Klasifikasi.SeedRunIds | backend/models/klasifikasi_kendaraan.go:114-115 | One type's identifier numbers are the consecutive sequence from nextNum |
| Klasifikasi.SeededConsecutive | backend/models/klasifikasi_kendaraan.go:95-135 | All seeded identifiers are consecutive and start at the next number |
| KlasifikasiController.FilteredMembers | backend/controllers/klasifikasi_kendaraan.controller.go:25-33 | An entry is kept iff its type matches |
| KlasifikasiController.FilterByTipe | backend/controllers/klasifikasi_kendaraan.controller.go:25-33 | No filter for an empty type; otherwise the matching entries in order |
| KlasifikasiController.SortByKelas | backend/controllers/klasifikasi_kendaraan.controller.go:103-110 | The in-place exchange sort leaves a permutation sorted by kelas |
| KlasifikasiController.MinToFront | backend/controllers/klasifikasi_kendaraan.controller.go:104-109 | One outer pass puts the smallest kelas in front and permutes the rest |
| KlasifikasiController.ReqMapDomain | backend/controllers/klasifikasi_kendaraan.controller.go:112-115 | A kelas is in the request map iff the request names it |
| KlasifikasiController.ReqMapLaterWins | backend/controllers/klasifikasi_kendaraan.controller.go:112-115 | A repeated kelas keeps its later boundary |
| KlasifikasiController.BuildReqMap | backend/controllers/klasifikasi_kendaraan.controller.go:112-115 | The loop builds the later-wins map |
| KlasifikasiController.ValidateBatas | backend/controllers/klasifikasi_kendaraan.controller.go:117-137 | The validation loop gives the checked verdict |
| KlasifikasiController.ValidIffIncreasing | backend/controllers/klasifikasi_kendaraan.controller.go:117-137 | With distinct non-final classes, valid iff the effective boundaries strictly increase from 0 |
| KlasifikasiController.StaleBoundFails | backend/controllers/klasifikasi_kendaraan.controller.go:125-133 | A boundary not above the current one is rejected |
| KlasifikasiController.DuplicateKelasRejected | backend/controllers/klasifikasi_kendaraan.controller.go:117-137 | Two non-final entries of the same kelas are always rejected |
| KlasifikasiController.ValidatedMap | backend/controllers/klasifikasi_kendaraan.controller.go:117-137 | A valid list has distinct non-final classes, each mapped to its effective boundary |
| KlasifikasiController.KeptUntouched | backend/controllers/klasifikasi_kendaraan.controller.go:117-137 | Validation leaves the boundaries of other classes as requested |
| KlasifikasiController.SeededClassesPassValidation | backend/controllers/klasifikasi_kendaraan.controller.go:117-137 | Freshly seeded classes are sorted and pass the check with an empty request |
| KlasifikasiController.WellFormedSeedPasses | backend/controllers/klasifikasi_kendaraan.controller.go:117-137 | Any well-formed template seeds a sorted list that passes the check |
| KlasifikasiController.ChainUpdates | backend/controllers/klasifikasi_kendaraan.controller.go:139-167 | The first start is 0, every start is the previous written boundary, a final class writes 0 |
| KlasifikasiController.UpdateBulkMasterKlasifikasi | backend/controllers/klasifikasi_kendaraan.controller.go:83-175 | 400 iff no tipe, 404 iff no classes; a success writes a sorted permutation with increasing boundaries and the start/end chain; a violation is the first failing check of the sorted list |
| CameraModel.IsValidTipeKamera | backend/models/camera.go:34-41 | Holds iff trafficam, x_stream, thermicam or cctv (the options are at line 14) |
| CameraModel.ValidateZonaArahList | backend/models/camera.go:43-65 | The size messages for fewer than 1 or more than 8; ok iff the size fits and no index is bad; otherwise the first bad index's message |
| LocationModel.IsValidTipeLokasi | backend/models/location.go:58-65 | Holds iff one of the four location types (the options are at line 15) |
| LocationModel.IsValidTipeArah | backend/models/location.go:67-74 | Holds iff 22ud, 42d, 42ud or 62d (the options are at line 16) |
| LocationModel.IsValidLebarJalur | backend/models/location.go:76-83 | Holds iff 5..11 (the options are at line 18) |
| LocationModel.IsValidPersentase | backend/models/location.go:85-92 | Holds iff one of the five splits (the options are at line 17) |
| LocationModel.IsValidTipeHambatan | backend/models/location.go:94-101 | Holds iff bahu_jalan or kereb (the options are at line 19) |
| LocationModel.IsValidKelasHambatan | backend/models/location.go:103-110 | Holds iff VL, L, M, H or VH (the options are at line 20) |
| LocationModel.IsValidInterval | backend/models/location.go:112-119 | Holds iff 1, 3, 5, 10, 15, 20, 30 or 60, each a divisor of 60 (the options are at line 21) |
| LocationModel.NextLocationIdFirst | backend/models/location.go:130-141 | With no previous location the id is LOC-00001 |
| LocationModel.NextLocationIdStep | backend/models/location.go:142-143 | The next id reads back as the previous number plus one, wrapped to 64 bits |
| LocationModel.NextLocationIdIncrements | backend/models/location.go:142-143 | Without overflow the number is exactly one more |
| LocationModel.NextLocationId | backend/models/location.go:130-143 | An identifier LOC- followed by the %05d rendering of the next number, at least nine characters long; a negative number keeps its sign inside the width ("LOC--0004") |
| Common.ScanFormatRoundTrip | backend/models/location.go:142-143 | %05d then Sscanf %d gives the number back |
| Common.FormatParseRoundTrip | backend/controllers/traffic_data.controller.go:147 | Atoi reads back a decimal in the int64 range |
| Common.LinearSearch | backend/models/camera.go:34-41 | The option loop finds the value iff it is an option |
| LocationController.FirstFailureMeaning | backend/controllers/location.controller.go:39-77 | Valid iff every check passes; otherwise the message of the first failing check |
| LocationController.ValidateLocationRequest | backend/controllers/location.controller.go:39-77 | Valid iff every field is valid; an empty name always yields "nama_lokasi diperlukan" |
| LocationController.ValidateIsFirstFailure | backend/controllers/location.controller.go:39-77 | The validation is the first failure of the nine checks in order |
| LocationController.LocationBalai | backend/controllers/location.controller.go:100-105 | A superadmin's non-empty requested balai, otherwise the user's |
| LocationController.ViewAccess | backend/controllers/location.controller.go:245-265 | 404 without location; allowed iff superadmin or same balai |
| LocationController.UpdateAccess | backend/controllers/location.controller.go:278-300 | 404 without location, 403 unless owner or superadmin, then the validation's 400 |
| LocationController.DeleteAccess | backend/controllers/location.controller.go:383-395 | Allowed iff the location exists and the role is superadmin |
| LocationController.CreateBalai | backend/controllers/location.controller.go:80-105 | Filed iff valid and the user is found, with the chosen balai |
| LocationController.Listed | backend/controllers/location.controller.go:198-222 | A listed location is in the user's balai unless superadmin, and matches every non-empty user_id, tipe_lokasi and publik filter; without filters every location of the balai is listed |
| LocationController.ListedIsViewable | backend/controllers/location.controller.go:198-222 | Every listed location may be viewed |
| LocationController.CreatorCanView | backend/controllers/location.controller.go:245-265 | The creator can view what they created (with the creation at lines 100-105) |
| LocationController.DeleteIsStrongest | backend/controllers/location.controller.go:383-395 | Whoever may delete may also update and view (against the checks at lines 245-300) |
| LocationController.OwnerOutsideBalai | backend/controllers/location.controller.go:256-265 | For any non-superadmin owner and any balai other than the location's, a valid update is allowed but viewing is refused with 403 (against the update check at lines 289-291) |
| LocationSourceController.IsValidUrlPadded | backend/controllers/location_source.controller.go:22-25 | Any space padding before an http/https scheme in any case is accepted |
| LocationSourceController.IsValidUrl | backend/controllers/location_source.controller.go:21-24 | An accepted URL has at least 7 characters once trimmed |
| LocationSourceController.IsYouTubeUrl | backend/controllers/location_source.controller.go:27-30 | Every URL containing youtube.com or youtu.be in lower case is accepted |
| LocationSourceController.FindId | backend/controllers/location_source.controller.go:34-68 | The leftmost marker followed by 11 id characters, and those characters |
| LocationSourceController.ExtractYouTubeVideoId | backend/controllers/location_source.controller.go:34-68 | "" or an 11-character id, and only from a URL naming a YouTube host |
| LocationSourceController.ExtractFindsLeftmostMatch | backend/controllers/location_source.controller.go:34-68 | "" exactly when no short-link match exists and, for a youtube.com URL, no watch, embed or live match either; otherwise the 11 characters after the leftmost match of the first pattern, in the order short link, watch, embed, live, that matches at all |
| LocationSourceController.FindIdFromStart | backend/controllers/location_source.controller.go:37-38 | A pattern search finds nothing exactly when there is no match, and otherwise yields the id of the leftmost match |
| LocationSourceController.ShortLinkId | backend/controllers/location_source.controller.go:35-42 | Any URL p + "youtu.be/" + v + r, with no y in p and v an 11-character id, yields v |
| LocationSourceController.WatchLinkId | backend/controllers/location_source.controller.go:34-51 | Any youtube.com URL without a short link whose first ? or & is followed by v= and an 11-character id v yields v |
| LocationSourceController.ExtractNeedsLowerCaseHost | backend/controllers/location_source.controller.go:36-45 | Without a lower-case host and a short-link match the id is "" |
| LocationSourceController.ExtractedIsYouTube | backend/controllers/location_source.controller.go:28-68 | A URL with an extracted id is a YouTube URL |
| LocationSourceController.UpperCaseShortLink | backend/controllers/location_source.controller.go:28-45 | An upper-case short link is YouTube but yields no id |
| LocationSourceController.ValidateSourceRequest | backend/controllers/location_source.controller.go:71-101 | Valid iff the request is well-formed; fixed messages for a missing type and missing data |
| LocationSourceController.CreateAndUpdateValidation | backend/controllers/location_source.controller.go:71-86 | Create and update differ exactly on an image with empty data |
| LocationSourceController.SourceWriteAccess | backend/controllers/location_source.controller.go:109-117 | Allowed iff the location exists and the user owns it or is superadmin (the same check recurs at lines 193-201 and 266-274) |
| LocationSourceController.SourceViewAccess | backend/controllers/location_source.controller.go:162-182 | Allowed iff public, superadmin or same balai, and a source exists |
| LocationSourceController.SourceWriteMatchesLocationUpdate | backend/controllers/location_source.controller.go:115-117 | Writing a source is allowed exactly when updating the location is |
| LocationSourceController.SourceViewExtendsLocationView | backend/controllers/location_source.controller.go:168-177 | Whoever may view the location, or anyone for a public one, may view its source |
| LocationSourceController.PlayableUrl | backend/controllers/location_source.controller.go:299-338 | image for a picture, youtube with embed URL and id or an error, direct otherwise |
| LocationSourceController.EmbedUrlShape | backend/controllers/location_source.controller.go:321-325 | The embed URL is the embed prefix and an 11-character id |
| RtspStreamController.IsRtspUrl | backend/controllers/rtsp_stream.controller.go:29 | An accepted URL has at least 7 characters, and every URL starting with rtsp:// in lower case is accepted |
| RtspStreamController.StartStreamAccess | backend/controllers/rtsp_stream.controller.go:18-35 | 404 without source, 400 for a picture, 400 with the embed-in-frontend message for a link that is not rtsp://, allowed iff an rtsp:// link |
| RtspStreamController.ManualStartAccess | backend/controllers/rtsp_stream.controller.go:119-127 | Empty URL first, then a non-rtsp URL; allowed iff rtsp:// |
| RtspStreamController.GetPlayableUrl | backend/controllers/rtsp_stream.controller.go:142-198 | rtsp:// links give hls with the stream's URL iff it runs, rtsp otherwise; other sources as in the location-source handler |
| RtspStreamController.RtspBeforeYouTube | backend/controllers/rtsp_stream.controller.go:165-195 | An rtsp:// URL naming youtube.com is RTSP here, YouTube to the other handler |
| RtspStreamController.StartableIsRtsp | backend/controllers/rtsp_stream.controller.go:24-35 | A startable source is an rtsp:// link |
| ImageUtils.GetInitials | backend/utils/image.go:18-35 | The loop produces the initials of the name |
| ImageUtils.LeadByte | backend/utils/image.go:23 | An ASCII character is its own first byte; any other character's lead byte is not alphanumeric |
| ImageUtils.KeepAlnum | backend/utils/image.go:31-32 | Only ASCII letters and digits survive |
| ImageUtils.InitialsAlphabet | backend/utils/image.go:18-35 | Initials consist of A–Z and 0–9 only |
| ImageUtils.InitialsLength | backend/utils/image.go:18-35 | At most max(word count, 3) characters |
| ImageUtils.InitialsOfNoWords | backend/utils/image.go:26-28 | A name without words yields LOC |
| ImageUtils.InitialsOfAlnumWords | backend/utils/image.go:18-35 | Alphanumeric words give exactly their upper-cased first letters |
| ImageUtils.InitialsOfSymbolWords | backend/utils/image.go:26-32 | Words all starting with symbols give "" |
| ImageUtils.StripBase64Header | backend/utils/image.go:49-55 | The text after the first ;base64, if present, else all of it |
| ImageUtils.StripDataUri | backend/utils/image.go:49-55 | A data URI "data:<type>;base64,<data>" gives back exactly <data> |
| LocationSourceModel.IsValidSourceType | backend/models/location_source.go:41-48 | Holds iff link or image (the options are at lines 25-30) |
| LocationSourceModel.CleanBase64 | backend/models/location_source.go:236-240 | The cleaned text has no newline, return, space or tab, and keeps only characters of the input |
| LocationSourceModel.CleanIdempotent | backend/models/location_source.go:236-240 | Cleaning twice is cleaning once |
| LocationSourceModel.StripImageHeader | backend/models/location_source.go:243-257 | With the base64 marker, the text after its first occurrence; without it, for a data:image/ prefix and a comma, the text after the first comma; otherwise the input unchanged |
| LocationSourceModel.StripAgreesWithUtils | backend/models/location_source.go:243-246 | With the base64 marker both header removals agree |
| LocationSourceModel.StripPlainDataUri | backend/models/location_source.go:247-251 | "data:image/<sub>,<data>" without marker gives back exactly <data> |
| LocationSourceModel.SnapshotUpdate | backend/models/location_source.go:169-207 | A link is never replaced; otherwise the processed picture replaces the source and an old picture is removed |
| TrafficDataController.Recounted | backend/controllers/traffic_data.controller.go:37-44 | A zone's total becomes its class sum, all else unchanged |
| TrafficDataController.ZoneTotal | backend/controllers/traffic_data.controller.go:39-43 | The inner loop sums the zone's class counts |
| TrafficDataController.RecomputeTotals | backend/controllers/traffic_data.controller.go:37-44 | Every zone of the array is recounted in place and nothing else changes |
| TrafficDataController.CreateTrafficData | backend/controllers/traffic_data.controller.go:22-55 | 400 for empty lokasi_id, then for empty zones; accepted otherwise with every zone recounted |
| TrafficDataController.RecountedTotalsCountVehicles | backend/controllers/traffic_data.controller.go:37-44 | After recounting, the zone totals add up to every vehicle |
| TrafficDataController.QueryInt | backend/controllers/traffic_data.controller.go:146-152 | The default for an empty or non-integer query, the parsed value otherwise (used for the limit at line 126) |
| TrafficDataController.Limit | backend/controllers/traffic_data.controller.go:146-152 | 100 unless the limit parses (the limit is read at line 126) |
| TrafficDataController.Days | backend/controllers/traffic_data.controller.go:196-201 | 30 unless days parses (the same parse recurs at lines 218-223) |
| TrafficDataController.LimitRoundTrip | backend/controllers/traffic_data.controller.go:146-152 | A written limit is read back |

## Left out

- MongoDB persistence: every find, insert, update and delete, and the 500
  responses they produce, are left out. Values read from the database are
  parameters, and written documents are results.
- The wall clock: the current time is the parameter `nowUtc`. Creation and
  update timestamps, the `+7h` shifts and the day count of the daily reports
  are not modelled.
- XML unmarshalling (`encoding/xml`): only the text pre-clean before it is
  modelled.
- IEEE floating point: all weights, factors and thresholds are exact `real`s;
  rounding is not modelled.
- Integer overflow of vehicle-count sums: sums are unbounded integers. The
  identifier counters do wrap (`Wrap64`).
- Go map iteration order: zone output order is the permutation parameter
  `order`, and a tie between peak hours is an arbitrary choice in `PeakOf`.
- Logging, goroutines, the asynchronous snapshot update, tickers, the dummy
  data generator and the Excel export are not modelled.
- Request-body parsing errors (the 400 from a body that does not decode) are
  not modelled; requests are already-decoded values.
- `IsValidBalai` is not part of this model; it is the predicate parameter
  `isValidBalai`.
- The RTSP stream service (MediaMTX calls): its state for a location is the
  `stream` parameter. `StopRTSPStream`, `GetRTSPStreamInfo` and
  `GetAllRTSPStreams` only forward to it, so they are not modelled.
- RtspStreamController.StartStreamAccess: the refusal keeps only the status and the
  "error" text; the "tip" and "current" keys of the 400 response for a link
  that is not rtsp:// (`backend/controllers/rtsp_stream.controller.go:30-34`)
  are not modelled.
- Image decoding, PNG encoding, file creation and removal and blank-image
  generation are not modelled. The location found and the path of the stored
  file are parameters of `SnapshotUpdate`.
- The source creation inside `CreateLocation` / `UpdateLocation`
  (`backend/controllers/location.controller.go:144-184,332-369`) is not
  modelled. It repeats the source validation modelled in
  `LocationSourceController`.
- The start/end time filters of the traffic-data listings are not modelled;
  they depend on time parsing.
- The error of `NextTrafficDataID` and of the identifier lookups is not
  modelled; only the parse-increment-format step is.
- `LocationModel.IsValidProvinsi` is a plain membership test with no further
  contract.
- CameraData.LocalHourShift: only whole-hour offsets are covered. A fractional
  `zona_waktu` is truncated toward zero to whole seconds (`OffsetSeconds`),
  where Go keeps nanoseconds; the hour it gives is not stated further.
- CameraData.CalculateRealTimePKJI: the error text built with `%.2f` is not
  modelled.
- Klasifikasi.Seeded: assumes fewer than 100000 classification IDs.
  `NextKlasifikasiKendaraanID` takes the highest `_id` in string order, and
  past KK-99999 "KK-99999" sorts above "KK-100000". The model numbers each
  road type after the last ID it inserted, which is the highest only while
  every ID has five digits.
- Common.ToLower, Common.ToUpper: only the ASCII letters change case. Go's
  full Unicode mapping also lower-cases U+0130 and U+212A into ASCII ('i' and
  'k'); no prefix the model compares against contains either letter.
- Common.ScanNumber: `fmt.Sscanf`'s `%d` skips white space before the sign or
  digits ("KK- 7" reads 7); the model reads 0 there. Stored IDs are written
  by `%05d` and never contain spaces.
- ImageUtils.LeadByte: the characters of a Dafny string are code points, so a
  surrogate-range or invalid UTF-8 input is not modelled.
