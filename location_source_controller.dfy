// backend/controllers/location_source.controller.go: URL checks, YouTube
// video-ID extraction, validation of a source request, the access rules
// for a location's source, and the classification of a playable URL.
//
// rtsp_stream.controller.go declares isYouTubeURL and
// extractYouTubeVideoID a second time with the same bodies; both files
// are one Go package, so the helpers below stand for both copies.

module LocationSourceController {
  import opened Common
  import opened LocationModel
  import opened LocationSourceModel
  import opened LocationController

  // ---------------------------------------------------------------------
  // URL predicates
  // ---------------------------------------------------------------------

  /** isValidURL: after trimming and lower-casing, the text starts with http:// or https://. */
  function IsValidUrl(url: string): (ok: bool)
    ensures ok ==> |TrimSpace(url)| >= 7
  {
    var lower := ToLower(TrimSpace(url));
    HasPrefix(lower, "http://") || HasPrefix(lower, "https://")
  }

  lemma {:induction false} TrimLeftOfSpaces(pad: string, t: string)
    requires forall i :: 0 <= i < |pad| ==> IsSpace(pad[i])
    requires t != [] && !IsSpace(t[0])
    ensures TrimLeftSpace(pad + t) == t
  {
    if pad != [] {
      assert (pad + t)[1..] == pad[1..] + t;
      TrimLeftOfSpaces(pad[1..], t);
    } else {
      assert pad + t == t;
    }
  }

  lemma {:induction false} TrimRightKeepsHead(head: string, rest: string)
    requires head != [] && !IsSpace(head[|head| - 1])
    ensures HasPrefix(TrimRightSpace(head + rest), head)
  {
    if rest != [] && IsSpace(rest[|rest| - 1]) {
      assert (head + rest)[..|head + rest| - 1] == head + rest[..|rest| - 1];
      TrimRightKeepsHead(head, rest[..|rest| - 1]);
    } else {
      assert (head + rest)[..|head|] == head;
    }
  }

  /**
   * Leading white space and the letter case of the scheme do not matter:
   * "  HTTPS://…" is accepted like "https://…".
   */
  lemma IsValidUrlPadded(pad: string, scheme: string, rest: string)
    requires forall i :: 0 <= i < |pad| ==> IsSpace(pad[i])
    requires ToLower(scheme) == "http://" || ToLower(scheme) == "https://"
    ensures IsValidUrl(pad + scheme + rest)
  {
    SchemeEnds(scheme);
    assert pad + scheme + rest == pad + (scheme + rest);
    assert (scheme + rest)[0] == scheme[0];
    TrimLeftOfSpaces(pad, scheme + rest);
    TrimRightKeepsHead(scheme, rest);
    LowerPrefix(TrimSpace(pad + scheme + rest), scheme);
  }

  lemma SchemeEnds(scheme: string)
    requires ToLower(scheme) == "http://" || ToLower(scheme) == "https://"
    ensures scheme != [] && !IsSpace(scheme[0]) && !IsSpace(scheme[|scheme| - 1])
  {
    assert ToLower(scheme)[0] == 'h' && ToLower(scheme)[|scheme| - 1] == '/';
  }

  lemma LowerPrefix(t: string, p: string)
    requires HasPrefix(t, p)
    ensures HasPrefix(ToLower(t), ToLower(p))
  {
    assert forall i :: 0 <= i < |p| ==> ToLower(t)[i] == LowerAscii(t[i]) == LowerAscii(p[i]);
  }

  /** isYouTubeURL: the lower-cased text mentions youtube.com or youtu.be. */
  function IsYouTubeUrl(url: string): (ok: bool)
    ensures Contains(url, "youtube.com") || Contains(url, "youtu.be") ==> ok
  {
    HostsSurviveLower(url);
    Contains(ToLower(url), "youtube.com") || Contains(ToLower(url), "youtu.be")
  }

  lemma HostsSurviveLower(url: string)
    ensures Contains(url, "youtube.com") ==> Contains(ToLower(url), "youtube.com")
    ensures Contains(url, "youtu.be") ==> Contains(ToLower(url), "youtu.be")
  {
    HostsLowerCase();
    if Contains(url, "youtube.com") {
      var i :| 0 <= i <= |url| && OccursAt(url, "youtube.com", i);
      LowerKeepsOccurrence(url, "youtube.com", i);
    }
    if Contains(url, "youtu.be") {
      var i :| 0 <= i <= |url| && OccursAt(url, "youtu.be", i);
      LowerKeepsOccurrence(url, "youtu.be", i);
    }
  }

  // ---------------------------------------------------------------------
  // Video IDs
  // ---------------------------------------------------------------------

  /** The character class [a-zA-Z0-9_-] of a YouTube video ID. */
  predicate IsIdChar(c: char) { IsAsciiAlnum(c) || c == '_' || c == '-' }

  /** Eleven ID characters start at position k. */
  predicate IdAt(s: string, k: int)
  {
    0 <= k && k + 11 <= |s| && forall m :: k <= m < k + 11 ==> IsIdChar(s[m])
  }

  /** Alternative markers of one length, such as "?v=" and "&v=" for `[?&]v=`. */
  predicate Markers(alts: seq<string>)
  {
    |alts| > 0 && forall k :: 0 <= k < |alts| ==> |alts[k]| == |alts[0]|
  }

  /** The regular expression <marker>([a-zA-Z0-9_-]{11}) matches at position i. */
  predicate MatchAt(s: string, alts: seq<string>, i: int)
    requires Markers(alts)
  {
    (exists k :: 0 <= k < |alts| && OccursAt(s, alts[k], i)) && IdAt(s, i + |alts[0]|)
  }

  /**
   * regexp.FindStringSubmatch for <marker>([a-zA-Z0-9_-]{11}), scanning
   * from `from`: the group of the leftmost match, or None.
   */
  function FindId(s: string, alts: seq<string>, from: nat): (r: Option<string>)
    requires Markers(alts)
    ensures r.None? ==> forall i :: from <= i ==> !MatchAt(s, alts, i)
    ensures r.Some? ==> |r.value| == 11 && forall m :: 0 <= m < 11 ==> IsIdChar(r.value[m])
    ensures r.Some? ==>
      exists i :: from <= i && MatchAt(s, alts, i) && r.value == s[i + |alts[0]|..i + |alts[0]| + 11] &&
        forall j :: from <= j < i ==> !MatchAt(s, alts, j)
    decreases |s| - from
  {
    var n := |alts[0]|;
    if from + n + 11 > |s| then None
    else if MatchAt(s, alts, from) then Some(s[from + n..from + n + 11])
    else FindId(s, alts, from + 1)
  }

  /** The pattern <marker>([a-zA-Z0-9_-]{11}) matches nowhere in s. */
  ghost predicate NoMatch(s: string, alts: seq<string>)
    requires Markers(alts)
  {
    forall i :: !MatchAt(s, alts, i)
  }

  /** id is the group of the leftmost match of <marker>([a-zA-Z0-9_-]{11}) in s. */
  ghost predicate LeftmostId(s: string, alts: seq<string>, id: string)
    requires Markers(alts)
  {
    exists i :: MatchAt(s, alts, i) && (forall j :: 0 <= j < i ==> !MatchAt(s, alts, j))
      && id == s[i + |alts[0]|..i + |alts[0]| + 11]
  }

  /** Scanning from the start, FindId fails exactly when nothing matches, and otherwise finds the leftmost group. */
  lemma FindIdFromStart(s: string, alts: seq<string>)
    requires Markers(alts)
    ensures FindId(s, alts, 0).None? <==> NoMatch(s, alts)
    ensures FindId(s, alts, 0).Some? ==> LeftmostId(s, alts, FindId(s, alts, 0).value)
  {
    var r := FindId(s, alts, 0);
    if r.Some? {
      var i :| 0 <= i && MatchAt(s, alts, i) && r.value == s[i + |alts[0]|..i + |alts[0]| + 11] &&
        forall j :: 0 <= j < i ==> !MatchAt(s, alts, j);
      assert !NoMatch(s, alts);
    }
  }

  const ShortMarker: seq<string> := ["youtu.be/"]
  const WatchMarker: seq<string> := ["?v=", "&v="]
  const EmbedMarker: seq<string> := ["/embed/"]
  const LiveMarker: seq<string> := ["/live/"]

  /**
   * extractYouTubeVideoID: youtu.be/<id> first; then, only if the text
   * contains "youtube.com" (case-sensitive), ?v= or &v=, /embed/ and
   * /live/, in that order; "" when nothing matches.
   */
  function ExtractYouTubeVideoId(url: string): (id: string)
    ensures id != "" ==> Contains(url, "youtu.be/") || Contains(url, "youtube.com")
    ensures id == "" || (|id| == 11 && forall m :: 0 <= m < 11 ==> IsIdChar(id[m]))
  {
    var short := FindId(url, ShortMarker, 0);
    if Contains(url, "youtu.be/") && short.Some? then short.value
    else if Contains(url, "youtube.com") then
      var watch := FindId(url, WatchMarker, 0);
      if watch.Some? then watch.value
      else
        var embed := FindId(url, EmbedMarker, 0);
        if embed.Some? then embed.value
        else
          var live := FindId(url, LiveMarker, 0);
          if live.Some? then live.value else ""
    else ""
  }

  /**
   * What extractYouTubeVideoID extracts: the group of the leftmost youtu.be/
   * match; failing that, when "youtube.com" occurs, the leftmost match of
   * [?&]v=, then /embed/, then /live/; and "" exactly when none applies.
   */
  lemma ExtractFindsLeftmostMatch(url: string)
    ensures ExtractYouTubeVideoId(url) == "" <==>
      (NoMatch(url, ShortMarker) &&
       (!Contains(url, "youtube.com") ||
        (NoMatch(url, WatchMarker) && NoMatch(url, EmbedMarker) && NoMatch(url, LiveMarker))))
    ensures !NoMatch(url, ShortMarker) ==> LeftmostId(url, ShortMarker, ExtractYouTubeVideoId(url))
    ensures (NoMatch(url, ShortMarker) && Contains(url, "youtube.com") && !NoMatch(url, WatchMarker)) ==>
      LeftmostId(url, WatchMarker, ExtractYouTubeVideoId(url))
    ensures (NoMatch(url, ShortMarker) && Contains(url, "youtube.com") && NoMatch(url, WatchMarker) &&
             !NoMatch(url, EmbedMarker)) ==>
      LeftmostId(url, EmbedMarker, ExtractYouTubeVideoId(url))
    ensures (NoMatch(url, ShortMarker) && Contains(url, "youtube.com") && NoMatch(url, WatchMarker) &&
             NoMatch(url, EmbedMarker) && !NoMatch(url, LiveMarker)) ==>
      LeftmostId(url, LiveMarker, ExtractYouTubeVideoId(url))
  {
    FindIdFromStart(url, ShortMarker);
    FindIdFromStart(url, WatchMarker);
    FindIdFromStart(url, EmbedMarker);
    FindIdFromStart(url, LiveMarker);
    ShortMatchContains(url);
  }

  /** A marker cannot occur where the text does not hold its first character. */
  lemma NotAtOtherHead(s: string, p: string, i: int)
    requires |p| > 0 && 0 <= i < |s| && s[i] != p[0]
    ensures !OccursAt(s, p, i)
  {
    if i + |p| <= |s| {
      assert s[i..i + |p|][0] == s[i];
    }
  }

  /** A youtu.be/ match means the text contains "youtu.be/", so the guard of the first pattern holds. */
  lemma ShortMatchContains(url: string)
    ensures !NoMatch(url, ShortMarker) ==> Contains(url, "youtu.be/")
  {
    if !NoMatch(url, ShortMarker) {
      var i :| MatchAt(url, ShortMarker, i);
      var k :| 0 <= k < |ShortMarker| && OccursAt(url, ShortMarker[k], i);
      assert OccursAt(url, "youtu.be/", i);
    }
  }

  /** A short link yields its 11 characters when nothing before it can start a youtu.be/ match. */
  lemma ShortLinkId(p: string, v: string, r: string)
    requires forall i :: 0 <= i < |p| ==> p[i] != 'y'
    requires |v| == 11 && forall m :: 0 <= m < 11 ==> IsIdChar(v[m])
    ensures ExtractYouTubeVideoId(p + "youtu.be/" + v + r) == v
  {
    var s := p + "youtu.be/" + v + r;
    var n := |p|;
    assert s[n..n + 9] == "youtu.be/";
    assert s[n + 9..n + 20] == v;
    assert MatchAt(s, ShortMarker, n) by {
      assert OccursAt(s, ShortMarker[0], n);
    }
    forall j | 0 <= j < n
      ensures !MatchAt(s, ShortMarker, j)
    {
      assert s[j] == p[j];
      NotAtOtherHead(s, ShortMarker[0], j);
    }
    ExtractFindsLeftmostMatch(s);
    var id := ExtractYouTubeVideoId(s);
    var i :| MatchAt(s, ShortMarker, i) && (forall j :: 0 <= j < i ==> !MatchAt(s, ShortMarker, j))
      && id == s[i + 9..i + 20];
    assert i == n;
  }

  /**
   * A watch URL yields the 11 characters after "?v=" when the text before
   * holds "youtube.com" and no '?' or '&', and no youtu.be/ link occurs.
   */
  lemma WatchLinkId(p: string, v: string, r: string)
    requires Contains(p, "youtube.com")
    requires forall i :: 0 <= i < |p| ==> p[i] != '?' && p[i] != '&'
    requires |v| == 11 && forall m :: 0 <= m < 11 ==> IsIdChar(v[m])
    requires !Contains(p + "?v=" + v + r, "youtu.be/")
    ensures ExtractYouTubeVideoId(p + "?v=" + v + r) == v
  {
    var s := p + "?v=" + v + r;
    var n := |p|;
    ShortMatchContains(s);
    var k :| 0 <= k <= |p| && OccursAt(p, "youtube.com", k);
    assert s[k..k + 11] == p[k..k + 11];
    assert OccursAt(s, "youtube.com", k);
    assert Contains(s, "youtube.com");
    assert s[n..n + 3] == "?v=";
    assert s[n + 3..n + 14] == v;
    assert MatchAt(s, WatchMarker, n) by {
      assert OccursAt(s, WatchMarker[0], n);
    }
    forall j | 0 <= j < n
      ensures !MatchAt(s, WatchMarker, j)
    {
      assert s[j] == p[j];
      NotAtOtherHead(s, WatchMarker[0], j);
      NotAtOtherHead(s, WatchMarker[1], j);
    }
    ExtractFindsLeftmostMatch(s);
    var id := ExtractYouTubeVideoId(s);
    var i :| MatchAt(s, WatchMarker, i) && (forall j :: 0 <= j < i ==> !MatchAt(s, WatchMarker, j))
      && id == s[i + 3..i + 14];
    assert i == n;
  }

  /**
   * The youtube.com patterns are tried only when "youtube.com" occurs in
   * the exact case given: without it, and without a youtu.be/ match, the
   * result is "".
   */
  lemma ExtractNeedsLowerCaseHost(url: string)
    requires !Contains(url, "youtube.com") && FindId(url, ShortMarker, 0).None?
    ensures ExtractYouTubeVideoId(url) == ""
  {
  }

  predicate NoUpper(p: string) { forall m :: 0 <= m < |p| ==> !('A' <= p[m] <= 'Z') }

  lemma HostsLowerCase()
    ensures NoUpper("youtube.com") && NoUpper("youtu.be")
  {
    var a := "youtube.com";
    var b := "youtu.be";
    assert a == ['y', 'o', 'u', 't', 'u', 'b', 'e', '.', 'c', 'o', 'm'];
    assert b == ['y', 'o', 'u', 't', 'u', '.', 'b', 'e'];
  }

  lemma LowerKeepsOccurrence(s: string, p: string, i: int)
    requires OccursAt(s, p, i)
    requires NoUpper(p)
    ensures OccursAt(ToLower(s), p, i)
  {
    assert forall m :: 0 <= m < |p| ==> ToLower(s)[i + m] == LowerAscii(s[i + m]) == p[m];
    assert ToLower(s)[i..i + |p|] == p;
  }

  /** A URL the extractor finds an ID in is always recognised as a YouTube URL. */
  lemma ExtractedIsYouTube(url: string)
    requires ExtractYouTubeVideoId(url) != ""
    ensures IsYouTubeUrl(url)
  {
    if Contains(url, "youtube.com") {
      var i :| 0 <= i <= |url| && OccursAt(url, "youtube.com", i);
      HostsLowerCase();
      LowerKeepsOccurrence(url, "youtube.com", i);
    } else {
      assert Contains(url, "youtu.be/");
      var i :| 0 <= i <= |url| && OccursAt(url, "youtu.be/", i);
      assert url[i..i + 8] == url[i..i + 9][..8] == "youtu.be";
      HostsLowerCase();
      LowerKeepsOccurrence(url, "youtu.be", i);
    }
  }

  lemma NoLowerY(s: string, p: string)
    requires |p| > 0 && p[0] == 'y'
    requires forall i :: 0 <= i < |s| ==> s[i] != 'y'
    ensures !Contains(s, p)
  {
    forall i | 0 <= i <= |s|
      ensures !OccursAt(s, p, i)
    {
      assert i + |p| <= |s| ==> s[i..i + |p|][0] == s[i];
    }
  }

  /**
   * Detection and extraction disagree on letter case: an upper-case short
   * link counts as YouTube, but no ID is extracted from it.
   */
  lemma UpperCaseShortLink(id: string)
    requires |id| == 11 && forall m :: 0 <= m < 11 ==> IsDigit(id[m])
    ensures IsYouTubeUrl("https://YOUTU.BE/" + id)
    ensures ExtractYouTubeVideoId("https://YOUTU.BE/" + id) == ""
  {
    var url := "https://YOUTU.BE/" + id;
    assert forall i :: 0 <= i < |url| ==> url[i] != 'y';
    NoLowerY(url, "youtube.com");
    NoLowerY(url, "youtu.be/");
    assert ToLower(url)[8..16] == "youtu.be";
    assert OccursAt(ToLower(url), "youtu.be", 8);
  }

  // ---------------------------------------------------------------------
  // validateSourceRequest
  // ---------------------------------------------------------------------

  datatype LocationSourceRequest = LocationSourceRequest(sourceType: string, sourceData: string)

  /** Every condition validateSourceRequest imposes. */
  predicate SourceRequestOk(req: LocationSourceRequest, allowEmptyImage: bool)
  {
    IsSourceType(req.sourceType) &&
    (req.sourceData == "" ==> req.sourceType == SourceTypeImage && allowEmptyImage) &&
    (req.sourceData != "" && req.sourceType == SourceTypeLink ==> IsValidUrl(req.sourceData)) &&
    (req.sourceData != "" && req.sourceType == SourceTypeImage ==> Utf8Length(req.sourceData) >= 100)
  }

  /**
   * validateSourceRequest: type present, type known, data present (an
   * empty image is accepted when allowEmptyImage, the update case), a
   * link is an http(s) URL, picture data is at least 100 bytes long.
   */
  function ValidateSourceRequest(req: LocationSourceRequest, allowEmptyImage: bool): (v: Verdict)
    ensures v.valid <==> SourceRequestOk(req, allowEmptyImage)
    ensures v.valid <==> v.message == ""
    ensures req.sourceType == "" ==> v == Verdict("source_type diperlukan", false)
    ensures IsSourceType(req.sourceType) && req.sourceData == "" && !v.valid ==>
      v.message == "source_data diperlukan"
  {
    if req.sourceType == "" then Verdict("source_type diperlukan", false)
    else if !IsSourceType(req.sourceType) then
      Verdict("source_type tidak valid. Pilihan: 'link' atau 'image'", false)
    else if req.sourceData == "" then
      if req.sourceType == SourceTypeImage && allowEmptyImage then Verdict("", true)
      else Verdict("source_data diperlukan", false)
    else if req.sourceType == SourceTypeLink && !IsValidUrl(req.sourceData) then
      Verdict("link harus berupa URL yang valid (http:// atau https://)", false)
    else if req.sourceType == SourceTypeImage && Utf8Length(req.sourceData) < 100 then
      Verdict("data gambar base64 tidak valid atau terlalu pendek", false)
    else Verdict("", true)
  }

  /**
   * Create (allowEmptyImage false) and update (true) differ only on an
   * image request without data.
   */
  lemma CreateAndUpdateValidation(req: LocationSourceRequest)
    ensures ValidateSourceRequest(req, true) != ValidateSourceRequest(req, false) <==>
      req.sourceType == SourceTypeImage && req.sourceData == ""
  {
  }

  // ---------------------------------------------------------------------
  // Access
  // ---------------------------------------------------------------------

  datatype SourceAction = CreateSource | UpdateSource | DeleteSource

  function ForbiddenMessage(action: SourceAction): string
  {
    match action
    case CreateSource => "tidak memiliki akses untuk menambah source ke lokasi ini"
    case UpdateSource => "tidak memiliki akses untuk mengubah source lokasi ini"
    case DeleteSource => "tidak memiliki akses untuk menghapus source lokasi ini"
  }

  /** Create, update and delete of a source: 404 for a missing location, 403 unless owner or superadmin. */
  function SourceWriteAccess(loc: Option<Location>, userId: string, role: string, action: SourceAction): (a: Access)
    ensures a == Allowed <==> loc.Some? && (loc.value.userId == userId || role == Superadmin)
    ensures loc.None? ==> a == Refused(404, "lokasi tidak ditemukan")
    ensures loc.Some? && a != Allowed ==> a == Refused(403, ForbiddenMessage(action))
  {
    if loc.None? then Refused(404, "lokasi tidak ditemukan")
    else if loc.value.userId != userId && role != Superadmin then Refused(403, ForbiddenMessage(action))
    else Allowed
  }

  /**
   * GetLocationSource: 404 for a missing location; a private location
   * needs superadmin or the same balai (500 when the user record cannot
   * be read, 403 otherwise); then 404 when no source is stored.
   */
  function SourceViewAccess(loc: Option<Location>, role: string, userBalai: Option<string>, hasSource: bool): (a: Access)
    ensures loc.None? ==> a == Refused(404, "lokasi tidak ditemukan")
    ensures a == Allowed ==> loc.Some? && hasSource
    ensures loc.Some? && userBalai.Some? && hasSource ==>
      (a == Allowed <==> loc.value.publik || role == Superadmin || loc.value.balai == userBalai.value)
    ensures loc.Some? && !loc.value.publik && role != Superadmin && userBalai.None? ==>
      a == Refused(500, "gagal mengambil data user")
  {
    if loc.None? then Refused(404, "lokasi tidak ditemukan")
    else if !loc.value.publik && role != Superadmin && userBalai.None? then
      Refused(500, "gagal mengambil data user")
    else if !loc.value.publik && role != Superadmin && loc.value.balai != userBalai.value then
      Refused(403, "tidak memiliki akses untuk melihat source ini")
    else if !hasSource then Refused(404, "source tidak ditemukan untuk lokasi ini")
    else Allowed
  }

  /** Writing a source is allowed exactly to those who may change the location itself. */
  lemma SourceWriteMatchesLocationUpdate(loc: Location, userId: string, role: string, action: SourceAction,
                                         req: LocationRequest, isValidBalai: string -> bool)
    requires AllFieldsValid(req, isValidBalai)
    ensures SourceWriteAccess(Some(loc), userId, role, action) == Allowed <==>
      UpdateAccess(Some(loc), userId, role, req, isValidBalai) == Allowed
  {
  }

  /** Whoever may view a location may view its source; a public location's source is open to all. */
  lemma SourceViewExtendsLocationView(loc: Location, role: string, userBalai: Option<string>)
    ensures ViewAccess(Some(loc), role, userBalai) == Allowed ==> SourceViewAccess(Some(loc), role, userBalai, true) == Allowed
    ensures loc.publik ==> SourceViewAccess(Some(loc), role, userBalai, true) == Allowed
  {
  }

  // ---------------------------------------------------------------------
  // GetPlayableURL
  // ---------------------------------------------------------------------

  const EmbedPrefix := "https://www.youtube.com/embed/"

  /** The JSON body of GetPlayableURL; absent keys are None. */
  datatype PlayableResponse =
    | SourceNotFound
    | Playable(locationId: string, sourceType: string, kind: string, url: string,
               embedUrl: Option<string>, videoId: Option<string>, error: Option<string>,
               isStreaming: Option<bool>, message: Option<string>)

  /** A playable response without the streaming keys. */
  function Respond(locationId: string, s: LocationSource, kind: string, embedUrl: Option<string>,
                   videoId: Option<string>, error: Option<string>): PlayableResponse
  {
    Playable(locationId, s.sourceType, kind, s.sourceData, embedUrl, videoId, error, None, None)
  }

  /** The YouTube and fallback branch, shared by both GetPlayableURL handlers. */
  function LinkResponse(locationId: string, s: LocationSource): PlayableResponse
  {
    if IsYouTubeUrl(s.sourceData) then
      var id := ExtractYouTubeVideoId(s.sourceData);
      if id != "" then Respond(locationId, s, "youtube", Some(EmbedPrefix + id), Some(id), None)
      else Respond(locationId, s, "youtube", None, None, Some("tidak dapat mengekstrak video ID"))
    else Respond(locationId, s, "direct", None, None, None)
  }

  /**
   * GetPlayableURL of location_source.controller.go: an image is served
   * as its path; a YouTube link gets its embed URL (or an error when no ID
   * can be found); any other link is "direct".
   */
  function PlayableUrl(locationId: string, source: Option<LocationSource>): (r: PlayableResponse)
    ensures source.None? <==> r == SourceNotFound
    ensures r.Playable? ==> r.locationId == locationId && r.sourceType == source.value.sourceType
    ensures r.Playable? ==> r.url == source.value.sourceData && r.isStreaming.None? && r.message.None?
    ensures r.Playable? ==> (r.kind == "image" <==> source.value.sourceType == SourceTypeImage)
    ensures r.Playable? && source.value.sourceType != SourceTypeImage ==>
      (r.kind == "youtube" <==> IsYouTubeUrl(source.value.sourceData)) &&
      (r.kind == "direct" <==> !IsYouTubeUrl(source.value.sourceData))
    ensures r.Playable? && r.kind == "youtube" ==>
      var id := ExtractYouTubeVideoId(source.value.sourceData);
      (r.embedUrl.Some? <==> id != "") && (r.error.Some? <==> id == "") &&
      (id != "" ==> r.embedUrl == Some(EmbedPrefix + id) && r.videoId == Some(id))
    ensures r.Playable? && r.kind != "youtube" ==> r.embedUrl.None? && r.videoId.None? && r.error.None?
  {
    if source.None? then SourceNotFound
    else if source.value.sourceType == SourceTypeImage then Respond(locationId, source.value, "image", None, None, None)
    else LinkResponse(locationId, source.value)
  }

  /** An embed URL is only ever built from a well-formed eleven-character ID. */
  lemma EmbedUrlShape(locationId: string, source: Option<LocationSource>)
    requires PlayableUrl(locationId, source).Playable? && PlayableUrl(locationId, source).embedUrl.Some?
    ensures var e := PlayableUrl(locationId, source).embedUrl.value;
      |e| == |EmbedPrefix| + 11 && e[..|EmbedPrefix|] == EmbedPrefix &&
      forall m :: |EmbedPrefix| <= m < |e| ==> IsIdChar(e[m])
  {
  }
}
