// backend/controllers/rtsp_stream.controller.go: the guards in front of
// the RTSP-to-HLS conversion, and the GetPlayableURL variant that knows
// about RTSP streams. The stream service itself is not part of this
// model; its answer for a location is the parameter `stream`.

module RtspStreamController {
  import opened Common
  import opened LocationSourceModel
  import opened LocationController
  import opened LocationSourceController

  /** What the stream service reports for a location. */
  datatype StreamInfo = StreamInfo(isRunning: bool, hlsUrl: string)

  /** strings.HasPrefix(strings.ToLower(url), "rtsp://"). */
  function IsRtspUrl(url: string): (ok: bool)
    ensures ok ==> |url| >= 7
    ensures HasPrefix(url, "rtsp://") ==> ok
  {
    RtspPrefixSurvivesLower(url);
    HasPrefix(ToLower(url), "rtsp://")
  }

  lemma RtspPrefixSurvivesLower(url: string)
    ensures HasPrefix(url, "rtsp://") ==> HasPrefix(ToLower(url), "rtsp://")
  {
    var p := "rtsp://";
    assert ToLower(p) == p by { assert p == ['r', 't', 's', 'p', ':', '/', '/']; }
    if HasPrefix(url, p) {
      LowerPrefix(url, p);
    }
  }

  /**
   * StartRTSPStream before the service call: 404 without a source, 400
   * for a picture source, 400 for a link that is not rtsp://.
   */
  function StartStreamAccess(source: Option<LocationSource>): (a: Access)
    ensures a == Allowed <==>
      source.Some? && source.value.sourceType == SourceTypeLink && IsRtspUrl(source.value.sourceData)
    ensures source.None? ==> a == Refused(404, "source tidak ditemukan untuk lokasi ini")
    ensures source.Some? && source.value.sourceType != SourceTypeLink ==>
      a == Refused(400, "source bukan tipe link (RTSP/YouTube)")
    ensures source.Some? && source.value.sourceType == SourceTypeLink && !IsRtspUrl(source.value.sourceData) ==>
      a == Refused(400, "source bukan URL RTSP. Untuk YouTube, gunakan embed langsung di frontend")
  {
    if source.None? then Refused(404, "source tidak ditemukan untuk lokasi ini")
    else if source.value.sourceType != SourceTypeLink then Refused(400, "source bukan tipe link (RTSP/YouTube)")
    else if !IsRtspUrl(source.value.sourceData) then
      Refused(400, "source bukan URL RTSP. Untuk YouTube, gunakan embed langsung di frontend")
    else Allowed
  }

  /**
   * StartRTSPStreamManual before the service call: an empty rtsp_url is
   * reported as missing, anything else not starting with rtsp:// as such.
   */
  function ManualStartAccess(rtspUrl: string): (a: Access)
    ensures a == Allowed <==> IsRtspUrl(rtspUrl)
    ensures rtspUrl == "" ==> a == Refused(400, "rtsp_url diperlukan")
    ensures rtspUrl != "" && !IsRtspUrl(rtspUrl) ==> a == Refused(400, "URL harus dimulai dengan rtsp://")
  {
    if rtspUrl == "" then Refused(400, "rtsp_url diperlukan")
    else if !IsRtspUrl(rtspUrl) then Refused(400, "URL harus dimulai dengan rtsp://")
    else Allowed
  }

  const NotStartedMessage := "Stream belum dimulai. Gunakan POST /streams/:location_id/start untuk memulai"

  /**
   * GetPlayableURL of rtsp_stream.controller.go: the response map is
   * filled key by key. rtsp:// links are checked before YouTube, and
   * become "hls" with the service's HLS URL exactly when a running stream
   * exists, "rtsp" with is_streaming false otherwise. Every other source
   * is answered as by the location-source handler.
   */
  method GetPlayableUrl(locationId: string, source: Option<LocationSource>, stream: Option<StreamInfo>)
    returns (r: PlayableResponse)
    ensures source.None? <==> r == SourceNotFound
    ensures source.Some? && (source.value.sourceType == SourceTypeImage || !IsRtspUrl(source.value.sourceData)) ==>
      r == PlayableUrl(locationId, source)
    ensures source.Some? && source.value.sourceType != SourceTypeImage && IsRtspUrl(source.value.sourceData) ==>
      r.Playable? && r.locationId == locationId && r.sourceType == source.value.sourceType &&
      r.embedUrl.None? && r.videoId.None? && r.error.None? &&
      (r.kind == "hls" <==> stream.Some? && stream.value.isRunning) &&
      (r.kind == "hls" ==> r.url == stream.value.hlsUrl && r.isStreaming == Some(true) && r.message.None?) &&
      (r.kind != "hls" ==> r.kind == "rtsp" && r.url == source.value.sourceData &&
                           r.isStreaming == Some(false) && r.message == Some(NotStartedMessage))
  {
    if source.None? {
      return SourceNotFound;
    }
    var s := source.value;
    r := Playable(locationId, s.sourceType, "", "", None, None, None, None, None);
    if s.sourceType == SourceTypeImage {
      r := r.(kind := "image");
      r := r.(url := s.sourceData);
      return;
    }
    if IsRtspUrl(s.sourceData) {
      if stream.Some? && stream.value.isRunning {
        r := r.(kind := "hls");
        r := r.(url := stream.value.hlsUrl);
        r := r.(isStreaming := Some(true));
      } else {
        r := r.(kind := "rtsp");
        r := r.(url := s.sourceData);
        r := r.(isStreaming := Some(false));
        r := r.(message := Some(NotStartedMessage));
      }
    } else if IsYouTubeUrl(s.sourceData) {
      var videoId := ExtractYouTubeVideoId(s.sourceData);
      if videoId != "" {
        r := r.(kind := "youtube");
        r := r.(url := s.sourceData);
        r := r.(embedUrl := Some(EmbedPrefix + videoId));
        r := r.(videoId := Some(videoId));
      } else {
        r := r.(kind := "youtube");
        r := r.(url := s.sourceData);
        r := r.(error := Some("tidak dapat mengekstrak video ID"));
      }
    } else {
      r := r.(kind := "direct");
      r := r.(url := s.sourceData);
    }
  }

  /**
   * An rtsp:// link that mentions youtube.com is a YouTube link to the
   * location-source handler but an RTSP stream to this one.
   */
  lemma RtspBeforeYouTube(rest: string)
    ensures IsRtspUrl("rtsp://youtube.com/" + rest)
    ensures IsYouTubeUrl("rtsp://youtube.com/" + rest)
  {
    var url := "rtsp://youtube.com/" + rest;
    assert ToLower(url)[..7] == "rtsp://";
    assert ToLower(url)[7..18] == "youtube.com";
    assert OccursAt(ToLower(url), "youtube.com", 7);
  }

  /** A source that passes the start guard is never classified as YouTube or direct. */
  lemma StartableIsRtsp(source: Option<LocationSource>)
    requires StartStreamAccess(source) == Allowed
    ensures source.Some? && source.value.sourceType != SourceTypeImage && IsRtspUrl(source.value.sourceData)
  {
  }
}
