/** The mobile client's `App` component (app/App.js): its pure helpers, its recording,
    upload and playback handlers, and the conditions under which the footer shows
    each control. Recording, playback and HTTP calls are foreign: each handler takes
    their outcome as an input. */
module ClientApp {
  import opened Wrappers
  import opened Text
  import opened MediaRecords
  import MediaStore

  // ---------------------------------------------------------------------------
  // Pure helpers

  datatype MediaType = Audio | Video

  /** `getFileType`: a name ending in ".mp4" is a video, anything else audio. */
  function GetFileType(filename: string): (t: MediaType)
    ensures t == Video <==> EndsWith(filename, ".mp4")
  {
    if EndsWith(filename, ".mp4") then Video else Audio
  }

  /** Every name the server's listing keeps is played as audio. */
  lemma ListedNamesPlayAsAudio(name: string)
    requires MediaStore.IsMediaName(name)
    ensures GetFileType(name) == Audio
  {
    var n := |name|;
    assert name[n - 4..] == ".m4a";
    assert name[n - 2] == '4';
  }

  /** `formatDuration`: whole minutes, a colon, and the remaining seconds on two digits. */
  function FormatDuration(seconds: nat): (s: string)
    ensures |s| >= 4 && s[|s| - 3] == ':'
    ensures AllDigits(s[..|s| - 3], 10) && DigitsValue(s[..|s| - 3], 10) == seconds / 60
    ensures AllDigits(s[|s| - 2..], 10) && DigitsValue(s[|s| - 2..], 10) == seconds % 60
    ensures s[0] == '0' ==> seconds < 60 && |s| == 4
  {
    var mins := Decimal(seconds / 60);
    var secs := TwoDigits(seconds % 60);
    var s := mins + ":" + secs;
    assert s[..|s| - 3] == mins && s[|s| - 2..] == secs;
    s
  }

  /** `secs.toString().padStart(2, '0')` for a remainder below 60. */
  function TwoDigits(n: nat): (s: string)
    requires n < 60
    ensures |s| == 2 && AllDigits(s, 10) && DigitsValue(s, 10) == n
  {
    var d := Decimal(n);
    if n < 10 then
      var s := PadStart(d, 2, '0');
      assert s == ['0'] + d;
      assert s[..1] == ['0'];
      s
    else
      assert d == Decimal(n / 10) + [DecimalDigit(n % 10)];
      PadStart(d, 2, '0')
  }

  /** Reads an `m:ss` text back into seconds; the inverse of `FormatDuration`. */
  function ParseDuration(s: string): Option<nat> {
    ParsePieces(Split(s, ':'))
  }

  /** Exactly two pieces: minute digits, and two second digits below 60. */
  function ParsePieces(parts: seq<string>): Option<nat> {
    if |parts| == 2 && |parts[0]| >= 1 && AllDigits(parts[0], 10)
       && |parts[1]| == 2 && AllDigits(parts[1], 10) && DigitsValue(parts[1], 10) < 60
    then Some(60 * DigitsValue(parts[0], 10) + DigitsValue(parts[1], 10))
    else None
  }

  lemma DurationRoundTrip(seconds: nat)
    ensures ParseDuration(FormatDuration(seconds)) == Some(seconds)
  {
    var mins, secs := Decimal(seconds / 60), TwoDigits(seconds % 60);
    assert FormatDuration(seconds) == mins + [':'] + secs;
    ParseMinutesSeconds(mins, secs);
    MinutesAndSeconds(seconds);
  }

  lemma MinutesAndSeconds(n: nat)
    ensures 60 * (n / 60) + n % 60 == n
  {
  }

  /** Minute digits, a colon and two second digits below 60 parse to their total. */
  lemma ParseMinutesSeconds(mins: string, secs: string)
    requires |mins| >= 1 && AllDigits(mins, 10)
    requires |secs| == 2 && AllDigits(secs, 10) && DigitsValue(secs, 10) < 60
    ensures ParseDuration(mins + [':'] + secs) == Some(60 * DigitsValue(mins, 10) + DigitsValue(secs, 10))
  {
    SplitAtColon(mins, secs);
    ParseTwoPieces(mins, secs);
  }

  lemma ParseTwoPieces(mins: string, secs: string)
    requires |mins| >= 1 && AllDigits(mins, 10)
    requires |secs| == 2 && AllDigits(secs, 10) && DigitsValue(secs, 10) < 60
    ensures ParsePieces([mins, secs]) == Some(60 * DigitsValue(mins, 10) + DigitsValue(secs, 10))
  {
    var parts := [mins, secs];
    assert parts[0] == mins && parts[1] == secs;
  }

  lemma SplitAtColon(mins: string, secs: string)
    requires AllDigits(mins, 10) && AllDigits(secs, 10)
    ensures Split(mins + [':'] + secs, ':') == [mins, secs]
  {
    var parts := [mins, secs];
    assert Join(parts, ':') == mins + [':'] + secs by {
      assert parts[1..] == [secs];
    }
    DigitsExcludeColon(mins);
    DigitsExcludeColon(secs);
    SplitJoin(parts, ':');
  }

  lemma DigitsExcludeColon(d: string)
    requires AllDigits(d, 10)
    ensures ':' !in d
  {
  }

  // ---------------------------------------------------------------------------
  // Component state

  /** Alert titles the handlers raise. */
  const RecordingError: string := "Recording Error"
  const StopError: string := "Error"
  const NoRecording: string := "No Recording"
  const NoVideo: string := "No Video"
  const UploadError: string := "Upload Error"
  const UploadSuccess: string := "Success"
  const FetchError: string := "Fetch Error"
  const PlaybackError: string := "Playback Error"

  /** JavaScript truthiness of a string-or-null: null and "" are false. */
  predicate Truthy(s: Option<string>) {
    s.Some? && s.value != ""
  }

  /** One capture (the audio recording or the video): whether it is in progress, the
      URI of the finished clip, and its duration in seconds. */
  datatype Capture = Capture(active: bool, uri: Option<string>, duration: nat)

  /** What is selected for playback, whether it runs, and whether `soundRef` holds a sound. */
  datatype Playback = Playback(url: Option<string>, isPlaying: bool, fileType: Option<MediaType>, soundHeld: bool)

  /** Every piece of component state the handlers read or write. `recordingHeld` says
      whether an audio recording handle is held, and `alerts` lists the titles of the
      alerts shown so far. */
  datatype AppState = AppState(
    recordingHeld: bool,
    audio: Capture,
    video: Capture,
    mediaFiles: seq<MediaRecord>,
    loading: bool,
    uploadLoading: bool,
    playback: Playback,
    alerts: seq<string>)

  /** What the handlers keep true: an audio recording is in progress exactly while its
      handle is held; the playing URL and type are set and cleared together; something
      is selected whenever playback runs, and running audio has a sound in `soundRef`. */
  predicate Consistent(s: AppState) {
    && s.audio.active == s.recordingHeld
    && (s.playback.url.None? <==> s.playback.fileType.None?)
    && (s.playback.isPlaying ==> s.playback.url.Some?)
    && (s.playback.isPlaying && s.playback.fileType == Some(Audio) ==> s.playback.soundHeld)
  }

  function Alerted(s: AppState, title: string): AppState {
    s.(alerts := s.alerts + [title])
  }

  /** The capture a handler for the given media type works on. */
  function ClipOf(s: AppState, kind: MediaType): Capture {
    if kind == Audio then s.audio else s.video
  }

  function WithClip(s: AppState, kind: MediaType, c: Capture): AppState {
    if kind == Audio then s.(audio := c) else s.(video := c)
  }

  // Footer and list rendering conditions

  predicate ShowsRecordButton(s: AppState) {
    !s.audio.active && !Truthy(s.audio.uri) && !s.video.active && !Truthy(s.video.uri)
  }

  predicate ShowsStopAudioButton(s: AppState) {
    s.audio.active
  }

  /** The "New" and "Upload" pair for a recorded audio clip. */
  predicate ShowsAudioActions(s: AppState) {
    Truthy(s.audio.uri) && !s.audio.active && !s.video.active
  }

  predicate ShowsTakeVideoButton(s: AppState) {
    !s.audio.active && !Truthy(s.audio.uri) && !s.video.active && !Truthy(s.video.uri)
  }

  predicate ShowsStopVideoButton(s: AppState) {
    s.video.active
  }

  /** The "New" and "Upload" pair for a recorded video. */
  predicate ShowsVideoActions(s: AppState) {
    Truthy(s.video.uri) && !s.video.active && !s.audio.active
  }

  /** A list item is highlighted, with a pause icon, when it is the one playing. */
  predicate IsCurrentlyPlaying(s: AppState, itemUrl: string) {
    s.playback.url == Some(itemUrl) && s.playback.isPlaying
  }

  /** The video player overlay is mounted, and with it `videoRef`. */
  predicate ShowsVideoPlayer(s: AppState) {
    s.playback.fileType == Some(Video) && Truthy(s.playback.url)
  }

  /** The footer always offers some action. */
  lemma FooterNeverEmpty(s: AppState)
    ensures || ShowsRecordButton(s) || ShowsStopAudioButton(s) || ShowsAudioActions(s)
            || ShowsStopVideoButton(s) || ShowsVideoActions(s)
  {
  }

  /** At most one of the three audio controls is shown, and Record comes with Take Video. */
  lemma AudioControlsExclusive(s: AppState)
    ensures !(ShowsRecordButton(s) && ShowsStopAudioButton(s))
    ensures !(ShowsRecordButton(s) && ShowsAudioActions(s))
    ensures !(ShowsStopAudioButton(s) && ShowsAudioActions(s))
    ensures ShowsRecordButton(s) == ShowsTakeVideoButton(s)
  {
  }

  // ---------------------------------------------------------------------------
  // Handlers as state transitions

  function InitialState(): (s: AppState)
    ensures Consistent(s) && ShowsRecordButton(s) && !s.playback.isPlaying
  {
    AppState(false, Capture(false, None, 0), Capture(false, None, 0), [], false, false,
             Playback(None, false, None, false), [])
  }

  /** `handleStartRecording`. */
  function StartRecordingStep(s: AppState, created: bool): (t: AppState)
    ensures Consistent(s) ==> Consistent(t)
  {
    if created then s.(recordingHeld := true, audio := s.audio.(active := true, duration := 0))
    else Alerted(s, RecordingError)
  }

  /** `handleStopRecording`; without a handle the call throws. */
  function StopRecordingStep(s: AppState, stopped: bool, uri: Option<string>): (t: AppState)
    ensures Consistent(s) ==> Consistent(t)
  {
    if s.recordingHeld && stopped then s.(recordingHeld := false, audio := s.audio.(active := false, uri := uri))
    else Alerted(s, StopError)
  }

  /** The "New" button under a recorded clip or video. */
  function DiscardStep(s: AppState, kind: MediaType): (t: AppState)
    ensures Consistent(s) ==> Consistent(t)
  {
    WithClip(s, kind, ClipOf(s, kind).(uri := None, duration := 0))
  }

  /** `fetchMediaFiles`. */
  function FetchStep(s: AppState, fetched: Option<seq<MediaRecord>>): (t: AppState)
    ensures Consistent(s) ==> Consistent(t)
  {
    match fetched
    case Some(files) => s.(mediaFiles := files, loading := false)
    case None => Alerted(s, FetchError).(loading := false)
  }

  /** What axios makes of the server's answer: a 2xx body, or a thrown error. */
  datatype HttpReply = RequestFailed | Answered(success: bool)

  function ReplyOf(r: MediaStore.UploadResponse): (h: HttpReply)
    ensures h.Answered? <==> r.Uploaded?
    ensures h.Answered? ==> h.success == r.body.success
  {
    match r
    case Uploaded(body) => Answered(body.success)
    case _ => RequestFailed
  }

  /** The client sends its clip under the form field "media"; against a server that
      accepts only "audio" the request always fails. */
  lemma ClientUploadsAreRejected(size: nat, now: MediaStore.EpochMs, baseUrl: string)
    ensures ReplyOf(MediaStore.Upload("audio", [MediaStore.FilePart("media", size)], now, baseUrl)) == RequestFailed
  {
    MediaStore.MismatchedFieldNeverUploads("audio", "media", size, now, baseUrl);
  }

  /** The alert an upload handler raises when it has no clip. */
  function MissingClipAlert(kind: MediaType): string {
    if kind == Audio then NoRecording else NoVideo
  }

  /** `handleUploadAudio` (kind Audio) and `handleUploadVideo` (kind Video). */
  function UploadStep(s: AppState, kind: MediaType, reply: HttpReply, fetched: Option<seq<MediaRecord>>): (t: AppState)
    ensures Consistent(s) ==> Consistent(t)
  {
    var clip := ClipOf(s, kind);
    if !Truthy(clip.uri) then Alerted(s, MissingClipAlert(kind))
    else match reply
      case RequestFailed => Alerted(s, UploadError).(uploadLoading := false)
      case Answered(ok) =>
        if ok then
          var cleared := WithClip(Alerted(s, UploadSuccess), kind, clip.(uri := None, duration := 0));
          FetchStep(cleared, fetched).(uploadLoading := false)
        else s.(uploadLoading := false)
  }

  /** Whether each awaited playback call of one press succeeds. */
  datatype SdkOutcome = SdkOutcome(pauseOk: bool, stopOk: bool, createOk: bool, playOk: bool)

  /** Pressing the item that plays calls `pauseAsync` when there is a player for its type. */
  predicate PauseCalled(s: AppState, fileType: MediaType) {
    (fileType == Audio && s.playback.soundHeld) || (fileType == Video && ShowsVideoPlayer(s))
  }

  /** Pressing another item while one plays stops the one that plays, if it has a player. */
  predicate StopCalled(s: AppState, fileUrl: string) {
    && s.playback.url != Some(fileUrl) && s.playback.isPlaying
    && ((s.playback.fileType == Some(Audio) && s.playback.soundHeld)
        || (s.playback.fileType == Some(Video) && ShowsVideoPlayer(s)))
  }

  /** `playMedia`: pressing the item that plays pauses it; any other press stops what
      plays and starts the item. A failed call raises an alert. */
  function PlayMediaStep(s: AppState, fileUrl: string, fileType: MediaType, sdk: SdkOutcome): (t: AppState)
    ensures Consistent(s) ==> Consistent(t)
  {
    var p := s.playback;
    if p.url == Some(fileUrl) && p.isPlaying then
      if PauseCalled(s, fileType) && !sdk.pauseOk then Alerted(s, PlaybackError)
      else s.(playback := p.(isPlaying := false))
    else if StopCalled(s, fileUrl) && !sdk.stopOk then Alerted(s, PlaybackError)
    else if fileType == Audio then
      if !sdk.createOk then Alerted(s, PlaybackError)
      else s.(playback := Playback(Some(fileUrl), true, Some(Audio), true))
    else
      var t := s.(playback := p.(url := Some(fileUrl), isPlaying := true, fileType := Some(Video)));
      if ShowsVideoPlayer(s) && !sdk.playOk then Alerted(t, PlaybackError) else t
  }

  /** `didJustFinish` from the sound or the video player, and the player's close button. */
  function StopPlaybackStep(s: AppState): (t: AppState)
    ensures Consistent(s) ==> Consistent(t)
  {
    s.(playback := s.playback.(url := None, isPlaying := false, fileType := None))
  }

  // ---------------------------------------------------------------------------
  // Properties of the transitions

  /** A recording starts with its duration at zero, swapping Record for Stop; when the
      recorder cannot start only an alert is raised. */
  lemma StartedRecordingShowsStop(s: AppState, created: bool)
    requires ShowsRecordButton(s)
    ensures var t := StartRecordingStep(s, created);
      && (created ==> ShowsStopAudioButton(t) && !ShowsRecordButton(t) && !ShowsAudioActions(t)
                      && t.audio.duration == 0 && t.alerts == s.alerts)
      && (!created ==> t == Alerted(s, RecordingError) && ShowsRecordButton(t))
  {
  }

  /** Stopping keeps the clip's URI and offers to upload it; without a handle, or when
      the recorder fails, only an alert is raised. */
  lemma StoppedRecordingOffersUpload(s: AppState, stopped: bool, uri: string)
    requires !s.video.active && uri != ""
    ensures var t := StopRecordingStep(s, stopped, Some(uri));
      && (s.recordingHeld && stopped ==>
            t.audio.uri == Some(uri) && !t.recordingHeld && ShowsAudioActions(t) && !ShowsStopAudioButton(t)
            && !ShowsRecordButton(t))
      && (!(s.recordingHeld && stopped) ==> t == Alerted(s, StopError))
  {
  }

  /** "New" drops the clip, and with no other clip the footer offers Record again. */
  lemma DiscardReturnsToRecord(s: AppState, kind: MediaType)
    requires !s.audio.active && !s.video.active && !Truthy(ClipOf(s, if kind == Audio then Video else Audio).uri)
    ensures var t := DiscardStep(s, kind);
      ClipOf(t, kind) == ClipOf(s, kind).(uri := None, duration := 0) && ShowsRecordButton(t)
  {
  }

  /** A fetch ends without its spinner; a fetched list replaces the shown one, and a
      failed fetch keeps the old list and raises an alert. */
  lemma FetchOutcome(s: AppState, fetched: Option<seq<MediaRecord>>)
    ensures var t := FetchStep(s, fetched);
      && !t.loading
      && (fetched.Some? ==> t.mediaFiles == fetched.value && t.alerts == s.alerts)
      && (fetched.None? ==> t.mediaFiles == s.mediaFiles && t.alerts == s.alerts + [FetchError])
  {
  }

  /** Without a clip an upload raises an alert and changes nothing else. */
  lemma UploadWithoutClipOnlyAlerts(s: AppState, kind: MediaType, reply: HttpReply, fetched: Option<seq<MediaRecord>>)
    requires !Truthy(ClipOf(s, kind).uri)
    ensures UploadStep(s, kind, reply, fetched) == Alerted(s, MissingClipAlert(kind))
  {
  }

  /** A successful upload clears the clip and its duration, reports success and shows
      the refreshed list; with no other clip the footer offers Record again. */
  lemma UploadSuccessClearsClip(s: AppState, kind: MediaType, files: seq<MediaRecord>)
    requires Truthy(ClipOf(s, kind).uri)
    ensures var t := UploadStep(s, kind, Answered(true), Some(files));
      && ClipOf(t, kind) == ClipOf(s, kind).(uri := None, duration := 0)
      && t.mediaFiles == files && t.alerts == s.alerts + [UploadSuccess]
      && !t.loading && !t.uploadLoading
      && (!s.audio.active && !s.video.active && !Truthy(ClipOf(s, if kind == Audio then Video else Audio).uri) ==>
            ShowsRecordButton(t))
  {
  }

  /** A failed or refused upload keeps the clip, so it can be sent again. */
  lemma FailedUploadKeepsClip(s: AppState, kind: MediaType, reply: HttpReply, fetched: Option<seq<MediaRecord>>)
    requires Truthy(ClipOf(s, kind).uri) && reply != Answered(true)
    ensures var t := UploadStep(s, kind, reply, fetched);
      && ClipOf(t, kind) == ClipOf(s, kind) && t.mediaFiles == s.mediaFiles && !t.uploadLoading
      && t.alerts == (if reply == RequestFailed then s.alerts + [UploadError] else s.alerts)
  {
  }

  /** An upload touches neither the other capture nor playback. */
  lemma UploadLeavesOtherState(s: AppState, kind: MediaType, reply: HttpReply, fetched: Option<seq<MediaRecord>>)
    ensures var t := UploadStep(s, kind, reply, fetched);
      && ClipOf(t, if kind == Audio then Video else Audio) == ClipOf(s, if kind == Audio then Video else Audio)
      && t.playback == s.playback && t.recordingHeld == s.recordingHeld
  {
    if kind == Audio {
      assert ClipOf(UploadStep(s, kind, reply, fetched), Video) == s.video;
    } else {
      assert ClipOf(UploadStep(s, kind, reply, fetched), Audio) == s.audio;
    }
  }

  /** Pressing the item that plays pauses it and keeps it selected. */
  lemma PressingPlayingItemPauses(s: AppState, fileUrl: string, fileType: MediaType, sdk: SdkOutcome)
    requires IsCurrentlyPlaying(s, fileUrl)
    requires PauseCalled(s, fileType) ==> sdk.pauseOk
    ensures var t := PlayMediaStep(s, fileUrl, fileType, sdk);
      && !t.playback.isPlaying && !IsCurrentlyPlaying(t, fileUrl)
      && t.playback.url == s.playback.url && t.playback.fileType == s.playback.fileType
      && t.alerts == s.alerts
  {
  }

  /** Once playback of an item starts, that item and no other is shown as playing. */
  lemma StartedItemIsPlaying(s: AppState, fileUrl: string, fileType: MediaType, sdk: SdkOutcome)
    requires !IsCurrentlyPlaying(s, fileUrl)
    requires StopCalled(s, fileUrl) ==> sdk.stopOk
    requires fileType == Audio ==> sdk.createOk
    ensures var t := PlayMediaStep(s, fileUrl, fileType, sdk);
      && t.playback.url == Some(fileUrl) && t.playback.fileType == Some(fileType)
      && IsCurrentlyPlaying(t, fileUrl)
      && forall other :: other != fileUrl ==> !IsCurrentlyPlaying(t, other)
  {
  }

  /** While Stop shows, the recorder handle is held, so a stop the recorder completes
      never takes the error path. */
  lemma VisibleStopCompletes(s: AppState, stopped: bool, uri: Option<string>)
    requires Consistent(s) && ShowsStopAudioButton(s) && stopped
    ensures var t := StopRecordingStep(s, stopped, uri);
      t.alerts == s.alerts && !t.recordingHeld && !t.audio.active && t.audio.uri == uri
  {
  }

  /** A press whose pause, stop or load fails changes nothing but the alerts. */
  lemma FailedPressOnlyAlerts(s: AppState, fileUrl: string, fileType: MediaType, sdk: SdkOutcome)
    requires || (IsCurrentlyPlaying(s, fileUrl) && PauseCalled(s, fileType) && !sdk.pauseOk)
             || (!IsCurrentlyPlaying(s, fileUrl) && StopCalled(s, fileUrl) && !sdk.stopOk)
             || (!IsCurrentlyPlaying(s, fileUrl) && fileType == Audio && !sdk.createOk)
    ensures PlayMediaStep(s, fileUrl, fileType, sdk) == Alerted(s, PlaybackError)
  {
  }

  /** Playback touches neither the captures nor the list. */
  lemma PlayMediaLeavesOtherState(s: AppState, fileUrl: string, fileType: MediaType, sdk: SdkOutcome)
    ensures var t := PlayMediaStep(s, fileUrl, fileType, sdk);
      && t.audio == s.audio && t.video == s.video && t.recordingHeld == s.recordingHeld
      && t.mediaFiles == s.mediaFiles && t.loading == s.loading && t.uploadLoading == s.uploadLoading
  {
  }

  /** After playback stops nothing is shown as playing and the player is gone. */
  lemma StoppedPlaybackShowsNothing(s: AppState, itemUrl: string)
    ensures var t := StopPlaybackStep(s);
      && !t.playback.isPlaying && !IsCurrentlyPlaying(t, itemUrl) && !ShowsVideoPlayer(t)
      && t.playback.url == None && t.playback.fileType == None
  {
  }

  // ---------------------------------------------------------------------------
  // The component

  /** The component, one field per piece of state the modelled handlers read or write. */
  class App {
    var recording: bool
    var isRecording: bool
    var recordedAudioUri: Option<string>
    var recordingDuration: nat
    var isVideoRecording: bool
    var recordedVideoUri: Option<string>
    var videoDuration: nat
    var mediaFiles: seq<MediaRecord>
    var loading: bool
    var uploadLoading: bool
    var playingFileUrl: Option<string>
    var isPlaying: bool
    var playingFileType: Option<MediaType>
    var soundHeld: bool
    var alerts: seq<string>

    function State(): AppState
      reads this
    {
      AppState(recording,
               Capture(isRecording, recordedAudioUri, recordingDuration),
               Capture(isVideoRecording, recordedVideoUri, videoDuration),
               mediaFiles, loading, uploadLoading,
               Playback(playingFileUrl, isPlaying, playingFileType, soundHeld),
               alerts)
    }

    ghost predicate Valid()
      reads this
    {
      Consistent(State())
    }

    /** The `useState` initial values. */
    constructor ()
      ensures Valid() && State() == InitialState()
    {
      recording, isRecording, recordedAudioUri, recordingDuration := false, false, None, 0;
      isVideoRecording, recordedVideoUri, videoDuration := false, None, 0;
      mediaFiles, loading, uploadLoading := [], false, false;
      playingFileUrl, isPlaying, playingFileType, soundHeld := None, false, None, false;
      alerts := [];
    }

    method HandleStartRecording(created: bool)
      requires Valid()
      modifies this
      ensures Valid() && State() == StartRecordingStep(old(State()), created)
    {
      if created {
        recording := true;
        isRecording := true;
        recordingDuration := 0;
      } else {
        alerts := alerts + [RecordingError];
      }
    }

    method HandleStopRecording(stopped: bool, uri: Option<string>)
      requires Valid()
      modifies this
      ensures Valid() && State() == StopRecordingStep(old(State()), stopped, uri)
    {
      if !recording || !stopped {
        alerts := alerts + [StopError];
        return;
      }
      recordedAudioUri := uri;
      recording := false;
      isRecording := false;
    }

    method DiscardAudio()
      requires Valid()
      modifies this
      ensures Valid() && State() == DiscardStep(old(State()), Audio)
    {
      recordedAudioUri := None;
      recordingDuration := 0;
    }

    method DiscardVideo()
      requires Valid()
      modifies this
      ensures Valid() && State() == DiscardStep(old(State()), Video)
    {
      recordedVideoUri := None;
      videoDuration := 0;
    }

    method FetchMediaFiles(fetched: Option<seq<MediaRecord>>)
      requires Valid()
      modifies this
      ensures Valid() && State() == FetchStep(old(State()), fetched)
    {
      loading := true;
      if fetched.Some? {
        mediaFiles := fetched.value;
      } else {
        alerts := alerts + [FetchError];
      }
      loading := false;
    }

    method HandleUploadAudio(reply: HttpReply, fetched: Option<seq<MediaRecord>>)
      requires Valid()
      modifies this
      ensures Valid() && State() == UploadStep(old(State()), Audio, reply, fetched)
    {
      if !Truthy(recordedAudioUri) {
        alerts := alerts + [NoRecording];
        return;
      }
      uploadLoading := true;
      if reply.RequestFailed? {
        alerts := alerts + [UploadError];
      } else if reply.success {
        alerts := alerts + [UploadSuccess];
        recordedAudioUri := None;
        recordingDuration := 0;
        FetchMediaFiles(fetched);
      }
      uploadLoading := false;
    }

    method HandleUploadVideo(reply: HttpReply, fetched: Option<seq<MediaRecord>>)
      requires Valid()
      modifies this
      ensures Valid() && State() == UploadStep(old(State()), Video, reply, fetched)
    {
      if !Truthy(recordedVideoUri) {
        alerts := alerts + [NoVideo];
        return;
      }
      uploadLoading := true;
      if reply.RequestFailed? {
        alerts := alerts + [UploadError];
      } else if reply.success {
        alerts := alerts + [UploadSuccess];
        recordedVideoUri := None;
        videoDuration := 0;
        FetchMediaFiles(fetched);
      }
      uploadLoading := false;
    }

    method PlayMedia(fileUrl: string, fileType: MediaType, sdk: SdkOutcome)
      requires Valid()
      modifies this
      ensures Valid() && State() == PlayMediaStep(old(State()), fileUrl, fileType, sdk)
    {
      if playingFileUrl == Some(fileUrl) && isPlaying {
        if PauseCalled(State(), fileType) && !sdk.pauseOk {
          alerts := alerts + [PlaybackError];
          return;
        }
        isPlaying := false;
        return;
      }
      if StopCalled(State(), fileUrl) && !sdk.stopOk {
        alerts := alerts + [PlaybackError];
        return;
      }
      if fileType == Audio {
        if !sdk.createOk {
          alerts := alerts + [PlaybackError];
          return;
        }
        soundHeld := true;
        playingFileUrl := Some(fileUrl);
        playingFileType := Some(Audio);
        isPlaying := true;
      } else {
        var playerMounted := ShowsVideoPlayer(State());
        playingFileUrl := Some(fileUrl);
        playingFileType := Some(Video);
        isPlaying := true;
        if playerMounted && !sdk.playOk {
          alerts := alerts + [PlaybackError];
        }
      }
    }

    /** The `didJustFinish` status callbacks of the sound and of the video player. */
    method OnPlaybackFinished()
      requires Valid()
      modifies this
      ensures Valid() && State() == StopPlaybackStep(old(State()))
    {
      isPlaying := false;
      playingFileUrl := None;
      playingFileType := None;
    }

    /** The close button of the video player. */
    method CloseVideoPlayer()
      requires Valid()
      modifies this
      ensures Valid() && State() == StopPlaybackStep(old(State()))
    {
      playingFileUrl := None;
      playingFileType := None;
      isPlaying := false;
    }
  }
}
