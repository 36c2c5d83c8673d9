/** The state of the FartCaster component (src/App.js) and its event handlers. Each
    `useState` hook is a field; the two refs the handlers test are fields too:
    `hasRecorder` (`mediaRecorderRef.current` is set) and `intervalLive` (the
    recording timer started at src/App.js:97 has not been cleared). Each handler is a
    method that changes only the fields in its `modifies` clause. Randomness, the clock
    and the browser devices are parameters. */
module App {
  import opened Wrappers
  import opened Feed
  import opened Rewards
  import Text

  /** The two `alert` messages. */
  datatype Alert = MicrophoneDenied | NotAnAudioFile

  /** What `loadData` finds under the recordings key: nothing (or an empty string), a
      string `JSON.parse` throws on, or a parsed feed. */
  datatype StoredFeed = NoFeed | MalformedFeed | StoredClips(clips: seq<Clip>)

  /** The first file of an upload's file list: its declared media type and the duration
      its `loadedmetadata` event reports, or `None` when that event never fires (a file
      the browser cannot decode). */
  datatype PickedFile = PickedFile(mediaType: string, durationTenths: Option<nat>)

  class FartCaster {
    var isRecording: bool
    var recordings: seq<Clip>
    var userTokens: int
    /** The on-screen recording timer, in tenths of a second. */
    var recordingDuration: nat
    var showSuccess: bool
    var playingId: Option<int>
    var username: string
    var showUsernameInput: bool
    var isLoading: bool
    var hasRecorder: bool
    var intervalLive: bool

    /** The recorder exists whenever a recording is in progress, and the timer runs
        exactly while one is. */
    ghost predicate Valid()
      reads this
    {
      (isRecording ==> hasRecorder) && intervalLive == isRecording
    }

    /** The initial values of the hooks (src/App.js:5-13). */
    constructor ()
      ensures Valid()
      ensures !isRecording && recordings == [] && userTokens == 0 && recordingDuration == 0
      ensures !showSuccess && playingId == None && username == ""
      ensures showUsernameInput && isLoading && !hasRecorder && !intervalLive
    {
      isRecording := false;
      recordings := [];
      userTokens := 0;
      recordingDuration := 0;
      showSuccess := false;
      playingId := None;
      username := "";
      showUsernameInput := true;
      isLoading := true;
      hasRecorder := false;
      intervalLive := false;
    }

    /** `loadData`: each stored value that is present replaces its field; a stored
        username also hides the prompt. A read that fails, or a feed `JSON.parse`
        rejects, ends the `try` block early, so the values after it are not loaded.
        Loading always ends. */
    method LoadData(readOk: bool, feed: StoredFeed, tokens: Option<int>, name: Option<string>)
      modifies this`recordings, this`userTokens, this`username, this`showUsernameInput, this`isLoading
      ensures !isLoading
      ensures recordings == if readOk && feed.StoredClips? then feed.clips else old(recordings)
      ensures var reached := readOk && !feed.MalformedFeed?;
        && userTokens == (if reached && tokens.Some? then tokens.value else old(userTokens))
        && username == (if reached && name.Some? && name.value != "" then name.value else old(username))
        && showUsernameInput == (if reached && name.Some? && name.value != "" then false else old(showUsernameInput))
    {
      if readOk {
        if feed.StoredClips? {
          recordings := feed.clips;
        }
        if !feed.MalformedFeed? {
          if tokens.Some? {
            userTokens := tokens.value;
          }
          if name.Some? && name.value != "" {
            username := name.value;
            showUsernameInput := false;
          }
        }
      }
      isLoading := false;
    }

    /** The username field's `onChange` (src/App.js:203). */
    method EditUsername(name: string)
      modifies this`username
      ensures username == name
    {
      username := name;
    }

    /** `handleUsernameSubmit`: the prompt is hidden only when the trimmed name is not
        empty, that is, when the name is not all whitespace. */
    method HandleUsernameSubmit()
      modifies this`showUsernameInput
      ensures Text.IsBlank(username) ==> showUsernameInput == old(showUsernameInput)
      ensures !Text.IsBlank(username) ==> !showUsernameInput
    {
      Text.TrimEmptyIffBlank(username);
      if Text.Trim(username) != [] {
        showUsernameInput := false;
      }
    }

    /** The "Change Username" button: shows the prompt again with an empty name. The
        feed, the balance and the playing clip are not touched. */
    method ChangeUsername()
      modifies this`showUsernameInput, this`username
      ensures showUsernameInput && username == ""
    {
      showUsernameInput := true;
      username := "";
    }

    /** `startRecording`, offered only while no recording is in progress. When the
        microphone is granted a recorder exists, recording is on, the timer is reset
        to 0 and runs; otherwise the user is alerted and nothing changes. */
    method StartRecording(micGranted: bool) returns (alert: Option<Alert>)
      requires Valid() && !isRecording
      modifies this`hasRecorder, this`isRecording, this`recordingDuration, this`intervalLive
      ensures Valid()
      ensures micGranted ==> alert == None && hasRecorder && isRecording && recordingDuration == 0
      ensures !micGranted ==> alert == Some(MicrophoneDenied) && unchanged(this)
    {
      if micGranted {
        hasRecorder := true;
        isRecording := true;
        recordingDuration := 0;
        intervalLive := true;
        alert := None;
      } else {
        alert := Some(MicrophoneDenied);
      }
    }

    /** One firing of the recording timer: the counter advances by a tenth. */
    method Tick()
      requires Valid() && intervalLive
      modifies this`recordingDuration
      ensures recordingDuration == old(recordingDuration) + 1
    {
      recordingDuration := recordingDuration + 1;
    }

    /** `stopRecording`: does nothing unless a recorder exists and a recording is in
        progress; then it stops the recorder (reported in `stopped`), clears the flag
        and the timer. Afterwards no recording is in progress. */
    method StopRecording() returns (stopped: bool)
      requires Valid()
      modifies this`isRecording, this`intervalLive
      ensures Valid() && !isRecording && !intervalLive
      ensures stopped == old(hasRecorder && isRecording)
    {
      stopped := hasRecorder && isRecording;
      if stopped {
        isRecording := false;
        intervalLive := false;
      }
    }

    /** `saveRecording`: the new record (current username, no plays) goes first, the
        feed is cut to twenty, and the balance rises by exactly the tokens it earned. */
    method SaveRecording(audioUrl: string, durationTenths: nat, id: int, draw: nat,
                         rating: string, timestamp: string)
      requires draw <= MaxDraw
      modifies this`recordings, this`userTokens, this`showSuccess
      ensures var earned := EarnedTokens(durationTenths, draw);
        && recordings == Prepend(Clip(id, username, audioUrl, durationTenths, earned, timestamp, 0, rating), old(recordings))
        && userTokens == old(userTokens) + earned
      ensures recordings[0].plays == 0 && recordings[0].user == username && recordings[0].id == id
      ensures |recordings| <= MaxFeedLength
      ensures recordings[1..] == old(recordings)[..Min(|old(recordings)|, MaxFeedLength - 1)]
      ensures old(userTokens) + BaseReward <= userTokens
      ensures showSuccess
    {
      var earned := EarnedTokens(durationTenths, draw);
      var clip := Clip(id, username, audioUrl, durationTenths, earned, timestamp, 0, rating);
      recordings := Prepend(clip, recordings);
      userTokens := userTokens + earned;
      showSuccess := true;
    }

    /** The recorder's `onstop`: saves the recorded clip with the timer's duration. */
    method OnRecorderStop(audioUrl: string, id: int, draw: nat, rating: string, timestamp: string)
      requires draw <= MaxDraw
      modifies this`recordings, this`userTokens, this`showSuccess
      ensures recordings == Prepend(Clip(id, username, audioUrl, recordingDuration,
                                         EarnedTokens(recordingDuration, draw), timestamp, 0, rating),
                                    old(recordings))
      ensures userTokens == old(userTokens) + EarnedTokens(recordingDuration, draw)
      ensures showSuccess
    {
      SaveRecording(audioUrl, recordingDuration, id, draw, rating, timestamp);
    }

    /** `handleFileUpload`: a missing file or one whose type does not start with
        `audio/` is refused with an alert and creates no record. An audio file raises
        no alert; it is saved like a recording, with its metadata duration, only when
        its metadata loads, and otherwise nothing changes. */
    method HandleFileUpload(file: Option<PickedFile>, audioUrl: string, id: int, draw: nat,
                            rating: string, timestamp: string) returns (alert: Option<Alert>)
      requires draw <= MaxDraw
      modifies this`recordings, this`userTokens, this`showSuccess
      ensures file.Some? && Text.IsAudioType(file.value.mediaType) ==> alert == None
      ensures file.Some? && Text.IsAudioType(file.value.mediaType) && file.value.durationTenths.Some? ==>
        var d := file.value.durationTenths.value;
        && recordings == Prepend(Clip(id, username, audioUrl, d, EarnedTokens(d, draw), timestamp, 0, rating),
                                 old(recordings))
        && userTokens == old(userTokens) + EarnedTokens(d, draw)
        && showSuccess
      ensures !(file.Some? && Text.IsAudioType(file.value.mediaType)) ==> alert == Some(NotAnAudioFile)
      ensures !(file.Some? && Text.IsAudioType(file.value.mediaType) && file.value.durationTenths.Some?) ==>
        && recordings == old(recordings) && userTokens == old(userTokens)
        && showSuccess == old(showSuccess)
    {
      if file.Some? && Text.IsAudioType(file.value.mediaType) {
        alert := None;
        if file.value.durationTenths.Some? {
          SaveRecording(audioUrl, file.value.durationTenths.value, id, draw, rating, timestamp);
        }
      } else {
        alert := Some(NotAnAudioFile);
      }
    }

    /** `togglePlay`: toggling the playing clip pauses it and changes nothing else;
        toggling any other clip makes it the playing one and adds one play to every
        record with its id. The balance is never touched. */
    method TogglePlay(clip: Clip)
      modifies this`playingId, this`recordings
      ensures old(playingId) == Some(clip.id) ==>
        playingId == None && recordings == old(recordings)
      ensures old(playingId) != Some(clip.id) ==>
        playingId == Some(clip.id) && recordings == IncrementPlays(old(recordings), clip.id)
    {
      if playingId == Some(clip.id) {
        playingId := None;
      } else {
        playingId := Some(clip.id);
        recordings := IncrementPlays(recordings, clip.id);
      }
    }

    /** The audio element's `onended` (src/App.js:179): nothing is playing any more. */
    method OnPlaybackEnded()
      modifies this`playingId
      ensures playingId == None
    {
      playingId := None;
    }

    /** `deleteRecording`: filters the id out of the feed. It does not clear
        `playingId`, and it never touches the balance. */
    method DeleteRecording(id: int)
      modifies this`recordings
      ensures recordings == RemoveId(old(recordings), id)
      ensures !HasId(recordings, id)
      ensures !HasId(old(recordings), id) ==> recordings == old(recordings)
    {
      if !HasId(recordings, id) {
        RemoveIdAbsent(recordings, id);
      }
      recordings := RemoveId(recordings, id);
      forall i | 0 <= i < |recordings| ensures recordings[i].id != id {
        assert recordings[i] in recordings;
      }
    }

    /** The success banner's timeout (src/App.js:151). */
    method DismissSuccess()
      modifies this`showSuccess
      ensures !showSuccess
    {
      showSuccess := false;
    }
  }

  /** Toggling clip `a` and then a different clip `b`, starting with nothing playing,
      leaves `b` playing, with one more play on each of `a` and `b`. */
  method ToggleTwoClips(app: FartCaster, a: Clip, b: Clip, i: nat, j: nat)
    requires app.playingId == None && a.id != b.id
    requires i < |app.recordings| && app.recordings[i].id == b.id
    requires j < |app.recordings| && app.recordings[j].id == a.id
    modifies app
    ensures app.playingId == Some(b.id) && |app.recordings| == old(|app.recordings|)
    ensures app.recordings[i].plays == old(app.recordings[i].plays) + 1
    ensures app.recordings[j].plays == old(app.recordings[j].plays) + 1
  {
    app.TogglePlay(a);
    app.TogglePlay(b);
  }
}
