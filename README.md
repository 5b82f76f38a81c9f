# media-recording in Dafny

This project models the two halves of the media-recording app.

The server (`server/index.js`) is an Express application that stores uploaded clips on disk and lists them. The model covers five parts of it:

- how it picks the host part of its base URL from the network-interface table (`getLocalIP`);
- how the disk storage names an uploaded file (`audio_<Date.now()>.m4a`);
- what `POST /upload` answers behind `upload.single('audio')`, including the middleware's refusal of files sent under another field;
- how `GET /files` filters the upload directory, rebuilds each record's creation date from its name with `parseInt` and `new Date(…).toISOString()`, and sorts newest first;
- how an invalid date makes the listing throw.

The client (`app/App.js`) is a React Native component. Its pure helpers are Dafny functions: `getFileType`, `formatDuration`, `isCurrentlyPlaying` and the conditions under which each footer control and the video player show. The component itself is `ClientApp.App`, a class with one field per piece of state the modelled handlers read or write. The video recording handle, `cameraRef` and `showCamera` belong to the video capture, which is left out. `soundHeld` stands for the `soundRef` ref, and `alerts` records the alert titles shown so far. Each handler is a method that changes those fields. Recording, playback and HTTP calls happen outside the component, so each handler takes their outcome as an input. Every method is specified by a step function on an immutable `AppState`, and the properties of the handlers are proved about those step functions.

Modules:

- `Wrappers` holds `Option` and `Result`.
- `Text` holds prefix and suffix tests, decimal rendering, digit runs, `split`/`join` on one character, and `padStart`.
- `JsNumber` holds ECMAScript `parseInt` (section 19.2.5 of ECMA-262) and the range of valid time values that `new Date` accepts (TimeClip, section 21.4.1.31).
- `MediaRecords` holds the listing record and the newest-first stable sort.
- `MediaStore` holds the server.
- `ClientApp` holds the client.

## Model

| member | source | states |
|---|---|---|
| `MediaStore.GetLocalIP` | server/index.js:22-33 | Returns the address of the first non-internal IPv4 entry in group-then-entry order, with no such entry earlier; returns "localhost" exactly when there is none. |
| `MediaStore.IsExternalIPv4` | server/index.js:27 | Defines the entry `getLocalIP` picks: family "IPv4" and not internal. |
| `MediaStore.ServerBaseUrl` | server/index.js:35-36 | `BASE_URL` is `http://<ip>:3000` for the address `getLocalIP` picks: the first external IPv4 entry, or `http://localhost:3000` when there is none. |
| `MediaStore.BaseUrl` | server/index.js:36 | Defines `BASE_URL` from an address: scheme, address, colon and the port 3000. |
| `MediaStore.BaseUrlText` | server/index.js:9-36 | The port renders as "3000", so the base URL of an address is `http://<ip>:3000`. |
| `MediaStore.IsMediaName` | server/index.js:95 | Defines the listing's filter: the name starts with "audio_" and ends with ".m4a". |
| `MediaStore.TimestampField` | server/index.js:99 | Defines `file.split('_')[1]`: the second piece of the name, or "undefined" when there is only one piece. |
| `MediaStore.CreatedAt` | server/index.js:99 | Defines a name's date: `parseInt` of its timestamp field, kept only when `new Date` accepts it. |
| `MediaStore.FileUrl` | server/index.js:67 | Defines a stored file's public URL: the base URL, "/uploads/", then the file name (the same formula as at line 98). |
| `MediaStore.FileUrlInjective` | server/index.js:67 | Two files get the same public URL `<base>/uploads/<name>` only if their names are equal. |
| `MediaStore.GeneratedFilename` | server/index.js:52-55 | The generated name starts with "audio_" and ends with ".m4a", so the listing's filter keeps it. |
| `MediaStore.Upload` | server/index.js:61-78 | The file is stored exactly when one file part arrives under the accepted field. No part gives 400 "No file uploaded". A part under another field, or a second file, gives 500 LIMIT_UNEXPECTED_FILE. Success answers success true, the clock-generated name, its URL and the part's size. |
| `MediaStore.MismatchedFieldNeverUploads` | server/index.js:61 | A file sent under any field other than the accepted one is refused by the middleware. |
| `MediaStore.MediaNames` | server/index.js:94-95 | Each name keeps its directory count if it has the media prefix and suffix, and is dropped otherwise. |
| `MediaStore.GeneratedNameRoundTrip` | server/index.js:52-55 | `split('_')[1]` of a generated name is the decimal clock value followed by ".m4a". Its `createdAt` parses back to exactly the upload instant. |
| `MediaStore.NonNumericNameHasNoDate` | server/index.js:99 | "audio_abc.m4a" passes the filter, but `parseInt` of its timestamp field is NaN, so it has no valid date. |
| `MediaStore.NonNumericNameCrashesListing` | server/index.js:89-101 | A directory holding "audio_abc.m4a" makes the listing throw instead of answering. |
| `MediaStore.DatesOf` | server/index.js:99 | Defines the kept names' dates: entry k is `CreatedAt` of name k. |
| `MediaStore.ToRecords` | server/index.js:96-100 | Success gives one record per kept name, in order: the name, its URL and its date. Failure gives the index of the first name without a valid date. |
| `MediaStore.ListFiles` | server/index.js:81-105 | A missing directory answers an empty list. A read error answers 500 "Failed to read files". A readable directory is always answered with a list unless the listing throws. Any answered list is newest first. |
| `MediaStore.ListingCrashes` | server/index.js:89-101 | The listing throws if and only if some media name carries an invalid date, and the thrown case names such a file. It answers a list if and only if every media name carries a valid date. |
| `MediaStore.ListingPermutesNames` | server/index.js:94-101 | An answered listing holds exactly the media names of the directory, each as often as it occurs (a permutation). |
| `MediaStore.ListedRecordsAreWellFormed` | server/index.js:94-100 | Every listed record is a media name, with the URL of that name and the date parsed from it. |
| `MediaStore.RecordsOfMediaNames` | server/index.js:96-100 | Records built from media names carry their name's URL and parsed date. |
| `MediaStore.UploadedFileIsListed` | server/index.js:52-101 | A stored upload appears in every later answered listing, with the URL the upload returned and the upload instant as its date. |
| `MediaRecords.InsertNewestFirst` | server/index.js:101 | Inserting into a newest-first list keeps it newest first. A time no record in the list exceeds, and the new record does not exceed, still bounds the result. |
| `MediaRecords.InsertNewestFirstPermutes` | server/index.js:101 | Insertion adds exactly the one record to the multiset. |
| `MediaRecords.InsertNewestFirstFilenames` | server/index.js:101 | Insertion adds exactly the record's name to the multiset of names. |
| `MediaRecords.SortNewestFirst` | server/index.js:101 | The sorted list is ordered by non-increasing creation time. |
| `MediaRecords.SortNewestFirstPermutes` | server/index.js:101 | The sorted list is a permutation of its input. |
| `MediaRecords.SortNewestFirstMembers` | server/index.js:101 | The sort neither adds nor loses records. |
| `MediaRecords.SortNewestFirstFilenames` | server/index.js:101 | The sorted list's names are a permutation of the input's names. |
| `JsNumber.ParseInt` | server/index.js:99 | Defines `parseInt`: skip leading white space, take an optional sign, then read the digits. A missing digit gives NaN (`None`). |
| `JsNumber.ParseUnsigned` | server/index.js:99 | Defines the digit part of `parseInt`: hexadecimal after "0x" or "0X", decimal otherwise, reading the longest run of digits. |
| `JsNumber.TrimStart` | server/index.js:99 | `parseInt` drops exactly the leading white space and line terminators. |
| `JsNumber.ParseIntOfDecimal` | server/index.js:99 | `parseInt` of a decimal rendering followed by a non-digit, non-'x' tail is that number. |
| `JsNumber.ParseIntOfDigits` | server/index.js:99 | `parseInt` of a text starting with a decimal digit, and not starting with "0x", is the value of its leading digit run. |
| `JsNumber.ParseIntWithoutDigits` | server/index.js:99 | `parseInt` of a text starting with a character that is neither a digit, a sign nor white space is NaN. |
| `JsNumber.TimeClip` | server/index.js:99 | `new Date(n).toISOString()` succeeds exactly for a number within ±8.64e15 ms, and then keeps that value. |
| `Text.Decimal` | server/index.js:53-54 | The decimal rendering is a non-empty digit string with no leading zero, and it denotes the number. |
| `Text.LeadingDigits` | server/index.js:99 | The longest prefix made of digits of the radix. |
| `Text.Split` | server/index.js:99 | `split` on one character: at least one piece, no piece contains the separator, and joining the pieces gives the input back. |
| `Text.SplitJoin` | server/index.js:99 | Splitting a join of separator-free pieces gives the pieces back. |
| `Text.PadStart` | app/App.js:305 | `padStart` keeps the text as a suffix, fills the front with the fill character, and reaches the width unless the text is already longer. |
| `ClientApp.GetFileType` | app/App.js:317-319 | A name is a video exactly when it ends in ".mp4". |
| `ClientApp.ListedNamesPlayAsAudio` | app/App.js:317-319 | Every name the server lists is played as audio. |
| `ClientApp.FormatDuration` | app/App.js:302-306 | The text is the whole minutes in decimal, a colon, and the remaining seconds on exactly two digits. The minutes have no leading zero: the text starts with '0' only for fewer than 60 seconds, as "0:ss". |
| `ClientApp.TwoDigits` | app/App.js:305 | A remainder below 60 padded to two digits that denote it. |
| `ClientApp.DurationRoundTrip` | app/App.js:302-306 | Reading the `m:ss` text back gives the original number of seconds. |
| `ClientApp.ParseMinutesSeconds` | app/App.js:302-306 | Minute digits, a colon and two second digits below 60 read back as 60·minutes + seconds. |
| `ClientApp.ShowsRecordButton` | app/App.js:463 | Defines when Record shows: no capture is active and neither clip is held. |
| `ClientApp.ShowsStopAudioButton` | app/App.js:473 | Defines when the audio Stop shows: an audio recording is active. |
| `ClientApp.ShowsAudioActions` | app/App.js:483 | Defines when the audio New/Upload pair shows: an audio clip is held and no capture is active. |
| `ClientApp.ShowsTakeVideoButton` | app/App.js:515 | Defines when Take Video shows, under the same condition as Record. |
| `ClientApp.ShowsStopVideoButton` | app/App.js:525 | Defines when the video Stop shows: a video capture is active. |
| `ClientApp.ShowsVideoActions` | app/App.js:535 | Defines when the video New/Upload pair shows: a video clip is held and no capture is active. |
| `ClientApp.IsCurrentlyPlaying` | app/App.js:324 | Defines when a list item shows as playing: its URL is the playing URL and playback is on. |
| `ClientApp.ShowsVideoPlayer` | app/App.js:352 | Defines when the video player shows: the playing type is video and the playing URL is truthy. |
| `ClientApp.FooterNeverEmpty` | app/App.js:463-541 | In every state the footer shows at least one control: Record, an audio Stop or New/Upload pair, a video Stop, or a video New/Upload pair. |
| `ClientApp.AudioControlsExclusive` | app/App.js:463-493 | No two of Record, the audio Stop and the audio New/Upload pair show together. Record shows exactly when Take Video does. |
| `ClientApp.InitialState` | app/App.js:25-44 | The initial state is consistent, shows Record, and plays nothing. |
| `ClientApp.StartRecordingStep` | app/App.js:81-96 | Starting a recording preserves the state invariant. |
| `ClientApp.StopRecordingStep` | app/App.js:98-112 | Stopping a recording preserves the state invariant. |
| `ClientApp.DiscardStep` | app/App.js:483-546 | Either New button (audio at lines 483-493, video at lines 535-546) preserves the state invariant. |
| `ClientApp.FetchStep` | app/App.js:223-238 | Fetching the list preserves the state invariant. |
| `ClientApp.UploadStep` | app/App.js:150-219 | Uploading a clip preserves the state invariant. |
| `ClientApp.PauseCalled` | app/App.js:247-250 | Defines when pressing the playing item calls `pauseAsync`: audio with a sound in `soundRef`, or video with the player mounted. |
| `ClientApp.StopCalled` | app/App.js:257-263 | Defines when pressing another item stops what plays: something plays under another URL, and its type has a sound in `soundRef` or a mounted video player. |
| `ClientApp.MissingClipAlert` | app/App.js:150-189 | Defines the alert title for an upload without a clip: "No Recording" for audio, "No Video" for video. |
| `ClientApp.PlayMediaStep` | app/App.js:241-299 | Pressing an item preserves the state invariant: a playing item has a URL and a type, and playing audio has a sound in `soundRef`. |
| `ClientApp.StopPlaybackStep` | app/App.js:276-381 | Finishing playback (lines 276-282 and 375-381) or closing the player (lines 358-361) preserves the state invariant. |
| `ClientApp.ReplyOf` | app/App.js:159-176 | The client sees a reply body exactly when the server stored the file, with the same success flag. |
| `ClientApp.ClientUploadsAreRejected` | app/App.js:159-166 | The client posts its clip under "media" and the server accepts only "audio", so every upload request fails. |
| `ClientApp.StartedRecordingShowsStop` | app/App.js:81-96 | A started recording has duration 0 and swaps Record for Stop. A recorder that cannot start only raises "Recording Error". |
| `ClientApp.StoppedRecordingOffersUpload` | app/App.js:98-112 | Stopping keeps the clip's URI, offers New/Upload and hides Stop and Record. Without a recording, or when the recorder fails, it only raises "Error". |
| `ClientApp.DiscardReturnsToRecord` | app/App.js:483-546 | Either New button (audio at lines 483-493, video at lines 535-546) drops its clip and duration. With no other clip the footer offers Record again. |
| `ClientApp.FetchOutcome` | app/App.js:223-238 | A fetch always ends its spinner. Fetched files replace the list. A failed fetch keeps the list and raises "Fetch Error". |
| `ClientApp.UploadWithoutClipOnlyAlerts` | app/App.js:150-154 | Without a clip, an upload raises "No Recording" or "No Video" and changes nothing else. |
| `ClientApp.UploadSuccessClearsClip` | app/App.js:150-219 | A successful upload clears the clip and its duration, raises "Success", shows the refreshed list and ends both spinners. |
| `ClientApp.FailedUploadKeepsClip` | app/App.js:150-219 | A failed request or a refused body keeps the clip and the list. Only a failed request raises "Upload Error". |
| `ClientApp.UploadLeavesOtherState` | app/App.js:150-219 | An upload touches neither the other clip, nor playback, nor the recorder handle. |
| `ClientApp.VisibleStopCompletes` | app/App.js:98-112 | In a consistent state a visible Stop means a recording is held. A stop the recorder completes then raises no alert, releases the recording and stores the URI. |
| `ClientApp.PressingPlayingItemPauses` | app/App.js:241-254 | Pressing the item that plays pauses it, keeps it selected and raises nothing. |
| `ClientApp.StartedItemIsPlaying` | app/App.js:255-294 | After a started press, the pressed item and no other shows as playing, with its type. |
| `ClientApp.FailedPressOnlyAlerts` | app/App.js:241-299 | A failed pause, stop or sound load changes nothing but adding "Playback Error". |
| `ClientApp.PlayMediaLeavesOtherState` | app/App.js:241-299 | Playback touches neither the clips, nor the list, nor the spinners. |
| `ClientApp.StoppedPlaybackShowsNothing` | app/App.js:351-383 | After playback finishes or the player closes, playback is off, nothing shows as playing, no URL or type is selected, and the player is gone. |
| `ClientApp.App.constructor` | app/App.js:25-44 | The component starts in the initial state. |
| `ClientApp.App.HandleStartRecording` | app/App.js:81-96 | The new state is the start-recording step of the old one, and the invariant holds. |
| `ClientApp.App.HandleStopRecording` | app/App.js:98-112 | The new state is the stop-recording step of the old one, and the invariant holds. |
| `ClientApp.App.DiscardAudio` | app/App.js:486-491 | Drops the audio clip and its duration, and nothing else. |
| `ClientApp.App.DiscardVideo` | app/App.js:538-543 | Drops the video clip and its duration, and nothing else. |
| `ClientApp.App.FetchMediaFiles` | app/App.js:223-238 | The new state is the fetch step of the old one. |
| `ClientApp.App.HandleUploadAudio` | app/App.js:150-184 | The new state is the upload step for audio. |
| `ClientApp.App.HandleUploadVideo` | app/App.js:186-219 | The new state is the upload step for video. |
| `ClientApp.App.PlayMedia` | app/App.js:241-299 | The new state is the play step for the pressed item. |
| `ClientApp.App.OnPlaybackFinished` | app/App.js:276-381 | The `didJustFinish` callback of the sound (lines 276-282) or of the video player (lines 375-381) clears the playing item. |
| `ClientApp.App.CloseVideoPlayer` | app/App.js:356-365 | The close button clears the playing item. |

## Left out

- The Express wiring is not modelled: CORS, the static `/uploads` route, `/health`, `listen`, the 404 for unknown routes, and every console log. They carry no state the model needs.
- File-system calls are inputs, not effects. Creating the upload directory, writing the file, and `existsSync`/`readdir` become the `Directory` value the listing receives. Two uploads in the same millisecond overwrite one file, and that is not modelled.
- `Date.now()` is an `EpochMs` parameter: a non-negative millisecond count within the valid time range.
- `createdAt` is kept as an integer millisecond value, not as its ISO-8601 text. The sort comparator parses that text back with `new Date`, which gives back the same value, so comparing the integers is the same comparison.
- MediaRecords.SortNewestFirst: stability (records of equal age keep their directory order) is not stated. The sort is an insertion sort that is stable by construction. The order of `readdir` entries is taken as given.
- `upload.single(field)` comes from the multer library, which is not part of this model. It is modelled from that library's documented behaviour: an unexpected field or a second file is a `LIMIT_UNEXPECTED_FILE` error, which Express's default handler answers with status 500. Size limits and non-file fields are left out.
- `Object.keys` order of the interface table is the order of the input sequence.
- Number precision is not modelled: `parseInt` results are exact integers. Every value that matters lies within the time range, where doubles are exact.
- The client's native SDK and HTTP calls are outcome parameters (`created`, `stopped`, `SdkOutcome`, `HttpReply`, the fetched list). The text of each alert message is left out; only its title is recorded.
- Each handler is modelled as one atomic step. The intermediate renders between `await`s are left out (`loading` and `uploadLoading` set to true, for example), and so are interleavings of two handlers.
- The per-second duration timers (`setInterval`) are left out, and so are the timer references and their cleanup. A duration is therefore only reset, never advanced.
- Video capture is left out: `cameraRef`, `showCamera`, `handleStartVideoRecording`/`handleStopVideoRecording` and the camera view. It depends on the camera component. `isVideoRecording` and the video clip are still part of the state, so the footer conditions and the video upload are modelled.
- The `useEffect` setup is left out: audio mode, permission requests, and the cleanup on unmount, which unloads the sound. The list starts empty and is fetched only by the Fetch button or after a successful upload.
- The sound object's identity is modelled only as `Playback.soundHeld`, which means that `soundRef.current` is non-null, whether or not its sound is still loaded. A paused sound that is pressed again is replaced, not resumed, exactly as the handler does.
- The free `SdkOutcome` inputs do not capture one consequence of that. When the old sound is stopped and unloaded (app/App.js:259-260) and `createAsync` then fails, `soundRef` keeps the unloaded sound and `soundHeld` stays true. Every later `stopAsync` or `pauseAsync` on it fails, but the model lets those calls succeed or fail freely.
- `formatDate` is left out: its output depends on the device locale.
- The JSX layout and styles are left out. The model keeps only the visibility conditions of the footer controls and the video player, not the upload buttons' `disabled` state or the activity indicators.
- ClientApp.FormatDuration: only non-negative second counts are modelled. The handlers only ever pass counts that start at 0 and count up.
- The listing is sorted by non-increasing creation time, as the code does. Two files can carry the same instant (for example `audio_5.m4a` and `audio_5_x.m4a`), so the order is not strictly descending.
