# Genre-AI, modelled in Dafny

Genre-AI is a Next.js application. A user uploads an audio file, picks a
target genre and gets back a "transformed" file. The web layer stores the
upload and then hands the work to external programs. It tries, in a fixed
order:

1. a Python script driven by a batch file;
2. `ffmpeg` with a filter chain chosen by genre;
3. a plain copy of the upload.

This project models the decision logic around those programs. It also
models the client-side helpers and the hand-written sample loops of the
Python scripts.

The model covers these parts of the code:

- **The transform route** (`transform_route.dfy`, `transform_route_facts.dfy`):
  - request validation, with each form field holding text or a file;
  - the naming of the stored upload and the output file;
  - the three-tier fallback, driven by one `transformed` flag;
  - the genre to filter-chain table;
  - the two-message JSON answer;
  - the route module's unused `transformAudio` helper.

  The disk is a map from paths to bytes. What each command line does when it
  runs is a parameter. The method `TransformRoute.Post` follows the handler
  step by step. It is proved equal to an independent definition,
  `TransformRoute.Handle`, which is an ordered list of strategies folded until
  one of them decides. The route's promises are proved about that fold.
- **The ML service wrapper** (`ml_service.dfy`):
  - the selection of the transform script;
  - how a shell splits the command line into words;
  - the true / false / rethrow outcome.

  `exec` is not promisified, so the outcome never depends on the script's
  exit status.
- **The home page** (`home_page.dfy`):
  - genre cleaning;
  - how a server reply is read;
  - the click and reset handlers, as a class of React state fields;
  - end-to-end lemmas against the route model.
- **The audio players and the progress indicator** (`audio_player.dfy`,
  `modern_audio_player.dfy`, `progress_indicator.dfy`, `time_format.dfy`):
  - seek, skip, rewind and forward clamping;
  - volume and mute state, including the element's volume;
  - progress width;
  - the `m:ss` clock text, with a read-back round trip;
  - the stage index.
- **The Python scripts:**
  - `stem_effects.dfy`: the compressor, delay and EQ helpers shared by the
    three stem scripts, with stem alignment, genre dispatch and the default
    mix.
  - `magenta_effects.dfy`: the sample loops of the two Magenta scripts
    (compressor, swing, sidechain envelope, synth voices) and the length gate
    on enhancement. The sidechain is modelled for completeness: in both
    scripts the synth loop before it raises on non-empty audio (see
    `MagentaEffects.SynthVoices`), so it is reached only on empty audio.
  - `script_outcomes.dfy`: each script's `try`/`except` fallback and exit
    code.
  - `genre_script.dfy`: the module-level script `transform_genre.py`.

Text helpers (`text.dfy`) give ASCII case mapping, JavaScript white space, the
smaller of two naturals and decimal rendering of numbers.

Two behaviours of the route are worth knowing. The model keeps both as the
code has them:

- The ML tier also hands over to ffmpeg when its command completes but
  leaves no output file (app/api/transform/route.ts:135-155), not only when
  it throws or its scripts are missing.
- The route can answer `success: true` with no file at the output path
  (app/api/transform/route.ts:193-198). This happens when ffmpeg completes
  without writing one: `transformed` becomes false, no copy is made, and the
  basic-effects message is sent. The lemma
  `TransformRouteFacts.SuccessWithoutOutputFile` exhibits this.

## Model

| member | source | states |
|---|---|---|
| TransformRoute.SanitizedHasNoSpace | app/api/transform/route.ts:99 | the white-space replacement leaves no white space in the name |
| TransformRoute.SanitizeKeepsPlainNames | app/api/transform/route.ts:99 | a name without white space is stored unchanged |
| TransformRoute.SanitizeCollapsesRun | app/api/transform/route.ts:99 | one maximal run of white space, however long, becomes exactly one `_` |
| TransformRoute.LastDot | app/api/transform/route.ts:107 | the index found holds a dot and no dot follows it; with no index, the name has no dot |
| TransformRoute.ExtnameSplitsName | app/api/transform/route.ts:107-108 | base name followed by extension gives back the name; the extension is empty or one dot followed by dot-free text |
| TransformRoute.OutputNameShape | app/api/transform/route.ts:107-108 | the output name is the upload's stem, `_`, the genre verbatim, then the upload's own extension |
| TransformRoute.StoredNameHasNoSpace | app/api/transform/route.ts:99-101 | after the timestamp prefix and `_`, the stored upload name has no white space |
| TransformRoute.ClientPathIsOutputPath | app/api/transform/route.ts:109-210 | the path returned to the browser is the path written on disk minus its `public` prefix |
| TransformRoute.FilterChainIgnoresCase | app/api/transform/route.ts:166-186 | genres equal up to letter case select the same chain; anything but the four names gets the default chain |
| TransformRoute.AfterRun | app/api/transform/route.ts:127-129 | a command changes the disk only at its output path, and only when it leaves a file there |
| TransformRoute.TransformAudioHelper | app/api/transform/route.ts:11-62 | resolves true exactly when both scripts exist, the command does not reject and the output exists; otherwise copies input over output and resolves false; a copy with a missing source or an I/O error rejects |
| TransformRoute.MlTier | app/api/transform/route.ts:116-152 | runs the ML command only when both scripts exist; transformed exactly when it completes and the output exists, whatever the two file sizes |
| TransformRoute.FilterTier | app/api/transform/route.ts:155-198 | probes for ffmpeg, picks the chain by lower-cased genre, runs it; hands over on a rejection, else transformed equals "output exists" |
| TransformRoute.Post | app/api/transform/route.ts:67-227 | the handler with its `transformed` flag gives the same response, disk and command list as the strategy fold |
| TransformRouteFacts.UploadAndOutputPathsDiffer | app/api/transform/route.ts:101-109 | as unnormalised strings, the stored upload's path and the output path of one request differ |
| TransformRouteFacts.RejectedRequests | app/api/transform/route.ts:71-98 | a missing or empty field gives 400 `Missing required fields`; a body that is not form data, or text in the file field, gives 500; none of these touches the disk or runs anything |
| TransformRouteFacts.HandleByTiers | app/api/transform/route.ts:116-219 | the answer tier by tier: stop at tier 1 when it decides, else at tier 2, else copy the upload, or fail with 500 when that write fails |
| TransformRouteFacts.AcceptedRequestsAnswer | app/api/transform/route.ts:213-225 | an accepted request answers 200 with `success: true`, one of the two messages and the browser path; the only 500 is a failed copy write; the stored upload's path keeps the uploaded bytes |
| TransformRouteFacts.OnlyTwoPathsChange | app/api/transform/route.ts:101-206 | a request changes the disk at most at the stored upload and the output path |
| TransformRouteFacts.MlTierDecides | app/api/transform/route.ts:119-151 | tier 1 decides exactly when both scripts exist, the command completes and the output exists; ffmpeg is then never run |
| TransformRouteFacts.TransformedMessageIff | app/api/transform/route.ts:215-217 | `Audio transformed successfully` exactly when tier 1 decided or tier 2 completed with an output file; the output then exists |
| TransformRouteFacts.CopyFallbackKeepsUpload | app/api/transform/route.ts:199-206 | when no tool produced anything, the output holds exactly the uploaded bytes and the reply is the basic-effects message |
| TransformRouteFacts.SuccessWithoutOutputFile | app/api/transform/route.ts:193-198 | when ffmpeg completes without writing a file, the route answers `success: true` with no output file on disk |
| TransformRouteFacts.FileGenreSkipsFfmpeg | app/api/transform/route.ts:158-166 | a file in the genre field passes validation and is named `[object File]`; lower-casing it throws, so tier 2 runs only the probe and, unless tier 1 decided, the upload is copied |
| TransformRouteFacts.FfmpegCommandFollowsGenre | app/api/transform/route.ts:159-193 | after the probe, ffmpeg runs with the upload, the genre's chain and the output path |
| MlService.MagentaScriptSelected | lib/ml-service.ts:5-18 | with the switch on, the script is `magenta_transform.py`, never the Spleeter script |
| MlService.CommandWords | lib/ml-service.ts:20 | a shell reads the command as five words: batch path, script path, input, output, genre, in that order |
| MlService.JoinedWords | lib/ml-service.ts:20 | splitting a spaced line of plain or quoted parts gives back their words in order |
| MlService.UnquotedDirectorySplits | lib/ml-service.ts:20 | the unquoted paths split at a space in the working directory |
| MlService.TransformAudio | lib/ml-service.ts:7-49 | true exactly when `exec` itself does not throw, whatever the script later does; false after a successful copy; rethrows when the copy fails |
| HomePage.StripDisallowed | app/page.tsx:344 | the result is no longer than the input and holds only `[\w\s-]` characters |
| HomePage.StripKeepsAllowed | app/page.tsx:344 | a string of allowed characters is kept as it is |
| HomePage.CleanGenreIsNonEmptyAndAllowed | app/page.tsx:341-349 | the cleaned genre is never empty and holds only allowed characters; an empty genre is sent as `rock` |
| HomePage.CleanGenreKeepsCleanGenres | app/page.tsx:341-349 | a trimmed genre of allowed characters is sent unchanged |
| HomePage.CleanGenreDefaultsToRock | app/page.tsx:344-349 | a genre with no allowed character is sent as `rock` |
| HomePage.CleanGenreValue | app/page.tsx:341-349 | the step-by-step reassignment computes the cleaned genre |
| HomePage.ErrorDetail | app/page.tsx:388 | the body's `error` if truthy, else the raw text if non-empty, else `Unknown error`; never empty |
| HomePage.ReadReply | app/page.tsx:376-407 | accepted exactly when OK, JSON, `success` and a non-empty path; a failed status becomes `Server error: <status> - <detail>` |
| HomePage.Page.constructor | app/page.tsx:11-45 | the initial state: genre `rock`, nothing selected, not processing |
| HomePage.Page.HandleTransformClick | app/page.tsx:307-411 | without a file: alert, nothing sent, nothing changed; otherwise sends the file with the cleaned genre, shows the result or sets the prefixed error, and ends not processing |
| HomePage.Page.Show | app/page.tsx:394-407 | an accepted reply fills URL, details and notification; anything else sets `Failed to transform audio: ` plus the message |
| HomePage.Page.HandleReset | app/page.tsx:413-419 | clears file, both audio URLs and the error, stops both players, keeps the rest |
| HomePage.PageGenreHasNoSlash | app/page.tsx:341-349 | the genre the page sends holds no `/`, so it adds no directory step to the route's output path |
| HomePage.PageFormsPassValidation | app/page.tsx:341-359 | a form the page sends never gets a 400 from the route |
| HomePage.PageReadsRouteResponses | app/page.tsx:376-404 | each 200 of the route is accepted with its path and message; each 500 becomes `Server error: 500 - <error>` |
| HomePage.PageAcceptsRouteSuccess | app/page.tsx:395-399 | every 200 the route gives the page shows the transformed audio |
| TimeFormat.JsRem60 | app/page.tsx:224 | for a non-negative time the remainder lies in [0, 60) and completes whole minutes to the time |
| TimeFormat.TwoDigitField | app/page.tsx:225 | the padded seconds field is exactly two digits and reads back as the seconds |
| TimeFormat.FormatTimeRoundTrip | app/page.tsx:222-226 | for t >= 0 the text is `M:SS` with SS in 00..59; it reads back as the whole minutes and seconds, which give back the whole seconds of t; ModernAudioPlayer.tsx:77-81 has the same `formatTime` |
| AudioPlayer.Percent | app/components/AudioPlayer.tsx:214 | 0 when the duration is not positive; within [0, 100] for a time within the track; 100 at its end |
| AudioPlayer.FormatPlayerTimeContract | app/components/AudioPlayer.tsx:147-153 | NaN shows `0:00`, as time 0 does; other non-negative times round-trip as `M:SS` |
| AudioPlayer.Player.constructor | app/components/AudioPlayer.tsx:13-20 | not playing, time and duration 0, volume 1, unmuted, rate 1; the element's volume in sync |
| AudioPlayer.Player.SyncElement | app/components/AudioPlayer.tsx:48-53 | the element's volume is 0 when muted and the stored volume otherwise; its rate is the stored rate |
| AudioPlayer.Player.TogglePlay | app/components/AudioPlayer.tsx:73-75 | flips the playing flag and nothing else |
| AudioPlayer.Player.HandleSeek | app/components/AudioPlayer.tsx:97-106 | acts only with a known duration; time and element land in [0, duration] at the click's fraction, clamped at both ends |
| AudioPlayer.Player.HandleVolumeChange | app/components/AudioPlayer.tsx:108-116 | stores the volume on state and element, and mutes exactly at 0 |
| AudioPlayer.Player.ToggleMute | app/components/AudioPlayer.tsx:118-125 | flips mute, keeps the stored volume, and leaves the element at 0 or the stored volume |
| AudioPlayer.Player.HandlePlaybackRateChange | app/components/AudioPlayer.tsx:127-132 | stores the rate and puts it on the element |
| AudioPlayer.Player.Skip | app/components/AudioPlayer.tsx:134-140 | nothing without a known duration; otherwise the time moves by the step, clamped into [0, duration] |
| AudioPlayer.Player.ProgressWidth | app/components/AudioPlayer.tsx:214 | 0% without a known duration, within [0, 100] for a time inside the track |
| ModernAudioPlayer.Player.constructor | app/components/ModernAudioPlayer.tsx:18-22 | not playing, time and duration 0 |
| ModernAudioPlayer.Player.OnLoadedMetadata | app/components/ModernAudioPlayer.tsx:29 | the duration becomes the element's |
| ModernAudioPlayer.Player.OnEnded | app/components/ModernAudioPlayer.tsx:30-33 | the playing flag drops |
| ModernAudioPlayer.Player.TogglePlayPause | app/components/ModernAudioPlayer.tsx:46-56 | with the element rendered, flips the flag and plays or pauses accordingly; otherwise nothing |
| ModernAudioPlayer.Player.HandleProgressClick | app/components/ModernAudioPlayer.tsx:58-65 | the element's time becomes fraction times duration, unclamped |
| ModernAudioPlayer.Player.HandleRewind | app/components/ModernAudioPlayer.tsx:67-70 | ten seconds back, never below 0 |
| ModernAudioPlayer.Player.HandleForward | app/components/ModernAudioPlayer.tsx:72-75 | ten seconds on, never past the duration |
| ModernAudioPlayer.Player.OnTimeUpdate | app/components/ModernAudioPlayer.tsx:28 | the state's time follows the element |
| ModernAudioPlayer.Player.ProgressPercent | app/components/ModernAudioPlayer.tsx:83 | 0 without a known duration, within [0, 100] for a time inside the track |
| ModernAudioPlayer.ProgressClickIsUnclamped | app/components/ModernAudioPlayer.tsx:58-65 | on a rendered player with a known duration, `HandleProgressClick` with a fraction above 1 leaves the element's time past the duration |
| ModernAudioPlayer.RewindForwardCancel | app/components/ModernAudioPlayer.tsx:67-75 | `HandleRewind` then `HandleForward` from a time t inside the track: back at t when t >= 10; otherwise at min(duration, 10), since the rewind was clamped at 0 |
| ProgressIndicator.StageIndexContract | app/components/ProgressIndicator.tsx:24-27 | the index is floor(6 * progress / 100) capped at 5; in [0, 5] from 0 up; never decreasing |
| ProgressIndicator.RenderContract | app/components/ProgressIndicator.tsx:11-27 | nothing while not processing; a stage label from 0% up; the last stage from 100% on |
| StemEffects.ApplyCompression | ml_scripts/spleeter_transform.py:196-204 | rewrites the very array it is given, each sample by the compressor formula, and returns it |
| StemEffects.CompressContract | ml_scripts/spleeter_transform.py:199-203 | quiet samples unchanged; with ratio >= 1 a loud positive sample lands in (0.3, x]; with ratio < 1 a loud sample keeps its sign and grows |
| StemEffects.CompressFlipsSign | ml_scripts/spleeter_transform.py:203 | the sign-blind formula turns -0.31 positive under every ratio above 61/30; no script passes such a ratio |
| StemEffects.ApplyDelay | ml_scripts/spleeter_transform.py:225-232 | raises exactly for a zero shift on non-empty audio; otherwise keeps the length and mixes each sample with the one `d` earlier |
| StemEffects.EqBoostContract | ml_scripts/spleeter_transform.py:247-250 | every sample is scaled by the amount; the frequency plays no part, a boost of 1 is the identity, and two boosts compose by product |
| StemEffects.AlignStems | ml_scripts/spleeter_transform.py:130-134 | the four stems end equally long, at the shortest length, each a prefix of its original |
| StemEffects.StyleDispatch | ml_scripts/spleeter_transform.py:55-125 | every genre that lower-cases to a branch's name reaches that branch; only the nine names, in some letter case, reach a branch other than the final pop/default one |
| StemEffects.WeightedMix | ml_scripts/process_audio.py:55-142 | the mix exists exactly when the stems' lengths broadcast, each pair equal or one of them 1; every stem not of length 1 then has the mix's length, and each sample is the weighted sum of the broadcast stem samples |
| StemEffects.CompressAll | ml_scripts/process_audio.py:166-173 | compression keeps a stem's length |
| StemEffects.ProcessDefaultMixIsPlainSum | ml_scripts/process_audio.py:134-142 | the default branch is the plain sum of the compressed stems; quiet samples reach it unchanged |
| ScriptOutcomes.SpleeterFallbackContract | ml_scripts/spleeter_transform.py:150-167 | never raises; false only when main chain, simple effects and copy all fail; a copy alone still gives true |
| ScriptOutcomes.ProcessFallbackContract | ml_scripts/process_audio.py:154-163 | false after any fault, whether or not the copy worked |
| ScriptOutcomes.SimpleFallbackContract | ml_scripts/simple_transform.py:74-79 | copies and returns false after a fault; a failing copy escapes |
| ScriptOutcomes.MagentaFallbackContract | ml_scripts/magenta_transform.py:50-63 | simple effects rescue a failure unless the load failed; then the copy gives false, and a failing copy escapes; magenta_inspired.py:43-56 has the same structure |
| ScriptOutcomes.ElectronicFallsBack | ml_scripts/magenta_transform.py:163-172 | in both Magenta scripts an electronic request on non-empty audio never leaves the main chain's output, because the synth loop raises; it exits 0 exactly when the load and the simple effects succeed |
| ScriptOutcomes.ExitCodeContract | ml_scripts/spleeter_transform.py:252-268 | a wrong argument count exits 1; so does a missing input for the Spleeter script; otherwise 0 exactly when the transform returned true |
| MagentaEffects.CompressSampleContract | ml_scripts/magenta_transform.py:398-410 | quiet samples copied; loud ones keep their sign with magnitude threshold + (abs(x) - threshold) / ratio, in (threshold, abs(x)] for ratio >= 1 |
| MagentaEffects.CompressCopy | ml_scripts/magenta_inspired.py:330-342 | a fresh buffer of the same length holding each sample compressed; the input is a value and is left as it was |
| MagentaEffects.Slice | ml_scripts/magenta_transform.py:384 | Python slicing: the length, and each element taken from its place |
| MagentaEffects.Place | ml_scripts/magenta_transform.py:385 | a slice assignment goes through exactly when the lengths fit, and changes only the slice |
| MagentaEffects.Swing | ml_scripts/magenta_transform.py:371-396 | fewer than 4 beats: the input. Otherwise: the same length, zero outside [first, last beat), even segments copied, odd segments holding the stretched prefix then zeros, or the input when the guarded stretch failed. It fails exactly in the unguarded variant with an odd segment that does not fit |
| MagentaEffects.SwingSegment | ml_scripts/magenta_inspired.py:306-326 | an even pair writes its segment. An odd pair writes the stretched, cut segment when that fits; otherwise it copies the segment (guarded) or raises. A pass writes nothing outside its segment |
| MagentaEffects.SwingStep | ml_scripts/magenta_transform.py:378-394 | one pass keeps the loop's invariant: zero outside the segments written so far, and even segments copied |
| MagentaEffects.OddStep | ml_scripts/magenta_inspired.py:312-326 | one pass keeps the odd segments already written, and its own odd write lands on zeros as the odd-segment predicate says |
| MagentaEffects.DuckCurve | ml_scripts/magenta_transform.py:199 | the squared ramp has the duck length and values in [0.09, 1] |
| MagentaEffects.SidechainEnvelope | ml_scripts/magenta_transform.py:193-201 | the envelope has the buffer's length, values in [0.09, 1], and is 1 wherever no fitting duck was written |
| MagentaEffects.Sidechain | ml_scripts/magenta_transform.py:193-202 | each sample keeps its sign and between 9% and all of its magnitude; no onsets, no change |
| MagentaEffects.SynthVoices | ml_scripts/magenta_transform.py:163-172 | the first voice's zero offset makes the add raise exactly when the audio is non-empty |
| MagentaEffects.LengthGate | ml_scripts/magenta_transform.py:153-160 | for audio of a minute or more any two enhancers give the same harmonic part, the input; a raising enhancer acts like one that returns its input; a changed part is what a successful enhancement of short audio returned |
| MagentaEffects.StyleDispatch | ml_scripts/magenta_transform.py:28-42 | every genre that lower-cases to a style's name reaches that style; every other string gets the default style |
| GenreScript.Clip | ml_scripts/transform_genre.py:39 | the result lies in [-1, 1], equals x inside, and the nearer bound outside |
| GenreScript.Rock | ml_scripts/transform_genre.py:37-39 | same length, each sample the clip of 1.5 times the input |
| GenreScript.Echo | ml_scripts/transform_genre.py:40-46 | the buffer loop computes `EchoValue` |
| GenreScript.EchoValue | ml_scripts/transform_genre.py:40-56 | nothing exactly for a zero delay on non-empty audio; otherwise the same length, and within [-1, 1] |
| GenreScript.HipHop | ml_scripts/transform_genre.py:57-61 | exists exactly when the two parts' lengths broadcast; then it has the broadcast length, lies in [-1, 1], and each sample is the clip of 0.8 times the harmonic sample plus 1.2 times the percussive one |
| GenreScript.BranchDispatch | ml_scripts/transform_genre.py:37-66 | every genre that lower-cases to a branch's name reaches that branch; any other genre is normalised |
| GenreScript.Transform | ml_scripts/transform_genre.py:36-66 | the `if`/`elif` chain computes `Effect`, each branch's value; rock, electronic, classical and hip hop end in [-1, 1]; the echoes raise only for a zero delay, hip hop only for parts that do not broadcast |
| GenreScript.Script | ml_scripts/transform_genre.py:10-77 | a wrong argument count exits 2. Otherwise exit 0 exactly when the load, the genre's `Effect` and the write all succeed; then the file holds that effect's output, and any exception gives 1 |

## Left out

- Processes, shell execution, timeouts, the artificial two-second delays,
  `mkdir`, the working directory and logging. A command line's effect is a
  parameter (`World.shell`, `execThrows`, `Faults`). Only the path it leaves
  its file at is modelled.
- The audio libraries' numerics: harmonic/percussive separation, filters,
  pitch shifting, time stretching, normalisation, `tanh` distortion, reverb
  convolution, the LFO, onset and beat detection, loading and writing files.
  These are uninterpreted parameters, or they are folded into the faults of
  `ScriptOutcomes`. The effect chains of the non-default genre branches are
  therefore not modelled sample by sample; only their dispatch is.
- IEEE floating point. Samples, times and progress are real numbers.
  `int(sr * 0.01 * i)` and `int(sr * 0.1)` are computed exactly. The `100 / 6`
  boundary of the progress index is not captured.
- JavaScript number formatting beyond integers, NaN and Infinity in the
  players' arithmetic, and `parseFloat` yielding NaN. The element's own
  clamping of assigned times and a rejected `play()` promise are also left
  out.
- Letter case is ASCII only, for `toLowerCase` and `lower()`.
  `path.extname` and `path.basename` are modelled for one path component: a
  `/` in an uploaded name is an ordinary character.
- `TransformRouteFacts.UploadAndOutputPathsDiffer`: paths are unnormalised
  strings. `path.join` resolves `.`, `..` and `//`, so a genre such as
  `/../../uploads/1_a` with the name `a.mp3` at timestamp 1 makes the output
  path the upload's path. A genre such as `/../../../x` writes outside
  `public`, where the returned `/transformed/` path does not lead. The lemma,
  and the claims of `AcceptedRequestsAnswer` and `ClientPathIsOutputPath`
  that rest on it, hold as stated for a genre without `/`.
  `HomePage.PageGenreHasNoSlash` shows that every genre the page sends is
  such a genre.
- React rendering, hooks beyond the volume/rate effect, the canvas
  visualisation and the other components.
  app/components/TransformForm.tsx is not part of this model. It posts the
  field `file`, where the route reads `audioFile`, and it reads `outputFile`,
  which the route never returns.
- Concurrent requests and uploads that share a millisecond timestamp.
- NumPy broadcasting in slice assignments: `MagentaEffects.Place` and
  `MagentaEffects.AddShifted` treat every length mismatch as an error. NumPy
  would stretch a length-1 value over a longer target. Sums of whole arrays
  (`WeightedMix`, `HipHop`) do model broadcasting.
- `TransformRoute.TransformAudioHelper`: `existsSync` is modelled as
  membership in the disk map.
- `StemEffects.ApplyDelay`: requires a non-negative delay time. The scripts
  only pass positive constants, and Python's truncation of a negative product
  is not modelled.
- `StemEffects.Compress`: requires a non-zero ratio. A zero ratio would divide
  by zero in NumPy; the scripts only pass positive constants.
- `MagentaEffects.CompressSample`: requires threshold >= 0 and ratio > 0, the
  range of every call in the scripts. A negative threshold could divide by a
  zero level.
- `MagentaEffects.CompressCopy`: requires threshold >= 0 and ratio > 0, the
  range of every call in the scripts.
- `MagentaEffects.Swing`: requires strictly increasing beat positions, as the
  beat tracker reports them. Beats that go backwards would give empty
  segments, and that is not modelled.
- `MagentaEffects.SynthVoices`: requires three voices as long as the harmonic
  part, as pitch shifting produces them. Its result on empty audio is the
  empty buffer. The later EQ and mix are not modelled.
- `AudioPlayer.Player.HandleVolumeChange`: requires a value in [0, 1], the
  slider's range.
- `GenreScript.Echo`: the slice write of transform_genre.py is not guarded,
  but for a delay at or past the length both slices are empty. The model's
  guard `d < n` gives the same result.
- `GenreScript.Script`: argparse's own behaviour beyond the argument count
  is not modelled. `-h` or `--help` prints usage and exits 0, and an
  argument starting with `-` exits 2 even among four words.
- Module-level imports: the scripts import `magenta`, `spleeter` or
  `tensorflow` before any argument check. A missing library ends the
  process with status 1 first, so transform_genre.py then exits 1, not 2.
  The exit codes here assume the imports succeed.
