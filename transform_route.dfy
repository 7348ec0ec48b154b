/** The `POST /api/transform` route (app/api/transform/route.ts): it checks
    the form, stores the upload under a timestamped name, derives the output
    name, and then tries three tiers in order: the ML script, ffmpeg with a
    genre filter chain, and a plain copy of the upload. It always answers
    with a two-message JSON body.

    The disk is a map from paths (relative to the working directory) to
    file contents, and it is passed in and returned. `shell` says what each
    command line does when run: whether `exec` rejects, and what file, if
    any, the command leaves at its output path. */
module TransformRoute {
  import opened Text

  type Disk = map<string, seq<byte>>

  datatype Upload = Upload(name: string, bytes: seq<byte>)

  /** A multipart field's value: `formData.get` returns text or a file,
      and the route only casts it to the type it expects. */
  datatype Field = Text(text: string) | Blob(file: Upload)

  /** The multipart fields the route reads: `audioFile` and `genre`. */
  datatype Form = Form(audioFile: Option<Field>, genre: Option<Field>)

  /** The field is truthy in JavaScript: present, and not the empty string. */
  predicate Present(f: Option<Field>) {
    f.Some? && (f.value.Blob? || f.value.text != "")
  }

  /** `${field}`: text as it is, and a file as `[object File]`. */
  function Interpolated(f: Field): string {
    match f
    case Text(s) => s
    case Blob(_) => "[object File]"
  }

  /** What running one command line does. */
  datatype Run = Run(threw: bool, output: Option<seq<byte>>)

  /** Everything outside the route's own code that one request meets. */
  datatype World = World(
    form: Option<Form>,       // None: `request.formData()` rejects
    timestamp: nat,           // `Date.now()`
    uploadWriteFails: bool,   // `writeFile` of the upload rejects
    shell: string -> Run,     // what `execPromise(cmd)` does, per command line
    copyWriteFails: bool)     // `writeFile` of the last-resort copy rejects

  /** Which step raised the exception that the outer `catch` turns into a 500.
      `NotAFile`: a text `audioFile` has no `arrayBuffer` method. */
  datatype Fault = FormDataRejected | NotAFile | UploadWriteRejected | CopyWriteRejected

  datatype Response =
    | BadRequest(error: string)                                           // status 400
    | Ok(success: bool, message: string, transformedFilePath: string)     // status 200
    | ServerError(error: string, details: Fault)                          // status 500

  const MissingFields := "Missing required fields"
  const ProcessingFailed := "Failed to process the audio file"
  const TransformedMessage := "Audio transformed successfully"
  const BasicEffectsMessage := "Audio processed with basic effects"

  const UploadsDir := "public/uploads"
  const TransformedDir := "public/transformed"
  const BatchScript := "ml_scripts/run_spleeter.bat"
  const SpleeterScript := "ml_scripts/spleeter_transform.py"
  const FfmpegProbe := "ffmpeg -version"

  // ---------------------------------------------------------------------
  // File naming

  /** `name.replace(/\s+/g, '_')`: every maximal run of white space becomes
      one underscore. */
  function SanitizeName(s: string): string
    decreases |s|
  {
    if s == [] then []
    else if IsJsSpace(s[0]) then "_" + SanitizeName(TrimStart(s))
    else [s[0]] + SanitizeName(s[1..])
  }

  /** The stored name never contains white space. */
  lemma {:induction false} SanitizedHasNoSpace(s: string)
    ensures NoSpace(SanitizeName(s))
    decreases |s|
  {
    if s == [] {
    } else if IsJsSpace(s[0]) {
      SanitizedHasNoSpace(TrimStart(s));
    } else {
      SanitizedHasNoSpace(s[1..]);
    }
  }

  /** A name without white space is stored as it is. */
  lemma {:induction false} SanitizeKeepsPlainNames(s: string)
    requires NoSpace(s)
    ensures SanitizeName(s) == s
    decreases |s|
  {
    if s != [] {
      assert !IsJsSpace(s[0]);
      SanitizeKeepsPlainNames(s[1..]);
    }
  }

  /** One maximal run of white space between a space-free prefix and a rest
      that does not start with white space becomes exactly one `_`. */
  lemma {:induction false} SanitizeCollapsesRun(w: string, run: string, rest: string)
    requires NoSpace(w)
    requires run != [] && forall i :: 0 <= i < |run| ==> IsJsSpace(run[i])
    requires rest == [] || !IsJsSpace(rest[0])
    ensures SanitizeName(w + run + rest) == w + "_" + SanitizeName(rest)
    decreases |w| + |run|
  {
    if w == [] {
      assert w + run + rest == run + rest;
      DropRun(run, rest);
    } else {
      assert !IsJsSpace(w[0]);
      assert (w + run + rest)[1..] == w[1..] + run + rest;
      SanitizeCollapsesRun(w[1..], run, rest);
    }
  }

  lemma {:induction false} DropRun(run: string, rest: string)
    requires forall i :: 0 <= i < |run| ==> IsJsSpace(run[i])
    requires rest == [] || !IsJsSpace(rest[0])
    ensures TrimStart(run + rest) == rest
    decreases |run|
  {
    if run != [] {
      assert (run + rest)[1..] == run[1..] + rest;
      DropRun(run[1..], rest);
    } else {
      assert run + rest == rest;
    }
  }

  /** The index of the last `.` in a name. */
  function LastDot(s: string): (k: Option<nat>)
    ensures k.Some? ==> k.value < |s| && s[k.value] == '.'
    ensures k.Some? ==> forall j :: k.value < j < |s| ==> s[j] != '.'
    ensures k.None? ==> forall j :: 0 <= j < |s| ==> s[j] != '.'
    decreases |s|
  {
    if s == [] then None
    else if s[|s| - 1] == '.' then Some(|s| - 1)
    else LastDot(s[..|s| - 1])
  }

  /** `path.extname(name)` for a single path component: from the last `.`
      to the end, except that a leading dot (a dot-file) and the name `..`
      have no extension. */
  function Extname(s: string): string {
    match LastDot(s)
    case None => ""
    case Some(k) => if k == 0 || s == ".." then "" else s[k..]
  }

  /** `path.basename(name, suffix)` for a single path component: the name
      without the suffix when it ends with it and is longer than it. */
  function Basename(s: string, suffix: string): string {
    if 0 < |suffix| <= |s| then
      if suffix == s then ""
      else if s[|s| - |suffix|..] == suffix then s[..|s| - |suffix|]
      else s
    else s
  }

  /** The extension is empty or a single dot followed by dot-free text, and
      the base name put back in front of it gives the name. */
  lemma ExtnameSplitsName(s: string)
    ensures Basename(s, Extname(s)) + Extname(s) == s
    ensures var e := Extname(s); e == [] || (e[0] == '.' && forall j :: 0 < j < |e| ==> e[j] != '.')
  {
    match LastDot(s)
    case None =>
    case Some(k) =>
      if k != 0 && s != ".." {
        var e := s[k..];
        assert s[|s| - |e|..] == e;
        assert s[..|s| - |e|] + e == s;
        forall j | 0 < j < |e| ensures e[j] != '.' {
          assert e[j] == s[k + j];
        }
      }
  }

  /** `<timestamp>_<sanitized name>`, the stored upload's file name. */
  function StoredName(timestamp: nat, name: string): string {
    NatToString(timestamp) + "_" + SanitizeName(name)
  }

  function UploadPath(timestamp: nat, name: string): string {
    UploadsDir + "/" + StoredName(timestamp, name)
  }

  /** `<base>_<genre><ext>` built from the sanitized upload name. */
  function OutputName(name: string, genre: string): string {
    var stored := SanitizeName(name);
    var ext := Extname(stored);
    Basename(stored, ext) + "_" + genre + ext
  }

  /** `<timestamp>_<base>_<genre><ext>`, the name shared by the file on disk
      and the path returned to the browser. */
  function OutputFileName(timestamp: nat, name: string, genre: string): string {
    NatToString(timestamp) + "_" + OutputName(name, genre)
  }

  function OutputPath(timestamp: nat, name: string, genre: string): string {
    TransformedDir + "/" + OutputFileName(timestamp, name, genre)
  }

  function ClientPath(timestamp: nat, name: string, genre: string): string {
    "/transformed/" + OutputFileName(timestamp, name, genre)
  }

  /** The output name keeps the upload's base name and extension and embeds
      the genre verbatim between them. */
  lemma OutputNameShape(name: string, genre: string)
    ensures var stored := SanitizeName(name);
            exists stem: string ::
              stem + Extname(stored) == stored &&
              OutputName(name, genre) == stem + "_" + genre + Extname(stored)
  {
    var stored := SanitizeName(name);
    ExtnameSplitsName(stored);
    var stem := Basename(stored, Extname(stored));
    assert stem + Extname(stored) == stored;
    assert OutputName(name, genre) == stem + "_" + genre + Extname(stored);
  }

  /** The stored upload name has no white space after its timestamp
      prefix. */
  lemma StoredNameHasNoSpace(timestamp: nat, name: string)
    ensures NoSpace(StoredName(timestamp, name)[|NatToString(timestamp)| + 1..])
  {
    SanitizedHasNoSpace(name);
    var sn := StoredName(timestamp, name);
    assert sn[|NatToString(timestamp)| + 1..] == SanitizeName(name);
  }

  /** The path handed to the browser is the path written on disk without
      its `public` prefix. */
  lemma ClientPathIsOutputPath(timestamp: nat, name: string, genre: string)
    ensures OutputPath(timestamp, name, genre) == "public" + ClientPath(timestamp, name, genre)
  {
    PublicPrefix(OutputFileName(timestamp, name, genre));
  }

  lemma PublicPrefix(f: string)
    ensures TransformedDir + "/" + f == "public" + ("/transformed/" + f)
  {
    assert TransformedDir + "/" == "public" + "/transformed/";
  }

  // ---------------------------------------------------------------------
  // Commands

  /** `"<a>" "<b>" "<c>" "<d>" "<e>"`: the ML command line, every argument
      in double quotes. */
  function MlCommand(batch: string, script: string, input: string, output: string, genre: string): string {
    "\"" + batch + "\" \"" + script + "\" \"" + input + "\" \"" + output + "\" \"" + genre + "\""
  }

  const RockChain := "volume=1.5,bass=g=5,treble=g=2,acompressor=threshold=0.1:ratio=3:attack=0.1:release=0.2"
  const JazzChain := "volume=1.2,bass=g=3,treble=g=-1,acompressor=threshold=0.3:ratio=2"
  const ElectronicChain := "volume=1.3,aecho=0.8:0.7:40:0.5,highpass=f=200,treble=g=4"
  const ClassicalChain := "volume=1.1,aecho=0.9:0.9:1000:0.3,acompressor=threshold=0.5:ratio=2"
  const DefaultChain := "volume=1.2,bass=g=2,treble=g=2"

  /** The ffmpeg filter chain for a genre, chosen on its lower-cased form. */
  function FilterChain(genre: string): string {
    var g := ToLower(genre);
    if g == "rock" then RockChain
    else if g == "jazz" then JazzChain
    else if g == "electronic" then ElectronicChain
    else if g == "classical" then ClassicalChain
    else DefaultChain
  }

  /** Genres that differ only in letter case select the same chain, and a
      genre whose lower-cased form is none of the four names gets the
      default chain. */
  lemma FilterChainIgnoresCase(a: string, b: string)
    requires ToLower(a) == ToLower(b)
    ensures FilterChain(a) == FilterChain(b)
    ensures FilterChain(ToUpper(a)) == FilterChain(a)
    ensures ToLower(a) !in {"rock", "jazz", "electronic", "classical"} ==> FilterChain(a) == DefaultChain
  {
    ToLowerForgetsCase(a);
  }

  function FfmpegCommand(input: string, chain: string, output: string): string {
    "ffmpeg -i \"" + input + "\" -af \"" + chain + "\" \"" + output + "\""
  }

  /** The disk after a command has run: the file it left at its output path,
      if any. */
  function AfterRun(disk: Disk, path: string, run: Run): (d: Disk)
    ensures run.output.None? ==> d == disk
    ensures run.output.Some? ==> d == disk[path := run.output.value]
  {
    if run.output.Some? then disk[path := run.output.value] else disk
  }

  // ---------------------------------------------------------------------
  // Reference definition: the fallback chain as an ordered list of
  // strategies, each returning a verdict, folded until one decides.

  datatype Strategy = ModelScript | FilterTool | CopyUpload

  const Strategies: seq<Strategy> := [ModelScript, FilterTool, CopyUpload]

  /** A strategy's verdict: stop with the `transformed` flag, hand over to
      the next strategy, or fail the request. */
  datatype Verdict = Stop(transformed: bool) | Next | Fail(fault: Fault)

  /** What one request's strategies work on. `genreIsText` is false when the
      genre field held a file, whose `toLowerCase` does not exist. */
  datatype Job = Job(upload: seq<byte>, input: string, output: string, genre: string,
                     genreIsText: bool, world: World)

  datatype Tried = Tried(verdict: Verdict, disk: Disk, execs: seq<string>)

  function Try(s: Strategy, job: Job, disk: Disk): Tried {
    match s
    case ModelScript =>
      if BatchScript in disk && SpleeterScript in disk then
        var cmd := MlCommand(BatchScript, SpleeterScript, job.input, job.output, job.genre);
        var run := job.world.shell(cmd);
        var d := AfterRun(disk, job.output, run);
        // `statSync` of a missing upload throws, which the tier's `catch` swallows.
        Tried(if !run.threw && job.output in d && job.input in d then Stop(true) else Next, d, [cmd])
      else
        Tried(Next, disk, [])
    case FilterTool =>
      if job.world.shell(FfmpegProbe).threw || !job.genreIsText then
        // A rejected probe, or the TypeError of `genre.toLowerCase()`.
        Tried(Next, disk, [FfmpegProbe])
      else
        var cmd := FfmpegCommand(job.input, FilterChain(job.genre), job.output);
        var run := job.world.shell(cmd);
        var d := AfterRun(disk, job.output, run);
        Tried(if run.threw then Next else Stop(job.output in d), d, [FfmpegProbe, cmd])
    case CopyUpload =>
      if job.world.copyWriteFails then Tried(Fail(CopyWriteRejected), disk, [])
      else Tried(Stop(false), disk[job.output := job.upload], [])
  }

  /** Tries the strategies in order and stops at the first that decides. */
  function RunStrategies(ss: seq<Strategy>, job: Job, disk: Disk, execs: seq<string>): Tried
    decreases |ss|
  {
    if ss == [] then Tried(Next, disk, execs)
    else
      var t := Try(ss[0], job, disk);
      if t.verdict.Next? then RunStrategies(ss[1..], job, t.disk, execs + t.execs)
      else Tried(t.verdict, t.disk, execs + t.execs)
  }

  function Message(transformed: bool): string {
    if transformed then TransformedMessage else BasicEffectsMessage
  }

  /** What a request leaves behind: the response, the disk, and the command
      lines it ran, in order. */
  datatype Outcome = Outcome(response: Response, disk: Disk, execs: seq<string>)

  /** `!audioFile || !genre`. */
  predicate MissingField(form: Form) {
    !Present(form.audioFile) || !Present(form.genre)
  }

  function JobOf(world: World, file: Upload, genre: Field): Job {
    Job(file.bytes, UploadPath(world.timestamp, file.name),
        OutputPath(world.timestamp, file.name, Interpolated(genre)), Interpolated(genre), genre.Text?, world)
  }

  /** The request handled as validation, intake and the strategy fold. */
  function Handle(disk: Disk, world: World): Outcome {
    match world.form
    case None => Outcome(ServerError(ProcessingFailed, FormDataRejected), disk, [])
    case Some(form) =>
      if MissingField(form) then Outcome(BadRequest(MissingFields), disk, [])
      else if form.audioFile.value.Text? then Outcome(ServerError(ProcessingFailed, NotAFile), disk, [])
      else if world.uploadWriteFails then Outcome(ServerError(ProcessingFailed, UploadWriteRejected), disk, [])
      else
        var file, genre := form.audioFile.value.file, form.genre.value;
        var job := JobOf(world, file, genre);
        var t := RunStrategies(Strategies, job, disk[job.input := file.bytes], []);
        if t.verdict.Fail? then Outcome(ServerError(ProcessingFailed, t.verdict.fault), t.disk, t.execs)
        else Outcome(Ok(true, Message(t.verdict.Stop? && t.verdict.transformed),
                        ClientPath(world.timestamp, file.name, Interpolated(genre))), t.disk, t.execs)
  }

  // ---------------------------------------------------------------------
  // The route module's own `transformAudio` helper (never called by `POST`).

  /** How the helper's promise settles: with `true` or `false`, or rejected
      because the fallback `copyFileSync` threw. */
  datatype Settled = Resolved(value: bool) | Rejected

  /** The disk once the helper's ML command has run, or as it was when a
      script is missing. */
  function HelperRanDisk(disk: Disk, input: string, output: string, genre: string, shell: string -> Run): Disk {
    if SpleeterScript in disk && BatchScript in disk then
      AfterRun(disk, output, shell(MlCommand(BatchScript, SpleeterScript, input, output, genre)))
    else disk
  }

  /** `transformAudio(input, output, genre)`: a missing script, a rejected
      command or a missing output file all land in the `catch`, which copies
      the input over the output and resolves with `false`; a failing copy
      rejects. Otherwise it resolves with `true`. `copyFails` stands for an
      I/O error of the copy other than a missing source. */
  method TransformAudioHelper(disk: Disk, input: string, output: string, genre: string,
                              shell: string -> Run, copyFails: bool)
    returns (result: Settled, disk': Disk)
    ensures var cmd := MlCommand(BatchScript, SpleeterScript, input, output, genre);
            var ran := HelperRanDisk(disk, input, output, genre, shell);
            var succeeded := SpleeterScript in disk && BatchScript in disk && !shell(cmd).threw && output in ran;
            (result == Resolved(true) <==> succeeded) &&
            (result == Resolved(false) <==> !succeeded && input in ran && !copyFails) &&
            (result == Resolved(false) ==> disk' == ran[output := ran[input]]) &&
            (result != Resolved(false) ==> disk' == ran)
  {
    disk' := disk;
    var failed := false;
    if SpleeterScript !in disk' {
      failed := true;                 // Spleeter script not found
    } else if BatchScript !in disk' {
      failed := true;                 // Batch script not found
    } else {
      var cmd := MlCommand(BatchScript, SpleeterScript, input, output, genre);
      var run := shell(cmd);
      disk' := AfterRun(disk', output, run);
      if run.threw {
        failed := true;
      } else if output !in disk' {
        failed := true;               // Output file was not created
      }
    }
    if !failed {
      result := Resolved(true);
      return;
    }
    // Fall back to a plain copy; `copyFileSync` throws on a missing source.
    if input !in disk' || copyFails {
      result := Rejected;
      return;
    }
    disk' := disk'[output := disk'[input]];
    result := Resolved(false);
  }

  // ---------------------------------------------------------------------
  // The route itself, step by step.

  /** Tier 1 of `POST`: when both scripts are present, runs the ML command
      and counts the request as transformed when the command completes and
      the output file exists, whether or not its size differs from the
      upload's. */
  method MlTier(disk: Disk, job: Job) returns (disk': Disk, ran: seq<string>, transformed: bool)
    ensures Tried(if transformed then Stop(true) else Next, disk', ran) == Try(ModelScript, job, disk)
  {
    disk', ran, transformed := disk, [], false;
    if BatchScript in disk' && SpleeterScript in disk' {
      var cmd := MlCommand(BatchScript, SpleeterScript, job.input, job.output, job.genre);
      var run := job.world.shell(cmd);
      ran := ran + [cmd];
      disk' := AfterRun(disk', job.output, run);
      if !run.threw {
        if job.output in disk' && job.input in disk' {
          if |disk'[job.input]| != |disk'[job.output]| {
            transformed := true;
          } else {
            // Same size is still taken as transformed.
            transformed := true;
          }
        }
      }
    }
  }

  /** Tier 2 of `POST`: probes for ffmpeg, then runs it with the genre's
      filter chain. `fallBack` is set when either command rejects, or when
      the genre is a file and cannot be lower-cased; otherwise
      `transformed` says whether the output file exists afterwards. */
  method FilterTier(disk: Disk, job: Job) returns (disk': Disk, ran: seq<string>, fallBack: bool, transformed: bool)
    ensures Tried(if fallBack then Next else Stop(transformed), disk', ran) == Try(FilterTool, job, disk)
    ensures fallBack ==> !transformed
  {
    disk', transformed := disk, false;
    var probe := job.world.shell(FfmpegProbe);
    ran := [FfmpegProbe];
    fallBack := probe.threw;
    if !probe.threw && !job.genreIsText {
      fallBack := true;               // `genre.toLowerCase` is not a function
    } else if !probe.threw {
      var ffmpegCommand := "";
      var lower := ToLower(job.genre);
      if lower == "rock" {
        ffmpegCommand := FfmpegCommand(job.input, RockChain, job.output);
      } else if lower == "jazz" {
        ffmpegCommand := FfmpegCommand(job.input, JazzChain, job.output);
      } else if lower == "electronic" {
        ffmpegCommand := FfmpegCommand(job.input, ElectronicChain, job.output);
      } else if lower == "classical" {
        ffmpegCommand := FfmpegCommand(job.input, ClassicalChain, job.output);
      } else {
        ffmpegCommand := FfmpegCommand(job.input, DefaultChain, job.output);
      }
      var run := job.world.shell(ffmpegCommand);
      ran := ran + [ffmpegCommand];
      disk' := AfterRun(disk', job.output, run);
      fallBack := run.threw;
      if !run.threw {
        transformed := job.output in disk';
      }
    }
  }

  /** `POST`: one request, with the `transformed` flag carried across the
      ML, ffmpeg and copy tiers. It does what the strategy fold does. */
  method Post(disk: Disk, world: World) returns (response: Response, disk': Disk, execs: seq<string>)
    ensures Outcome(response, disk', execs) == Handle(disk, world)
  {
    disk', execs := disk, [];
    if world.form.None? {
      response := ServerError(ProcessingFailed, FormDataRejected);
      return;
    }
    var form := world.form.value;
    if !Present(form.audioFile) || !Present(form.genre) {
      response := BadRequest(MissingFields);
      return;
    }
    if form.audioFile.value.Text? {
      // `audioFile.arrayBuffer` is undefined on text: a TypeError.
      response := ServerError(ProcessingFailed, NotAFile);
      return;
    }
    var audioFile, genre := form.audioFile.value.file, Interpolated(form.genre.value);

    // Save the original file under `<timestamp>_<sanitized name>`.
    var timestamp := world.timestamp;
    var originalFilePath := UploadPath(timestamp, audioFile.name);
    if world.uploadWriteFails {
      response := ServerError(ProcessingFailed, UploadWriteRejected);
      return;
    }
    disk' := disk'[originalFilePath := audioFile.bytes];
    var transformedFilePath := OutputPath(timestamp, audioFile.name, genre);
    var job := Job(audioFile.bytes, originalFilePath, transformedFilePath, genre, form.genre.value.Text?, world);
    assert job == JobOf(world, audioFile, form.genre.value);

    ghost var full := RunStrategies(Strategies, job, disk', []);
    assert Strategies[0] == ModelScript && Strategies[1..] == [FilterTool, CopyUpload];
    assert [FilterTool, CopyUpload][1..] == [CopyUpload];

    var ran, transformed;
    disk', ran, transformed := MlTier(disk', job);
    execs := execs + ran;
    assert full == if transformed then Tried(Stop(true), disk', execs)
                   else RunStrategies([FilterTool, CopyUpload], job, disk', execs);
    if !transformed {
      var fallBack;
      disk', ran, fallBack, transformed := FilterTier(disk', job);
      execs := execs + ran;
      assert full == if fallBack then RunStrategies([CopyUpload], job, disk', execs)
                     else Tried(Stop(transformed), disk', execs);
      if fallBack {
        // Last resort: write the uploaded bytes to the output path.
        assert execs + [] == execs;
        if world.copyWriteFails {
          response := ServerError(ProcessingFailed, CopyWriteRejected);
          return;
        }
        disk' := disk'[transformedFilePath := audioFile.bytes];
        assert full == Tried(Stop(false), disk', execs);
      }
    }

    var clientTransformedPath := ClientPath(timestamp, audioFile.name, genre);
    response := Ok(true, if transformed then TransformedMessage else BasicEffectsMessage, clientTransformedPath);
  }
}
