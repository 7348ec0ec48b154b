/** What one `POST /api/transform` request promises, stated on the
    strategy-fold definition `Handle` that `TransformRoute.Post` is proved
    to follow. */
module TransformRouteFacts {
  import opened Text
  import opened TransformRoute

  /** The request gets past validation, its file field holds a file, and the
      upload is stored. */
  predicate Accepted(world: World) {
    world.form.Some? && !MissingField(world.form.value) &&
    world.form.value.audioFile.value.Blob? && !world.uploadWriteFails
  }

  /** The uploaded file of an accepted request. */
  function FileOf(world: World): Upload
    requires Accepted(world)
  {
    world.form.value.audioFile.value.file
  }

  /** The genre of an accepted request as it appears in file names and
      commands. */
  function GenreOf(world: World): string
    requires Accepted(world)
  {
    Interpolated(world.form.value.genre.value)
  }

  function JobFor(world: World): Job
    requires Accepted(world)
  {
    JobOf(world, FileOf(world), world.form.value.genre.value)
  }

  /** The genre field held text, so `genre.toLowerCase()` can run. */
  predicate GenreIsText(world: World)
    requires Accepted(world)
  {
    world.form.value.genre.value.Text?
  }

  /** The disk once the upload has been written. */
  function Intake(disk: Disk, world: World): Disk
    requires Accepted(world)
  {
    disk[JobFor(world).input := FileOf(world).bytes]
  }

  /** Tier 1's result for an accepted request. */
  function MlTried(disk: Disk, world: World): Tried
    requires Accepted(world)
  {
    Try(ModelScript, JobFor(world), Intake(disk, world))
  }

  /** Tier 2's result for an accepted request (meaningful only when tier 1
      handed over). */
  function ToolTried(disk: Disk, world: World): Tried
    requires Accepted(world)
  {
    Try(FilterTool, JobFor(world), MlTried(disk, world).disk)
  }

  /** The upload directory and the output directory differ, so the two
      paths of one request never clash. */
  lemma UploadAndOutputPathsDiffer(timestamp: nat, name: string, genre: string)
    ensures UploadPath(timestamp, name) != OutputPath(timestamp, name, genre)
  {
    assert UploadPath(timestamp, name)[7] == 'u';
    assert OutputPath(timestamp, name, genre)[7] == 't';
  }

  /** A body that is not form data ends in a 500, a missing or empty field
      ends in a 400, and a text value in the file field ends in a 500 when
      the route asks it for its bytes; none touches the disk or runs
      anything. */
  lemma RejectedRequests(disk: Disk, world: World)
    requires !Accepted(world)
    ensures var o := Handle(disk, world);
            o.disk == disk && o.execs == [] &&
            (world.form.None? ==> o.response == ServerError(ProcessingFailed, FormDataRejected)) &&
            (world.form.Some? && MissingField(world.form.value) ==> o.response == BadRequest(MissingFields)) &&
            (world.form.Some? && !MissingField(world.form.value) && world.form.value.audioFile.value.Text? ==>
               o.response == ServerError(ProcessingFailed, NotAFile)) &&
            (world.form.Some? && !MissingField(world.form.value) && world.form.value.audioFile.value.Blob? ==>
               o.response == ServerError(ProcessingFailed, UploadWriteRejected))
  {
  }

  /** The fold for an accepted request, tier by tier: stop after tier 1 when
      it decides, otherwise stop after tier 2 when it decides, otherwise
      copy the upload. */
  lemma HandleByTiers(disk: Disk, world: World)
    requires Accepted(world)
    ensures var o := Handle(disk, world);
            var job, ml, tool := JobFor(world), MlTried(disk, world), ToolTried(disk, world);
            var ts, name, genre := world.timestamp, FileOf(world).name, GenreOf(world);
            if ml.verdict == Stop(true) then
              o == Outcome(Ok(true, TransformedMessage, ClientPath(ts, name, genre)), ml.disk, ml.execs)
            else if tool.verdict.Stop? then
              o == Outcome(Ok(true, Message(tool.verdict.transformed), ClientPath(ts, name, genre)), tool.disk, ml.execs + tool.execs)
            else if world.copyWriteFails then
              o == Outcome(ServerError(ProcessingFailed, CopyWriteRejected), tool.disk, ml.execs + tool.execs)
            else
              o == Outcome(Ok(true, BasicEffectsMessage, ClientPath(ts, name, genre)),
                           tool.disk[job.output := job.upload], ml.execs + tool.execs)
  {
    var job, d0 := JobFor(world), Intake(disk, world);
    var ml, tool := MlTried(disk, world), ToolTried(disk, world);
    assert Strategies[1..] == [FilterTool, CopyUpload] && [FilterTool, CopyUpload][1..] == [CopyUpload];
    assert [CopyUpload][1..] == [];
    assert ml.verdict == Stop(true) || ml.verdict == Next;
    assert tool.verdict.Stop? || tool.verdict == Next;
    var t := RunStrategies(Strategies, job, d0, []);
    assert [] + ml.execs == ml.execs;
    if ml.verdict == Next {
      assert t == RunStrategies([FilterTool, CopyUpload], job, ml.disk, ml.execs);
      if tool.verdict == Next {
        assert t == RunStrategies([CopyUpload], job, tool.disk, ml.execs + tool.execs);
        assert ml.execs + tool.execs + [] == ml.execs + tool.execs;
      }
    }
  }

  /** Every accepted request either answers 200 with `success: true`, one of
      the two messages and the browser path of its output, or fails with a
      500 only because the last-resort copy could not be written; the
      stored upload is never overwritten by a tier. */
  lemma AcceptedRequestsAnswer(disk: Disk, world: World)
    requires Accepted(world)
    ensures var o := Handle(disk, world);
            var file, genre := FileOf(world), GenreOf(world);
            (o.response.Ok? || o.response == ServerError(ProcessingFailed, CopyWriteRejected)) &&
            (o.response.Ok? ==>
               o.response.success &&
               o.response.message in {TransformedMessage, BasicEffectsMessage} &&
               o.response.transformedFilePath == ClientPath(world.timestamp, file.name, genre)) &&
            UploadPath(world.timestamp, file.name) in o.disk &&
            o.disk[UploadPath(world.timestamp, file.name)] == file.bytes
  {
    var file, genre := FileOf(world), GenreOf(world);
    UploadAndOutputPathsDiffer(world.timestamp, file.name, genre);
    HandleByTiers(disk, world);
  }

  /** A request changes the disk at most at its two paths: the stored upload
      and the output file. */
  lemma OnlyTwoPathsChange(disk: Disk, world: World, p: string)
    requires Accepted(world)
    requires p != JobFor(world).input && p != JobFor(world).output
    ensures var o := Handle(disk, world);
            (p in o.disk <==> p in disk) && (p in disk ==> o.disk[p] == disk[p])
  {
    HandleByTiers(disk, world);
  }

  /** Tier 1 decides exactly when both scripts exist, the ML command
      completes, and the output file exists afterwards; the output's size is
      never consulted. When it decides, ffmpeg is never run. */
  lemma MlTierDecides(disk: Disk, world: World)
    requires Accepted(world)
    ensures var job, d0 := JobFor(world), Intake(disk, world);
            var cmd := MlCommand(BatchScript, SpleeterScript, job.input, job.output, job.genre);
            var ml := MlTried(disk, world);
            (ml.verdict == Stop(true) <==>
              BatchScript in d0 && SpleeterScript in d0 && !world.shell(cmd).threw &&
              job.output in AfterRun(d0, job.output, world.shell(cmd)))
    ensures MlTried(disk, world).verdict == Stop(true) ==>
              Handle(disk, world).execs == [MlCommand(BatchScript, SpleeterScript, JobFor(world).input, JobFor(world).output, JobFor(world).genre)] &&
              Handle(disk, world).response.message == TransformedMessage
  {
    var job := JobFor(world);
    UploadAndOutputPathsDiffer(world.timestamp, FileOf(world).name, GenreOf(world));
    HandleByTiers(disk, world);
  }

  /** The reply says "Audio transformed successfully" exactly when tier 1
      decided, or tier 2 ran ffmpeg to completion and the output file then
      existed. */
  lemma TransformedMessageIff(disk: Disk, world: World)
    requires Accepted(world)
    ensures var o, ml, tool := Handle(disk, world), MlTried(disk, world), ToolTried(disk, world);
            (o.response.Ok? && o.response.message == TransformedMessage) <==>
              (ml.verdict == Stop(true) || (ml.verdict == Next && tool.verdict == Stop(true)))
    ensures var o := Handle(disk, world);
            o.response.Ok? && o.response.message == TransformedMessage ==> JobFor(world).output in o.disk
  {
    HandleByTiers(disk, world);
  }

  /** When no tool produces anything (no scripts, or the ML command fails
      without output, and ffmpeg is missing or rejects without output), the
      output file holds exactly the uploaded bytes and the reply says
      "Audio processed with basic effects". */
  lemma CopyFallbackKeepsUpload(disk: Disk, world: World)
    requires Accepted(world)
    requires MlTried(disk, world).verdict == Next && ToolTried(disk, world).verdict == Next
    requires !world.copyWriteFails
    ensures var o, job := Handle(disk, world), JobFor(world);
            o.response.Ok? && o.response.message == BasicEffectsMessage &&
            job.output in o.disk && o.disk[job.output] == FileOf(world).bytes
  {
    HandleByTiers(disk, world);
  }

  /** The route can answer `success: true` without any output file: when
      tier 1 does not decide and ffmpeg runs to completion but writes
      nothing, no copy is made. */
  lemma SuccessWithoutOutputFile(disk: Disk, world: World)
    requires Accepted(world)
    requires MlTried(disk, world).verdict == Next
    requires JobFor(world).output !in MlTried(disk, world).disk
    requires !world.shell(FfmpegProbe).threw && GenreIsText(world)
    requires var cmd := FfmpegCommand(JobFor(world).input, FilterChain(JobFor(world).genre), JobFor(world).output);
             world.shell(cmd) == Run(false, None)
    ensures var o := Handle(disk, world);
            o.response.Ok? && o.response.success && o.response.message == BasicEffectsMessage &&
            JobFor(world).output !in o.disk
  {
    HandleByTiers(disk, world);
  }

  /** ffmpeg is given the genre's filter chain chosen on its lower-cased
      spelling, so `Rock` and `rock` run the same command. */
  lemma FfmpegCommandFollowsGenre(disk: Disk, world: World)
    requires Accepted(world)
    requires MlTried(disk, world).verdict == Next && !world.shell(FfmpegProbe).threw && GenreIsText(world)
    ensures var job := JobFor(world);
            Handle(disk, world).execs ==
              MlTried(disk, world).execs + [FfmpegProbe, FfmpegCommand(job.input, FilterChain(job.genre), job.output)]
  {
    HandleByTiers(disk, world);
  }

  /** A file in the genre field passes validation and is named
      `[object File]` in the output path, but tier 2 never runs ffmpeg:
      lower-casing the file throws, so only the probe runs and the request
      falls through to the copy unless tier 1 decided. */
  lemma FileGenreSkipsFfmpeg(disk: Disk, world: World)
    requires Accepted(world) && !GenreIsText(world)
    ensures GenreOf(world) == "[object File]"
    ensures ToolTried(disk, world) == Tried(Next, MlTried(disk, world).disk, [FfmpegProbe])
    ensures var o := Handle(disk, world);
            MlTried(disk, world).verdict == Next && !world.copyWriteFails ==>
              o.response.Ok? && o.response.message == BasicEffectsMessage &&
              o.execs == MlTried(disk, world).execs + [FfmpegProbe] &&
              o.disk[JobFor(world).output] == FileOf(world).bytes
  {
    HandleByTiers(disk, world);
  }
}
