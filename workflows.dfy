/**
 * What each workflow of `PogodocClient` (src/index.ts) does against a given
 * script: the events it makes, in order, and what it returns or throws. The
 * methods of the client are proved to do exactly this; the lemmas here state
 * what these runs guarantee.
 */
module Workflows {
  import opened Wrappers
  import opened Types
  import opened Remote
  import opened Upload
  import opened Polling

  const ZipContentType := "application/zip"
  const JsonContentType := "application/json"
  const HtmlContentType := "text/html"

  /** The `templateInfo` both template pipelines send: the metadata without `formatOpts`. */
  function InfoOf(metadata: SaveTemplateMetadata): TemplateInfo {
    TemplateInfo(metadata.title, metadata.description, metadata.formatType,
                 metadata.categories, metadata.sampleData, metadata.sourceCode)
  }

  /** The preview identifiers, each taken from the preview of its own format. */
  function PreviewIdsOf(previews: TemplatePreviews): PreviewIds {
    PreviewIds(previews.pngPreview.jobId, previews.pdfPreview.jobId)
  }

  /** The reply of a step whose own value is not used, turned into the pipeline's value. */
  function Returning<A, T>(reply: Reply<A>, value: T): Reply<T> {
    match reply
    case Ok(_) => Ok(value)
    case Err(e) => Err(e)
  }

  /**
   * The four steps both template pipelines share: upload the zip to the
   * presigned URL, extract, generate previews; `finish` is the last step once
   * the previews are known.
   */
  function TemplatePipeline(
    s: Script, payload: Stream, payloadLength: int, metadata: SaveTemplateMetadata,
    finish: (TemplateCreation, TemplatePreviews) -> Run<string>): Run<string>
  {
    match Next(s.templateCreations)
    case Err(e) => Run([InitializeTemplateCreation], Err(e))
    case Ok(creation) =>
      var id := creation.templateId;
      var previewsEvent := GenerateTemplatePreviews(id, PreviewsRequest(metadata.formatType, metadata.sampleData));
      var last := match Next(s.previews)
        case Err(e) => Run([previewsEvent], Err(e))
        case Ok(previews) => Run([previewsEvent], Ok(())).Then(finish(creation, previews));
      Run([InitializeTemplateCreation], Ok(()))
        .Then(UploadRun(s.puts, creation.presignedTemplateUploadUrl, payload, payloadLength, Some(ZipContentType)))
        .Then(Run([ExtractTemplateFiles(id)], Next(s.extractions)))
        .Then(last)
  }

  /** `saveTemplateFromFileStream`: register the new template and return its identifier. */
  function CreateTemplateRun(s: Script, payload: Stream, payloadLength: int, metadata: SaveTemplateMetadata): (run: Run<string>)
    ensures 1 <= |run.events| <= 5 && run.events[0] == InitializeTemplateCreation
    ensures run.result.Ok? <==> PipelineSucceeds(s, Next(s.savedTemplates))
    ensures run.result.Ok? ==> run.result.value == Next(s.templateCreations).value.templateId
  {
    TemplatePipeline(s, payload, payloadLength, metadata,
      (creation: TemplateCreation, previews: TemplatePreviews) =>
        Run([SaveCreatedTemplate(creation.templateId,
                                 SaveCreatedTemplateRequest(InfoOf(metadata), PreviewIdsOf(previews)))],
            Returning(Next(s.savedTemplates), creation.templateId)))
  }

  /** `updateTemplateFromFileStream`: bind the new content to `props.templateId` and return the content identifier. */
  function UpdateTemplateRun(s: Script, payload: Stream, payloadLength: int, props: UpdateTemplateProps): (run: Run<string>)
    ensures 1 <= |run.events| <= 5 && run.events[0] == InitializeTemplateCreation
    ensures run.result.Ok? <==> PipelineSucceeds(s, Next(s.updatedTemplates))
    ensures run.result.Ok? ==> run.result.value == Next(s.templateCreations).value.templateId
  {
    TemplatePipeline(s, payload, payloadLength, props.metadata,
      (creation: TemplateCreation, previews: TemplatePreviews) =>
        Run([UpdateTemplate(props.templateId,
                            UpdateTemplateRequest(creation.templateId, InfoOf(props.metadata), PreviewIdsOf(previews)))],
            Returning(Next(s.updatedTemplates), creation.templateId)))
  }

  /** The five steps of a template pipeline succeed. */
  predicate PipelineSucceeds(s: Script, lastReply: Reply<Ack>) {
    Next(s.templateCreations).Ok? && Next(s.puts).Ok? && Next(s.extractions).Ok? && Next(s.previews).Ok? && lastReply.Ok?
  }

  /**
   * Creating a template makes exactly five calls, in order, threading the
   * initialized identifier through them, and returns that identifier; the
   * preview identifiers come from the matching previews.
   */
  lemma CreateTemplateSequence(s: Script, payload: Stream, payloadLength: int, metadata: SaveTemplateMetadata)
    requires PipelineSucceeds(s, Next(s.savedTemplates))
    ensures var creation := Next(s.templateCreations).value;
      var previews := Next(s.previews).value;
      var id := creation.templateId;
      var run := CreateTemplateRun(s, payload, payloadLength, metadata);
      && run.events == [
           InitializeTemplateCreation,
           Put(creation.presignedTemplateUploadUrl, payload, UploadHeaders(payloadLength, Some(ZipContentType))),
           ExtractTemplateFiles(id),
           GenerateTemplatePreviews(id, PreviewsRequest(metadata.formatType, metadata.sampleData)),
           SaveCreatedTemplate(id, SaveCreatedTemplateRequest(InfoOf(metadata),
                                   PreviewIds(previews.pngPreview.jobId, previews.pdfPreview.jobId)))]
      && run.result == Ok(id)
  {
  }

  /**
   * Updating makes the same first four calls as creating would; its last call
   * binds the initialized content to the existing template identifier, and it
   * returns the content identifier, not the template identifier.
   */
  lemma UpdateTemplateSequence(s: Script, payload: Stream, payloadLength: int, props: UpdateTemplateProps)
    requires PipelineSucceeds(s, Next(s.updatedTemplates))
    ensures var creation := Next(s.templateCreations).value;
      var previews := Next(s.previews).value;
      var update := UpdateTemplateRun(s, payload, payloadLength, props);
      var create := CreateTemplateRun(s.(savedTemplates := [Ok(Ack)]), payload, payloadLength, props.metadata);
      && |update.events| == |create.events| == 5
      && update.events[..4] == create.events[..4]
      && update.events[4] == UpdateTemplate(props.templateId,
           UpdateTemplateRequest(creation.templateId, InfoOf(props.metadata),
                                 PreviewIds(previews.pngPreview.jobId, previews.pdfPreview.jobId)))
      && update.result == Ok(creation.templateId)
  {
    var creation := Next(s.templateCreations).value;
    var previews := Next(s.previews).value;
    var id := creation.templateId;
    var shared := [
      InitializeTemplateCreation,
      Put(creation.presignedTemplateUploadUrl, payload, UploadHeaders(payloadLength, Some(ZipContentType))),
      ExtractTemplateFiles(id),
      GenerateTemplatePreviews(id, PreviewsRequest(props.metadata.formatType, props.metadata.sampleData))];
    var last := UpdateTemplate(props.templateId,
      UpdateTemplateRequest(id, InfoOf(props.metadata), PreviewIdsOf(previews)));
    assert UpdateTemplateRun(s, payload, payloadLength, props).events == shared + [last];
    CreateTemplateSequence(s.(savedTemplates := [Ok(Ack)]), payload, payloadLength, props.metadata);
  }

  /**
   * A template pipeline stops at its first failing step and throws that step's
   * error (the uniform upload error for the upload); nothing is called after it
   * and nothing already done is undone.
   */
  lemma CreateTemplateStopsAtFailure(s: Script, payload: Stream, payloadLength: int, metadata: SaveTemplateMetadata)
    ensures var run := CreateTemplateRun(s, payload, payloadLength, metadata);
      && (Next(s.templateCreations).Err? ==>
            run == Run([InitializeTemplateCreation], Err(Next(s.templateCreations).error)))
      && (Next(s.templateCreations).Ok? && Next(s.puts).Err? ==>
            |run.events| == 2 && run.result == Err(UploadFailed(UploadErrorMessage)))
      && (Next(s.templateCreations).Ok? && Next(s.puts).Ok? && Next(s.extractions).Err? ==>
            |run.events| == 3 && run.result == Err(Next(s.extractions).error))
      && (Next(s.templateCreations).Ok? && Next(s.puts).Ok? && Next(s.extractions).Ok? && Next(s.previews).Err? ==>
            |run.events| == 4 && run.result == Err(Next(s.previews).error))
      && (Next(s.templateCreations).Ok? && Next(s.puts).Ok? && Next(s.extractions).Ok? && Next(s.previews).Ok?
          && Next(s.savedTemplates).Err? ==>
            |run.events| == 5 && run.result == Err(Next(s.savedTemplates).error))
  {
  }

  /**
   * Updating stops at its first failing step in the same way: nothing is
   * called after it, and that step's error is thrown.
   */
  lemma UpdateTemplateStopsAtFailure(s: Script, payload: Stream, payloadLength: int, props: UpdateTemplateProps)
    ensures var run := UpdateTemplateRun(s, payload, payloadLength, props);
      && (Next(s.templateCreations).Err? ==>
            run == Run([InitializeTemplateCreation], Err(Next(s.templateCreations).error)))
      && (Next(s.templateCreations).Ok? && Next(s.puts).Err? ==>
            |run.events| == 2 && run.result == Err(UploadFailed(UploadErrorMessage)))
      && (Next(s.templateCreations).Ok? && Next(s.puts).Ok? && Next(s.extractions).Err? ==>
            |run.events| == 3 && run.result == Err(Next(s.extractions).error))
      && (Next(s.templateCreations).Ok? && Next(s.puts).Ok? && Next(s.extractions).Ok? && Next(s.previews).Err? ==>
            |run.events| == 4 && run.result == Err(Next(s.previews).error))
      && (Next(s.templateCreations).Ok? && Next(s.puts).Ok? && Next(s.extractions).Ok? && Next(s.previews).Ok?
          && Next(s.updatedTemplates).Err? ==>
            |run.events| == 5 && run.result == Err(Next(s.updatedTemplates).error))
  {
  }

  // ---------------------------------------------------------------------------
  // Document generation

  /** The request of `initializeRenderJob`: built from the render configuration and the caller's `templateId`. */
  function InitRequest(props: GenerateDocumentProps): InitializeRenderJobRequest {
    InitializeRenderJobRequest(props.renderConfig.formatType, props.renderConfig.target,
                               props.templateId, props.renderConfig.formatOpts)
  }

  /** The inline template string never reaches the initialization request. */
  lemma InitRequestIgnoresTemplate(props: GenerateDocumentProps, template: Option<string>)
    ensures InitRequest(props.(template := template)) == InitRequest(props)
    ensures InitRequest(props).templateId == props.templateId
  {
  }

  /** The request of `startImmediateRender`: every field passed through as given, with no check on `template` and `templateId`. */
  function ImmediateRequest(props: GenerateDocumentProps): StartImmediateRenderRequest {
    StartImmediateRenderRequest(props.template, props.templateId, props.renderConfig.formatType,
                                props.renderConfig.target, props.renderConfig.formatOpts, props.data)
  }

  /** `generateDocumentImmediate`: one call, whose reply is passed back as it is. */
  function ImmediateRun(s: Script, props: GenerateDocumentProps): (run: Run<ImmediateRender>)
    ensures |run.events| == 1 && run.events[0].StartImmediateRender?
    ensures var request := run.events[0].immediateRequest;
      && request.template == props.template && request.templateId == props.templateId
      && request.formatType == props.renderConfig.formatType && request.target == props.renderConfig.target
      && request.formatOpts == props.renderConfig.formatOpts && request.data == props.data
    ensures run.result == Next(s.immediateRenders)
  {
    Run([StartImmediateRender(ImmediateRequest(props))], Next(s.immediateRenders))
  }

  /** The data is uploaded when initialization returns a data upload URL. */
  predicate UploadsData(job: InitializeRenderJobResponse) {
    Truthy(job.presignedDataUploadUrl)
  }

  /** The inline template is uploaded when there is one and initialization returns a template upload URL. */
  predicate UploadsTemplate(props: GenerateDocumentProps, job: InitializeRenderJobResponse) {
    Truthy(props.template) && Truthy(job.presignedTemplateUploadUrl)
  }

  /** An upload that happens only when `when` holds, as a step of the workflow. */
  function UploadStep(when: bool, puts: seq<Reply<PutResponse>>, url: string, body: string, contentType: string): Run<()> {
    if when then UploadRun(puts, url, TextStream(body), |body|, Some(contentType)).Then(Run([], Ok(())))
    else Run([], Ok(()))
  }

  /** The data upload of `startGenerateDocument`: the JSON text of the data, to the data URL, if one came back. */
  function DataStep(s: Script, props: GenerateDocumentProps, stringify: Json -> string, job: InitializeRenderJobResponse): Run<()> {
    UploadStep(UploadsData(job), s.puts, job.presignedDataUploadUrl.GetOr(""), stringify(props.data), JsonContentType)
  }

  /** The template upload: the inline template, to the template URL; it uses the next put reply after the data upload's. */
  function TemplateStep(s: Script, props: GenerateDocumentProps, job: InitializeRenderJobResponse): Run<()> {
    var puts := if UploadsData(job) then Rest(s.puts) else s.puts;
    UploadStep(UploadsTemplate(props, job), puts, job.presignedTemplateUploadUrl.GetOr(""), props.template.GetOr(""),
               HtmlContentType)
  }

  /** Starting the initialized job, with only the caller's personal upload URL. */
  function StartStep(s: Script, props: GenerateDocumentProps, job: InitializeRenderJobResponse): Run<StartRenderJobResponse> {
    Run([StartRenderJob(job.jobId, StartRenderJobRequest(props.renderConfig.personalUploadPresignedS3Url))],
        Next(s.startedJobs))
  }

  /** `startGenerateDocument`, with `stringify` standing for `JSON.stringify`. */
  function StartGenerateRun(s: Script, props: GenerateDocumentProps, stringify: Json -> string): (run: Run<StartRenderJobResponse>)
    ensures 1 <= |run.events| <= 4 && run.events[0] == InitializeRenderJob(InitRequest(props))
    ensures Next(s.renderJobs).Err? ==> run.result == Err(Next(s.renderJobs).error)
    ensures run.result.Ok? ==>
      && Next(s.renderJobs).Ok?
      && run.result == Next(s.startedJobs)
      && run.events[|run.events| - 1]
           == StartRenderJob(Next(s.renderJobs).value.jobId,
                             StartRenderJobRequest(props.renderConfig.personalUploadPresignedS3Url))
  {
    var init := InitializeRenderJob(InitRequest(props));
    match Next(s.renderJobs)
    case Err(e) => Run([init], Err(e))
    case Ok(job) =>
      Run([init], Ok(())).Then(DataStep(s, props, stringify, job)).Then(TemplateStep(s, props, job)).Then(StartStep(s, props, job))
  }

  /** `generateDocument`: start the job, then poll the job the start returned, with the default budget. */
  function GenerateRun(s: Script, props: GenerateDocumentProps, stringify: Json -> string): (run: Run<JobStatus>)
    ensures StartGenerateRun(s, props, stringify).events <= run.events
    ensures run.result.Ok? ==> StartGenerateRun(s, props, stringify).result.Ok?
  {
    PollStarted(StartGenerateRun(s, props, stringify), s.jobStatuses)
  }

  /** What follows a start: nothing if it threw, otherwise polling the job it started with the default budget. */
  function PollStarted(started: Run<StartRenderJobResponse>, statuses: seq<Reply<JobStatus>>): Run<JobStatus> {
    match started.result
    case Err(e) => Run(started.events, Err(e))
    case Ok(job) =>
      var poll := PollRun(statuses, job.jobId, DefaultMaxAttempts, DefaultIntervalMs);
      Run(started.events + poll.events, poll.result)
  }

  predicate IsInitialize(e: Event) { e.InitializeRenderJob? }

  predicate IsPut(e: Event) { e.Put? }

  /**
   * Starting a generation, whatever the props (with both, one or neither of
   * `template` and `templateId`): the first call is the one initialization, it
   * carries the request built from the props, and it is the only one.
   */
  lemma StartGenerateInitializesOnce(s: Script, props: GenerateDocumentProps, stringify: Json -> string)
    ensures var run := StartGenerateRun(s, props, stringify);
      && |run.events| >= 1
      && run.events[0] == InitializeRenderJob(InitRequest(props))
      && CountWhere(run.events, IsInitialize) == 1
  {
    if Next(s.renderJobs).Ok? {
      var job := Next(s.renderJobs).value;
      var later := StartGenerateLater(s, props, stringify, job);
      StartGenerateSplit(s, props, stringify);
      CountWhereConcat([InitializeRenderJob(InitRequest(props))], later, IsInitialize);
      LaterCounts(s, props, stringify, job);
    }
  }

  /** The calls after a successful initialization: the uploads that ran, then the start if they all succeeded. */
  function StartGenerateLater(s: Script, props: GenerateDocumentProps, stringify: Json -> string,
                              job: InitializeRenderJobResponse): seq<Event> {
    var data := DataStep(s, props, stringify, job);
    var template := TemplateStep(s, props, job);
    data.events
      + (if data.result.Ok? then template.events else [])
      + (if data.result.Ok? && template.result.Ok? then StartStep(s, props, job).events else [])
  }

  lemma StartGenerateSplit(s: Script, props: GenerateDocumentProps, stringify: Json -> string)
    requires Next(s.renderJobs).Ok?
    ensures StartGenerateRun(s, props, stringify).events
      == [InitializeRenderJob(InitRequest(props))] + StartGenerateLater(s, props, stringify, Next(s.renderJobs).value)
  {
    var job := Next(s.renderJobs).value;
    var init := [InitializeRenderJob(InitRequest(props))];
    var data := DataStep(s, props, stringify, job);
    var template := TemplateStep(s, props, job);
    var start := StartStep(s, props, job);
    if data.result.Err? {
      assert StartGenerateLater(s, props, stringify, job) == data.events;
    } else if template.result.Err? {
      assert StartGenerateLater(s, props, stringify, job) == data.events + template.events;
      ConcatAssoc(init, data.events, template.events);
    } else {
      assert StartGenerateLater(s, props, stringify, job) == data.events + template.events + start.events;
      ConcatAssoc(init, data.events, template.events);
      ConcatAssoc(init, data.events + template.events, start.events);
    }
  }

  /** An optional upload step makes one put when it runs, none otherwise, and nothing else. */
  lemma UploadStepCounts(when: bool, puts: seq<Reply<PutResponse>>, url: string, body: string, contentType: string)
    ensures var step := UploadStep(when, puts, url, body, contentType);
      && CountWhere(step.events, IsPut) == (if when then 1 else 0)
      && CountWhere(step.events, IsInitialize) == 0
  {
  }

  /** After the initialization there is no other initialization, and at most one put per URL that came back. */
  lemma LaterCounts(s: Script, props: GenerateDocumentProps, stringify: Json -> string, job: InitializeRenderJobResponse)
    ensures var later := StartGenerateLater(s, props, stringify, job);
      && CountWhere(later, IsInitialize) == 0
      && CountWhere(later, IsPut) <= (if UploadsData(job) then 1 else 0) + (if UploadsTemplate(props, job) then 1 else 0)
  {
    var data := DataStep(s, props, stringify, job);
    var template := TemplateStep(s, props, job);
    var middle := if data.result.Ok? then template.events else [];
    var tail := if data.result.Ok? && template.result.Ok? then StartStep(s, props, job).events else [];
    UploadStepCounts(UploadsData(job), s.puts, job.presignedDataUploadUrl.GetOr(""), stringify(props.data), JsonContentType);
    UploadStepCounts(UploadsTemplate(props, job), if UploadsData(job) then Rest(s.puts) else s.puts,
                     job.presignedTemplateUploadUrl.GetOr(""), props.template.GetOr(""), HtmlContentType);
    CountWhereConcat(data.events + middle, tail, IsInitialize);
    CountWhereConcat(data.events, middle, IsInitialize);
    CountWhereConcat(data.events + middle, tail, IsPut);
    CountWhereConcat(data.events, middle, IsPut);
  }

  /** A trace with no event satisfying p counts none. */
  lemma {:induction false} NoneCounted(events: seq<Event>, p: Event -> bool)
    requires forall e :: e in events ==> !p(e)
    ensures CountWhere(events, p) == 0
    decreases |events|
  {
    if events != [] {
      NoneCounted(events[1..], p);
    }
  }

  /**
   * When initialization and the uploads that run succeed, starting a
   * generation makes: the initialization;
   * the data upload (the JSON string, its length, `application/json`) exactly
   * when a data URL came back; the template upload (the template, its length,
   * `text/html`) exactly when there is a template and a template URL came back;
   * then the start of the initialized job with only the caller's personal
   * upload URL. It returns the start's reply.
   */
  lemma StartGenerateSequence(s: Script, props: GenerateDocumentProps, stringify: Json -> string)
    requires Next(s.renderJobs).Ok?
    requires UploadsData(Next(s.renderJobs).value) ==> Nth(s.puts, 0).Ok?
    requires UploadsTemplate(props, Next(s.renderJobs).value) ==>
      Nth(s.puts, if UploadsData(Next(s.renderJobs).value) then 1 else 0).Ok?
    ensures var job := Next(s.renderJobs).value;
      var dataString := stringify(props.data);
      var run := StartGenerateRun(s, props, stringify);
      && run.events ==
           [InitializeRenderJob(InitRequest(props))]
           + (if UploadsData(job) then
                [Put(job.presignedDataUploadUrl.value, TextStream(dataString),
                     UploadHeaders(|dataString|, Some(JsonContentType)))]
              else [])
           + (if UploadsTemplate(props, job) then
                [Put(job.presignedTemplateUploadUrl.value, TextStream(props.template.value),
                     UploadHeaders(|props.template.value|, Some(HtmlContentType)))]
              else [])
           + [StartRenderJob(job.jobId, StartRenderJobRequest(props.renderConfig.personalUploadPresignedS3Url))]
      && run.result == Next(s.startedJobs)
  {
    RestShifts(s.puts);
  }

  /**
   * Starting a generation stops at its first failing call and throws its
   * error: a failed initialization before anything else; a failed data upload
   * with the uniform upload error, before the template upload and the start; a
   * failed template upload right after it, before the start.
   */
  lemma StartGenerateStopsAtFailure(s: Script, props: GenerateDocumentProps, stringify: Json -> string)
    ensures var run := StartGenerateRun(s, props, stringify);
      var init := InitializeRenderJob(InitRequest(props));
      && (Next(s.renderJobs).Err? ==> run == Run([init], Err(Next(s.renderJobs).error)))
      && (Next(s.renderJobs).Ok? && UploadsData(Next(s.renderJobs).value) && Next(s.puts).Err? ==>
            var job := Next(s.renderJobs).value;
            var dataString := stringify(props.data);
            run == Run([init, Put(job.presignedDataUploadUrl.value, TextStream(dataString),
                                  UploadHeaders(|dataString|, Some(JsonContentType)))],
                       Err(UploadFailed(UploadErrorMessage))))
      && (Next(s.renderJobs).Ok? && !UploadsData(Next(s.renderJobs).value)
          && UploadsTemplate(props, Next(s.renderJobs).value) && Next(s.puts).Err? ==>
            var job := Next(s.renderJobs).value;
            run == Run([init, Put(job.presignedTemplateUploadUrl.value, TextStream(props.template.value),
                                  UploadHeaders(|props.template.value|, Some(HtmlContentType)))],
                       Err(UploadFailed(UploadErrorMessage))))
      && (Next(s.renderJobs).Ok? && UploadsData(Next(s.renderJobs).value) && Next(s.puts).Ok?
          && UploadsTemplate(props, Next(s.renderJobs).value) && Nth(s.puts, 1).Err? ==>
            var job := Next(s.renderJobs).value;
            |run.events| == 3
            && run.events[2] == Put(job.presignedTemplateUploadUrl.value, TextStream(props.template.value),
                                    UploadHeaders(|props.template.value|, Some(HtmlContentType)))
            && run.result == Err(UploadFailed(UploadErrorMessage)))
  {
    RestShifts(s.puts);
  }

  /**
   * Starting a generation makes at most one upload per presigned URL it was
   * given, and none when initialization throws or gives none.
   */
  lemma StartGenerateUploadCount(s: Script, props: GenerateDocumentProps, stringify: Json -> string)
    ensures var run := StartGenerateRun(s, props, stringify);
      CountWhere(run.events, IsPut)
        <= (if Next(s.renderJobs).Ok? && UploadsData(Next(s.renderJobs).value) then 1 else 0)
         + (if Next(s.renderJobs).Ok? && UploadsTemplate(props, Next(s.renderJobs).value) then 1 else 0)
  {
    if Next(s.renderJobs).Ok? {
      var job := Next(s.renderJobs).value;
      StartGenerateSplit(s, props, stringify);
      CountWhereConcat([InitializeRenderJob(InitRequest(props))], StartGenerateLater(s, props, stringify, job), IsPut);
      LaterCounts(s, props, stringify, job);
    }
  }

  /**
   * Generating a document starts the job and then polls exactly the job the
   * start returned, with the default budget: the start's calls come first; when
   * starting throws, its error is returned and nothing is polled; otherwise the
   * reply to the stopping fetch is returned after k + 1 fetches, k the stop
   * index. Every status fetch is for the started job.
   */
  lemma GenerateDocumentPollsStartedJob(s: Script, props: GenerateDocumentProps, stringify: Json -> string)
    ensures var started := StartGenerateRun(s, props, stringify);
      var run := GenerateRun(s, props, stringify);
      && started.events <= run.events
      && (started.result.Err? ==> run.result == Err(started.result.error) && Fetches(run.events) == 0)
      && (started.result.Ok? ==>
            var k := StopIndex(s.jobStatuses, DefaultMaxAttempts);
            run.result == Nth(s.jobStatuses, k) && Fetches(run.events) == k + 1)
      && (forall e :: e in run.events && e.GetJobStatus? ==> started.result.Ok? && e.jobId == started.result.value.jobId)
  {
    StartHasNoFetch(s, props, stringify);
    PollStartedShape(StartGenerateRun(s, props, stringify), s.jobStatuses);
  }

  /** PollStarted over any start that fetches no status. */
  lemma PollStartedShape(started: Run<StartRenderJobResponse>, statuses: seq<Reply<JobStatus>>)
    requires forall e :: e in started.events ==> !e.GetJobStatus?
    ensures var run := PollStarted(started, statuses);
      && started.events <= run.events
      && (started.result.Err? ==> run.result == Err(started.result.error) && Fetches(run.events) == 0)
      && (started.result.Ok? ==>
            var k := StopIndex(statuses, DefaultMaxAttempts);
            run.result == Nth(statuses, k) && Fetches(run.events) == k + 1)
      && (forall e :: e in run.events && e.GetJobStatus? ==> started.result.Ok? && e.jobId == started.result.value.jobId)
  {
    NoneCounted(started.events, IsFetch);
    if started.result.Ok? {
      var jobId := started.result.value.jobId;
      var poll := PollRun(statuses, jobId, DefaultMaxAttempts, DefaultIntervalMs);
      var k := StopIndex(statuses, DefaultMaxAttempts);
      PollShape(statuses, jobId, DefaultMaxAttempts, DefaultIntervalMs);
      CountWhereConcat(started.events, poll.events, IsFetch);
      assert started.events <= started.events + poll.events;
      PollFetchesOnlyJob(statuses, jobId, DefaultMaxAttempts, DefaultIntervalMs);
    }
  }

  /** Starting a generation fetches no job status. */
  lemma StartHasNoFetch(s: Script, props: GenerateDocumentProps, stringify: Json -> string)
    ensures forall e :: e in StartGenerateRun(s, props, stringify).events ==> !e.GetJobStatus?
  {
  }
}
