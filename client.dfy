/**
 * `PogodocClient` (src/index.ts): configuration resolution at construction and
 * the workflow methods, each proved to make exactly the run its workflow
 * function describes against the remote oracle.
 */
module Client {
  import opened Wrappers
  import opened Types
  import opened Remote
  import opened Upload
  import opened Polling
  import opened Workflows

  const TokenRequiredMessage :=
    "API token is required. Please provide it either as a parameter or set the POGODOC_API_TOKEN environment variable."

  /** The options the constructor reads: `token` and `baseUrl`. */
  datatype ClientOptions = ClientOptions(token: Option<string>, baseUrl: Option<string>)

  /** The process environment: `POGODOC_API_TOKEN` and `POGODOC_BASE_URL`. */
  datatype Environment = Environment(apiToken: Option<string>, baseUrl: Option<string>)

  /** What the client is configured with. */
  datatype Config = Config(token: string, baseUrl: Option<string>)

  /** `options?.token`. */
  function OptionToken(options: Option<ClientOptions>): Option<string> {
    if options.Some? then options.value.token else None
  }

  /** `options?.baseUrl`. */
  function OptionBaseUrl(options: Option<ClientOptions>): Option<string> {
    if options.Some? then options.value.baseUrl else None
  }

  /**
   * The token is the option's when it is truthy, otherwise the environment's;
   * when neither is truthy construction fails. The base URL falls back the same
   * way but may end up absent.
   */
  function ResolveConfig(options: Option<ClientOptions>, env: Environment): (r: Result<Config, Error>)
    ensures r.Ok? <==> Truthy(OptionToken(options)) || Truthy(env.apiToken)
    ensures r.Err? ==> r.error == MissingToken(TokenRequiredMessage)
    ensures r.Ok? && Truthy(OptionToken(options)) ==> r.value.token == OptionToken(options).value
    ensures r.Ok? && !Truthy(OptionToken(options)) ==> r.value.token == env.apiToken.value
    ensures r.Ok? ==> r.value.token != ""
    ensures r.Ok? && Truthy(OptionBaseUrl(options)) ==> r.value.baseUrl == OptionBaseUrl(options)
    ensures r.Ok? && !Truthy(OptionBaseUrl(options)) ==> r.value.baseUrl == env.baseUrl
  {
    var token := if Truthy(OptionToken(options)) then OptionToken(options) else env.apiToken;
    if !Truthy(token) then
      Err(MissingToken(TokenRequiredMessage))
    else
      var baseUrl := if Truthy(OptionBaseUrl(options)) then OptionBaseUrl(options) else env.baseUrl;
      Ok(Config(token.value, baseUrl))
  }

  /** A truthy explicit token wins whatever the environment holds. */
  lemma ExplicitTokenWins(options: ClientOptions, env1: Environment, env2: Environment)
    requires Truthy(options.token)
    ensures ResolveConfig(Some(options), env1).Ok?
    ensures ResolveConfig(Some(options), env1).value.token == ResolveConfig(Some(options), env2).value.token
  {
  }

  class PogodocClient {
    const token: string
    const baseUrl: Option<string>
    /** The remote side every workflow calls. */
    const remote: Service
    /** `JSON.stringify`, an abstract serialiser. */
    const stringify: Json -> string

    constructor (config: Config, remote: Service, stringify: Json -> string)
      requires config.token != ""
      ensures token == config.token && baseUrl == config.baseUrl
      ensures this.remote == remote && this.stringify == stringify
    {
      token := config.token;
      baseUrl := config.baseUrl;
      this.remote := remote;
      this.stringify := stringify;
    }

    /**
     * `new PogodocClient(options)`: fails with the configuration error, before
     * any call is made, when no token can be found.
     */
    static method Create(options: Option<ClientOptions>, env: Environment, remote: Service, stringify: Json -> string)
      returns (r: Result<PogodocClient, Error>)
      ensures r.Err? <==> ResolveConfig(options, env).Err?
      ensures r.Err? ==> r.error == MissingToken(TokenRequiredMessage)
      ensures r.Ok? ==> fresh(r.value) && r.value.remote == remote && r.value.stringify == stringify
      ensures r.Ok? ==> Config(r.value.token, r.value.baseUrl) == ResolveConfig(options, env).value
      ensures remote.trace == old(remote.trace)
    {
      var config := ResolveConfig(options, env);
      if config.Err? {
        return Err(config.error);
      }
      var client := new PogodocClient(config.value, remote, stringify);
      r := Ok(client);
    }

    method SaveTemplateFromFileStream(payload: Stream, payloadLength: int, metadata: SaveTemplateMetadata)
      returns (r: Reply<string>)
      modifies remote
      ensures var run := CreateTemplateRun(old(remote.script), payload, payloadLength, metadata);
        && remote.trace == old(remote.trace) + run.events
        && remote.script == old(remote.script).After(run.events)
        && r == run.result
    {
      ghost var t0, s0 := remote.trace, remote.script;
      var creation := remote.InitializeTemplateCreation();
      AfterSnoc(s0, [], InitializeTemplateCreation);
      ghost var done := [InitializeTemplateCreation];
      assert remote.trace == t0 + done && remote.script == s0.After(done);
      if creation.Err? {
        return Err(creation.error);
      }
      var templateId := creation.value.templateId;
      var uploaded := UploadToS3WithUrl(remote, creation.value.presignedTemplateUploadUrl, payload, payloadLength,
                                        Some(ZipContentType));
      ghost var put := Put(creation.value.presignedTemplateUploadUrl, payload, UploadHeaders(payloadLength, Some(ZipContentType)));
      done := Step(t0, s0, done, put);
      assert remote.trace == t0 + done && remote.script == s0.After(done);
      if uploaded.Err? {
        return Err(uploaded.error);
      }
      var extracted := remote.ExtractTemplateFiles(templateId);
      done := Step(t0, s0, done, ExtractTemplateFiles(templateId));
      assert remote.trace == t0 + done && remote.script == s0.After(done);
      if extracted.Err? {
        return Err(extracted.error);
      }
      ghost var previewsEvent := GenerateTemplatePreviews(templateId, PreviewsRequest(metadata.formatType, metadata.sampleData));
      var previews := remote.GenerateTemplatePreviews(templateId, PreviewsRequest(metadata.formatType, metadata.sampleData));
      ghost var beforePreviews := done;
      done := Step(t0, s0, done, previewsEvent);
      assert remote.trace == t0 + done && remote.script == s0.After(done);
      if previews.Err? {
        return Err(previews.error);
      }
      var saved := remote.SaveCreatedTemplate(templateId,
        SaveCreatedTemplateRequest(InfoOf(metadata),
                                   PreviewIds(previews.value.pngPreview.jobId, previews.value.pdfPreview.jobId)));
      ghost var saveEvent := SaveCreatedTemplate(templateId, SaveCreatedTemplateRequest(InfoOf(metadata), PreviewIdsOf(previews.value)));
      done := Step(t0, s0, done, saveEvent);
      assert remote.trace == t0 + done && remote.script == s0.After(done);
      ConcatAssoc(beforePreviews, [previewsEvent], [saveEvent]);
      if saved.Err? {
        return Err(saved.error);
      }
      r := Ok(templateId);
    }

    method UpdateTemplateFromFileStream(payload: Stream, payloadLength: int, props: UpdateTemplateProps)
      returns (r: Reply<string>)
      modifies remote
      ensures var run := UpdateTemplateRun(old(remote.script), payload, payloadLength, props);
        && remote.trace == old(remote.trace) + run.events
        && remote.script == old(remote.script).After(run.events)
        && r == run.result
    {
      ghost var t0, s0 := remote.trace, remote.script;
      var creation := remote.InitializeTemplateCreation();
      AfterSnoc(s0, [], InitializeTemplateCreation);
      ghost var done := [InitializeTemplateCreation];
      assert remote.trace == t0 + done && remote.script == s0.After(done);
      if creation.Err? {
        return Err(creation.error);
      }
      var contentId := creation.value.templateId;
      var uploaded := UploadToS3WithUrl(remote, creation.value.presignedTemplateUploadUrl, payload, payloadLength,
                                        Some(ZipContentType));
      ghost var put := Put(creation.value.presignedTemplateUploadUrl, payload, UploadHeaders(payloadLength, Some(ZipContentType)));
      done := Step(t0, s0, done, put);
      assert remote.trace == t0 + done && remote.script == s0.After(done);
      if uploaded.Err? {
        return Err(uploaded.error);
      }
      var extracted := remote.ExtractTemplateFiles(contentId);
      done := Step(t0, s0, done, ExtractTemplateFiles(contentId));
      assert remote.trace == t0 + done && remote.script == s0.After(done);
      if extracted.Err? {
        return Err(extracted.error);
      }
      var metadata := props.metadata;
      ghost var previewsEvent := GenerateTemplatePreviews(contentId, PreviewsRequest(metadata.formatType, metadata.sampleData));
      var previews := remote.GenerateTemplatePreviews(contentId, PreviewsRequest(metadata.formatType, metadata.sampleData));
      ghost var beforePreviews := done;
      done := Step(t0, s0, done, previewsEvent);
      assert remote.trace == t0 + done && remote.script == s0.After(done);
      if previews.Err? {
        return Err(previews.error);
      }
      var updated := remote.UpdateTemplate(props.templateId,
        UpdateTemplateRequest(contentId, InfoOf(metadata),
                              PreviewIds(previews.value.pngPreview.jobId, previews.value.pdfPreview.jobId)));
      ghost var updateEvent := UpdateTemplate(props.templateId,
        UpdateTemplateRequest(contentId, InfoOf(metadata), PreviewIdsOf(previews.value)));
      done := Step(t0, s0, done, updateEvent);
      assert remote.trace == t0 + done && remote.script == s0.After(done);
      ConcatAssoc(beforePreviews, [previewsEvent], [updateEvent]);
      if updated.Err? {
        return Err(updated.error);
      }
      r := Ok(contentId);
    }

    method GenerateDocumentImmediate(props: GenerateDocumentProps) returns (r: Reply<ImmediateRender>)
      modifies remote
      ensures var run := ImmediateRun(old(remote.script), props);
        && remote.trace == old(remote.trace) + run.events
        && remote.script == old(remote.script).After(run.events)
        && r == run.result
    {
      AfterSnoc(remote.script, [], StartImmediateRender(ImmediateRequest(props)));
      r := remote.StartImmediateRender(ImmediateRequest(props));
    }

    method StartGenerateDocument(props: GenerateDocumentProps) returns (r: Reply<StartRenderJobResponse>)
      modifies remote
      ensures var run := StartGenerateRun(old(remote.script), props, stringify);
        && remote.trace == old(remote.trace) + run.events
        && remote.script == old(remote.script).After(run.events)
        && r == run.result
      ensures remote.script.jobStatuses == old(remote.script.jobStatuses)
    {
      ghost var t0, s0 := remote.trace, remote.script;
      var initRequest := InitializeRenderJobRequest(props.renderConfig.formatType, props.renderConfig.target,
                                                    props.templateId, props.renderConfig.formatOpts);
      var initResponse := remote.InitializeRenderJob(initRequest);
      AfterSnoc(s0, [], InitializeRenderJob(initRequest));
      ghost var done := [InitializeRenderJob(initRequest)];
      assert remote.trace == t0 + done && remote.script == s0.After(done);
      if initResponse.Err? {
        return Err(initResponse.error);
      }
      var job := initResponse.value;
      var dataString := stringify(props.data);
      var dataStream := TextStream(dataString);
      if Truthy(job.presignedDataUploadUrl) {
        var uploaded := UploadToS3WithUrl(remote, job.presignedDataUploadUrl.value, dataStream, |dataString|,
                                          Some(JsonContentType));
        done := Step(t0, s0, done, Put(job.presignedDataUploadUrl.value, dataStream,
                                       UploadHeaders(|dataString|, Some(JsonContentType))));
        assert remote.trace == t0 + done && remote.script == s0.After(done);
        if uploaded.Err? {
          return Err(uploaded.error);
        }
      }
      assert done == [InitializeRenderJob(initRequest)] + DataStep(s0, props, stringify, job).events;
      if Truthy(props.template) && Truthy(job.presignedTemplateUploadUrl) {
        var template := props.template.value;
        var uploaded := UploadToS3WithUrl(remote, job.presignedTemplateUploadUrl.value, TextStream(template), |template|,
                                          Some(HtmlContentType));
        done := Step(t0, s0, done, Put(job.presignedTemplateUploadUrl.value, TextStream(template),
                                       UploadHeaders(|template|, Some(HtmlContentType))));
        assert remote.trace == t0 + done && remote.script == s0.After(done);
        if uploaded.Err? {
          return Err(uploaded.error);
        }
      }
      assert done == [InitializeRenderJob(initRequest)] + DataStep(s0, props, stringify, job).events
                     + TemplateStep(s0, props, job).events;
      r := remote.StartRenderJob(job.jobId, StartRenderJobRequest(props.renderConfig.personalUploadPresignedS3Url));
      done := Step(t0, s0, done, StartRenderJob(job.jobId, StartRenderJobRequest(props.renderConfig.personalUploadPresignedS3Url)));
      assert remote.trace == t0 + done && remote.script == s0.After(done);
      assert done == StartGenerateRun(s0, props, stringify).events;
    }

    method GenerateDocument(props: GenerateDocumentProps) returns (r: Reply<JobStatus>)
      modifies remote
      ensures var run := GenerateRun(old(remote.script), props, stringify);
        && remote.trace == old(remote.trace) + run.events
        && remote.script == old(remote.script).After(run.events)
        && r == run.result
    {
      ghost var s0, start := remote.script, remote.trace;
      ghost var startRun := StartGenerateRun(remote.script, props, stringify);
      var started := StartGenerateDocument(props);
      if started.Err? {
        return Err(started.error);
      }
      r := PollForJobCompletion(started.value.jobId, DefaultMaxAttempts, DefaultIntervalMs);
      ghost var poll := PollRun(s0.jobStatuses, started.value.jobId, DefaultMaxAttempts, DefaultIntervalMs);
      ConcatAssoc(start, startRun.events, poll.events);
      AfterConcat(s0, startRun.events, poll.events);
    }

    method PollForJobCompletion(jobId: string, maxAttempts: int, intervalMs: int) returns (r: Reply<JobStatus>)
      modifies remote
      ensures var run := PollRun(old(remote.script.jobStatuses), jobId, maxAttempts, intervalMs);
        && remote.trace == old(remote.trace) + run.events
        && remote.script == old(remote.script).After(run.events)
        && r == run.result
    {
      ghost var s0, statuses := remote.script, remote.script.jobStatuses;
      ghost var start := remote.trace;
      remote.Wait(InitialDelayMs);
      ghost var waited := remote.trace;
      assert Drop(statuses, 0) == statuses;
      var attempt := 0;
      while attempt < maxAttempts
        invariant 0 <= attempt <= Max0(maxAttempts)
        invariant remote.script == s0.(jobStatuses := Drop(statuses, attempt))
        invariant remote.trace == waited + Rounds(jobId, intervalMs, attempt)
        invariant forall j :: 0 <= j < attempt ==> !EndsPolling(Nth(statuses, j))
      {
        ghost var before := remote.trace;
        var job := remote.GetJobStatus(jobId);
        DropRest(statuses, attempt);
        if job.Err? || job.value.status == Done {
          PollExit(s0, start, jobId, maxAttempts, intervalMs, attempt, remote.trace, remote.script);
          return job;
        }
        remote.Wait(intervalMs);
        RoundsSnoc(jobId, intervalMs, attempt);
        assert remote.trace == before + [GetJobStatus(jobId), Wait(intervalMs)];
        ConcatAssoc(waited, Rounds(jobId, intervalMs, attempt), [GetJobStatus(jobId), Wait(intervalMs)]);
        attempt := attempt + 1;
      }
      r := remote.GetJobStatus(jobId);
      DropRest(statuses, attempt);
      PollExit(s0, start, jobId, maxAttempts, intervalMs, attempt, remote.trace, remote.script);
    }
  }

  /**
   * Bookkeeping for one more call e after the calls done, made from trace t0
   * and script s0: the trace and the script follow the longer list.
   */
  lemma Step(t0: seq<Event>, s0: Script, done: seq<Event>, e: Event) returns (next: seq<Event>)
    ensures next == done + [e]
    ensures t0 + done + [e] == t0 + next
    ensures s0.After(done).Consume(e) == s0.After(next)
  {
    next := done + [e];
    ConcatAssoc(t0, done, [e]);
    AfterSnoc(s0, done, e);
  }
}
