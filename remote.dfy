/**
 * The remote side, as an oracle: the generated API client, the object store
 * behind presigned URLs and the timer. Every call made to it is appended to a
 * trace, and its answers come from a script fixed in advance, one queue of
 * replies per endpoint.
 */
module Remote {
  import opened Wrappers
  import opened Types

  /** One entry of the trace: a call of an endpoint, with its arguments, or a timed wait. */
  datatype Event =
    | InitializeTemplateCreation
    | ExtractTemplateFiles(templateId: string)
    | GenerateTemplatePreviews(templateId: string, previewsRequest: PreviewsRequest)
    | SaveCreatedTemplate(templateId: string, saveRequest: SaveCreatedTemplateRequest)
    | UpdateTemplate(templateId: string, updateRequest: UpdateTemplateRequest)
    | StartImmediateRender(immediateRequest: StartImmediateRenderRequest)
    | InitializeRenderJob(initRequest: InitializeRenderJobRequest)
    | StartRenderJob(jobId: string, startRequest: StartRenderJobRequest)
    | GetJobStatus(jobId: string)
    | Put(url: string, body: Stream, headers: Headers)
    | Wait(ms: int)

  /** The i-th scripted reply of a queue; a call beyond the script times out. */
  function Nth<T>(replies: seq<Reply<T>>, i: nat): Reply<T> {
    if i < |replies| then replies[i] else Err(ApiTimeout)
  }

  /** The reply the next call of an endpoint gets. */
  function Next<T>(replies: seq<Reply<T>>): Reply<T> {
    Nth(replies, 0)
  }

  /** The queue once its next reply is used up. */
  function Rest<T>(replies: seq<Reply<T>>): seq<Reply<T>> {
    if replies == [] then [] else replies[1..]
  }

  /** Using up a reply shifts the queue by one. */
  lemma RestShifts<T>(replies: seq<Reply<T>>)
    ensures forall i: nat :: Nth(Rest(replies), i) == Nth(replies, i + 1)
    ensures forall i: nat :: 0 < i ==> Nth(replies, i) == Nth(Rest(replies), i - 1)
  {
  }

  /** The queue once its first n replies are used up. */
  function Drop<T>(replies: seq<Reply<T>>, n: nat): (rest: seq<Reply<T>>)
    ensures forall i: nat :: Nth(rest, i) == Nth(replies, n + i)
  {
    if n <= |replies| then replies[n..] else []
  }

  /** Using up one more reply after n is using up n + 1. */
  lemma DropRest<T>(replies: seq<Reply<T>>, n: nat)
    ensures Rest(Drop(replies, n)) == Drop(replies, n + 1)
  {
    if n < |replies| {
      assert replies[n..][1..] == replies[n + 1..];
    }
  }

  /** The replies still to be given, per endpoint. */
  datatype Script = Script(
    templateCreations: seq<Reply<TemplateCreation>>,
    extractions: seq<Reply<Ack>>,
    previews: seq<Reply<TemplatePreviews>>,
    savedTemplates: seq<Reply<Ack>>,
    updatedTemplates: seq<Reply<Ack>>,
    immediateRenders: seq<Reply<ImmediateRender>>,
    renderJobs: seq<Reply<InitializeRenderJobResponse>>,
    startedJobs: seq<Reply<StartRenderJobResponse>>,
    jobStatuses: seq<Reply<JobStatus>>,
    puts: seq<Reply<PutResponse>>)
  {
    /** The script once it has answered e: the endpoint's next reply is used up; a wait uses nothing. */
    function Consume(e: Event): Script {
      match e
      case InitializeTemplateCreation => this.(templateCreations := Rest(templateCreations))
      case ExtractTemplateFiles(_) => this.(extractions := Rest(extractions))
      case GenerateTemplatePreviews(_, _) => this.(previews := Rest(previews))
      case SaveCreatedTemplate(_, _) => this.(savedTemplates := Rest(savedTemplates))
      case UpdateTemplate(_, _) => this.(updatedTemplates := Rest(updatedTemplates))
      case StartImmediateRender(_) => this.(immediateRenders := Rest(immediateRenders))
      case InitializeRenderJob(_) => this.(renderJobs := Rest(renderJobs))
      case StartRenderJob(_, _) => this.(startedJobs := Rest(startedJobs))
      case GetJobStatus(_) => this.(jobStatuses := Rest(jobStatuses))
      case Put(_, _, _) => this.(puts := Rest(puts))
      case Wait(_) => this
    }

    /** The script once it has answered the events in order. */
    function After(events: seq<Event>): Script
      decreases |events|
    {
      if events == [] then this else After(events[..|events| - 1]).Consume(events[|events| - 1])
    }
  }

  lemma ConcatAssoc<T>(a: seq<T>, b: seq<T>, c: seq<T>)
    ensures a + b + c == a + (b + c)
  {
  }

  /** Answering one more event is answering the earlier ones and then that one. */
  lemma AfterSnoc(s: Script, events: seq<Event>, e: Event)
    ensures s.After(events + [e]) == s.After(events).Consume(e)
  {
    assert (events + [e])[..|events|] == events;
  }

  /** Answering two runs of events one after the other is answering their concatenation. */
  lemma {:induction false} AfterConcat(s: Script, first: seq<Event>, second: seq<Event>)
    ensures s.After(first + second) == s.After(first).After(second)
    decreases |second|
  {
    if second == [] {
      assert first + second == first;
    } else {
      var init := second[..|second| - 1];
      assert (first + second)[..|first + second| - 1] == first + init;
      AfterConcat(s, first, init);
    }
  }

  /** The number of events of a trace that satisfy p. */
  function CountWhere(events: seq<Event>, p: Event -> bool): nat {
    if events == [] then 0 else (if p(events[0]) then 1 else 0) + CountWhere(events[1..], p)
  }

  lemma {:induction false} CountWhereConcat(a: seq<Event>, b: seq<Event>, p: Event -> bool)
    ensures CountWhere(a + b, p) == CountWhere(a, p) + CountWhere(b, p)
    decreases |a|
  {
    if a == [] {
      assert a + b == b;
    } else {
      assert (a + b)[1..] == a[1..] + b;
      CountWhereConcat(a[1..], b, p);
    }
  }

  /**
   * The events a workflow makes, in order, and what it returns or throws. A
   * workflow stops at the first step that throws and rethrows that error.
   */
  datatype Run<T> = Run(events: seq<Event>, result: Reply<T>) {
    /** This run followed by next, unless this run threw. */
    function Then<U>(next: Run<U>): Run<U> {
      match result
      case Err(e) => Run(events, Err(e))
      case Ok(_) => Run(events + next.events, next.result)
    }
  }

  /**
   * The remote side: the trace of calls made so far and the replies still
   * scripted. Every call appends its event to the trace and uses up the next
   * reply of its endpoint, so a service built from a script s that has made the
   * calls t holds the script s.After(t) (AfterSnoc).
   */
  class Service {
    var trace: seq<Event>
    var script: Script

    constructor (script: Script)
      ensures trace == [] && this.script == script
    {
      this.script := script;
      trace := [];
    }

    /** Appends e to the trace and uses up the reply it gets. */
    method Record(e: Event)
      modifies this
      ensures trace == old(trace) + [e] && script == old(script).Consume(e)
    {
      trace := trace + [e];
      script := script.Consume(e);
    }

    method InitializeTemplateCreation() returns (r: Reply<TemplateCreation>)
      modifies this
      ensures trace == old(trace) + [Event.InitializeTemplateCreation]
      ensures script == old(script).Consume(Event.InitializeTemplateCreation)
      ensures script == old(script).(templateCreations := Rest(old(script).templateCreations))
      ensures r == Next(old(script).templateCreations)
    {
      r := Next(script.templateCreations);
      Record(Event.InitializeTemplateCreation);
    }

    method ExtractTemplateFiles(templateId: string) returns (r: Reply<Ack>)
      modifies this
      ensures trace == old(trace) + [Event.ExtractTemplateFiles(templateId)]
      ensures script == old(script).Consume(Event.ExtractTemplateFiles(templateId))
      ensures script == old(script).(extractions := Rest(old(script).extractions))
      ensures r == Next(old(script).extractions)
    {
      r := Next(script.extractions);
      Record(Event.ExtractTemplateFiles(templateId));
    }

    method GenerateTemplatePreviews(templateId: string, request: PreviewsRequest) returns (r: Reply<TemplatePreviews>)
      modifies this
      ensures trace == old(trace) + [Event.GenerateTemplatePreviews(templateId, request)]
      ensures script == old(script).Consume(Event.GenerateTemplatePreviews(templateId, request))
      ensures script == old(script).(previews := Rest(old(script).previews))
      ensures r == Next(old(script).previews)
    {
      r := Next(script.previews);
      Record(Event.GenerateTemplatePreviews(templateId, request));
    }

    method SaveCreatedTemplate(templateId: string, request: SaveCreatedTemplateRequest) returns (r: Reply<Ack>)
      modifies this
      ensures trace == old(trace) + [Event.SaveCreatedTemplate(templateId, request)]
      ensures script == old(script).Consume(Event.SaveCreatedTemplate(templateId, request))
      ensures script == old(script).(savedTemplates := Rest(old(script).savedTemplates))
      ensures r == Next(old(script).savedTemplates)
    {
      r := Next(script.savedTemplates);
      Record(Event.SaveCreatedTemplate(templateId, request));
    }

    method UpdateTemplate(templateId: string, request: UpdateTemplateRequest) returns (r: Reply<Ack>)
      modifies this
      ensures trace == old(trace) + [Event.UpdateTemplate(templateId, request)]
      ensures script == old(script).Consume(Event.UpdateTemplate(templateId, request))
      ensures script == old(script).(updatedTemplates := Rest(old(script).updatedTemplates))
      ensures r == Next(old(script).updatedTemplates)
    {
      r := Next(script.updatedTemplates);
      Record(Event.UpdateTemplate(templateId, request));
    }

    method StartImmediateRender(request: StartImmediateRenderRequest) returns (r: Reply<ImmediateRender>)
      modifies this
      ensures trace == old(trace) + [Event.StartImmediateRender(request)]
      ensures script == old(script).Consume(Event.StartImmediateRender(request))
      ensures script == old(script).(immediateRenders := Rest(old(script).immediateRenders))
      ensures r == Next(old(script).immediateRenders)
    {
      r := Next(script.immediateRenders);
      Record(Event.StartImmediateRender(request));
    }

    method InitializeRenderJob(request: InitializeRenderJobRequest) returns (r: Reply<InitializeRenderJobResponse>)
      modifies this
      ensures trace == old(trace) + [Event.InitializeRenderJob(request)]
      ensures script == old(script).Consume(Event.InitializeRenderJob(request))
      ensures script == old(script).(renderJobs := Rest(old(script).renderJobs))
      ensures r == Next(old(script).renderJobs)
    {
      r := Next(script.renderJobs);
      Record(Event.InitializeRenderJob(request));
    }

    method StartRenderJob(jobId: string, request: StartRenderJobRequest) returns (r: Reply<StartRenderJobResponse>)
      modifies this
      ensures trace == old(trace) + [Event.StartRenderJob(jobId, request)]
      ensures script == old(script).Consume(Event.StartRenderJob(jobId, request))
      ensures script == old(script).(startedJobs := Rest(old(script).startedJobs))
      ensures r == Next(old(script).startedJobs)
    {
      r := Next(script.startedJobs);
      Record(Event.StartRenderJob(jobId, request));
    }

    method GetJobStatus(jobId: string) returns (r: Reply<JobStatus>)
      modifies this
      ensures trace == old(trace) + [Event.GetJobStatus(jobId)]
      ensures script == old(script).Consume(Event.GetJobStatus(jobId))
      ensures script == old(script).(jobStatuses := Rest(old(script).jobStatuses))
      ensures r == Next(old(script).jobStatuses)
    {
      r := Next(script.jobStatuses);
      Record(Event.GetJobStatus(jobId));
    }

    /** One HTTP PUT of body to url (`axios.put`). */
    method Put(url: string, body: Stream, headers: Headers) returns (r: Reply<PutResponse>)
      modifies this
      ensures trace == old(trace) + [Event.Put(url, body, headers)]
      ensures script == old(script).Consume(Event.Put(url, body, headers))
      ensures script == old(script).(puts := Rest(old(script).puts))
      ensures r == Next(old(script).puts)
    {
      r := Next(script.puts);
      Record(Event.Put(url, body, headers));
    }

    /** `wait(ms)`: logged, with no clock. */
    method Wait(ms: int)
      modifies this
      ensures trace == old(trace) + [Event.Wait(ms)] && script == old(script)
    {
      Record(Event.Wait(ms));
    }
  }
}
