/** `uploadToS3WithUrl` (src/utils.ts): one PUT of a stream to a presigned URL. */
module Upload {
  import opened Wrappers
  import opened Types
  import opened Remote

  const ContentLength := "Content-Length"
  const ContentType := "Content-Type"
  /** The message of the one error every failed upload is turned into. */
  const UploadErrorMessage := "Error uploading file with Axios"

  /**
   * The headers of an upload: the declared length, as given, and a content type
   * only when one is given and not empty. Nothing else.
   */
  function UploadHeaders(length: int, contentType: Option<string>): (headers: Headers)
    ensures ContentLength in headers && headers[ContentLength] == NumberValue(length)
    ensures ContentType in headers <==> Truthy(contentType)
    ensures ContentType in headers ==> headers[ContentType] == StringValue(contentType.value)
    ensures headers.Keys <= {ContentLength, ContentType}
  {
    var lengthOnly := map[ContentLength := NumberValue(length)];
    if Truthy(contentType) then lengthOnly[ContentType := StringValue(contentType.value)] else lengthOnly
  }

  /**
   * The upload against the queue of PUT replies: exactly one PUT, the response
   * passed back unchanged, and any failure replaced by one generic error.
   */
  function UploadRun(puts: seq<Reply<PutResponse>>, url: string, body: Stream, length: int, contentType: Option<string>)
    : (run: Run<PutResponse>)
    ensures run.events == [Put(url, body, UploadHeaders(length, contentType))]
    ensures run.result.Ok? <==> Next(puts).Ok?
    ensures run.result.Ok? ==> run.result == Next(puts)
    ensures run.result.Err? ==> run.result.error == UploadFailed(UploadErrorMessage)
  {
    var reply := match Next(puts)
      case Ok(response) => Ok(response)
      case Err(_) => Err(UploadFailed(UploadErrorMessage));
    Run([Put(url, body, UploadHeaders(length, contentType))], reply)
  }

  /** The upload fails with the same error whatever the PUT failed with, and is not retried. */
  lemma UploadErrorIsUniform(url: string, body: Stream, length: int, contentType: Option<string>, e1: Error, e2: Error)
    ensures UploadRun([Err(e1)], url, body, length, contentType) == UploadRun([Err(e2)], url, body, length, contentType)
    ensures |UploadRun([Err(e1)], url, body, length, contentType).events| == 1
  {
  }

  method UploadToS3WithUrl(
    service: Service, presignedUrl: string, stream: Stream, length: int, contentType: Option<string>)
    returns (r: Reply<PutResponse>)
    modifies service
    ensures var run := UploadRun(old(service.script).puts, presignedUrl, stream, length, contentType);
      service.trace == old(service.trace) + run.events && r == run.result
    ensures service.script == old(service.script).(puts := Rest(old(service.script).puts))
  {
    var headers: Headers := map[ContentLength := NumberValue(length)];
    if Truthy(contentType) {
      headers := headers[ContentType := StringValue(contentType.value)];
    }
    var response := service.Put(presignedUrl, stream, headers);
    match response {
      case Ok(res) =>
        r := Ok(res);
      case Err(_) =>
        r := Err(UploadFailed(UploadErrorMessage));
    }
  }
}
