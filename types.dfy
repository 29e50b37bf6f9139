/**
 * The value types the orchestration layer passes around: the enumerations and
 * request records of types.ts, the optional fields of the render-job
 * initialization response, and the shapes of the requests and responses of the
 * generated API client that the layer reads or builds.
 */
module Types {
  import opened Wrappers

  /** Output format of a render job (`RenderTarget`). */
  datatype RenderTarget = Pdf | Html | Docx | Xlsx | Pptx | Png | Jpg

  /** Input format of a template (`TemplateFormatType`). */
  datatype TemplateFormatType =
    | DocxTemplate | XlsxTemplate | PptxTemplate | EjsTemplate | HtmlTemplate | LatexTemplate | ReactTemplate

  /** One tag of `Categories`. */
  datatype Category = Invoice | Mail | Report | Cv | Other

  /** `FormatOptsType`: page range, output format hint and a selector to wait for. */
  datatype FormatOpts = FormatOpts(
    fromPage: Option<int>,
    toPage: Option<int>,
    format: Option<string>,
    waitForSelector: Option<string>)

  /**
   * An arbitrary structured value (the `data` of a render, the `sampleData` of a
   * template). The model never looks inside it; `handle` only tells values apart.
   */
  datatype Json = Json(handle: nat)

  /** A readable stream: a caller's stream (a zip file) or one made from a string by `Readable.from`. */
  datatype Stream = CallerStream(handle: nat) | TextStream(text: string)

  /** `renderConfig` of `GenerateDocumentProps`. */
  datatype RenderConfig = RenderConfig(
    formatType: TemplateFormatType,
    target: RenderTarget,
    formatOpts: Option<FormatOpts>,
    personalUploadPresignedS3Url: Option<string>)

  /** `GenerateDocumentProps`: nothing forces exactly one of `template` and `templateId`. */
  datatype GenerateDocumentProps = GenerateDocumentProps(
    template: Option<string>,
    templateId: Option<string>,
    data: Json,
    renderConfig: RenderConfig,
    shouldWaitForRenderCompletion: Option<bool>,
    uploadPresignedS3Url: Option<string>)

  /** `SaveTemplateMetadata`. */
  datatype SaveTemplateMetadata = SaveTemplateMetadata(
    categories: seq<Category>,
    title: string,
    description: string,
    sampleData: Json,
    formatType: TemplateFormatType,
    formatOpts: Option<FormatOpts>,
    sourceCode: Option<string>)

  /** `UpdateTemplateProps`: the metadata plus the template to update. */
  datatype UpdateTemplateProps = UpdateTemplateProps(templateId: string, metadata: SaveTemplateMetadata)

  // Requests built by the orchestration layer.

  datatype TemplateInfo = TemplateInfo(
    title: string,
    description: string,
    formatType: TemplateFormatType,
    categories: seq<Category>,
    sampleData: Json,
    sourceCode: Option<string>)

  datatype PreviewIds = PreviewIds(pngJobId: string, pdfJobId: string)

  datatype PreviewsRequest = PreviewsRequest(formatType: TemplateFormatType, data: Json)

  datatype SaveCreatedTemplateRequest = SaveCreatedTemplateRequest(templateInfo: TemplateInfo, previewIds: PreviewIds)

  datatype UpdateTemplateRequest = UpdateTemplateRequest(contentId: string, templateInfo: TemplateInfo, previewIds: PreviewIds)

  datatype StartImmediateRenderRequest = StartImmediateRenderRequest(
    template: Option<string>,
    templateId: Option<string>,
    formatType: TemplateFormatType,
    target: RenderTarget,
    formatOpts: Option<FormatOpts>,
    data: Json)

  /** `InitializeRenderJobRequest`: it has no field for an inline template. */
  datatype InitializeRenderJobRequest = InitializeRenderJobRequest(
    formatType: TemplateFormatType,
    target: RenderTarget,
    templateId: Option<string>,
    formatOpts: Option<FormatOpts>)

  datatype StartRenderJobRequest = StartRenderJobRequest(uploadPresignedS3Url: Option<string>)

  // Responses read by the orchestration layer.

  /** Response of `initializeTemplateCreation`. */
  datatype TemplateCreation = TemplateCreation(presignedTemplateUploadUrl: string, templateId: string)

  datatype PreviewJob = PreviewJob(jobId: string)

  /** Response of `generateTemplatePreviews`. */
  datatype TemplatePreviews = TemplatePreviews(pdfPreview: PreviewJob, pngPreview: PreviewJob)

  /** `InitializeRenderJobResponse`: both presigned upload URLs are optional. */
  datatype InitializeRenderJobResponse = InitializeRenderJobResponse(
    jobId: string,
    target: RenderTarget,
    presignedDataUploadUrl: Option<string>,
    presignedTemplateUploadUrl: Option<string>)

  datatype StartRenderJobResponse = StartRenderJobResponse(jobId: string, status: Option<string>)

  /** `GetJobStatusResponse`: `"done"` is the terminal status. */
  datatype JobStatus = JobStatus(status: string, outputUrl: Option<string>)

  datatype ImmediateRender = ImmediateRender(url: string)

  /** The response of a successful PUT to a presigned URL. */
  datatype PutResponse = PutResponse(statusCode: int)

  /** The empty response of an endpoint that returns nothing the layer reads. */
  datatype Ack = Ack

  /** A value of the header map of an upload: `Content-Length` is a number, `Content-Type` a string. */
  datatype HeaderValue = NumberValue(n: int) | StringValue(s: string)

  type Headers = map<string, HeaderValue>

  /** What a call can throw. */
  datatype Error =
    | ApiStatus(statusCode: int, body: string)   // PogodocApiError: a non-success response
    | ApiTimeout                                 // PogodocApiTimeoutError: no response in time
    | Transport(reason: string)                  // any failure of a PUT to a presigned URL
    | UploadFailed(message: string)              // the one error an upload rethrows
    | MissingToken(message: string)             // thrown by the client's constructor

  type Reply<T> = Result<T, Error>
}
