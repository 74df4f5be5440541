/** web-interface/js/app.js: the `App` that routes the input to the single or
    the batch processor, dispatches API replies and resets the page. The URL
    check `validateUrl` is a parameter; the page is a handful of fields. */
module WebApp {
  import opened Wrappers
  import opened Strings
  import opened Responses
  import Utils
  import Config
  import Batch

  // ---------------------------------------------------------------------
  // handleDownload

  /** Where `handleDownload` sends the input. */
  datatype Route =
    | EmptyInput                  // "Vui lòng nhập URL để tải xuống"
    | NoValidUrl                  // "Vui lòng nhập ít nhất một URL hợp lệ"
    | SingleUrl(url: string)      // singleProcessor.process
    | BatchUrls(urls: seq<string>) // batchProcessor.processBatch

  const EmptyInputText: string := "Vui lòng nhập URL để tải xuống"
  const NoValidUrlText: string := "Vui lòng nhập ít nhất một URL hợp lệ"

  /** `handleDownload()` for the text in the input box. */
  function HandleDownload(value: string, validUrl: string -> bool): (r: Route)
    ensures r == EmptyInput <==> Trim(value) == ""
    ensures Trim(value) != "" ==>
              var urls := Utils.ParseUrls(Trim(value), validUrl);
              && (r == NoValidUrl <==> |urls| == 0)
              && (r.SingleUrl? <==> |urls| == 1)
              && (r.BatchUrls? <==> |urls| > 1)
    ensures r.SingleUrl? ==> r.url == Utils.ParseUrls(Trim(value), validUrl)[0]
    ensures r.BatchUrls? ==> r.urls == Utils.ParseUrls(Trim(value), validUrl)
  {
    var input := Trim(value);
    if input == "" then EmptyInput
    else
      var urls := Utils.ParseUrls(input, validUrl);
      if |urls| == 0 then NoValidUrl
      else if |urls| == 1 then SingleUrl(urls[0])
      else BatchUrls(urls)
  }

  /** Every URL handed to a processor is non-empty, trimmed, accepted by the
      URL check and free of separators. */
  lemma RoutedUrlsAreClean(value: string, validUrl: string -> bool, u: string)
    requires var r := HandleDownload(value, validUrl); (r.SingleUrl? && u == r.url) || (r.BatchUrls? && u in r.urls)
    ensures u != "" && validUrl(u) && IsTrimmed(u)
    ensures forall i :: 0 <= i < |u| ==> u[i] !in Utils.UrlSeparators
  {
    Utils.ParseUrlsSound(Trim(value), validUrl, u);
  }

  // ---------------------------------------------------------------------
  // handleApiResponse

  /** What `handleApiResponse` does with a reply. */
  datatype Action =
    | DirectDownload(url: Option<string>, name: string) // the <a download> click
    | ShowError(message: string)
    | ShowPicker(data: Reply)                            // pickerModal.show

  const LocalProcessingText: string :=
    "Local processing được yêu cầu. Tính năng này chưa được hỗ trợ trong phiên bản web."
  const UnknownReplyText: string := "Phản hồi không xác định từ API"

  /** `handleDirectDownload(data)`: the link's file name is the reply's, or
      `download`. */
  function DirectDownloadOf(data: Reply): (r: Action)
    ensures r.DirectDownload? && r.url == data.url
    ensures r.name == if Truthy(data.filename) then data.filename.value else "download"
  {
    DirectDownload(data.url, OrElse(data.filename, "download"))
  }

  /** `handleApiResponse(data)`. */
  function HandleApiResponse(data: Reply): (r: Action)
    ensures data.status in {Some("tunnel"), Some("redirect")} <==> r.DirectDownload?
    ensures r.DirectDownload? ==> r == DirectDownloadOf(data)
    ensures data.status == Some("picker") <==> r.ShowPicker?
    ensures r.ShowPicker? ==> r.data == data
    ensures data.status == Some("local-processing") ==> r == ShowError(LocalProcessingText)
    ensures data.status == Some("error") ==> r == ShowError(ErrorResponseText(data.error))
    ensures data.status !in {Some("tunnel"), Some("redirect"), Some("local-processing"), Some("picker"), Some("error")} ==>
              r == ShowError(UnknownReplyText)
  {
    match data.status
    case Some("tunnel") => DirectDownloadOf(data)
    case Some("redirect") => DirectDownloadOf(data)
    case Some("local-processing") => ShowError(LocalProcessingText)
    case Some("picker") => ShowPicker(data)
    case Some("error") => ShowError(ErrorResponseText(data.error))
    case _ => ShowError(UnknownReplyText)
  }

  // ---------------------------------------------------------------------
  // handleErrorResponse

  const ServiceOpen: string := " ("
  const LimitPrefix: string := " - Giới hạn: "

  /** `data.error?.code || 'unknown'`. */
  function ErrorCode(error: Option<ApiError>): string {
    if error.Some? && Truthy(error.value.code) then error.value.code.value else "unknown"
  }

  /** The suffix naming the failing service, when the context has one. */
  function ServiceSuffix(context: Option<ErrorContext>): string {
    if context.Some? && Truthy(context.value.service) then ServiceOpen + context.value.service.value + ")" else ""
  }

  /** The suffix stating the limit, when the context has a non-zero one. */
  function LimitSuffix(context: Option<ErrorContext>): string {
    if context.Some? && context.value.limit.Some? && context.value.limit.value != 0
    then LimitPrefix + IntToString(context.value.limit.value) else ""
  }

  /** The message `handleErrorResponse` composes. */
  function ErrorResponseText(error: Option<ApiError>): string {
    var context := if error.Some? then error.value.context else None;
    Batch.ErrorPrefix + ErrorCode(error) + ServiceSuffix(context) + LimitSuffix(context)
  }

  /** `handleErrorResponse(data)`, building the message piece by piece. */
  method HandleErrorResponse(data: Reply) returns (message: string)
    ensures message == ErrorResponseText(data.error)
  {
    var errorCode := if data.error.Some? && Truthy(data.error.value.code) then data.error.value.code.value else "unknown";
    var context := if data.error.Some? then data.error.value.context else None;
    message := Batch.ErrorPrefix + errorCode;
    if context.Some? {
      if Truthy(context.value.service) {
        message := message + (ServiceOpen + context.value.service.value + ")");
      }
      assert message == Batch.ErrorPrefix + errorCode + ServiceSuffix(context);
      if context.value.limit.Some? && context.value.limit.value != 0 {
        message := message + (LimitPrefix + IntToString(context.value.limit.value));
      }
    }
    assert message == Batch.ErrorPrefix + errorCode + ServiceSuffix(context) + LimitSuffix(context);
  }

  /** The message starts with `Lỗi: ` and the code (or `unknown`); the
      service follows in parentheses exactly when the context names one, and
      the limit ends the message exactly when it is set and non-zero. */
  lemma ErrorResponseShape(error: Option<ApiError>)
    ensures StartsWith(ErrorResponseText(error), Batch.ErrorPrefix + ErrorCode(error))
    ensures var context := if error.Some? then error.value.context else None;
            && (context.Some? && context.value.limit.Some? && context.value.limit.value != 0 ==>
                  EndsWith(ErrorResponseText(error), LimitPrefix + IntToString(context.value.limit.value)))
            && (!(context.Some? && context.value.limit.Some? && context.value.limit.value != 0) ==>
                  ErrorResponseText(error) == Batch.ErrorPrefix + ErrorCode(error) + ServiceSuffix(context))
    ensures |ErrorResponseText(error)| > |Batch.ErrorPrefix + ErrorCode(error)| <==>
              var context := if error.Some? then error.value.context else None;
              || (context.Some? && Truthy(context.value.service))
              || (context.Some? && context.value.limit.Some? && context.value.limit.value != 0)
  {
    var context := if error.Some? then error.value.context else None;
    var head := Batch.ErrorPrefix + ErrorCode(error);
    PiecesShape(head, ServiceSuffix(context), LimitSuffix(context));
    SuffixesEmpty(context);
  }

  /** The three pieces of the message: the head starts it, the last piece
      ends it, and it is longer than the head exactly when a piece is not
      empty. */
  lemma PiecesShape(head: string, service: string, limit: string)
    ensures StartsWith(head + service + limit, head)
    ensures EndsWith(head + service + limit, limit)
    ensures |head + service + limit| > |head| <==> service != "" || limit != ""
  {
    var text := head + service + limit;
    assert text == head + (service + limit);
    assert text[..|head|] == head;
    assert text[|text| - |limit|..] == limit;
  }

  /** Each suffix is empty exactly when its part of the context is missing. */
  lemma SuffixesEmpty(context: Option<ErrorContext>)
    ensures ServiceSuffix(context) == "" <==> !(context.Some? && Truthy(context.value.service))
    ensures LimitSuffix(context) == "" <==> !(context.Some? && context.value.limit.Some? && context.value.limit.value != 0)
  {
  }

  /** Without a context, the message of `handleErrorResponse` for an unknown
      code is the one `getErrorMessage` of the batch and single views gives,
      while a known code is shown raw instead of by its table text. */
  lemma ComparedWithErrorTable(code: string)
    requires code != ""
    ensures code !in Config.ErrorMessages ==>
              ErrorResponseText(Some(ApiError(Some(code), None))) == Batch.GetErrorMessage(Some(ApiError(Some(code), None)))
    ensures code in Config.ErrorMessages ==>
              ErrorResponseText(Some(ApiError(Some(code), None))) != Batch.GetErrorMessage(Some(ApiError(Some(code), None)))
  {
    var e := ApiError(Some(code), None);
    if code !in Config.ErrorMessages {
      assert ErrorResponseText(Some(e)) == Batch.ErrorPrefix + code;
    } else {
      var m := ErrorResponseText(Some(e));
      assert m == Batch.ErrorPrefix + code;
      var t := Config.ErrorMessages[code];
      assert m[..|Batch.ErrorPrefix|] == Batch.ErrorPrefix;
      if code == "default" {
        assert t[3] != m[3];
      } else {
        assert code in {"error.api.youtube.login", "error.api.invalid_body", "error.api.fetch.empty_response", "error.api.content.too_long"};
        assert t[0] != m[0];
      }
    }
  }

  // ---------------------------------------------------------------------
  // reset

  /** The parts of the page `App` owns, and its batch processor. */
  class App {
    var urlInput: string
    var clearButtonShown: bool
    var resultVisible: bool
    var downloadResultVisible: bool
    var errorVisible: bool
    var downloadResultHtml: string
    var errorText: string
    const batch: Batch.BatchProcessor

    constructor(batch: Batch.BatchProcessor)
      ensures this.batch == batch
      ensures urlInput == "" && !clearButtonShown && !resultVisible && !downloadResultVisible && !errorVisible
      ensures downloadResultHtml == "" && errorText == ""
    {
      this.batch := batch;
      urlInput := "";
      clearButtonShown := false;
      resultVisible := false;
      downloadResultVisible := false;
      errorVisible := false;
      downloadResultHtml := "";
      errorText := "";
    }

    /** `reset()`: stops the batch bookkeeping, empties the input and hides
        and clears the result and error areas. */
    method Reset()
      modifies this, batch
      ensures !batch.isProcessing && batch.results == [] && batch.ui == old(batch.ui)
      ensures urlInput == "" && !clearButtonShown
      ensures !resultVisible && !downloadResultVisible && !errorVisible
      ensures downloadResultHtml == "" && errorText == ""
    {
      batch.Reset();
      urlInput := "";
      clearButtonShown := false;
      resultVisible := false;
      downloadResultVisible := false;
      errorVisible := false;
      downloadResultHtml := "";
      errorText := "";
    }
  }
}
