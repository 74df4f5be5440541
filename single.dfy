/** web-interface/js/single.js: the `SingleProcessor` that sends one URL to
    the API and shows either a download link or an error. The API call's
    outcome (the parsed body or the thrown message) is an input. */
module Single {
  import opened Wrappers
  import opened Strings
  import opened Responses
  import Batch

  /** What the processor leaves on the page: an error message, or the link
      panel whose buttons start a download of `url` under `filename`. */
  datatype View = ErrorView(message: string) | LinkView(link: Batch.Buttons)

  const NoDataText: string := "Không nhận được dữ liệu từ API"
  const InvalidReplyText: string := "Phản hồi không hợp lệ từ API"
  const NoChoiceText: string := "Không tìm thấy lựa chọn tải xuống"
  const UnknownStatusPrefix: string := "Phản hồi không xác định từ API: "
  const InvalidLinkText: string := "URL tải xuống không hợp lệ"
  const LoginOverrideText: string :=
    "Video yêu cầu đăng nhập YouTube (có thể bị giới hạn độ tuổi hoặc riêng tư). Hãy thử với video công khai."
  const InvalidBodyOverrideText: string := "Lỗi cấu trúc dữ liệu gửi đi. Vui lòng chỉ nhập URL và thử lại."

  /** The message of the catch block of `process` for a thrown `message`. */
  function ConnectionErrorText(message: string): string {
    "Không thể kết nối đến API Cobalt: " + message + ". Vui lòng đảm bảo API đang chạy."
  }

  /** The `TypeError` thrown by `data.error.code` when the reply has no
      `error` object. */
  const MissingErrorMessage: string := "Cannot read properties of undefined (reading 'code')"

  /** `handleDownloadLink(data)`: an error without a (truthy) url, otherwise
      the link panel, captioned with the file name or `video`. */
  function HandleDownloadLink(url: Option<string>, filename: Option<string>): (r: View)
    ensures r.ErrorView? <==> !Truthy(url)
    ensures r.ErrorView? ==> r.message == InvalidLinkText
    ensures r.LinkView? ==> r.link.url == url.value && r.link.filename == filename
    ensures r.LinkView? ==> r.link.caption == (if Truthy(filename) then filename.value else "video")
  {
    if !Truthy(url) then ErrorView(InvalidLinkText)
    else LinkView(Batch.Buttons(url.value, filename, OrElse(filename, "video")))
  }

  /** `handleResponse(data)`: the dispatch on `status`. */
  function HandleResponse(data: Json): (r: View)
    ensures data.Null? || !Truthy(data.reply.status) ==> r == ErrorView(InvalidReplyText)
    ensures data.Object? && data.reply.status in {Some("tunnel"), Some("redirect")} ==>
              r == HandleDownloadLink(data.reply.url, data.reply.filename)
    ensures data.Object? && data.reply.status == Some("picker") ==>
              r == if data.reply.picker.Some? && |data.reply.picker.value| > 0
                   then HandleDownloadLink(data.reply.picker.value[0].url, data.reply.picker.value[0].filename)
                   else ErrorView(NoChoiceText)
    ensures data.Object? && data.reply.status == Some("error") ==> r == ErrorView(Batch.GetErrorMessage(data.reply.error))
    ensures data.Object? && Truthy(data.reply.status)
            && data.reply.status !in {Some("tunnel"), Some("redirect"), Some("picker"), Some("error")} ==>
              r == ErrorView(UnknownStatusPrefix + data.reply.status.value)
  {
    if data.Null? || !Truthy(data.reply.status) then ErrorView(InvalidReplyText)
    else
      var d := data.reply;
      var status := d.status.value;
      if status == "tunnel" || status == "redirect" then HandleDownloadLink(d.url, d.filename)
      else if status == "picker" then
        if d.picker.Some? && |d.picker.value| > 0
        then HandleDownloadLink(d.picker.value[0].url, d.picker.value[0].filename)
        else ErrorView(NoChoiceText)
      else if status == "error" then ErrorView(Batch.GetErrorMessage(d.error))
      else ErrorView(UnknownStatusPrefix + status)
  }

  /** The message `process` shows for an error reply, or `None` when reading
      `data.error.code` throws because there is no `error` object. */
  function ErrorReplyMessage(error: Option<ApiError>): (r: Option<string>)
    ensures r.None? <==> error.None?
    ensures error.Some? && error.value.code == Some("error.api.youtube.login") ==> r == Some(LoginOverrideText)
    ensures error.Some? && error.value.code == Some("error.api.invalid_body") ==> r == Some(InvalidBodyOverrideText)
    ensures error.Some? && error.value.code !in {Some("error.api.youtube.login"), Some("error.api.invalid_body")} ==>
              r == Some(Batch.GetErrorMessage(error))
  {
    match error
    case None => None
    case Some(e) =>
      if e.code == Some("error.api.youtube.login") then Some(LoginOverrideText)
      else if e.code == Some("error.api.invalid_body") then Some(InvalidBodyOverrideText)
      else Some(Batch.GetErrorMessage(error))
  }

  /** `process(url)`, given what `processUrl` yields. A thrown call, and an
      error reply without an `error` object, end in the connection error. */
  function Process(outcome: Result<Json, string>): (r: View)
    ensures outcome.Err? ==> r == ErrorView(ConnectionErrorText(outcome.error))
    ensures outcome == Ok(Null) ==> r == ErrorView(NoDataText)
    ensures outcome.Ok? && outcome.value.Object? && outcome.value.reply.status != Some("error") ==>
              r == HandleResponse(outcome.value)
  {
    match outcome
    case Err(m) => ErrorView(ConnectionErrorText(m))
    case Ok(Null) => ErrorView(NoDataText)
    case Ok(Object(d)) =>
      if d.status == Some("error") then
        match ErrorReplyMessage(d.error)
        case None => ErrorView(ConnectionErrorText(MissingErrorMessage))
        case Some(m) => ErrorView(m)
      else HandleResponse(Object(d))
  }

  /** An error reply without an `error` object is reported as a failure to
      reach the API, not as an API error. */
  lemma MissingErrorObjectThrows(d: Reply)
    requires d.status == Some("error") && d.error.None?
    ensures Process(Ok(Object(d))) == ErrorView(ConnectionErrorText(MissingErrorMessage))
  {
  }

  /** `process` and `handleResponse` differ only on the two codes `process`
      overrides and on the missing `error` object. */
  lemma ProcessRefinesHandleResponse(d: Reply)
    ensures Process(Ok(Object(d))) != HandleResponse(Object(d)) ==>
              d.status == Some("error")
              && (d.error.None? || d.error.value.code in {Some("error.api.youtube.login"), Some("error.api.invalid_body")})
  {
  }

  /** A link is shown exactly when the reply is a link or a non-empty picker
      whose chosen entry has a url; it is that entry's url. */
  lemma LinkOnlyForUsableReply(outcome: Result<Json, string>)
    ensures Process(outcome).LinkView? <==>
              && outcome.Ok? && outcome.value.Object?
              && var d := outcome.value.reply;
                 || (d.status in {Some("tunnel"), Some("redirect")} && Truthy(d.url))
                 || (d.status == Some("picker") && d.picker.Some? && |d.picker.value| > 0 && Truthy(d.picker.value[0].url))
    ensures Process(outcome).LinkView? && outcome.value.reply.status == Some("picker") ==>
              Process(outcome).link.url == outcome.value.reply.picker.value[0].url.value
    ensures Process(outcome).LinkView? && outcome.value.reply.status != Some("picker") ==>
              Process(outcome).link.url == outcome.value.reply.url.value
  {
  }

  /** The batch view agrees with the single view on link replies and
      non-empty pickers: buttons appear exactly when the link is shown, with
      the same url, name and caption. */
  lemma AgreesWithBatch(d: Reply)
    requires d.status in {Some("tunnel"), Some("redirect")} || (d.status == Some("picker") && d.picker.Some? && |d.picker.value| > 0)
    ensures Process(Ok(Object(d))).LinkView? <==> Batch.DownloadButtons(d).Some?
    ensures Batch.DownloadButtons(d).Some? ==> Process(Ok(Object(d))).link == Batch.DownloadButtons(d).value
  {
  }
}
