/** The constants of web-interface/js/config.js that the modelled code reads. */
module Config {

  /** `CONFIG.API_URL`: the Cobalt instance the legacy script posts to. */
  const ApiUrl: string := "http://localhost:9000/"

  /** `CONFIG.BATCH_DELAY`: milliseconds slept between two batch items. */
  const BatchDelay: nat := 1000

  /** `ERROR_MESSAGES.default`. */
  const DefaultErrorMessage: string := "Lỗi không xác định"

  /** `ERROR_MESSAGES`, keyed by Cobalt error code. The table also holds the
      key `default`, so an error whose code is the text "default" is looked
      up like any other code. */
  const ErrorMessages: map<string, string> := map[
    "error.api.youtube.login" := "Video yêu cầu đăng nhập YouTube",
    "error.api.invalid_body" := "URL không hợp lệ",
    "error.api.fetch.empty_response" := "Không thể lấy dữ liệu video",
    "error.api.content.too_long" := "Video quá dài",
    "default" := DefaultErrorMessage
  ]

  // `CONFIG.DEFAULT_OPTIONS` and `CONFIG.OPTION_LABELS` are read by api.js and
  // settings.js but config.js does not define them: both are `undefined`.
}
