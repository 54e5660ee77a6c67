/** The boundary to the Vimeo API client: the parameters the plugin hands to the client's
    `upload` call, and what that call can produce. The resumable transfer itself lives in the
    client library and is not modelled. */
module Vimeo {

  /** The `privacy` parameter: who may view the video ("anybody", ...). */
  datatype Privacy = Privacy(view: string)

  /** The parameter array `{name, description, privacy: {view}}` sent with an upload. */
  datatype UploadParams = UploadParams(name: string, description: string, privacy: Privacy)

  /** What the client's `upload` call does: return the remote response (the new video's URI),
      or throw one of the two exception kinds the handler catches, each with a message. */
  datatype UploadResult =
    | Uploaded(response: string)
    | RequestException(message: string)
    | UploadException(message: string)
}
