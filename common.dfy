/** The response envelope every endpoint writes, and its fixed codes and messages. */
module Common {
  import Model

  const StatusOK := 200
  const StatusBadRequest := 400
  const StatusInternalServerError := 500

  const StatusOKResponseCode := "200"
  const StatusOKResponseMessage := "Success"
  const StatusBadRequestErrorResponseCode := "400"
  const StatusBadRequestErrorResponseMessage := "Bad Request"
  const StatusInternalServerErrorResponseCode := "500"
  const StatusInternalServerErrorResponseMessage := "Internal Server Error"

  /** The envelope's `Data`, which holds nothing, a logged-in user or a discovered candidate. */
  datatype Payload = NoData | UserPayload(user: Model.UserData) | TargetPayload(target: Model.TargetUserData)

  /** `common.HTTPResponse`. */
  datatype HTTPResponse = HTTPResponse(responseCode: string, responseMessage: string, data: Payload, httpStatus: int)

  function OkResponse(data: Payload): HTTPResponse
  {
    HTTPResponse(StatusOKResponseCode, StatusOKResponseMessage, data, StatusOK)
  }

  function BadRequestResponse(): HTTPResponse
  {
    HTTPResponse(StatusBadRequestErrorResponseCode, StatusBadRequestErrorResponseMessage, NoData, StatusBadRequest)
  }

  function InternalServerErrorResponse(): HTTPResponse
  {
    HTTPResponse(StatusInternalServerErrorResponseCode, StatusInternalServerErrorResponseMessage, NoData, StatusInternalServerError)
  }
}
