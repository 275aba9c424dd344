/** The request and response shapes shared by the serverless functions.
    Headers (CORS) and JSON serialisation of bodies are not modelled. */
module Http {

  /** `event.httpMethod` */
  datatype Method = Options | Get | Post | OtherMethod(name: string)

  /** `{ statusCode, body }` with the body still a structured value. */
  datatype Response<+B> = Response(status: int, body: B)
}
