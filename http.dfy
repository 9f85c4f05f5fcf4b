/** The HTTP responses the payment routes answer with (`NextResponse`). */
module Http {
  /** The JSON bodies the routes return with status 200. */
  datatype JsonBody =
    | CheckoutUrl(url: string)
    | OrderCreated(id: string, amount: int, currency: string, credits: nat)
    | Received

  datatype Response =
    | Text(status: int, message: string)   // `new NextResponse(message, { status })`
    | Json(body: JsonBody)                 // `NextResponse.json(body)`, status 200

  function Status(r: Response): int {
    match r
    case Text(status, _) => status
    case Json(_) => 200
  }
}
