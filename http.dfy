/** What a route hands back to Next.js. */
module Http {

  datatype Reply<+B> =
    | Json(status: int, body: B)           // NextResponse.json(body, { status })
    | ErrorJson(status: int, error: string) // NextResponse.json({ error }, { status })
    | Crashed                              // a rejected promise left the route; the framework answers
}
