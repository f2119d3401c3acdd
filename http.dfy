/** The part of an HTTP response object the controllers drive: a status
    code, headers, the chunks written so far, a JSON body, and whether
    the headers have left for the client. */
module Http {
  import opened Quiz

  /** `{count, data}` for one category inside the aggregate reply. */
  datatype Listing = Listing(count: nat, data: seq<QuizRecord>)

  /** The JSON bodies the controllers send. The field names follow the JSON
      keys, except `byName` and `pick`, which are both `data` in the JSON. */
  datatype Body =
    | CategoryData(success: bool, count: nat, data: seq<QuizRecord>)   // {success, count, data}
    | AllData(success: bool, byName: map<string, Listing>)            // {success, data: {NAME: {count, data}}}
    | RandomPick(success: bool, pick: Option<QuizRecord>)             // {success, data}, data may be null
    | Failure(success: bool, error: string, details: string)          // {success: false, error, details}
    | ErrorReply(error: string, details: string)                      // {error, details}

  /** The concatenation of written chunks: what the client receives. */
  function Concat(chunks: seq<string>): string {
    if chunks == [] then "" else Concat(chunks[..|chunks| - 1]) + chunks[|chunks| - 1]
  }

  class Response {
    var statusCode: int
    var headers: map<string, string>
    var headersSent: bool
    var written: seq<string>
    var jsonBody: Option<Body>
    /** How many times the response was finished, by `end()` or `json()`. */
    var endCalls: nat

    /** A response nothing has touched yet. */
    ghost predicate Pristine()
      reads this
    {
      statusCode == 200 && headers == map[] && !headersSent &&
      written == [] && jsonBody == None && endCalls == 0
    }

    constructor ()
      ensures Pristine()
    {
      statusCode := 200;
      headers := map[];
      headersSent := false;
      written := [];
      jsonBody := None;
      endCalls := 0;
    }

    /** The text body received by the client. */
    function Text(): string
      reads this
    {
      Concat(written)
    }

    /** `res.status(code)`. */
    method Status(code: int)
      modifies this`statusCode
      ensures statusCode == code
    {
      statusCode := code;
    }

    /** `res.setHeader(name, value)`; only legal before the headers go out. */
    method SetHeader(name: string, value: string)
      requires !headersSent
      modifies this`headers
      ensures headers == old(headers)[name := value]
    {
      headers := headers[name := value];
    }

    /** `res.write(chunk)`: sends the headers if they have not gone yet,
        then the chunk. */
    method Write(chunk: string)
      requires endCalls == 0
      modifies this`headersSent, this`written
      ensures headersSent
      ensures written == old(written) + [chunk]
    {
      headersSent := true;
      written := written + [chunk];
    }

    /** `res.end()`. */
    method End()
      modifies this`headersSent, this`endCalls
      ensures headersSent
      ensures endCalls == old(endCalls) + 1
    {
      headersSent := true;
      endCalls := endCalls + 1;
    }

    /** `res.json(body)`: sends the headers and the body and finishes the
        response; only legal before the headers go out. */
    method Json(body: Body)
      requires !headersSent
      modifies this`headersSent, this`jsonBody, this`endCalls
      ensures headersSent
      ensures jsonBody == Some(body)
      ensures endCalls == old(endCalls) + 1
    {
      headersSent := true;
      jsonBody := Some(body);
      endCalls := endCalls + 1;
    }
  }
}
