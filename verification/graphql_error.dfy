/** The GraphQL error value decoded from the `errors` array of a response.
    Its message is modelled as a string. */
module GraphqlError {
  import opened Wrappers
  import Json

  /** What `Error()` puts in front of the message. */
  const Prefix: string := "graphql: "

  /** A source position the server reports for an error. */
  datatype Location = Location(column: int, line: int)

  datatype GraphErr = GraphErr(
    message: string,
    errorExtensions: Option<map<string, Json.Value>>,
    locations: seq<Location>,
    path: seq<string>)

  /** `(*GraphErr).Extensions`: the stored extensions, a nil map staying nil. */
  function Extensions(e: GraphErr): (ext: Option<map<string, Json.Value>>)
    ensures ext == e.errorExtensions
  {
    e.errorExtensions
  }

  /** `GraphErr.Error`: the message behind the "graphql: " prefix. */
  function Error(e: GraphErr): (s: string)
    ensures |s| == |Prefix| + |e.message|
    ensures s[..|Prefix|] == Prefix
    ensures s[|Prefix|..] == e.message
  {
    Prefix + e.message
  }

  /** Reads the message back out of an `Error()` string; `None` when the
      prefix is missing. */
  function MessageOf(s: string): Option<string>
  {
    if |Prefix| <= |s| && s[..|Prefix|] == Prefix then Some(s[|Prefix|..]) else None
  }

  /** The message can be recovered from the error text. */
  lemma ErrorRoundTrip(e: GraphErr)
    ensures MessageOf(Error(e)) == Some(e.message)
  {
  }

  /** The error text depends on the message and on nothing else: two errors
      print alike exactly when their messages are equal, whatever their
      extensions, locations and paths. */
  lemma ErrorDependsOnlyOnMessage(e1: GraphErr, e2: GraphErr)
    ensures Error(e1) == Error(e2) <==> e1.message == e2.message
  {
  }
}
