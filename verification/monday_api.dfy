/**
 * The Monday API client: how a query or mutation document becomes the body
 * posted to the service, and how the decoded reply is classified.
 */
module MondayApi {
  import opened PhpArrays
  import opened PhpStrings

  /** The two operation keywords, `TYPE_QUERY` and `TYPE_MUTAT`. */
  datatype OperationType = Query | Mutation

  function Keyword(op: OperationType): string
  {
    match op
    case Query => "query"
    case Mutation => "mutation"
  }

  /**
   * Removing every carriage return and then every line feed with
   * `str_replace` is filtering both characters out.
   */
  lemma {:induction false} RemovingLineBreaksFilters(s: string)
    ensures StrReplace("\n", "", StrReplace("\r", "", s)) == Without('\n', Without('\r', s))
    ensures '\r' !in Without('\n', Without('\r', s))
    ensures forall c :: c != '\r' && c != '\n' ==> multiset(Without('\n', Without('\r', s)))[c] == multiset(s)[c]
    ensures '\r' !in s && '\n' !in s ==> Without('\n', Without('\r', s)) == s
  {
    StrReplaceCharByNothing('\r', s);
    StrReplaceCharByNothing('\n', StrReplace("\r", "", s));
    WithoutPreservesAbsence('\n', Without('\r', s), '\r');
    forall c | c != '\r' && c != '\n'
      ensures multiset(Without('\n', Without('\r', s)))[c] == multiset(s)[c]
    {
      WithoutKeepsOthers('\r', s, c);
      WithoutKeepsOthers('\n', Without('\r', s), c);
    }
    if '\r' !in s && '\n' !in s {
      WithoutAbsent('\r', s);
      WithoutAbsent('\n', s);
    }
  }

  /**
   * `str_replace(["\r", "\n"], '', $request)`: carriage returns are removed,
   * then line feeds. The result has neither, and every other character is
   * kept, in order and as often as it occurred.
   */
  function StripLineBreaks(s: string): (r: string)
    ensures '\r' !in r && '\n' !in r
    ensures r == Without('\n', Without('\r', s))
    ensures forall c :: c != '\r' && c != '\n' ==> multiset(r)[c] == multiset(s)[c]
    ensures '\r' !in s && '\n' !in s ==> r == s
  {
    RemovingLineBreaksFilters(s);
    StrReplace("\n", "", StrReplace("\r", "", s))
  }

  /** Stripping line breaks a second time changes nothing. */
  lemma StripLineBreaksIdempotent(s: string)
    ensures StripLineBreaks(StripLineBreaks(s)) == StripLineBreaks(s)
  {
  }

  /** The text sent as the query: `<keyword> { <request> } `. */
  function QueryText(op: OperationType, request: string): string
  {
    Keyword(op) + " { " + request + " } "
  }

  /**
   * What `content` hands to `json_encode`: an object whose only member is
   * `query`. The debug flag only decides whether the same text is echoed.
   */
  function Content(op: OperationType, request: string): Value
  {
    Arr([(StrKey("query"), Str(QueryText(op, request)))])
  }

  /** The body `request` hands to the transport for a document. */
  function PostedBody(op: OperationType, request: string): Value
  {
    Content(op, StripLineBreaks(request))
  }

  /** Reads the operation keyword and the document back out of a query text. */
  function ParseQueryText(text: string): Option<(OperationType, string)>
  {
    if |text| >= 11 && text[..8] == "query { " && text[|text| - 3..] == " } " then
      Some((Query, text[8..|text| - 3]))
    else if |text| >= 14 && text[..11] == "mutation { " && text[|text| - 3..] == " } " then
      Some((Mutation, text[11..|text| - 3]))
    else None
  }

  /** The query text determines both the keyword and the document it wraps. */
  lemma QueryTextRoundTrip(op: OperationType, request: string)
    ensures ParseQueryText(QueryText(op, request)) == Some((op, request))
  {
    var text := QueryText(op, request);
    match op
    case Query =>
      assert text[..8] == "query { ";
      assert text[|text| - 3..] == " } ";
      assert text[8..|text| - 3] == request;
    case Mutation =>
      assert text[..8] != "query { " by { assert text[0] == 'm'; }
      assert text[..11] == "mutation { ";
      assert text[|text| - 3..] == " } ";
      assert text[11..|text| - 3] == request;
  }

  /**
   * The posted query is a single line, and it gives back the operation
   * keyword and the document with its line breaks removed.
   */
  lemma PostedBodyIsSingleLine(op: OperationType, request: string)
    ensures var text := QueryText(op, StripLineBreaks(request));
            && PostedBody(op, request) == Arr([(StrKey("query"), Str(text))])
            && '\r' !in text && '\n' !in text
            && ParseQueryText(text) == Some((op, StripLineBreaks(request)))
  {
    QueryTextRoundTrip(op, StripLineBreaks(request));
  }

  /**
   * The outcome of the HTTP fetch: nothing (`false`), or a body together
   * with what `json_decode($body, true)` makes of it.
   */
  datatype Fetch = Failed | Received(body: string, decoded: Value)

  /** `$data` is truthy: the fetch succeeded with a body other than "" and "0". */
  predicate Delivered(reply: Fetch)
  {
    reply.Received? && reply.body != "" && reply.body != "0"
  }

  /** `isset($json[key])` on the decoded reply, with the member's value. */
  function Member(json: Value, key: string): (r: Option<Value>)
    ensures r.Some? ==> r.value != Null
    ensures r.Some? <==> json.Arr? && IsSet(json.entries, StrKey(key))
    ensures r.Some? ==> r.value == Lookup(json.entries, StrKey(key)).value
  {
    if json.Arr? && IsSet(json.entries, StrKey(key)) then Lookup(json.entries, StrKey(key)) else None
  }

  /**
   * `response($data)`: a failed or falsy fetch gives `false`; otherwise a
   * non-null `data` member is returned, whatever else the reply holds;
   * failing that, an `errors` member that is an array; failing that, `false`.
   */
  function Response(reply: Fetch): (r: Value)
    ensures r != Null
    ensures !Delivered(reply) ==> r == Bool(false)
    ensures Delivered(reply) && Member(reply.decoded, "data").Some? ==>
              r == Member(reply.decoded, "data").value
    ensures Delivered(reply) && Member(reply.decoded, "data").None? ==>
              if Member(reply.decoded, "errors").Some? && Member(reply.decoded, "errors").value.Arr?
              then r == Member(reply.decoded, "errors").value
              else r == Bool(false)
  {
    if !Delivered(reply) then Bool(false)
    else
      var json := reply.decoded;
      if Member(json, "data").Some? then Member(json, "data").value
      else if Member(json, "errors").Some? && Member(json, "errors").value.Arr? then Member(json, "errors").value
      else Bool(false)
  }

  /**
   * The client: its debug flag and the bodies it has handed to the
   * transport, oldest first.
   */
  class Client {
    const debug: bool
    var posted: seq<Value>

    constructor (debug: bool)
      ensures this.debug == debug && posted == []
    {
      this.debug := debug;
      posted := [];
    }

    /**
     * `request($type, $request)`: posts the document, stripped of line
     * breaks and wrapped by `Content`, and classifies what comes back.
     */
    method Request(op: OperationType, request: string, reply: Fetch) returns (r: Value)
      modifies this`posted
      ensures posted == old(posted) + [PostedBody(op, request)]
      ensures r == Response(reply)
    {
      posted := posted + [Content(op, StripLineBreaks(request))];
      r := Response(reply);
    }
  }
}
