/** `SemanticScholarAPI`: the lazily opened HTTP connection, the endpoint
    methods that send one request over it and classify the response, and
    closing, also on leaving a `with` block. */
module Client {
  import opened Dicts
  import opened Requests
  import opened Responses

  const UserAgent := "s2cli/0.1.0"
  const DefaultTimeout: real := 30.0

  /** The server, as seen by the client: the response it gives to a
      request sent with the connection's headers. */
  type Server = (map<string, string>, Request) -> Response

  /** `api_key or os.environ.get("S2_API_KEY")`: the environment's value
      is a parameter here. */
  function EffectiveApiKey(apiKey: Option<string>, environmentKey: Option<string>): (k: Option<string>)
    ensures Given(apiKey) ==> k == apiKey
    ensures !Given(apiKey) ==> k == environmentKey
  {
    if Given(apiKey) then apiKey else environmentKey
  }

  /** The headers the client passes to `httpx.Client`: always the user
      agent, and the API key exactly when there is a (non-empty) one. */
  function ConnectionHeaders(apiKey: Option<string>): (h: map<string, string>)
    ensures "User-Agent" in h && h["User-Agent"] == UserAgent
    ensures "x-api-key" in h <==> Given(apiKey)
    ensures "x-api-key" in h ==> h["x-api-key"] == apiKey.value
    ensures h.Keys <= {"User-Agent", "x-api-key"}
  {
    var h := map["User-Agent" := UserAgent];
    if Given(apiKey) then h["x-api-key" := apiKey.value] else h
  }

  /** The key header is sent iff the caller or, failing that, the
      environment supplies a non-empty key. */
  lemma ApiKeyHeaderSent(apiKey: Option<string>, environmentKey: Option<string>)
    ensures var h := ConnectionHeaders(EffectiveApiKey(apiKey, environmentKey));
      && ("x-api-key" in h <==> Given(apiKey) || Given(environmentKey))
      && (Given(apiKey) ==> h["x-api-key"] == apiKey.value)
      && (!Given(apiKey) && Given(environmentKey) ==> h["x-api-key"] == environmentKey.value)
  {
  }

  /** An open `httpx.Client`: fixed headers and timeout, and the requests
      sent over it so far. */
  class HttpConnection {
    const headers: map<string, string>
    const timeout: real
    var isOpen: bool
    var sent: seq<Request>

    constructor (headers: map<string, string>, timeout: real)
      ensures this.headers == headers && this.timeout == timeout
      ensures isOpen && sent == []
    {
      this.headers := headers;
      this.timeout := timeout;
      isOpen := true;
      sent := [];
    }

    /** `client.get(...)` / `client.post(...)`. */
    method Send(req: Request, server: Server) returns (resp: Response)
      requires isOpen
      modifies this`sent
      ensures sent == old(sent) + [req]
      ensures resp == server(headers, req)
    {
      sent := sent + [req];
      resp := server(headers, req);
    }

    /** `client.close()`. */
    method Close()
      modifies this`isOpen
      ensures !isOpen
    {
      isOpen := false;
    }
  }

  class SemanticScholarApi {
    const apiKey: Option<string>
    const timeout: real
    /** `self._client`: null until first used and after `close`. */
    var conn: HttpConnection?
    /** How many connections this client has opened. */
    ghost var connectionsMade: nat

    /** A held connection is open and was made from this client's settings. */
    ghost predicate Valid()
      reads this, conn
    {
      conn != null ==>
        && conn.isOpen
        && conn.headers == ConnectionHeaders(apiKey)
        && conn.timeout == timeout
    }

    /** `SemanticScholarAPI(api_key, timeout)`, with the value of
        `S2_API_KEY` in the environment; no connection is opened. */
    constructor (environmentKey: Option<string>, apiKey: Option<string> := None,
                 timeout: real := DefaultTimeout)
      ensures this.apiKey == EffectiveApiKey(apiKey, environmentKey)
      ensures this.timeout == timeout
      ensures conn == null && connectionsMade == 0
      ensures Valid()
    {
      this.apiKey := EffectiveApiKey(apiKey, environmentKey);
      this.timeout := timeout;
      conn := null;
      connectionsMade := 0;
    }

    /** The `client` property: opens a connection on first use and hands
        back the same one afterwards. */
    method Connection() returns (c: HttpConnection)
      requires Valid()
      modifies this`conn, this`connectionsMade
      ensures Valid() && conn == c
      ensures c.isOpen && c.headers == ConnectionHeaders(apiKey) && c.timeout == timeout
      ensures old(conn) != null ==> c == old(conn) && connectionsMade == old(connectionsMade)
      ensures old(conn) == null ==> fresh(c) && c.sent == [] && connectionsMade == old(connectionsMade) + 1
    {
      if conn == null {
        conn := new HttpConnection(ConnectionHeaders(apiKey), timeout);
        connectionsMade := connectionsMade + 1;
      }
      c := conn;
    }

    /** After one request: a connection is held, it is the previous one if
        there was one (fresh otherwise), and `req` was appended to what it
        sent. */
    twostate predicate SentOnce(req: Request)
      reads this, conn
    {
      && Valid()
      && conn != null
      && (old(conn) != null ==>
            conn == old(conn) && conn.sent == old(conn.sent) + [req] && connectionsMade == old(connectionsMade))
      && (old(conn) == null ==> fresh(conn) && conn.sent == [req] && connectionsMade == old(connectionsMade) + 1)
    }

    /** `self.client.get/post(...)` followed by `self._handle_response`. */
    method Perform(req: Request, server: Server) returns (h: Handled)
      requires Valid()
      modifies this`conn, this`connectionsMade, {conn}`sent
      ensures SentOnce(req)
      ensures h == HandleResponse(server(ConnectionHeaders(apiKey), req))
    {
      var c := Connection();
      var resp := c.Send(req, server);
      h := HandleResponse(resp);
    }

    method SearchPapers(
      server: Server, query: string, fields: Option<string> := None, limit: int := 10,
      offset: int := 0, year: Option<string> := None, venue: Option<string> := None,
      fieldsOfStudy: Option<string> := None, minCitationCount: Option<int> := None,
      openAccessPdf: bool := false, publicationTypes: Option<string> := None)
      returns (h: Handled)
      requires Valid()
      modifies this`conn, this`connectionsMade, {conn}`sent
      ensures var req := SearchPapersRequest(query, fields, limit, offset, year, venue,
                                             fieldsOfStudy, minCitationCount, openAccessPdf,
                                             publicationTypes);
        SentOnce(req) && h == HandleResponse(server(ConnectionHeaders(apiKey), req))
    {
      h := Perform(SearchPapersRequest(query, fields, limit, offset, year, venue, fieldsOfStudy,
                                       minCitationCount, openAccessPdf, publicationTypes), server);
    }

    method GetPaper(server: Server, paperId: string, fields: Option<string> := None) returns (h: Handled)
      requires Valid()
      modifies this`conn, this`connectionsMade, {conn}`sent
      ensures var req := GetPaperRequest(paperId, fields);
        SentOnce(req) && h == HandleResponse(server(ConnectionHeaders(apiKey), req))
    {
      h := Perform(GetPaperRequest(paperId, fields), server);
    }

    method GetPapersBatch(server: Server, paperIds: seq<string>, fields: Option<string> := None)
      returns (h: Handled)
      requires Valid()
      modifies this`conn, this`connectionsMade, {conn}`sent
      ensures var req := GetPapersBatchRequest(paperIds, fields);
        SentOnce(req) && h == HandleResponse(server(ConnectionHeaders(apiKey), req))
    {
      h := Perform(GetPapersBatchRequest(paperIds, fields), server);
    }

    method GetPaperCitations(
      server: Server, paperId: string, fields: Option<string> := None, limit: int := 100,
      offset: int := 0)
      returns (h: Handled)
      requires Valid()
      modifies this`conn, this`connectionsMade, {conn}`sent
      ensures var req := GetPaperCitationsRequest(paperId, fields, limit, offset);
        SentOnce(req) && h == HandleResponse(server(ConnectionHeaders(apiKey), req))
    {
      h := Perform(GetPaperCitationsRequest(paperId, fields, limit, offset), server);
    }

    method GetPaperReferences(
      server: Server, paperId: string, fields: Option<string> := None, limit: int := 100,
      offset: int := 0)
      returns (h: Handled)
      requires Valid()
      modifies this`conn, this`connectionsMade, {conn}`sent
      ensures var req := GetPaperReferencesRequest(paperId, fields, limit, offset);
        SentOnce(req) && h == HandleResponse(server(ConnectionHeaders(apiKey), req))
    {
      h := Perform(GetPaperReferencesRequest(paperId, fields, limit, offset), server);
    }

    method SearchAuthors(
      server: Server, query: string, fields: Option<string> := None, limit: int := 10,
      offset: int := 0)
      returns (h: Handled)
      requires Valid()
      modifies this`conn, this`connectionsMade, {conn}`sent
      ensures var req := SearchAuthorsRequest(query, fields, limit, offset);
        SentOnce(req) && h == HandleResponse(server(ConnectionHeaders(apiKey), req))
    {
      h := Perform(SearchAuthorsRequest(query, fields, limit, offset), server);
    }

    method GetAuthor(server: Server, authorId: string, fields: Option<string> := None) returns (h: Handled)
      requires Valid()
      modifies this`conn, this`connectionsMade, {conn}`sent
      ensures var req := GetAuthorRequest(authorId, fields);
        SentOnce(req) && h == HandleResponse(server(ConnectionHeaders(apiKey), req))
    {
      h := Perform(GetAuthorRequest(authorId, fields), server);
    }

    method GetAuthorPapers(
      server: Server, authorId: string, fields: Option<string> := None, limit: int := 100,
      offset: int := 0)
      returns (h: Handled)
      requires Valid()
      modifies this`conn, this`connectionsMade, {conn}`sent
      ensures var req := GetAuthorPapersRequest(authorId, fields, limit, offset);
        SentOnce(req) && h == HandleResponse(server(ConnectionHeaders(apiKey), req))
    {
      h := Perform(GetAuthorPapersRequest(authorId, fields, limit, offset), server);
    }

    method GetRecommendations(
      server: Server, paperId: string, fields: Option<string> := None, limit: int := 10,
      pool: string := DefaultPool)
      returns (h: Handled)
      requires Valid()
      modifies this`conn, this`connectionsMade, {conn}`sent
      ensures var req := GetRecommendationsRequest(paperId, fields, limit, pool);
        SentOnce(req) && h == HandleResponse(server(ConnectionHeaders(apiKey), req))
    {
      h := Perform(GetRecommendationsRequest(paperId, fields, limit, pool), server);
    }

    method GetRecommendationsMulti(
      server: Server, positivePaperIds: seq<string>, negativePaperIds: Option<seq<string>> := None,
      fields: Option<string> := None, limit: int := 10)
      returns (h: Handled)
      requires Valid()
      modifies this`conn, this`connectionsMade, {conn}`sent
      ensures var req := GetRecommendationsMultiRequest(positivePaperIds, negativePaperIds, fields, limit);
        SentOnce(req) && h == HandleResponse(server(ConnectionHeaders(apiKey), req))
    {
      h := Perform(GetRecommendationsMultiRequest(positivePaperIds, negativePaperIds, fields, limit),
                   server);
    }

    method ListReleases(server: Server) returns (h: Handled)
      requires Valid()
      modifies this`conn, this`connectionsMade, {conn}`sent
      ensures var req := ListReleasesRequest();
        SentOnce(req) && h == HandleResponse(server(ConnectionHeaders(apiKey), req))
    {
      h := Perform(ListReleasesRequest(), server);
    }

    method GetRelease(server: Server, releaseId: string) returns (h: Handled)
      requires Valid()
      modifies this`conn, this`connectionsMade, {conn}`sent
      ensures var req := GetReleaseRequest(releaseId);
        SentOnce(req) && h == HandleResponse(server(ConnectionHeaders(apiKey), req))
    {
      h := Perform(GetReleaseRequest(releaseId), server);
    }

    method GetDatasetLinks(server: Server, releaseId: string, datasetName: string)
      returns (h: Handled)
      requires Valid()
      modifies this`conn, this`connectionsMade, {conn}`sent
      ensures var req := GetDatasetLinksRequest(releaseId, datasetName);
        SentOnce(req) && h == HandleResponse(server(ConnectionHeaders(apiKey), req))
    {
      h := Perform(GetDatasetLinksRequest(releaseId, datasetName), server);
    }

    /** `close`: closes a held connection and forgets it; with none held it
        changes nothing, so closing twice is the same as closing once. */
    method Close()
      requires Valid()
      modifies this`conn, {conn}`isOpen
      ensures conn == null && Valid()
      ensures old(conn) != null ==> !old(conn).isOpen
    {
      if conn != null {
        conn.Close();
        conn := null;
      }
    }

    /** `__enter__`: the client itself. */
    method Enter() returns (r: SemanticScholarApi)
      ensures r == this
    {
      r := this;
    }

    /** `__exit__`: always closes, whatever ended the block. */
    method Exit()
      requires Valid()
      modifies this`conn, {conn}`isOpen
      ensures conn == null && Valid()
      ensures old(conn) != null ==> !old(conn).isOpen
    {
      Close();
    }
  }
}
