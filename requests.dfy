/** The requests that the endpoint methods of `SemanticScholarAPI` send:
    method, URL, query parameters and JSON payload, as pure functions of
    the caller's arguments. */
module Requests {
  import opened Dicts
  import opened PercentEncoding

  const GraphApiBase := "https://api.semanticscholar.org/graph/v1"
  const RecommendationsApiBase := "https://api.semanticscholar.org/recommendations/v1"
  const DatasetsApiBase := "https://api.semanticscholar.org/datasets/v1"

  const DefaultPaperFields :=
    "paperId,title,year,authors,citationCount,abstract,venue,openAccessPdf,externalIds"
  const DefaultAuthorFields := "authorId,name,affiliations,paperCount,citationCount,hIndex"
  /** The recommendation pool used when the caller names none. */
  const DefaultPool := "recent"

  /** The largest `limit` each endpoint sends, and the most IDs a batch carries. */
  const PaperSearchCap := 100
  const ListCap := 1000
  const RecommendationsCap := 500
  const BatchCap := 500

  datatype Verb = Get | Post

  /** The query parameters the client sends. */
  datatype Param =
    | Query | Fields | Limit | Offset | Year | Venue | FieldsOfStudy
    | MinCitationCount | OpenAccessPdf | PublicationTypes | From

  /** A parameter's name on the wire. */
  function Name(p: Param): string
  {
    match p
    case Query => "query"
    case Fields => "fields"
    case Limit => "limit"
    case Offset => "offset"
    case Year => "year"
    case Venue => "venue"
    case FieldsOfStudy => "fieldsOfStudy"
    case MinCitationCount => "minCitationCount"
    case OpenAccessPdf => "openAccessPdf"
    case PublicationTypes => "publicationTypes"
    case From => "from"
  }

  /** Distinct parameters have distinct names, so a map keyed by `Param`
      is a map keyed by the names sent. */
  lemma NameInjective(p: Param, q: Param)
    ensures Name(p) == Name(q) ==> p == q
  {
  }

  /** A query-string value: the client passes strings and integers. */
  datatype QueryValue = Text(text: string) | Number(number: int)

  datatype Request = Request(
    verb: Verb,
    url: string,
    params: map<Param, QueryValue>,
    body: Option<Json>)

  /** Python truthiness of an optional string: None and "" are false. */
  predicate Given(s: Option<string>) { s.Some? && s.value != "" }

  /** `fields or default`. */
  function FieldsOr(fields: Option<string>, default: string): string
  {
    if Given(fields) then fields.value else default
  }

  /** `min(limit, cap)`: never above the cap, and a limit within the cap is
      sent unchanged. */
  function CappedLimit(limit: int, cap: int): (r: int)
    ensures r <= cap
    ensures limit <= cap ==> r == limit
    ensures limit > cap ==> r == cap
  {
    if limit <= cap then limit else cap
  }

  /** `url` is `prefix`, then `quote(id, safe=":")` as one path segment,
      then `suffix`; the segment has no '/' and decodes back to `id`. */
  predicate HasIdSegment(url: string, prefix: string, id: string, suffix: string)
  {
    && |url| >= |prefix| + |suffix|
    && url[..|prefix|] == prefix
    && url[|url| - |suffix|..] == suffix
    && var segment := url[|prefix|..|url| - |suffix|];
       segment == Quote(id) && '/' !in segment && DecodeId(segment) == Some(id)
  }

  /** `f"{prefix}{quote(paper_id, safe=':')}{suffix}"`. */
  function IdUrl(prefix: string, paperId: string, suffix: string): (url: string)
    ensures HasIdSegment(url, prefix, paperId, suffix)
  {
    var segment := Quote(paperId);
    QuoteRoundTrip(paperId);
    var url := prefix + segment + suffix;
    assert url[..|prefix|] == prefix;
    assert url[|url| - |suffix|..] == suffix;
    assert url[|prefix|..|url| - |suffix|] == segment;
    url
  }

  /** A URL with an identifier segment is exactly prefix, quoted
      identifier, suffix. */
  lemma IdSegmentUrl(url: string, prefix: string, id: string, suffix: string)
    requires HasIdSegment(url, prefix, id, suffix)
    ensures url == prefix + Quote(id) + suffix
  {
    assert url == url[..|prefix|] + url[|prefix|..|url| - |suffix|] + url[|url| - |suffix|..];
  }

  /** The `limit` sent for a requested `limit`: never above `cap`, equal to
      the request when within it, the cap otherwise. */
  predicate LimitSent(params: map<Param, QueryValue>, limit: int, cap: int)
  {
    && Limit in params && params[Limit].Number?
    && params[Limit].number <= cap
    && (limit <= cap ==> params[Limit].number == limit)
    && (limit > cap ==> params[Limit].number == cap)
  }

  /** The `fields` sent: the caller's when given (truthy), else the default. */
  predicate FieldsSent(params: map<Param, QueryValue>, fields: Option<string>, default: string)
  {
    && Fields in params
    && (Given(fields) ==> params[Fields] == Text(fields.value))
    && (!Given(fields) ==> params[Fields] == Text(default))
  }

  /** `if cond: params[key] = value`. */
  function StoreIf(params: map<Param, QueryValue>, cond: bool, key: Param, value: QueryValue)
    : (r: map<Param, QueryValue>)
  {
    if cond then params[key := value] else params
  }

  /** The query of the list endpoints: fields, capped limit, offset. */
  function PageParams(fields: string, limit: int, cap: int, offset: int): map<Param, QueryValue>
  {
    map[Fields := Text(fields), Limit := Number(CappedLimit(limit, cap)), Offset := Number(offset)]
  }

  /** `search_papers`: the four fixed parameters, then each filter only when
      the caller gave it. `minCitationCount` is tested against None, so 0
      is sent; `openAccessPdf` is sent with an empty value. */
  function SearchPapersRequest(
    query: string, fields: Option<string> := None, limit: int := 10, offset: int := 0,
    year: Option<string> := None, venue: Option<string> := None,
    fieldsOfStudy: Option<string> := None, minCitationCount: Option<int> := None,
    openAccessPdf: bool := false, publicationTypes: Option<string> := None): (r: Request)
    ensures r.verb == Get && r.url == GraphApiBase + "/paper/search" && r.body == None
  {
    var p0 := map[Query := Text(query), Fields := Text(FieldsOr(fields, DefaultPaperFields)),
                  Limit := Number(CappedLimit(limit, PaperSearchCap)), Offset := Number(offset)];
    var p1 := StoreIf(p0, Given(year), Year, Text(if year.Some? then year.value else ""));
    var p2 := StoreIf(p1, Given(venue), Venue, Text(if venue.Some? then venue.value else ""));
    var p3 := StoreIf(p2, Given(fieldsOfStudy), FieldsOfStudy,
                      Text(if fieldsOfStudy.Some? then fieldsOfStudy.value else ""));
    var p4 := StoreIf(p3, minCitationCount.Some?, MinCitationCount,
                      Number(if minCitationCount.Some? then minCitationCount.value else 0));
    var p5 := StoreIf(p4, openAccessPdf, OpenAccessPdf, Text(""));
    var p6 := StoreIf(p5, Given(publicationTypes), PublicationTypes,
                      Text(if publicationTypes.Some? then publicationTypes.value else ""));
    Request(Get, GraphApiBase + "/paper/search", p6, None)
  }

  lemma SearchPapersKeys(
    query: string, fields: Option<string>, limit: int, offset: int,
    year: Option<string>, venue: Option<string>, fieldsOfStudy: Option<string>,
    minCitationCount: Option<int>, openAccessPdf: bool, publicationTypes: Option<string>)
    ensures var r := SearchPapersRequest(query, fields, limit, offset, year, venue, fieldsOfStudy,
                                         minCitationCount, openAccessPdf, publicationTypes);
      r.params.Keys ==
      {Query, Fields, Limit, Offset}
      + (if Given(year) then {Year} else {})
      + (if Given(venue) then {Venue} else {})
      + (if Given(fieldsOfStudy) then {FieldsOfStudy} else {})
      + (if minCitationCount.Some? then {MinCitationCount} else {})
      + (if openAccessPdf then {OpenAccessPdf} else {})
      + (if Given(publicationTypes) then {PublicationTypes} else {})
  {
  }

  /** `search_papers` sends the query and offset as given, the fields or
      their default, and the limit capped at 100. */
  lemma SearchPapersFixedParams(
    query: string, fields: Option<string>, limit: int, offset: int,
    year: Option<string>, venue: Option<string>, fieldsOfStudy: Option<string>,
    minCitationCount: Option<int>, openAccessPdf: bool, publicationTypes: Option<string>)
    ensures var r := SearchPapersRequest(query, fields, limit, offset, year, venue, fieldsOfStudy,
                                         minCitationCount, openAccessPdf, publicationTypes);
      && Query in r.params && r.params[Query] == Text(query)
      && FieldsSent(r.params, fields, DefaultPaperFields)
      && LimitSent(r.params, limit, PaperSearchCap)
      && Offset in r.params && r.params[Offset] == Number(offset)
  {
  }

  /** Each optional filter of `search_papers` is sent with the caller's
      value whenever it is sent. */
  lemma SearchPapersFilterValues(
    query: string, fields: Option<string>, limit: int, offset: int,
    year: Option<string>, venue: Option<string>, fieldsOfStudy: Option<string>,
    minCitationCount: Option<int>, openAccessPdf: bool, publicationTypes: Option<string>)
    ensures var r := SearchPapersRequest(query, fields, limit, offset, year, venue, fieldsOfStudy,
                                         minCitationCount, openAccessPdf, publicationTypes);
      && (Given(year) ==> r.params[Year] == Text(year.value))
      && (Given(venue) ==> r.params[Venue] == Text(venue.value))
      && (Given(fieldsOfStudy) ==> r.params[FieldsOfStudy] == Text(fieldsOfStudy.value))
      && (minCitationCount.Some? ==> r.params[MinCitationCount] == Number(minCitationCount.value))
      && (openAccessPdf ==> r.params[OpenAccessPdf] == Text(""))
      && (Given(publicationTypes) ==> r.params[PublicationTypes] == Text(publicationTypes.value))
  {
  }

  /** `get_paper`: the identifier is quoted into one path segment. */
  function GetPaperRequest(paperId: string, fields: Option<string> := None): (r: Request)
    ensures r.verb == Get && r.body == None
    ensures HasIdSegment(r.url, GraphApiBase + "/paper/", paperId, "")
    ensures r.params.Keys == {Fields} && FieldsSent(r.params, fields, DefaultPaperFields)
  {
    Request(Get, IdUrl(GraphApiBase + "/paper/", paperId, ""),
            map[Fields := Text(FieldsOr(fields, DefaultPaperFields))], None)
  }

  /** `get_papers_batch`: a POST whose payload carries at most the first
      500 identifiers, in their original order. */
  function GetPapersBatchRequest(paperIds: seq<string>, fields: Option<string> := None): (r: Request)
    ensures r.verb == Post && r.url == GraphApiBase + "/paper/batch"
    ensures r.params.Keys == {Fields} && FieldsSent(r.params, fields, DefaultPaperFields)
    ensures r.body.Some? && r.body.value.JObject? && r.body.value.members.Keys == {"ids"}
    ensures var sent := PayloadStrings(r.body, "ids");
      && sent.Some?
      && |sent.value| == (if |paperIds| <= BatchCap then |paperIds| else BatchCap)
      && sent.value == paperIds[..|sent.value|]
    ensures |paperIds| <= BatchCap ==> PayloadStrings(r.body, "ids") == Some(paperIds)
  {
    var ids := if |paperIds| <= BatchCap then paperIds else paperIds[..BatchCap];
    StringArrayRoundTrip(ids);
    Request(Post, GraphApiBase + "/paper/batch",
            map[Fields := Text(FieldsOr(fields, DefaultPaperFields))],
            Some(JObject(map["ids" := StringArray(ids)])))
  }

  /** `get_paper_citations`. */
  function GetPaperCitationsRequest(
    paperId: string, fields: Option<string> := None, limit: int := 100, offset: int := 0): (r: Request)
    ensures r.verb == Get && r.body == None
    ensures HasIdSegment(r.url, GraphApiBase + "/paper/", paperId, "/citations")
    ensures r.params.Keys == {Fields, Limit, Offset}
    ensures FieldsSent(r.params, fields, DefaultPaperFields)
    ensures LimitSent(r.params, limit, ListCap)
    ensures Offset in r.params && r.params[Offset] == Number(offset)
  {
    Request(Get, IdUrl(GraphApiBase + "/paper/", paperId, "/citations"),
            PageParams(FieldsOr(fields, DefaultPaperFields), limit, ListCap, offset), None)
  }

  /** `get_paper_references`. */
  function GetPaperReferencesRequest(
    paperId: string, fields: Option<string> := None, limit: int := 100, offset: int := 0): (r: Request)
    ensures r.verb == Get && r.body == None
    ensures HasIdSegment(r.url, GraphApiBase + "/paper/", paperId, "/references")
    ensures r.params.Keys == {Fields, Limit, Offset}
    ensures FieldsSent(r.params, fields, DefaultPaperFields)
    ensures LimitSent(r.params, limit, ListCap)
    ensures Offset in r.params && r.params[Offset] == Number(offset)
  {
    Request(Get, IdUrl(GraphApiBase + "/paper/", paperId, "/references"),
            PageParams(FieldsOr(fields, DefaultPaperFields), limit, ListCap, offset), None)
  }

  /** `search_authors`: author fields by default. */
  function SearchAuthorsRequest(
    query: string, fields: Option<string> := None, limit: int := 10, offset: int := 0): (r: Request)
    ensures r.verb == Get && r.url == GraphApiBase + "/author/search" && r.body == None
    ensures r.params.Keys == {Query, Fields, Limit, Offset}
    ensures Query in r.params && r.params[Query] == Text(query)
    ensures FieldsSent(r.params, fields, DefaultAuthorFields)
    ensures LimitSent(r.params, limit, ListCap)
    ensures Offset in r.params && r.params[Offset] == Number(offset)
  {
    Request(Get, GraphApiBase + "/author/search",
            PageParams(FieldsOr(fields, DefaultAuthorFields), limit, ListCap, offset)[Query := Text(query)],
            None)
  }

  /** `get_author`: the author identifier is put into the path as given,
      without quoting. */
  function GetAuthorRequest(authorId: string, fields: Option<string> := None): (r: Request)
    ensures r.verb == Get && r.body == None
    ensures r.url == GraphApiBase + "/author/" + authorId
    ensures r.params.Keys == {Fields} && FieldsSent(r.params, fields, DefaultAuthorFields)
  {
    Request(Get, GraphApiBase + "/author/" + authorId,
            map[Fields := Text(FieldsOr(fields, DefaultAuthorFields))], None)
  }

  /** `get_author_papers`: paper fields by default, identifier unquoted. */
  function GetAuthorPapersRequest(
    authorId: string, fields: Option<string> := None, limit: int := 100, offset: int := 0): (r: Request)
    ensures r.verb == Get && r.body == None
    ensures r.url == GraphApiBase + "/author/" + authorId + "/papers"
    ensures r.params.Keys == {Fields, Limit, Offset}
    ensures FieldsSent(r.params, fields, DefaultPaperFields)
    ensures LimitSent(r.params, limit, ListCap)
    ensures Offset in r.params && r.params[Offset] == Number(offset)
  {
    Request(Get, GraphApiBase + "/author/" + authorId + "/papers",
            PageParams(FieldsOr(fields, DefaultPaperFields), limit, ListCap, offset), None)
  }

  /** `get_recommendations`: recommendations for one seed paper from `pool`. */
  function GetRecommendationsRequest(
    paperId: string, fields: Option<string> := None, limit: int := 10, pool: string := DefaultPool): (r: Request)
    ensures r.verb == Get && r.body == None
    ensures HasIdSegment(r.url, RecommendationsApiBase + "/papers/forpaper/", paperId, "")
    ensures r.params.Keys == {Fields, Limit, From}
    ensures FieldsSent(r.params, fields, DefaultPaperFields)
    ensures LimitSent(r.params, limit, RecommendationsCap)
    ensures r.params[From] == Text(pool)
  {
    Request(Get, IdUrl(RecommendationsApiBase + "/papers/forpaper/", paperId, ""),
            map[Fields := Text(FieldsOr(fields, DefaultPaperFields)),
                Limit := Number(CappedLimit(limit, RecommendationsCap)),
                From := Text(pool)],
            None)
  }

  /** Python truthiness of an optional list: None and [] are false. */
  predicate GivenIds(ids: Option<seq<string>>) { ids.Some? && ids.value != [] }

  /** `get_recommendations_multi`: the positive seeds always, the negative
      seeds only when there are some. Neither list is truncated. */
  function GetRecommendationsMultiRequest(
    positivePaperIds: seq<string>, negativePaperIds: Option<seq<string>> := None,
    fields: Option<string> := None, limit: int := 10): (r: Request)
    ensures r.verb == Post && r.url == RecommendationsApiBase + "/papers/"
    ensures r.params.Keys == {Fields, Limit}
    ensures FieldsSent(r.params, fields, DefaultPaperFields)
    ensures LimitSent(r.params, limit, RecommendationsCap)
    ensures r.body.Some? && r.body.value.JObject?
    ensures r.body.value.members.Keys ==
      {"positivePaperIds"} + (if GivenIds(negativePaperIds) then {"negativePaperIds"} else {})
    ensures PayloadStrings(r.body, "positivePaperIds") == Some(positivePaperIds)
    ensures GivenIds(negativePaperIds) ==>
      PayloadStrings(r.body, "negativePaperIds") == Some(negativePaperIds.value)
  {
    StringArrayRoundTrip(positivePaperIds);
    StringArrayRoundTrip(if negativePaperIds.Some? then negativePaperIds.value else []);
    var payload := map["positivePaperIds" := StringArray(positivePaperIds)];
    var payload := if GivenIds(negativePaperIds)
      then payload["negativePaperIds" := StringArray(negativePaperIds.value)] else payload;
    Request(Post, RecommendationsApiBase + "/papers/",
            map[Fields := Text(FieldsOr(fields, DefaultPaperFields)),
                Limit := Number(CappedLimit(limit, RecommendationsCap))],
            Some(JObject(payload)))
  }

  /** `list_releases`. */
  function ListReleasesRequest(): (r: Request)
    ensures r.verb == Get && r.params == map[] && r.body == None
    ensures r.url == DatasetsApiBase + "/release/"
  {
    Request(Get, DatasetsApiBase + "/release/", map[], None)
  }

  /** `get_release`: the release identifier is put into the path as given. */
  function GetReleaseRequest(releaseId: string): (r: Request)
    ensures r.verb == Get && r.params == map[] && r.body == None
    ensures r.url == DatasetsApiBase + "/release/" + releaseId
  {
    Request(Get, DatasetsApiBase + "/release/" + releaseId, map[], None)
  }

  /** `get_dataset_links`. */
  function GetDatasetLinksRequest(releaseId: string, datasetName: string): (r: Request)
    ensures r.verb == Get && r.params == map[] && r.body == None
    ensures r.url == DatasetsApiBase + "/release/" + releaseId + "/dataset/" + datasetName
  {
    Request(Get, DatasetsApiBase + "/release/" + releaseId + "/dataset/" + datasetName, map[], None)
  }

  /** An identifier made only of safe characters, such as
      "ARXIV:2106.12345", appears in the path exactly as given: ':' is kept
      literal by every endpoint that quotes a paper identifier. */
  lemma SafePaperIdLiteral(paperId: string, fields: Option<string>, limit: int, offset: int, pool: string)
    requires forall i :: 0 <= i < |paperId| ==> Safe(paperId[i])
    ensures GetPaperRequest(paperId, fields).url == GraphApiBase + "/paper/" + paperId
    ensures GetPaperCitationsRequest(paperId, fields, limit, offset).url
            == GraphApiBase + "/paper/" + paperId + "/citations"
    ensures GetPaperReferencesRequest(paperId, fields, limit, offset).url
            == GraphApiBase + "/paper/" + paperId + "/references"
    ensures GetRecommendationsRequest(paperId, fields, limit, pool).url
            == RecommendationsApiBase + "/papers/forpaper/" + paperId
  {
    QuoteSafeIdentity(paperId);
    IdSegmentUrl(GetPaperRequest(paperId, fields).url, GraphApiBase + "/paper/", paperId, "");
    IdSegmentUrl(GetPaperCitationsRequest(paperId, fields, limit, offset).url,
                 GraphApiBase + "/paper/", paperId, "/citations");
    IdSegmentUrl(GetPaperReferencesRequest(paperId, fields, limit, offset).url,
                 GraphApiBase + "/paper/", paperId, "/references");
    IdSegmentUrl(GetRecommendationsRequest(paperId, fields, limit, pool).url,
                 RecommendationsApiBase + "/papers/forpaper/", paperId, "");
  }

  /** What the endpoints send when the caller leaves the optional
      arguments out: the default field lists, limit 10 for searches and
      recommendations, 100 for the list endpoints, offset 0, the "recent"
      pool, and no search filter. */
  lemma DefaultArguments(query: string, paperId: string, authorId: string)
    ensures SearchPapersRequest(query).params
            == map[Query := Text(query), Fields := Text(DefaultPaperFields),
                   Limit := Number(10), Offset := Number(0)]
    ensures GetPaperCitationsRequest(paperId).params
            == map[Fields := Text(DefaultPaperFields), Limit := Number(100), Offset := Number(0)]
    ensures GetPaperReferencesRequest(paperId).params
            == map[Fields := Text(DefaultPaperFields), Limit := Number(100), Offset := Number(0)]
    ensures SearchAuthorsRequest(query).params
            == map[Query := Text(query), Fields := Text(DefaultAuthorFields),
                   Limit := Number(10), Offset := Number(0)]
    ensures GetAuthorPapersRequest(authorId).params
            == map[Fields := Text(DefaultPaperFields), Limit := Number(100), Offset := Number(0)]
    ensures GetRecommendationsRequest(paperId).params
            == map[Fields := Text(DefaultPaperFields), Limit := Number(10), From := Text(DefaultPool)]
    ensures GetRecommendationsMultiRequest([paperId]).body
            == Some(JObject(map["positivePaperIds" := StringArray([paperId])]))
  {
  }
}
