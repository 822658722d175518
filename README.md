# s2cli API client, modelled in Dafny

This project models the core of the Semantic Scholar command-line client's
API layer, `src/s2cli/api/client.py`. It covers four parts:

- `APIError` and its JSON form, `to_dict`.
- The classification of an HTTP response by `_handle_response` into the
  parsed body or one of four error codes: `NOT_FOUND`, `BAD_REQUEST`,
  `RATE_LIMITED` and `API_ERROR`.
- The request every endpoint method sends: path, query parameters and JSON
  payload. This covers the default argument values, the limit caps, the
  optional filters, the default field lists, truncation of the batch
  payload, and percent-encoding of paper identifiers with `quote(paper_id, safe=":")`.
- The connection lifecycle of `SemanticScholarAPI`: the lazily created
  `client`, `close`, `__enter__` and `__exit__`.

Modules:

- `Dicts` (dicts.dfy): the JSON values exchanged with the server. A Python
  `dict` is a Dafny `map`.
- `Decimal` (decimal.dfy): `str(int)`, with a parser that reads it back.
- `PercentEncoding` (percent.dfy): `quote(s, safe=":")` over the UTF-8
  bytes of `s`, and the percent-decoding that undoes it.
- `Errors` (errors.dfy): `APIError` and `to_dict`.
- `Responses` (responses.dfy): `_handle_response`.
- `Requests` (requests.dfy): one pure request-builder function per
  endpoint.
- `Client` (client.dfy): the classes `HttpConnection` (an open
  `httpx.Client`) and `SemanticScholarApi`. Each endpoint method gets the
  connection, sends the built request and classifies the response.

The server is a parameter of type `Server`. It is a function from the
connection's headers and the request to the response. A response carries
its status, its body if the body parses as JSON (else `None`), and its
headers. `_handle_response` has three outcomes:

- `Parsed`: the parsed body is returned.
- `Raised`: an `APIError` is raised.
- `BodyNotJson`: a 200 whose body does not parse lets the decoding error
  of `response.json()` escape.

Behaviour of `client.py` worth noting:

- On 404 the suggestion is "Check the ID format or try searching instead".
- A 429 raises `RATE_LIMITED` at once. The code has no retry, no
  `Retry-After` parsing and no `RateLimitError`.
- `API_ERROR` is raised for every status other than 200, 400, 404 and 429.
  That includes other 2xx statuses such as 201 and 204.
- `suggestion` and `status_code` appear in `to_dict` only when they are
  truthy. A suggestion of "" or a status code of 0 is left out even though
  it was supplied.
- The batch endpoint sends no `limit`. Only its `ids` payload is cut to
  500 entries.

## Model

| member | source | states |
|---|---|---|
| Errors.ToDict | src/s2cli/api/client.py:38-51 | The result has the single key "error". Its record always has `code`, `message` and the constant `documentation` URL. It has `suggestion` iff the suggestion is non-empty and `status_code` iff the status code is non-zero, and nothing else. Each value is the error's own. |
| Responses.BadRequestMessage | src/s2cli/api/client.py:92-96 | A JSON-object body with a "message" member gives that member's value, whatever its JSON type. Every other body gives "Bad request": no body, a body that is not JSON, or JSON without `.get`. |
| Responses.HandleResponse | src/s2cli/api/client.py:78-115 | Status 200 never raises, and every other status raises. A 200 returns the parsed body unchanged, or the decoding failure when the body is not JSON. A raised error carries the response's status as `status_code`. Its code is one of the four codes. It has a suggestion iff the status is 400, 404 or 429. The message is "Resource not found" for 404 and "Rate limit exceeded" for 429. For 400 it is the one `BadRequestMessage` picks from the body. |
| Responses.ErrorCodeDeterminesStatus | src/s2cli/api/client.py:84-115 | `NOT_FOUND` iff 404, `BAD_REQUEST` iff 400, `RATE_LIMITED` iff 429, and `API_ERROR` iff the status is none of these, so the classification is exclusive. |
| Responses.UnknownStatusMessage | src/s2cli/api/client.py:110-115 | For any other status the message is "API returned status " followed by `str(status)`. That is a minus sign for a negative status, then the digits without leading zeros, and they read back as the status. There is no suggestion. |
| Responses.BadRequestMessageChoice | src/s2cli/api/client.py:91-102 | A 400 gives `BAD_REQUEST` with status 400. Its message is the body's `message` member when the body is a JSON object that has one. Every other body gives "Bad request": no body, a body that is not JSON, JSON that is not an object, or an object without `message`. |
| Decimal.DecimalRoundTrip | src/s2cli/api/client.py:113 | `str(n)` of any integer, negative ones included, parses back to `n`. |
| Decimal.NatDigits | src/s2cli/api/client.py:113 | The decimal form of a natural number is non-empty and made of digits only. It starts with '0' only for 0 itself, so there are no leading zeros. |
| PercentEncoding.Quote | src/s2cli/api/client.py:160 | Every character of the quoted identifier is a safe character or '%', so it never contains '/'. |
| PercentEncoding.QuoteRoundTrip | src/s2cli/api/client.py:160 | Percent-decoding the quoted identifier and then UTF-8-decoding it gives back the original identifier. |
| PercentEncoding.QuoteChar | src/s2cli/api/client.py:160 | A safe character (ASCII letter or digit, `_.-~` or `:`) stays literal. Any other character becomes one "%XY" escape per byte of its UTF-8 encoding. |
| PercentEncoding.QuoteSafeIdentity | src/s2cli/api/client.py:160 | An identifier made only of safe characters, such as "ARXIV:2106.12345", is sent unchanged. |
| PercentEncoding.QuoteSlash | src/s2cli/api/client.py:159-160 | '/' is sent as "%2F". |
| PercentEncoding.QuoteAppend | src/s2cli/api/client.py:160 | Quoting distributes over concatenation. |
| PercentEncoding.Utf8RoundTrip | src/s2cli/api/client.py:160 | The UTF-8 bytes that `quote` encodes decode back to the string. |
| PercentEncoding.OverlongRejected | src/s2cli/api/client.py:160 | The UTF-8 decoder in the round trip is strict: it refuses the overlong form C0 80, as Python's decoder does. |
| PercentEncoding.UnquoteQuoteBytes | src/s2cli/api/client.py:160 | Percent-decoding undoes the byte-level quoting. |
| Dicts.StringArrayRoundTrip | src/s2cli/api/client.py:172 | A list of identifiers sent as a JSON array reads back as the same list. |
| Requests.NameInjective | src/s2cli/api/client.py:133-151 | Different query parameters have different wire names, such as "fieldsOfStudy" and "from", so no two parameters collide in the query. |
| Requests.CappedLimit | src/s2cli/api/client.py:136 | `min(limit, cap)` is never above the cap. It equals the limit when the limit is within the cap, and the cap otherwise. |
| Requests.IdUrl | src/s2cli/api/client.py:160-161 | The URL is the prefix, then `quote(id, safe=":")` as one path segment, then the suffix. The segment has no '/' and decodes to the identifier. |
| Requests.IdSegmentUrl | src/s2cli/api/client.py:160-161 | A URL with an identifier segment is exactly the prefix, the quoted identifier and the suffix, concatenated. |
| Requests.SafePaperIdLiteral | src/s2cli/api/client.py:160-161 | An identifier made only of safe characters, such as "ARXIV:2106.12345", appears verbatim with ':' literal. This holds in the URLs of `get_paper`, `get_paper_citations`, `get_paper_references` and `get_recommendations`. |
| Requests.DefaultArguments | src/s2cli/api/client.py:119-284 | Omitted optional arguments give the parameters sent by default. Paper search has the default paper fields, limit 10, offset 0 and no filters. Citations, references and author papers have limit 100 and offset 0. Author search has the author fields and limit 10. Single recommendations have limit 10 and pool "recent". Multi recommendations have no negative identifiers. |
| Requests.SearchPapersKeys | src/s2cli/api/client.py:133-151 | The parameters are exactly `query`, `fields`, `limit` and `offset`, plus five optional ones. `year`, `venue`, `fieldsOfStudy` and `publicationTypes` are added iff non-empty. `minCitationCount` is added iff it is not None, so 0 is sent. `openAccessPdf` is added iff the flag is set. |
| Requests.SearchPapersFixedParams | src/s2cli/api/client.py:133-138 | `query` and `offset` are sent as given. `fields` is the caller's when non-empty and the default paper fields otherwise. `limit` is capped at 100. |
| Requests.SearchPapersFilterValues | src/s2cli/api/client.py:140-151 | Every optional filter that is sent carries the caller's value. `openAccessPdf` carries "". |
| Requests.SearchPapersRequest | src/s2cli/api/client.py:153 | The request is a GET of `/paper/search` on the graph API, with no body. |
| Requests.GetPaperRequest | src/s2cli/api/client.py:156-162 | GET on the graph API with `quote(paper_id, safe=":")` as one path segment, which decodes back to the identifier. `fields` is the only parameter, falling back to the default paper fields. |
| Requests.GetPapersBatchRequest | src/s2cli/api/client.py:164-174 | POST to `/paper/batch`. The `ids` payload reads back as the first min(n, 500) identifiers in their order, so an input of at most 500 is sent whole. `fields` is the only parameter, falling back to its default. |
| Requests.GetPaperCitationsRequest | src/s2cli/api/client.py:176-193 | GET `/paper/{quote(id)}/citations`. The parameters are exactly `fields` (with its default), `limit` capped at 1000, and `offset`. |
| Requests.GetPaperReferencesRequest | src/s2cli/api/client.py:195-212 | GET `/paper/{quote(id)}/references`. The parameters are exactly `fields` (with its default), `limit` capped at 1000, and `offset`. |
| Requests.SearchAuthorsRequest | src/s2cli/api/client.py:216-231 | GET `/author/search`. The parameters are exactly `query`, `fields` (falling back to the default author fields), `limit` capped at 1000, and `offset`. |
| Requests.GetAuthorRequest | src/s2cli/api/client.py:233-237 | GET `/author/{id}` with the identifier unquoted. `fields` is the only parameter, falling back to the default author fields. |
| Requests.GetAuthorPapersRequest | src/s2cli/api/client.py:239-255 | GET `/author/{id}/papers`. The parameters are exactly `fields` (falling back to the default paper fields), `limit` capped at 1000, and `offset`. |
| Requests.GetRecommendationsRequest | src/s2cli/api/client.py:259-276 | GET `/papers/forpaper/{quote(id)}` on the recommendations API. The parameters are exactly `fields`, `limit` capped at 500, and `from`, which is the pool. |
| Requests.GetRecommendationsMultiRequest | src/s2cli/api/client.py:278-301 | POST to `/papers/` with `fields` and `limit` capped at 500. The payload holds the positive identifiers unchanged. `negativePaperIds` is present iff that list is non-empty, and then it is sent unchanged. |
| Requests.ListReleasesRequest | src/s2cli/api/client.py:305-308 | GET `/release/` on the datasets API, with no parameters and no body. |
| Requests.GetReleaseRequest | src/s2cli/api/client.py:310-313 | GET `/release/{release id}`, with no parameters and no body. |
| Requests.GetDatasetLinksRequest | src/s2cli/api/client.py:315-320 | GET `/release/{release id}/dataset/{name}`, with no parameters and no body. |
| Client.EffectiveApiKey | src/s2cli/api/client.py:64 | The caller's key when it is non-empty, the environment's otherwise. |
| Client.ConnectionHeaders | src/s2cli/api/client.py:72-74 | The headers always carry the user agent "s2cli/0.1.0". They carry `x-api-key` iff the key is non-empty, and then its value is the key. There are no other entries in the dict passed to `httpx.Client`. |
| Client.ApiKeyHeaderSent | src/s2cli/api/client.py:64-75 | The key header is sent iff the caller's or the environment's key is non-empty. The caller's key wins. |
| Client.HttpConnection.constructor | src/s2cli/api/client.py:75 | A new connection is open, has the given headers and timeout, and has sent nothing. |
| Client.HttpConnection.Send | src/s2cli/api/client.py:153 | The request is appended to what the connection has sent. The response is the server's answer to the request under the connection's headers. |
| Client.HttpConnection.Close | src/s2cli/api/client.py:325 | The connection is closed. |
| Client.SemanticScholarApi.constructor | src/s2cli/api/client.py:57-66 | The key is the caller's or else the environment's. The timeout is kept, and it defaults to 30 seconds. No connection is held. |
| Client.SemanticScholarApi.Connection | src/s2cli/api/client.py:68-76 | The first access opens one fresh connection with these headers and this timeout. A later access returns the held connection and opens none. |
| Client.SemanticScholarApi.Perform | src/s2cli/api/client.py:153-154 | The request goes out once over the held or newly opened connection. The result is the classification of the server's response. |
| Client.SemanticScholarApi.SearchPapers | src/s2cli/api/client.py:119-154 | Sends `SearchPapersRequest` once and returns its classified response. |
| Client.SemanticScholarApi.GetPaper | src/s2cli/api/client.py:156-162 | Sends `GetPaperRequest` once and returns its classified response. |
| Client.SemanticScholarApi.GetPapersBatch | src/s2cli/api/client.py:164-174 | Sends `GetPapersBatchRequest` once and returns its classified response. |
| Client.SemanticScholarApi.GetPaperCitations | src/s2cli/api/client.py:176-193 | Sends `GetPaperCitationsRequest` once and returns its classified response. |
| Client.SemanticScholarApi.GetPaperReferences | src/s2cli/api/client.py:195-212 | Sends `GetPaperReferencesRequest` once and returns its classified response. |
| Client.SemanticScholarApi.SearchAuthors | src/s2cli/api/client.py:216-231 | Sends `SearchAuthorsRequest` once and returns its classified response. |
| Client.SemanticScholarApi.GetAuthor | src/s2cli/api/client.py:233-237 | Sends `GetAuthorRequest` once and returns its classified response. |
| Client.SemanticScholarApi.GetAuthorPapers | src/s2cli/api/client.py:239-255 | Sends `GetAuthorPapersRequest` once and returns its classified response. |
| Client.SemanticScholarApi.GetRecommendations | src/s2cli/api/client.py:259-276 | Sends `GetRecommendationsRequest` once and returns its classified response. |
| Client.SemanticScholarApi.GetRecommendationsMulti | src/s2cli/api/client.py:278-301 | Sends `GetRecommendationsMultiRequest` once and returns its classified response. |
| Client.SemanticScholarApi.ListReleases | src/s2cli/api/client.py:305-308 | Sends `ListReleasesRequest` once and returns its classified response. |
| Client.SemanticScholarApi.GetRelease | src/s2cli/api/client.py:310-313 | Sends `GetReleaseRequest` once and returns its classified response. |
| Client.SemanticScholarApi.GetDatasetLinks | src/s2cli/api/client.py:315-320 | Sends `GetDatasetLinksRequest` once and returns its classified response. |
| Client.SemanticScholarApi.Close | src/s2cli/api/client.py:322-326 | Afterwards no connection is held, and a connection that was held is closed. With none held, nothing changes, so closing twice is the same as closing once. |
| Client.SemanticScholarApi.Enter | src/s2cli/api/client.py:328-329 | Returns the client itself. |
| Client.SemanticScholarApi.Exit | src/s2cli/api/client.py:331-332 | Always closes, exactly as `Close` does. |

## Left out

- A lone surrogate cannot occur in a Dafny `char`, so the `UnicodeEncodeError` that `quote` raises for such a Python string is not modelled.
- The headers httpx adds by itself (`Accept`, `Accept-Encoding`, `Connection`) are not modelled. The model states only the dict built at client.py:72-74.
- HTTP I/O through httpx is not modelled: sockets, timeouts taking effect, and redirects. The server is a function parameter, and the timeout is only stored.
- The environment is not read. The `S2_API_KEY` value is a constructor parameter.
- JSON numbers are integers only. Floating-point values in bodies are not modelled.
- The insertion order of Python dicts is not kept. Query parameters, payloads and `to_dict` records are maps, so the model does not state the order in which keys are serialised.
- Query parameter names are an enumeration, `Requests.Param`. `Requests.Name` gives each one's name on the wire. The encoding of the query string itself belongs to httpx and is not modelled.
- `APIError.__init__` is modelled by the `Errors.ApiError` datatype. The `Exception` base class and its `args` are not modelled.
- Retry and backoff on 429, `RateLimitError` and `_parse_retry_after` are not modelled, because `client.py` has none of them.
- `src/s2cli/cli.py` is not modelled. It is argument parsing, dispatch and console output.
- The BibTeX formatter is not part of this model. Its source file is not available.
- `Client.SemanticScholarApi.Valid`: an `httpx.Client` closed behind the wrapper's back, by code other than `close`, is not modelled. The model assumes a held connection is open.
- `Client.HttpConnection.Send`: a transport failure that escapes from `client.get`/`client.post` is not modelled.
