/**
 * The `GET /search/suggest` handler (app/search/suggest/route.ts): read `q`
 * and `includeOutOfStock` from the query string, answer 400 for a missing
 * or empty `q`, an empty result list for a one-character `q`, otherwise the
 * service's results with their count, and 500 when the service throws.
 *
 * lib/services/searchService.ts carries a second copy of this handler whose
 * 500 answer has no `details`; it is modelled by LegacyReply.
 */
module SuggestRoute {
  import opened Common
  import opened Ranking
  import opened SearchCache

  const QueryRequired: string := "Query parameter \"q\" is required"
  const SearchFailed: string := "Search failed"
  const UnknownError: string := "Unknown error"

  /** The JSON body: `{results, query, count}` or `{error[, details]}`. */
  datatype Body =
    | Found(results: seq<SearchResult>, query: string, count: int)
    | Refused(error: string, details: Option<string>)

  datatype Response = Response(status: int, body: Body)

  /** `searchParams.get('includeOutOfStock') === 'true'`: only the exact text "true" turns it on. */
  function IncludeFlag(param: Option<string>): (b: bool)
    ensures b ==> param == Some("true")
  {
    param == Some("true")
  }

  lemma IncludeFlagIsExact()
    ensures IncludeFlag(Some("true"))
    ensures !IncludeFlag(None) && !IncludeFlag(Some("True")) && !IncludeFlag(Some("1")) && !IncludeFlag(Some(""))
  {
  }

  /**
   * The two early returns. None means neither fires and the service is
   * consulted, which happens exactly for a `q` of two or more characters.
   */
  function Precheck(q: Option<string>): (r: Option<Response>)
    ensures r.None? <==> q.Some? && |q.value| >= 2
    ensures q.None? || q == Some("") ==> r == Some(Response(400, Refused(QueryRequired, None)))
    ensures q.Some? && |q.value| == 1 ==> r == Some(Response(200, Found([], q.value, 0)))
  {
    if q.None? || q.value == "" then Some(Response(400, Refused(QueryRequired, None)))
    else if |q.value| < 2 then Some(Response(200, Found([], q.value, 0)))
    else None
  }

  /** The empty `q` is refused, not answered like a short one. */
  lemma EmptyQueryIsRefused()
    ensures Precheck(Some("")).value.status == 400
    ensures Precheck(Some("a")).value.status == 200
  {
  }

  /** `error instanceof Error ? error.message : 'Unknown error'`. */
  function Details(f: Fault): (d: string)
    ensures f.ErrorObject? ==> d == f.message
    ensures f.NonError? ==> d == UnknownError
  {
    match f
    case ErrorObject(message) => message
    case NonError => UnknownError
  }

  /** The answer once the service has returned or thrown. */
  function Reply(q: string, outcome: Result<seq<SearchResult>, Fault>): (r: Response)
    ensures outcome.Success? ==>
      r.status == 200 && r.body.Found? && r.body.results == outcome.value
      && r.body.query == q && r.body.count == |outcome.value|
    ensures outcome.Failure? ==> r.status == 500 && r.body == Refused(SearchFailed, Some(Details(outcome.error)))
  {
    match outcome
    case Success(results) => Response(200, Found(results, q, |results|))
    case Failure(f) => Response(500, Refused(SearchFailed, Some(Details(f))))
  }

  /** The copy in lib/services/searchService.ts: the same answers, but a 500 carries no details. */
  function LegacyReply(q: string, outcome: Result<seq<SearchResult>, Fault>): (r: Response)
    ensures outcome.Failure? ==> r == Response(500, Refused(SearchFailed, None))
  {
    match outcome
    case Success(results) => Response(200, Found(results, q, |results|))
    case Failure(_) => Response(500, Refused(SearchFailed, None))
  }

  /** The two handlers differ only in the `details` field of a failure. */
  lemma LegacyOmitsDetails(q: string, outcome: Result<seq<SearchResult>, Fault>)
    ensures outcome.Success? ==> LegacyReply(q, outcome) == Reply(q, outcome)
    ensures outcome.Failure? ==>
      && LegacyReply(q, outcome).status == Reply(q, outcome).status
      && LegacyReply(q, outcome).body.error == Reply(q, outcome).body.error
      && LegacyReply(q, outcome).body.details.None?
      && Reply(q, outcome).body.details.Some?
  {
  }

  /**
   * `GET(request)` against the module's one SearchService instance. `q` and
   * `includeParam` are the two query-string parameters; the clock readings
   * and the database state are passed on to the service.
   */
  method Get(service: SearchService, q: Option<string>, includeParam: Option<string>,
             now: int, backend: Backend, storedAt: int) returns (resp: Response)
    requires q.Some? ==> LiteralPattern(q.value)
    requires service.Valid()
    modifies service
    ensures service.Valid()
    ensures Precheck(q).Some? ==> resp == Precheck(q).value && service.cache == old(service.cache)
    ensures Precheck(q).None? ==>
      var st := SearchStep(old(service.cache), q.value, IncludeFlag(includeParam), now, backend, storedAt);
      resp == Reply(q.value, st.outcome) && service.cache == st.cache
    ensures resp.status == 200 && resp.body.Found? ==> resp.body.count <= ResultLimit
  {
    var includeOutOfStock := IncludeFlag(includeParam);
    var early := Precheck(q);
    if early.Some? {
      return early.value;
    }
    var outcome, _ := service.SearchAll(q.value, includeOutOfStock, now, backend, storedAt);
    resp := Reply(q.value, outcome);
  }
}
