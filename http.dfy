/**
 * Request descriptors: the method, path, query parameters and JSON body that
 * one call of the API client (`HTBAPIClient.get/post/put/delete`) would send.
 * The call itself is not modelled.
 */
module Http {
  import opened Wrappers
  import opened Json

  datatype Method = GET | POST | PUT | DELETE

  /** A query-string parameter value. */
  datatype Param = PInt(i: int) | PStr(s: string)

  /** `params` is the dict given to `requests` (`map[]` when none is passed); `body` is `json_data`. */
  datatype Request = Request(verb: Method, path: string, params: map<string, Param>, body: Option<map<string, Json>>)

  /** `self.api.get(path, params=params)` */
  function Get(path: string, params: map<string, Param>): Request {
    Request(GET, path, params, None)
  }

  /** `self.api.post(path, json_data=body)`; `None` when no `json_data` is passed. */
  function Post(path: string, body: Option<map<string, Json>>): Request {
    Request(POST, path, map[], body)
  }

  /** The `{"page": page, "per_page": per_page}` dict every paginated builder starts from. */
  function PageParams(page: int, perPage: int): map<string, Param> {
    map["page" := PInt(page), "per_page" := PInt(perPage)]
  }

  /** `params` carries `page` and `per_page` exactly as given. */
  predicate PassesPage(params: map<string, Param>, page: int, perPage: int) {
    && "page" in params && params["page"] == PInt(page)
    && "per_page" in params && params["per_page"] == PInt(perPage)
  }
}
