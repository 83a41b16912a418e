/**
 * Machines (`htbcli/modules/machines.py`): the requests `MachinesModule`
 * builds, the status routing of `list_machines`, and how the commands pick
 * the list out of a response.
 */
module Machines {
  import opened Wrappers
  import opened PyStr
  import opened Json
  import opened Http

  /** Python truthiness of an optional string argument. */
  predicate Given(s: Option<string>) {
    s.Some? && s.value != ""
  }

  /** `get_machine_list_retired_paginated(page, per_page)` */
  function GetRetiredPaginated(page: int, perPage: int): (r: Request)
    ensures r.verb == GET && r.path == "/machine/list/retired/paginated" && r.body.None?
    ensures r.params.Keys == {"page", "per_page"} && PassesPage(r.params, page, perPage)
  {
    Get("/machine/list/retired/paginated", PageParams(page, perPage))
  }

  /** `get_machine_todo_paginated(page, per_page)` */
  function GetTodoPaginated(page: int, perPage: int): (r: Request)
    ensures r.verb == GET && r.path == "/machine/todo/paginated" && r.body.None?
    ensures r.params.Keys == {"page", "per_page"} && PassesPage(r.params, page, perPage)
  {
    Get("/machine/todo/paginated", PageParams(page, perPage))
  }

  /** `get_machine_paginated(page, per_page, status)`: `status` only when truthy. */
  function GetMachinePaginated(page: int, perPage: int, status: Option<string>): (r: Request)
    ensures r.verb == GET && r.path == "/machine/paginated" && r.body.None?
    ensures PassesPage(r.params, page, perPage)
    ensures "status" in r.params <==> Given(status)
    ensures Given(status) ==> r.params["status"] == PStr(status.value)
    ensures r.params.Keys == if Given(status) then {"page", "per_page", "status"} else {"page", "per_page"}
  {
    var params := PageParams(page, perPage);
    var params := if Given(status) then params["status" := PStr(status.value)] else params;
    Get("/machine/paginated", params)
  }

  /** The body of a flag submission. */
  function FlagBody(flag: string, machineId: int): map<string, Json> {
    map["flag" := JStr(flag), "id" := JInt(machineId)]
  }

  /** `submit_machine_flag(flag, machine_id)`: the request the v5 client would send. */
  function SubmitMachineFlag(flag: string, machineId: int): (r: Request)
    ensures r.verb == POST && r.path == "/machine/own" && r.params == map[]
    ensures r.body.Some? && r.body.value.Keys == {"flag", "id"}
    ensures r.body.value["flag"] == JStr(flag) && r.body.value["id"] == JInt(machineId)
  {
    Post("/machine/own", Some(FlagBody(flag, machineId)))
  }

  /** `submit_machine_review(machine_id, review_data)`: `review_data` is the body; `machine_id` is not sent. */
  function SubmitMachineReview(machineId: int, reviewData: map<string, Json>): (r: Request)
    ensures r.verb == POST && r.path == "/machine/review" && r.body == Some(reviewData) && r.params == map[]
  {
    Post("/machine/review", Some(reviewData))
  }

  /** The review request does not depend on the machine id. */
  lemma ReviewIgnoresMachineId(id1: int, id2: int, reviewData: map<string, Json>)
    ensures SubmitMachineReview(id1, reviewData) == SubmitMachineReview(id2, reviewData)
  {
  }

  /** `update_todo(product, product_id, todo_data)` (the same in the machines and challenges modules). */
  function UpdateTodo(product: string, productId: int, todoData: map<string, Json>): (r: Request)
    ensures r.verb == POST && r.params == map[] && r.body == Some(todoData)
    ensures r.path == "/" + product + "/todo/update/" + IntToString(productId)
  {
    Post("/" + product + "/todo/update/" + IntToString(productId), Some(todoData))
  }

  /**
   * The request `list_machines` sends for `--status` (default `active`):
   * `retired` is routed to the retired listing, every other status to the
   * paginated listing with that status.
   */
  function ListMachinesRequest(page: int, perPage: int, status: string): (r: Request)
    ensures status == "retired" ==> r.path == "/machine/list/retired/paginated" && r.params.Keys == {"page", "per_page"}
    ensures status != "retired" ==> r.path == "/machine/paginated"
    ensures status != "retired" && status != "" ==> "status" in r.params && r.params["status"] == PStr(status)
    ensures status != "retired" ==> r.params.Keys == if status == "" then {"page", "per_page"} else {"page", "per_page", "status"}
    ensures r.body.None?
    ensures PassesPage(r.params, page, perPage) && r.verb == GET
  {
    if status == "retired" then GetRetiredPaginated(page, perPage)
    else GetMachinePaginated(page, perPage, Some(status))
  }

  /** The default `--status` of `list_machines`. */
  const DefaultListStatus := "active"

  /** With the default status, `list_machines` asks for active machines on the paginated listing. */
  lemma DefaultListsActive(page: int, perPage: int)
    ensures ListMachinesRequest(page, perPage, DefaultListStatus)
            == Get("/machine/paginated", map["page" := PInt(page), "per_page" := PInt(perPage), "status" := PStr("active")])
  {
  }

  /**
   * `result['data']['data'] if isinstance(result['data'], dict) and 'data' in result['data'] else result['data']`,
   * used only when `result` is truthy and has `data`; `None` when nothing is shown.
   */
  function UnwrapListData(result: Json): (r: Option<Json>)
    ensures r.Some? <==> result.JObj? && result.fields != map[] && "data" in result.fields
    ensures r.Some? && result.fields["data"].JObj? && "data" in result.fields["data"].fields ==>
      r.value == result.fields["data"].fields["data"]
    ensures r.Some? && !(result.fields["data"].JObj? && "data" in result.fields["data"].fields) ==>
      r.value == result.fields["data"]
  {
    if Truthy(result) && result.JObj? && "data" in result.fields then
      var outer := result.fields["data"];
      if outer.JObj? && "data" in outer.fields then Some(outer.fields["data"]) else Some(outer)
    else None
  }

  /** A paginated envelope `{"data": {"data": xs, ...}}` and a flat `{"data": xs}` give the same list. */
  lemma UnwrapEnvelopes(xs: Json, meta: map<string, Json>)
    ensures UnwrapListData(JObj(map["data" := JObj(meta["data" := xs])])) == Some(xs)
    ensures xs.JArr? ==> UnwrapListData(JObj(map["data" := xs])) == Some(xs)
  {
  }

  /** `[card1, card2] if result.get('card1') and result.get('card2') else []` */
  function RecommendedRetired(result: map<string, Json>): (r: seq<Json>)
    ensures r != [] <==> "card1" in result && Truthy(result["card1"]) && "card2" in result && Truthy(result["card2"])
    ensures r != [] ==> r == [result["card1"], result["card2"]]
  {
    if "card1" in result && Truthy(result["card1"]) && "card2" in result && Truthy(result["card2"]) then
      [result["card1"], result["card2"]]
    else []
  }
}
