/**
 * The OpenAPI reader (`htbcli/swagger_parser.py`): selecting the
 * operations of one tag, the endpoint record built for each, and the
 * tag list and component getters, over an already-loaded document.
 */
module Swagger {
  import opened Wrappers
  import opened PyStr
  import opened Json

  /**
   * One entry of a path item, under its method key: a value that is not a
   * dict, or an operation object. `tags` is present exactly when the
   * object has a `tags` key; `fields` holds its other keys.
   */
  datatype Operation =
    | NotADict(value: Json)
    | Operation(tags: Option<seq<string>>, fields: map<string, Json>)

  /** The method keys of a path and their entries, in document order. */
  type PathItem = seq<(string, Operation)>

  /** The loaded document: the `paths`, `tags` and `components` keys, each possibly absent. */
  datatype Document = Document(
    paths: Option<seq<(string, PathItem)>>,
    tags: Option<seq<map<string, Json>>>,
    components: Option<map<string, Json>>)

  /** The record `get_endpoints_by_tag` builds for one operation. */
  datatype EndpointInfo = EndpointInfo(
    path: string, verb: string, summary: Json, description: Json,
    operationId: Json, parameters: Json, requestBody: Json, responses: Json)

  /** `self.spec.get('paths', {})` */
  function PathsOf(doc: Document): seq<(string, PathItem)> {
    doc.paths.GetOr([])
  }

  /** The keys of an operation other than `tags` (none for a non-dict entry, which is never selected). */
  function FieldsOf(op: Operation): map<string, Json> {
    if op.Operation? then op.fields else map[]
  }

  /** The endpoint record for method key `verb` on `path`: the method upper-cased, each field copied or defaulted. */
  function MakeInfo(path: string, verb: string, fields: map<string, Json>): (r: EndpointInfo)
    ensures r.path == path && r.verb == Upper(verb)
    ensures "summary" in fields ==> r.summary == fields["summary"]
    ensures "description" in fields ==> r.description == fields["description"]
    ensures "operationId" in fields ==> r.operationId == fields["operationId"]
    ensures "parameters" in fields ==> r.parameters == fields["parameters"]
    ensures "requestBody" in fields ==> r.requestBody == fields["requestBody"]
    ensures "responses" in fields ==> r.responses == fields["responses"]
  {
    EndpointInfo(path, Upper(verb),
      GetOr(fields, "summary", JStr("")), GetOr(fields, "description", JStr("")),
      GetOr(fields, "operationId", JStr("")), GetOr(fields, "parameters", JArr([])),
      GetOr(fields, "requestBody", JNull), GetOr(fields, "responses", JObj(map[])))
  }

  /** An operation without any of the copied fields gets `''`, `''`, `''`, `[]`, `None` and `{}`. */
  lemma MissingFieldsDefault(path: string, verb: string, fields: map<string, Json>)
    requires forall k :: k in fields ==> k !in {"summary", "description", "operationId", "parameters", "requestBody", "responses"}
    ensures MakeInfo(path, verb, fields)
            == EndpointInfo(path, Upper(verb), JStr(""), JStr(""), JStr(""), JArr([]), JNull, JObj(map[]))
  {
  }

  /** `isinstance(details, dict) and 'tags' in details and tag in details['tags']` */
  predicate Selected(op: Operation, tag: string) {
    op.Operation? && op.tags.Some? && tag in op.tags.value
  }

  /** The records of one path's selected operations, in method order. */
  function PathEndpoints(path: string, ops: PathItem, tag: string): seq<EndpointInfo> {
    if ops == [] then []
    else
      var (verb, op) := ops[|ops| - 1];
      PathEndpoints(path, ops[..|ops| - 1], tag) + if Selected(op, tag) then [MakeInfo(path, verb, FieldsOf(op))] else []
  }

  /** The result of `get_endpoints_by_tag(tag)` over `paths`: path order, then method order. */
  function EndpointsByTag(paths: seq<(string, PathItem)>, tag: string): seq<EndpointInfo> {
    if paths == [] then []
    else
      var (path, ops) := paths[|paths| - 1];
      EndpointsByTag(paths[..|paths| - 1], tag) + PathEndpoints(path, ops, tag)
  }

  /** One step of the inner loop: the record for the method at `j`, if selected. */
  lemma PathStep(path: string, ops: PathItem, tag: string, j: nat)
    requires j < |ops|
    ensures PathEndpoints(path, ops[..j + 1], tag) == PathEndpoints(path, ops[..j], tag) +
      if Selected(ops[j].1, tag) then [MakeInfo(path, ops[j].0, FieldsOf(ops[j].1))] else []
  {
    assert ops[..j + 1][..j] == ops[..j];
  }

  /** `for method, details in methods.items()` for one path. */
  method CollectPath(path: string, ops: PathItem, tag: string) returns (found: seq<EndpointInfo>)
    ensures found == PathEndpoints(path, ops, tag)
  {
    found := [];
    var j := 0;
    while j < |ops|
      invariant 0 <= j <= |ops|
      invariant found == PathEndpoints(path, ops[..j], tag)
    {
      PathStep(path, ops, tag, j);
      var (verb, details) := ops[j];
      if details.Operation? && details.tags.Some? {
        if tag in details.tags.value {
          found := found + [MakeInfo(path, verb, details.fields)];
        }
      }
      j := j + 1;
    }
    assert ops[..j] == ops;
  }

  /** `get_endpoints_by_tag(tag)` */
  method GetEndpointsByTag(doc: Document, tag: string) returns (endpoints: seq<EndpointInfo>)
    ensures endpoints == EndpointsByTag(PathsOf(doc), tag)
  {
    var paths := PathsOf(doc);
    endpoints := [];
    var i := 0;
    while i < |paths|
      invariant 0 <= i <= |paths|
      invariant endpoints == EndpointsByTag(paths[..i], tag)
    {
      assert paths[..i + 1][..i] == paths[..i];
      var (path, methods) := paths[i];
      var found := CollectPath(path, methods, tag);
      endpoints := endpoints + found;
      i := i + 1;
    }
    assert paths[..i] == paths;
  }

  // ---------------------------------------------------------------- what get_endpoints_by_tag promises

  /** The records follow the paths: those of `a` come before those of `b`. */
  lemma {:induction false} EndpointsByTagConcat(a: seq<(string, PathItem)>, b: seq<(string, PathItem)>, tag: string)
    ensures EndpointsByTag(a + b, tag) == EndpointsByTag(a, tag) + EndpointsByTag(b, tag)
    decreases |b|
  {
    if b == [] {
      assert a + b == a;
    } else {
      assert (a + b)[..|a + b| - 1] == a + b[..|b| - 1];
      EndpointsByTagConcat(a, b[..|b| - 1], tag);
    }
  }

  /** Within a path the records follow the method keys. */
  lemma {:induction false} PathEndpointsConcat(path: string, a: PathItem, b: PathItem, tag: string)
    ensures PathEndpoints(path, a + b, tag) == PathEndpoints(path, a, tag) + PathEndpoints(path, b, tag)
    decreases |b|
  {
    if b == [] {
      assert a + b == a;
    } else {
      assert (a + b)[..|a + b| - 1] == a + b[..|b| - 1];
      PathEndpointsConcat(path, a, b[..|b| - 1], tag);
    }
  }

  /** The record of the operation at `paths[i]`, method `j`. */
  function InfoAt(paths: seq<(string, PathItem)>, i: nat, j: nat): EndpointInfo
    requires i < |paths| && j < |paths[i].1|
  {
    MakeInfo(paths[i].0, paths[i].1[j].0, FieldsOf(paths[i].1[j].1))
  }

  /** Every selected operation is listed. */
  lemma SelectedIsListed(paths: seq<(string, PathItem)>, tag: string, i: nat, j: nat)
    requires i < |paths| && j < |paths[i].1| && Selected(paths[i].1[j].1, tag)
    ensures InfoAt(paths, i, j) in EndpointsByTag(paths, tag)
  {
    var (path, ops) := paths[i];
    assert paths == paths[..i] + [paths[i]] + paths[i + 1..];
    EndpointsByTagConcat(paths[..i] + [paths[i]], paths[i + 1..], tag);
    EndpointsByTagConcat(paths[..i], [paths[i]], tag);
    assert [paths[i]][..0] == [];
    assert ops == ops[..j] + [ops[j]] + ops[j + 1..];
    PathEndpointsConcat(path, ops[..j] + [ops[j]], ops[j + 1..], tag);
    PathEndpointsConcat(path, ops[..j], [ops[j]], tag);
    assert [ops[j]][..0] == [];
  }

  /** Every listed record comes from a selected operation. */
  lemma {:induction false} ListedIsSelected(paths: seq<(string, PathItem)>, tag: string, e: EndpointInfo)
    requires e in EndpointsByTag(paths, tag)
    ensures exists i, j :: 0 <= i < |paths| && 0 <= j < |paths[i].1| && Selected(paths[i].1[j].1, tag) && e == InfoAt(paths, i, j)
  {
    var init := paths[..|paths| - 1];
    var (path, ops) := paths[|paths| - 1];
    if e in EndpointsByTag(init, tag) {
      ListedIsSelected(init, tag, e);
      var i, j :| 0 <= i < |init| && 0 <= j < |init[i].1| && Selected(init[i].1[j].1, tag) && e == InfoAt(init, i, j);
      assert paths[i] == init[i];
    } else {
      var j := PathSource(path, ops, tag, e);
      assert InfoAt(paths, |paths| - 1, j) == e;
    }
  }

  lemma {:induction false} PathSource(path: string, ops: PathItem, tag: string, e: EndpointInfo) returns (j: nat)
    requires e in PathEndpoints(path, ops, tag)
    ensures j < |ops| && Selected(ops[j].1, tag) && e == MakeInfo(path, ops[j].0, FieldsOf(ops[j].1))
  {
    var init := ops[..|ops| - 1];
    if e in PathEndpoints(path, init, tag) {
      j := PathSource(path, init, tag, e);
      assert ops[j] == init[j];
    } else {
      j := |ops| - 1;
    }
  }

  /** A non-dict entry, or an operation without `tags`, is in no tag's list. */
  lemma UntaggedNeverListed(path: string, verb: string, op: Operation, tag: string)
    requires op.NotADict? || op.tags.None?
    ensures EndpointsByTag([(path, [(verb, op)])], tag) == []
  {
    assert [(path, [(verb, op)])][..0] == [];
    assert [(verb, op)][..0] == [];
    assert PathEndpoints(path, [(verb, op)], tag) == [];
  }

  // ---------------------------------------------------------------- tags, get_all_endpoints, components

  /** `self.spec.get('tags', [])` */
  function GetTags(doc: Document): (r: seq<map<string, Json>>)
    ensures doc.tags.None? ==> r == []
    ensures doc.tags.Some? ==> r == doc.tags.value
  {
    doc.tags.GetOr([])
  }

  /** `tag_info['name']` raises `KeyError` when the tag object has no (string) name. */
  datatype KeyError = KeyError(key: string)

  function TagName(info: map<string, Json>): Option<string> {
    if "name" in info && info["name"].JStr? then Some(info["name"].s) else None
  }

  /** The result of the loop of `get_all_endpoints` over the tag objects `infos`. */
  function AllEndpoints(infos: seq<map<string, Json>>, paths: seq<(string, PathItem)>): Result<map<string, seq<EndpointInfo>>, KeyError> {
    if infos == [] then Success(map[])
    else match AllEndpoints(infos[..|infos| - 1], paths)
      case Failure(e) => Failure(e)
      case Success(m) =>
        match TagName(infos[|infos| - 1])
        case None => Failure(KeyError("name"))
        case Some(name) => Success(m[name := EndpointsByTag(paths, name)])
  }

  /** `get_all_endpoints()` */
  method GetAllEndpoints(doc: Document) returns (r: Result<map<string, seq<EndpointInfo>>, KeyError>)
    ensures r == AllEndpoints(GetTags(doc), PathsOf(doc))
  {
    var infos := GetTags(doc);
    var paths := PathsOf(doc);
    var byTag: map<string, seq<EndpointInfo>> := map[];
    var i := 0;
    while i < |infos|
      invariant 0 <= i <= |infos|
      invariant AllEndpoints(infos[..i], paths) == Success(byTag)
    {
      assert infos[..i + 1][..i] == infos[..i];
      var name := TagName(infos[i]);
      if name.None? {
        assert infos[..i + 1] == infos[..i] + [infos[i]];
        FailureStays(infos[..i + 1], infos[i + 1..], paths);
        assert infos[..i + 1] + infos[i + 1..] == infos;
        return Failure(KeyError("name"));
      }
      var found := GetEndpointsByTag(doc, name.value);
      byTag := byTag[name.value := found];
      i := i + 1;
    }
    assert infos[..i] == infos;
    r := Success(byTag);
  }

  /** Once a tag object without a name is met, the whole loop fails. */
  lemma {:induction false} FailureStays(a: seq<map<string, Json>>, b: seq<map<string, Json>>, paths: seq<(string, PathItem)>)
    requires AllEndpoints(a, paths) == Failure(KeyError("name"))
    ensures AllEndpoints(a + b, paths) == Failure(KeyError("name"))
    decreases |b|
  {
    if b == [] {
      assert a + b == a;
    } else {
      assert (a + b)[..|a + b| - 1] == a + b[..|b| - 1];
      FailureStays(a, b[..|b| - 1], paths);
    }
  }

  /**
   * `get_all_endpoints` fails exactly when some tag object has no name;
   * otherwise its keys are the tag names and each maps to that tag's list
   * (a repeated name is written twice, with the same list).
   */
  lemma {:induction false} AllEndpointsByName(infos: seq<map<string, Json>>, paths: seq<(string, PathItem)>)
    ensures AllEndpoints(infos, paths).Success? <==> forall k :: 0 <= k < |infos| ==> TagName(infos[k]).Some?
    ensures AllEndpoints(infos, paths).Success? ==>
      var m := AllEndpoints(infos, paths).value;
      (forall name :: name in m <==> exists k :: 0 <= k < |infos| && TagName(infos[k]) == Some(name)) &&
      (forall name :: name in m ==> m[name] == EndpointsByTag(paths, name))
  {
    if infos != [] {
      var init := infos[..|infos| - 1];
      AllEndpointsByName(init, paths);
      assert forall k :: 0 <= k < |init| ==> init[k] == infos[k];
    }
  }

  /** `self.spec.get('components', {}).get(section, {})` */
  function ComponentSection(doc: Document, section: string): (r: Json)
    ensures doc.components.Some? && section in doc.components.value ==> r == doc.components.value[section]
    ensures !(doc.components.Some? && section in doc.components.value) ==> r == JObj(map[])
  {
    GetOr(doc.components.GetOr(map[]), section, JObj(map[]))
  }

  /** `get_parameters()` */
  function GetParameters(doc: Document): Json {
    ComponentSection(doc, "parameters")
  }

  /** `get_schemas()` */
  function GetSchemas(doc: Document): Json {
    ComponentSection(doc, "schemas")
  }

  /** `get_responses()` */
  function GetResponses(doc: Document): Json {
    ComponentSection(doc, "responses")
  }

  /** A document without `components` has empty parameters, schemas and responses. */
  lemma ComponentsDefaultEmpty(doc: Document)
    requires doc.components.None?
    ensures GetParameters(doc) == GetSchemas(doc) == GetResponses(doc) == JObj(map[])
  {
  }
}
