/**
 * The grouping of published operations by tag that `fix_all_modules.py`
 * and `analyze_endpoints.py` share (`extract_endpoints_by_tag`, identical
 * in both), and the sorted walk over the groups in their `main`.
 */
module EndpointGroups {
  import opened PyStr
  import opened Swagger

  /** Tag name to the records filed under it (a `defaultdict(list)`, then a `dict`). */
  type Groups = map<string, seq<EndpointInfo>>

  /** The tags an entry is filed under: those of a dict with `tags`, none otherwise. */
  function TagsOf(op: Operation): seq<string> {
    if op.Operation? && op.tags.Some? then op.tags.value else []
  }

  /** `endpoints_by_tag[tag]`, empty for a tag not yet seen. */
  function Group(m: Groups, tag: string): seq<EndpointInfo> {
    if tag in m then m[tag] else []
  }

  /** `for tag in details['tags']: endpoints_by_tag[tag].append(endpoint_info)` */
  function FileUnder(m: Groups, info: EndpointInfo, tags: seq<string>): Groups {
    if tags == [] then m
    else
      var m' := FileUnder(m, info, tags[..|tags| - 1]);
      var t := tags[|tags| - 1];
      m'[t := Group(m', t) + [info]]
  }

  /** The inner two loops, for one path. */
  function FileOps(m: Groups, path: string, ops: PathItem): Groups {
    if ops == [] then m
    else
      var (verb, op) := ops[|ops| - 1];
      FileUnder(FileOps(m, path, ops[..|ops| - 1]), MakeInfo(path, verb, FieldsOf(op)), TagsOf(op))
  }

  /** All three loops, over every path. */
  function FilePaths(m: Groups, paths: seq<(string, PathItem)>): Groups {
    if paths == [] then m
    else
      var (path, ops) := paths[|paths| - 1];
      FileOps(FilePaths(m, paths[..|paths| - 1]), path, ops)
  }

  /** The result of `extract_endpoints_by_tag` for the document's paths. */
  function GroupsOf(paths: seq<(string, PathItem)>): Groups {
    FilePaths(map[], paths)
  }

  // ---------------------------------------------------------------- an independent description of one group

  /** How often `t` is listed in `ts`. */
  function Occurrences(ts: seq<string>, t: string): nat {
    if ts == [] then 0
    else Occurrences(ts[..|ts| - 1], t) + if ts[|ts| - 1] == t then 1 else 0
  }

  function Repeat(e: EndpointInfo, n: nat): seq<EndpointInfo> {
    if n == 0 then [] else Repeat(e, n - 1) + [e]
  }

  /** The group of `tag` for one path: each operation once per listing of the tag. */
  function TagOps(path: string, ops: PathItem, tag: string): seq<EndpointInfo> {
    if ops == [] then []
    else
      var (verb, op) := ops[|ops| - 1];
      TagOps(path, ops[..|ops| - 1], tag) + Repeat(MakeInfo(path, verb, FieldsOf(op)), Occurrences(TagsOf(op), tag))
  }

  /** The group of `tag`: path order, then method order. */
  function TagPaths(paths: seq<(string, PathItem)>, tag: string): seq<EndpointInfo> {
    if paths == [] then []
    else
      var (path, ops) := paths[|paths| - 1];
      TagPaths(paths[..|paths| - 1], tag) + TagOps(path, ops, tag)
  }

  lemma {:induction false} OccurrencesPositive(ts: seq<string>, t: string)
    ensures Occurrences(ts, t) > 0 <==> t in ts
  {
    if ts != [] {
      OccurrencesPositive(ts[..|ts| - 1], t);
      assert ts == ts[..|ts| - 1] + [ts[|ts| - 1]];
    }
  }

  lemma RepeatEmpty(e: EndpointInfo, n: nat)
    ensures Repeat(e, n) == [] <==> n == 0
  {
  }

  /** Filing one record under `tags` appends it to each listed tag's group, once per listing. */
  lemma {:induction false} FileUnderGroup(m: Groups, info: EndpointInfo, tags: seq<string>, tag: string)
    ensures Group(FileUnder(m, info, tags), tag) == Group(m, tag) + Repeat(info, Occurrences(tags, tag))
    ensures tag in FileUnder(m, info, tags) <==> tag in m || tag in tags
  {
    FileUnderRepeats(m, info, tags, tag);
    FileUnderKeys(m, info, tags, tag);
  }

  lemma {:induction false} FileUnderRepeats(m: Groups, info: EndpointInfo, tags: seq<string>, tag: string)
    ensures Group(FileUnder(m, info, tags), tag) == Group(m, tag) + Repeat(info, Occurrences(tags, tag))
  {
    if tags != [] {
      var init := tags[..|tags| - 1];
      var t := tags[|tags| - 1];
      var before := FileUnder(m, info, init);
      var k := Occurrences(init, tag);
      FileUnderRepeats(m, info, init, tag);
      assert Group(before, tag) == Group(m, tag) + Repeat(info, k);
      if t == tag {
        assert Occurrences(tags, tag) == k + 1;
        assert Group(FileUnder(m, info, tags), tag) == Group(before, tag) + [info];
      } else {
        assert Occurrences(tags, tag) == k;
        assert Group(FileUnder(m, info, tags), tag) == Group(before, tag);
      }
    }
  }

  lemma {:induction false} FileUnderKeys(m: Groups, info: EndpointInfo, tags: seq<string>, tag: string)
    ensures tag in FileUnder(m, info, tags) <==> tag in m || tag in tags
  {
    if tags != [] {
      var init := tags[..|tags| - 1];
      FileUnderKeys(m, info, init, tag);
      assert tags == init + [tags[|tags| - 1]];
    }
  }

  lemma {:induction false} FileOpsGroup(m: Groups, path: string, ops: PathItem, tag: string)
    ensures Group(FileOps(m, path, ops), tag) == Group(m, tag) + TagOps(path, ops, tag)
    ensures tag in FileOps(m, path, ops) <==> tag in m || TagOps(path, ops, tag) != []
  {
    if ops != [] {
      var init := ops[..|ops| - 1];
      var last := ops[|ops| - 1];
      var info := MakeInfo(path, last.0, FieldsOf(last.1));
      var before := FileOps(m, path, init);
      var n := Occurrences(TagsOf(last.1), tag);
      FileOpsStep(m, path, ops, tag);
      FileOpsGroup(m, path, init, tag);
      FileUnderGroup(before, info, TagsOf(last.1), tag);
      OccurrencesPositive(TagsOf(last.1), tag);
      RepeatEmpty(info, n);
      assert Group(FileOps(m, path, ops), tag) == Group(before, tag) + Repeat(info, n);
    }
  }

  /** The last operation's step of both descriptions of one path. */
  lemma FileOpsStep(m: Groups, path: string, ops: PathItem, tag: string)
    requires ops != []
    ensures var init := ops[..|ops| - 1];
            var last := ops[|ops| - 1];
            var info := MakeInfo(path, last.0, FieldsOf(last.1));
            FileOps(m, path, ops) == FileUnder(FileOps(m, path, init), info, TagsOf(last.1)) &&
            TagOps(path, ops, tag) == TagOps(path, init, tag) + Repeat(info, Occurrences(TagsOf(last.1), tag))
  {
  }

  lemma FilePathsGroup(m: Groups, paths: seq<(string, PathItem)>, tag: string)
    ensures Group(FilePaths(m, paths), tag) == Group(m, tag) + TagPaths(paths, tag)
    ensures tag in FilePaths(m, paths) <==> tag in m || TagPaths(paths, tag) != []
  {
    FilePathsRepeats(m, paths, tag);
    FilePathsKeys(m, paths, tag);
  }

  lemma {:induction false} FilePathsRepeats(m: Groups, paths: seq<(string, PathItem)>, tag: string)
    ensures Group(FilePaths(m, paths), tag) == Group(m, tag) + TagPaths(paths, tag)
  {
    if paths != [] {
      var init := paths[..|paths| - 1];
      var last := paths[|paths| - 1];
      var before := FilePaths(m, init);
      var added := TagOps(last.0, last.1, tag);
      FilePathsStep(m, paths, tag);
      FilePathsRepeats(m, init, tag);
      FileOpsGroup(before, last.0, last.1, tag);
      assert Group(FilePaths(m, paths), tag) == Group(before, tag) + added;
      ConcatAssoc(Group(m, tag), TagPaths(init, tag), added);
    }
  }

  lemma {:induction false} FilePathsKeys(m: Groups, paths: seq<(string, PathItem)>, tag: string)
    ensures tag in FilePaths(m, paths) <==> tag in m || TagPaths(paths, tag) != []
  {
    if paths != [] {
      var init := paths[..|paths| - 1];
      var last := paths[|paths| - 1];
      var before := FilePaths(m, init);
      FilePathsStep(m, paths, tag);
      FilePathsKeys(m, init, tag);
      FileOpsGroup(before, last.0, last.1, tag);
    }
  }

  /** The last path's step of both descriptions. */
  lemma FilePathsStep(m: Groups, paths: seq<(string, PathItem)>, tag: string)
    requires paths != []
    ensures var init := paths[..|paths| - 1];
            var last := paths[|paths| - 1];
            FilePaths(m, paths) == FileOps(FilePaths(m, init), last.0, last.1) &&
            TagPaths(paths, tag) == TagPaths(init, tag) + TagOps(last.0, last.1, tag)
  {
  }

  /** Each group is the tag's independent description, and a tag is a key exactly when its group is non-empty. */
  lemma GroupsMatchReference(paths: seq<(string, PathItem)>, tag: string)
    ensures Group(GroupsOf(paths), tag) == TagPaths(paths, tag)
    ensures tag in GroupsOf(paths) <==> TagPaths(paths, tag) != []
  {
    FilePathsGroup(map[], paths, tag);
  }

  // ---------------------------------------------------------------- agreement with get_endpoints_by_tag

  predicate NoDuplicates(ts: seq<string>) {
    forall a, b :: 0 <= a < b < |ts| ==> ts[a] != ts[b]
  }

  /** Every operation lists each of its tags once. */
  predicate DistinctTags(paths: seq<(string, PathItem)>) {
    forall i, j :: 0 <= i < |paths| && 0 <= j < |paths[i].1| ==> NoDuplicates(TagsOf(paths[i].1[j].1))
  }

  lemma {:induction false} OccurrencesDistinct(ts: seq<string>, t: string)
    requires NoDuplicates(ts)
    ensures Occurrences(ts, t) == if t in ts then 1 else 0
  {
    if ts != [] {
      var init := ts[..|ts| - 1];
      OccurrencesDistinct(init, t);
      OccurrencesPositive(init, t);
      assert ts == init + [ts[|ts| - 1]];
    }
  }

  lemma {:induction false} TagOpsDistinct(path: string, ops: PathItem, tag: string)
    requires forall j :: 0 <= j < |ops| ==> NoDuplicates(TagsOf(ops[j].1))
    ensures TagOps(path, ops, tag) == PathEndpoints(path, ops, tag)
  {
    if ops != [] {
      var init := ops[..|ops| - 1];
      var op := ops[|ops| - 1].1;
      assert forall j :: 0 <= j < |init| ==> init[j] == ops[j];
      TagOpsDistinct(path, init, tag);
      OccurrencesDistinct(TagsOf(op), tag);
      PathStep(path, ops, tag, |ops| - 1);
      assert ops[..|ops| - 1 + 1] == ops;
      assert Selected(op, tag) <==> tag in TagsOf(op);
      assert Repeat(MakeInfo(path, ops[|ops| - 1].0, FieldsOf(op)), 1) == [MakeInfo(path, ops[|ops| - 1].0, FieldsOf(op))];
    }
  }

  /**
   * When every operation lists each tag once, an operation with k tags is
   * in each of its k groups exactly once: the group is the list
   * `get_endpoints_by_tag` returns for that tag.
   */
  lemma {:induction false} DistinctTagsAgree(paths: seq<(string, PathItem)>, tag: string)
    requires DistinctTags(paths)
    ensures Group(GroupsOf(paths), tag) == EndpointsByTag(paths, tag)
    ensures tag in GroupsOf(paths) <==> EndpointsByTag(paths, tag) != []
  {
    GroupsMatchReference(paths, tag);
    ReferenceDistinct(paths, tag);
  }

  lemma {:induction false} ReferenceDistinct(paths: seq<(string, PathItem)>, tag: string)
    requires DistinctTags(paths)
    ensures TagPaths(paths, tag) == EndpointsByTag(paths, tag)
  {
    if paths != [] {
      var init := paths[..|paths| - 1];
      var (path, ops) := paths[|paths| - 1];
      assert forall i :: 0 <= i < |init| ==> init[i] == paths[i];
      ReferenceDistinct(init, tag);
      assert forall j :: 0 <= j < |ops| ==> ops[j] == paths[|paths| - 1].1[j];
      TagOpsDistinct(path, ops, tag);
    }
  }

  /** A tag listed twice on one operation files that operation twice. */
  lemma DuplicateTagFiledTwice(path: string, verb: string, t: string, fields: map<string, Json.Json>)
    ensures var info := MakeInfo(path, verb, fields);
            Group(GroupsOf([(path, [(verb, Swagger.Operation(Wrappers.Some([t, t]), fields))])]), t) == [info, info]
  {
    var op := Swagger.Operation(Wrappers.Some([t, t]), fields);
    GroupsMatchReference([(path, [(verb, op)])], t);
    assert [t, t][..1] == [t] && [t][..0] == [];
    assert Occurrences([t], t) == 1;
    assert Occurrences([t, t], t) == 2;
    assert [(path, [(verb, op)])][..0] == [];
    assert [(verb, op)][..0] == [];
    var info := MakeInfo(path, verb, fields);
    assert Repeat(info, 1) == [info];
    assert Repeat(info, 2) == [info, info];
    assert TagOps(path, [(verb, op)], t) == Repeat(info, 2);
    assert TagPaths([(path, [(verb, op)])], t) == TagOps(path, [(verb, op)], t);
  }

  // ---------------------------------------------------------------- untagged entries

  lemma {:induction false} TagOpsConcat(path: string, a: PathItem, b: PathItem, tag: string)
    ensures TagOps(path, a + b, tag) == TagOps(path, a, tag) + TagOps(path, b, tag)
    decreases |b|
  {
    if b == [] {
      assert a + b == a;
    } else {
      var ab := a + b;
      var init := b[..|b| - 1];
      assert ab[..|ab| - 1] == a + init;
      assert ab[|ab| - 1] == b[|b| - 1];
      var last := b[|b| - 1];
      var added := Repeat(MakeInfo(path, last.0, FieldsOf(last.1)), Occurrences(TagsOf(last.1), tag));
      TagOpsStep(path, ab, tag);
      TagOpsStep(path, b, tag);
      TagOpsConcat(path, a, init, tag);
      assert TagOps(path, ab, tag) == TagOps(path, a + init, tag) + added;
      ConcatAssoc(TagOps(path, a, tag), TagOps(path, init, tag), added);
    }
  }

  lemma ConcatAssoc(x: seq<EndpointInfo>, y: seq<EndpointInfo>, z: seq<EndpointInfo>)
    ensures (x + y) + z == x + (y + z)
  {
  }

  /** The last operation's step of the group of one path. */
  lemma TagOpsStep(path: string, ops: PathItem, tag: string)
    requires ops != []
    ensures var last := ops[|ops| - 1];
            TagOps(path, ops, tag) == TagOps(path, ops[..|ops| - 1], tag)
              + Repeat(MakeInfo(path, last.0, FieldsOf(last.1)), Occurrences(TagsOf(last.1), tag))
  {
  }

  lemma {:induction false} TagPathsConcat(a: seq<(string, PathItem)>, b: seq<(string, PathItem)>, tag: string)
    ensures TagPaths(a + b, tag) == TagPaths(a, tag) + TagPaths(b, tag)
    decreases |b|
  {
    if b == [] {
      assert a + b == a;
    } else {
      var ab := a + b;
      var init := b[..|b| - 1];
      var last := b[|b| - 1];
      var added := TagOps(last.0, last.1, tag);
      assert ab[..|ab| - 1] == a + init;
      assert ab[|ab| - 1] == last;
      assert TagPaths(ab, tag) == TagPaths(a + init, tag) + added;
      assert TagPaths(b, tag) == TagPaths(init, tag) + added;
      TagPathsConcat(a, init, tag);
      ConcatAssoc(TagPaths(a, tag), TagPaths(init, tag), added);
    }
  }

  /** The group of a path list with one path singled out. */
  lemma TagPathsMiddle(a: seq<(string, PathItem)>, x: (string, PathItem), b: seq<(string, PathItem)>, tag: string)
    ensures TagPaths(a + [x] + b, tag) == TagPaths(a, tag) + TagOps(x.0, x.1, tag) + TagPaths(b, tag)
  {
    TagPathsConcat(a + [x], b, tag);
    TagPathsConcat(a, [x], tag);
    assert [x][..0] == [];
  }

  /** An untagged entry adds nothing to the group of one path. */
  lemma TagOpsUntagged(path: string, ops1: PathItem, verb: string, op: Operation, ops2: PathItem, tag: string)
    requires op.NotADict? || op.tags.None?
    ensures TagOps(path, ops1 + [(verb, op)] + ops2, tag) == TagOps(path, ops1 + ops2, tag)
  {
    var x := [(verb, op)];
    TagOpsConcat(path, ops1 + x, ops2, tag);
    TagOpsConcat(path, ops1, x, tag);
    TagOpsConcat(path, ops1, ops2, tag);
    UntaggedAlone(path, verb, op, tag);
    assert TagOps(path, ops1 + x, tag) == TagOps(path, ops1, tag);
  }

  lemma UntaggedAlone(path: string, verb: string, op: Operation, tag: string)
    requires op.NotADict? || op.tags.None?
    ensures TagOps(path, [(verb, op)], tag) == []
  {
    assert [(verb, op)][..0] == [];
  }

  /** A non-dict entry, or an operation without `tags`, changes no group wherever it stands. */
  lemma UntaggedIgnored(a: seq<(string, PathItem)>, path: string, ops1: PathItem, verb: string, op: Operation,
                        ops2: PathItem, b: seq<(string, PathItem)>)
    requires op.NotADict? || op.tags.None?
    ensures GroupsOf(a + [(path, ops1 + [(verb, op)] + ops2)] + b) == GroupsOf(a + [(path, ops1 + ops2)] + b)
  {
    var with := a + [(path, ops1 + [(verb, op)] + ops2)] + b;
    var without := a + [(path, ops1 + ops2)] + b;
    forall tag
      ensures Group(GroupsOf(with), tag) == Group(GroupsOf(without), tag)
      ensures tag in GroupsOf(with) <==> tag in GroupsOf(without)
    {
      GroupsMatchReference(with, tag);
      GroupsMatchReference(without, tag);
      TagPathsMiddle(a, (path, ops1 + [(verb, op)] + ops2), b, tag);
      TagPathsMiddle(a, (path, ops1 + ops2), b, tag);
      TagOpsUntagged(path, ops1, verb, op, ops2, tag);
    }
    assert forall tag :: tag in GroupsOf(with) ==> GroupsOf(with)[tag] == Group(GroupsOf(with), tag);
  }

  // ---------------------------------------------------------------- the loops

  /** `order` lists the keys of `m`, each once (the key order of the dict). */
  predicate KeyOrder(m: Groups, order: seq<string>) {
    (forall t :: t in order ==> t in m) && (forall t :: t in m ==> t in order) && NoDuplicates(order)
  }

  /** The innermost loop, over the tags of one operation. */
  method FileEntry(groups: Groups, order: seq<string>, info: EndpointInfo, tags: seq<string>)
    returns (groups': Groups, order': seq<string>)
    ensures groups' == FileUnder(groups, info, tags)
    ensures KeyOrder(groups, order) ==> KeyOrder(groups', order')
  {
    groups', order' := groups, order;
    var k := 0;
    while k < |tags|
      invariant 0 <= k <= |tags|
      invariant groups' == FileUnder(groups, info, tags[..k])
      invariant KeyOrder(groups, order) ==> KeyOrder(groups', order')
    {
      assert tags[..k + 1][..k] == tags[..k];
      var tag := tags[k];
      if tag !in groups' {
        order' := order' + [tag];
      }
      groups' := groups'[tag := Group(groups', tag) + [info]];
      k := k + 1;
    }
    assert tags[..k] == tags;
  }

  /** The middle loop, over the method keys of one path. */
  method FileEntries(groups: Groups, order: seq<string>, path: string, ops: PathItem)
    returns (groups': Groups, order': seq<string>)
    ensures groups' == FileOps(groups, path, ops)
    ensures KeyOrder(groups, order) ==> KeyOrder(groups', order')
  {
    groups', order' := groups, order;
    var j := 0;
    while j < |ops|
      invariant 0 <= j <= |ops|
      invariant groups' == FileOps(groups, path, ops[..j])
      invariant KeyOrder(groups, order) ==> KeyOrder(groups', order')
    {
      assert ops[..j + 1][..j] == ops[..j];
      var (verb, details) := ops[j];
      if details.Operation? && details.tags.Some? {
        groups', order' := FileEntry(groups', order', MakeInfo(path, verb, details.fields), details.tags.value);
      }
      j := j + 1;
    }
    assert ops[..j] == ops;
  }

  /** `extract_endpoints_by_tag(swagger_data)`, with its dict's key order. */
  method ExtractEndpointsByTag(doc: Document) returns (groups: Groups, order: seq<string>)
    ensures groups == GroupsOf(PathsOf(doc))
    ensures KeyOrder(groups, order)
  {
    var paths := PathsOf(doc);
    groups, order := map[], [];
    var i := 0;
    while i < |paths|
      invariant 0 <= i <= |paths|
      invariant groups == FilePaths(map[], paths[..i])
      invariant KeyOrder(groups, order)
    {
      assert paths[..i + 1][..i] == paths[..i];
      var (path, methods) := paths[i];
      groups, order := FileEntries(groups, order, path, methods);
      i := i + 1;
    }
    assert paths[..i] == paths;
  }

  // ---------------------------------------------------------------- sorted(online_endpoints.items())

  /** The groups in sorted tag order. */
  function SortedGroups(groups: Groups, order: seq<string>): (r: seq<(string, seq<EndpointInfo>)>)
    ensures |r| == |order|
    ensures forall i, j :: 0 <= i < j < |r| ==> StrLe(r[i].0, r[j].0)
    ensures forall i :: 0 <= i < |r| ==> r[i].1 == Group(groups, r[i].0)
    ensures multiset(WalkTags(r)) == multiset(order)
  {
    var tags := SortStrings(order);
    assert |tags| == |multiset(tags)| == |multiset(order)| == |order|;
    var r := seq(|tags|, i requires 0 <= i < |tags| => (tags[i], Group(groups, tags[i])));
    assert WalkTags(r) == tags;
    r
  }

  lemma {:induction false} DistinctCount(s: seq<string>, x: string)
    requires NoDuplicates(s)
    ensures multiset(s)[x] <= 1
  {
    if s != [] {
      var init := s[..|s| - 1];
      assert s == init + [s[|s| - 1]];
      DistinctCount(init, x);
      assert s[|s| - 1] == x ==> x !in init;
    }
  }

  lemma RepeatedCount(s: seq<string>, i: nat, j: nat)
    requires i < j < |s|
    ensures s[i] == s[j] ==> multiset(s)[s[i]] >= 2
  {
    assert s == s[..i] + [s[i]] + s[i + 1..j] + [s[j]] + s[j + 1..];
  }

  /**
   * The sorted walk of both scripts' `main`: every tag of the dict once, in
   * sorted order, each with its whole group.
   */
  lemma SortedWalk(groups: Groups, order: seq<string>)
    requires KeyOrder(groups, order)
    ensures var r := SortedGroups(groups, order);
            (forall t :: t in groups <==> exists i :: 0 <= i < |r| && r[i].0 == t) &&
            (forall i, j :: 0 <= i < j < |r| ==> r[i].0 != r[j].0) &&
            (forall i :: 0 <= i < |r| ==> r[i].1 == groups[r[i].0])
  {
    SortedCovers(groups, order);
    SortedDistinct(groups, order);
    SortedValues(groups, order);
  }

  /** The tags of the sorted walk, in walk order. */
  function WalkTags(r: seq<(string, seq<EndpointInfo>)>): (tags: seq<string>)
    ensures |tags| == |r| && forall i :: 0 <= i < |r| ==> tags[i] == r[i].0
  {
    seq(|r|, i requires 0 <= i < |r| => r[i].0)
  }

  lemma SortedCovers(groups: Groups, order: seq<string>)
    requires KeyOrder(groups, order)
    ensures var r := SortedGroups(groups, order);
            forall t :: t in groups <==> exists i :: 0 <= i < |r| && r[i].0 == t
  {
    var r := SortedGroups(groups, order);
    var tags := WalkTags(r);
    assert multiset(tags) == multiset(order);
    forall t
      ensures t in groups <==> exists i :: 0 <= i < |r| && r[i].0 == t
    {
      if t in groups {
        assert t in multiset(order);
        assert t in multiset(tags);
        var i :| 0 <= i < |tags| && tags[i] == t;
        assert r[i].0 == t;
      }
      if exists i :: 0 <= i < |r| && r[i].0 == t {
        var i :| 0 <= i < |r| && r[i].0 == t;
        assert tags[i] == t;
        assert t in multiset(tags);
        assert t in multiset(order);
      }
    }
  }

  lemma SortedDistinct(groups: Groups, order: seq<string>)
    requires KeyOrder(groups, order)
    ensures var r := SortedGroups(groups, order);
            forall i, j :: 0 <= i < j < |r| ==> r[i].0 != r[j].0
  {
    var r := SortedGroups(groups, order);
    var tags := WalkTags(r);
    assert multiset(tags) == multiset(order);
    forall i, j | 0 <= i < j < |r|
      ensures r[i].0 != r[j].0
    {
      RepeatedCount(tags, i, j);
      DistinctCount(order, tags[i]);
    }
  }

  lemma SortedValues(groups: Groups, order: seq<string>)
    requires KeyOrder(groups, order)
    ensures var r := SortedGroups(groups, order);
            forall i :: 0 <= i < |r| ==> r[i].0 in groups && r[i].1 == groups[r[i].0]
  {
    var r := SortedGroups(groups, order);
    var tags := WalkTags(r);
    assert multiset(tags) == multiset(order);
    forall i | 0 <= i < |r|
      ensures r[i].0 in groups && r[i].1 == groups[r[i].0]
    {
      assert tags[i] in multiset(tags);
      assert tags[i] in multiset(order);
    }
  }

}
