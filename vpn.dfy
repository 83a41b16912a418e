/**
 * VPN configuration handling (`htbcli/modules/vpn.py`, class `VPNModule`):
 * the download path for a protocol, the `name_location_proto.ovpn` file
 * names written by `download_all_vpns` and parsed back by `list_vpn_files`,
 * and the choice of file in `start_vpn`. Downloads, the file system and
 * processes are inputs.
 */
module Vpn {
  import opened Wrappers
  import opened PyStr
  import opened Json
  import opened Http

  // ---------------------------------------------------------------- requests

  /** `get_vpn_servers(product="labs")` */
  function GetVpnServers(product: string): (r: Request)
    ensures r.verb == GET && r.path == "/connections/servers"
    ensures r.params == map["product" := PStr(product)] && r.body.None?
  {
    Get("/connections/servers", map["product" := PStr(product)])
  }

  /** The path `download_vpn_config(vpn_id, protocol)` fetches. */
  function OvpnPath(vpnId: int, protocol: string): string {
    if Lower(protocol) == "tcp" then "/access/ovpnfile/" + IntToString(vpnId) + "/0/1"
    else "/access/ovpnfile/" + IntToString(vpnId) + "/0"
  }

  /** A protocol that lower-cases to `tcp` fetches the `/0/1` file; every other one the `/0` file. */
  lemma OvpnPathByProtocol(vpnId: int, protocol: string)
    ensures OvpnPath(vpnId, protocol) == "/access/ovpnfile/" + IntToString(vpnId) + "/0/1" <==> Lower(protocol) == "tcp"
    ensures OvpnPath(vpnId, protocol) == "/access/ovpnfile/" + IntToString(vpnId) + "/0" <==> Lower(protocol) != "tcp"
  {
    var base := "/access/ovpnfile/" + IntToString(vpnId);
    if Lower(protocol) == "tcp" {
      assert |base + "/0/1"| != |base + "/0"|;
    } else {
      assert |base + "/0/1"| != |base + "/0"|;
    }
  }

  /** The TCP and UDP files of a server are different downloads. */
  lemma OvpnPathsDiffer(vpnId: int)
    ensures OvpnPath(vpnId, "tcp") != OvpnPath(vpnId, "udp")
  {
    assert Lower("tcp") == "tcp";
    assert Lower("udp") == "udp";
    assert |OvpnPath(vpnId, "tcp")| == |OvpnPath(vpnId, "udp")| + 2;
  }

  // ---------------------------------------------------------------- file names

  /** `f"{name}_{location}_{proto}.ovpn"` */
  function OvpnFilename(name: string, location: string, proto: string): string {
    name + "_" + location + "_" + proto + ".ovpn"
  }

  /** `str(self.vpn_dir / filename)` */
  function InDir(dir: string, filename: string): string {
    dir + "/" + filename
  }

  /** The fields `list_vpn_files` reads from a file name. */
  datatype ParsedName = ParsedName(name: string, location: string, protocol: string)

  /**
   * `parts = filename.replace('.ovpn', '').split('_')`: names with at least
   * three parts give the first three, the third upper-cased; others are skipped.
   */
  function ParseOvpnFilename(filename: string): (r: Option<ParsedName>)
    ensures var parts := Split(RemoveAll(filename, ".ovpn"), '_');
            (r.Some? <==> |parts| >= 3)
            && (r.Some? ==> r.value == ParsedName(parts[0], parts[1], Upper(parts[2])))
  {
    var parts := Split(RemoveAll(filename, ".ovpn"), '_');
    if |parts| >= 3 then Some(ParsedName(parts[0], parts[1], Upper(parts[2]))) else None
  }

  /**
   * Round trip: a name written by `download_all_vpns` parses back to the same
   * name and location, with the protocol upper-cased, provided neither the
   * name nor the location contains `_` or `.ovpn`.
   */
  lemma FilenameRoundTrip(name: string, location: string, proto: string)
    requires '_' !in name && '_' !in location
    requires !Contains(name, ".ovpn") && !Contains(location, ".ovpn")
    requires proto == "udp" || proto == "tcp"
    ensures ParseOvpnFilename(OvpnFilename(name, location, proto)) == Some(ParsedName(name, location, Upper(proto)))
  {
    OvpnStem(name, location, proto);
    StemSplit(name, location, proto);
  }

  /** Removing `.ovpn` from a written name leaves `name_location_proto`. */
  lemma OvpnStem(name: string, location: string, proto: string)
    requires '_' !in name && '_' !in location
    requires !Contains(name, ".ovpn") && !Contains(location, ".ovpn")
    requires proto == "udp" || proto == "tcp"
    ensures RemoveAll(OvpnFilename(name, location, proto), ".ovpn") == name + ['_'] + (location + ['_'] + proto)
  {
    var pat := ".ovpn";
    var rest := location + "_" + proto + pat;
    assert OvpnFilename(name, location, proto) == name + ['_'] + rest;
    RemoveAllAround(name, '_', rest, pat);
    assert rest == location + ['_'] + (proto + pat);
    RemoveAllAround(location, '_', proto + pat, pat);
    RemoveAllAbsent(name, pat);
    RemoveAllAbsent(location, pat);
    ProtocolSuffixRemoved(proto);
  }

  /** `name_location_proto` splits on `_` into its three fields. */
  lemma StemSplit(name: string, location: string, proto: string)
    requires '_' !in name && '_' !in location
    requires proto == "udp" || proto == "tcp"
    ensures Split(name + ['_'] + (location + ['_'] + proto), '_') == [name, location, proto]
  {
    SplitFirst(name, '_', location + ['_'] + proto);
    SplitFirst(location, '_', proto);
    SplitAbsent(proto, '_');
  }

  lemma ProtocolSuffixRemoved(proto: string)
    requires proto == "udp" || proto == "tcp"
    ensures RemoveAll(proto + ".ovpn", ".ovpn") == proto
  {
    var pat := ".ovpn";
    var s := proto + pat;
    assert s[..|pat|] != pat by { assert s[0] != pat[0]; }
    assert s[1..] == proto[1..] + pat;
    assert s[1..][..|pat|] != pat by { assert s[1..][0] != pat[0]; }
    assert s[2..] == proto[2..] + pat;
    assert s[2..][..|pat|] != pat by { assert s[2..][0] != pat[0]; }
    assert s[3..] == pat;
    assert RemoveAll(pat, pat) == [] by {
      assert pat[|pat|..] == [];
    }
    assert RemoveAll(s[2..], pat) == [s[2]] + RemoveAll(s[3..], pat);
    assert RemoveAll(s[1..], pat) == [s[1]] + RemoveAll(s[2..], pat) by {
      assert s[1..][1..] == s[2..];
    }
    assert RemoveAll(s, pat) == [s[0]] + RemoveAll(s[1..], pat);
    assert proto == [s[0], s[1], s[2]];
  }

  /**
   * A name with a `_` in it does not survive the round trip: the fields
   * shift, so `a_b` at `location` reads back as name `a` at location `b`,
   * with the upper-cased location as the protocol.
   */
  lemma UnderscoreInNameShiftsFields(a: string, b: string, location: string, proto: string)
    requires '_' !in a && '_' !in b && '_' !in location
    requires !Contains(a, ".ovpn") && !Contains(b, ".ovpn") && !Contains(location, ".ovpn")
    requires proto == "udp" || proto == "tcp"
    ensures ParseOvpnFilename(OvpnFilename(a + "_" + b, location, proto)) == Some(ParsedName(a, b, Upper(location)))
  {
    var f := OvpnFilename(a + "_" + b, location, proto);
    var stem := RemoveAll(OvpnFilename(b, location, proto), ".ovpn");
    StemAfterFirstField(a, b, location, proto);
    StemFields(b, location, proto);
    SplitFirst(a, '_', stem);
    var parts := Split(RemoveAll(f, ".ovpn"), '_');
    assert parts == [a] + Split(stem, '_');
  }

  lemma StemAfterFirstField(a: string, b: string, location: string, proto: string)
    requires '_' !in a && !Contains(a, ".ovpn")
    ensures RemoveAll(OvpnFilename(a + "_" + b, location, proto), ".ovpn")
            == a + ['_'] + RemoveAll(OvpnFilename(b, location, proto), ".ovpn")
  {
    var tail := OvpnFilename(b, location, proto);
    assert OvpnFilename(a + "_" + b, location, proto) == a + ['_'] + tail;
    RemoveAllAround(a, '_', tail, ".ovpn");
    RemoveAllAbsent(a, ".ovpn");
  }

  lemma StemFields(name: string, location: string, proto: string)
    requires '_' !in name && '_' !in location
    requires !Contains(name, ".ovpn") && !Contains(location, ".ovpn")
    requires proto == "udp" || proto == "tcp"
    ensures var parts := Split(RemoveAll(OvpnFilename(name, location, proto), ".ovpn"), '_');
            |parts| >= 3 && parts[0] == name && parts[1] == location
  {
    FilenameRoundTrip(name, location, proto);
  }

  // ---------------------------------------------------------------- download_all_vpns

  /**
   * One entry of `type_data['servers']`; a missing or null `id` is `None`.
   * `friendly_name` and `location` are `None` when the key is absent, and
   * otherwise hold the value as sent, which may be null or not a string.
   */
  datatype ServerInfo = ServerInfo(id: Option<int>, friendlyName: Option<Json>, location: Option<Json>)

  /** `type_data`: `servers` maps server ids to their information, in insertion order. */
  datatype TypeData = TypeData(servers: Option<seq<(string, ServerInfo)>>)

  /** `data['options']`: location -> server type -> type data, each in insertion order. */
  type Options = seq<(string, seq<(string, TypeData)>)>

  /** The `get_vpn_servers()` response, as far as `download_all_vpns` looks at it. */
  datatype ServersResponse =
    | NotADict                                    // falsy, or not a dict
    | Response(data: Option<Option<Options>>)     // `data` absent; `options` absent; or both present

  /** A record appended to `downloaded`. */
  datatype Downloaded = Downloaded(id: int, name: Json, location: Json, udpFile: string, tcpFile: string)

  /** `server_info.get('friendly_name', 'unknown')`: a present null stays null. */
  function ServerName(info: ServerInfo): Json {
    info.friendlyName.GetOr(JStr("unknown"))
  }

  /** `server_info.get('location', 'unknown')` */
  function ServerLocation(info: ServerInfo): Json {
    info.location.GetOr(JStr("unknown"))
  }

  /** `f"{name}_{location}_{proto}.ovpn"` for the values as `download_all_vpns` holds them. */
  function ServerFile(dir: string, name: Json, location: Json, proto: string): string {
    InDir(dir, OvpnFilename(Format(name), Format(location), proto))
  }

  /** The servers of one type, in order. */
  function TypeServers(t: TypeData): seq<ServerInfo> {
    match t.servers
    case None => []
    case Some(entries) => Values(entries)
  }

  function Values(entries: seq<(string, ServerInfo)>): (r: seq<ServerInfo>)
    ensures |r| == |entries| && forall k :: 0 <= k < |entries| ==> r[k] == entries[k].1
  {
    if entries == [] then [] else Values(entries[..|entries| - 1]) + [entries[|entries| - 1].1]
  }

  /** The servers of one location, in type order. */
  function LocationServers(types: seq<(string, TypeData)>): seq<ServerInfo> {
    if types == [] then []
    else LocationServers(types[..|types| - 1]) + TypeServers(types[|types| - 1].1)
  }

  /** Every server the three nested loops visit, in visiting order. */
  function OptionServers(options: Options): seq<ServerInfo> {
    if options == [] then []
    else OptionServers(options[..|options| - 1]) + LocationServers(options[|options| - 1].1)
  }

  function VisitedServers(response: ServersResponse): seq<ServerInfo> {
    match response
    case Response(Some(Some(options))) => OptionServers(options)
    case _ => []
  }

  /**
   * What one visited server adds: a record when its id is truthy and both
   * downloads succeed. `fetch(path)` says whether downloading `path` and
   * writing it to disk succeeded.
   */
  function ServerRecord(info: ServerInfo, dir: string, fetch: string -> bool): seq<Downloaded> {
    match info.id
    case Some(id) =>
      if id != 0 && fetch(OvpnPath(id, "udp")) && fetch(OvpnPath(id, "tcp")) then
        var name, location := ServerName(info), ServerLocation(info);
        [Downloaded(id, name, location, ServerFile(dir, name, location, "udp"), ServerFile(dir, name, location, "tcp"))]
      else []
    case None => []
  }

  /** The records produced for `servers`, in order. */
  function Records(servers: seq<ServerInfo>, dir: string, fetch: string -> bool): seq<Downloaded> {
    if servers == [] then []
    else Records(servers[..|servers| - 1], dir, fetch) + ServerRecord(servers[|servers| - 1], dir, fetch)
  }

  lemma {:induction false} RecordsConcat(a: seq<ServerInfo>, b: seq<ServerInfo>, dir: string, fetch: string -> bool)
    ensures Records(a + b, dir, fetch) == Records(a, dir, fetch) + Records(b, dir, fetch)
    decreases |b|
  {
    if b == [] {
      assert a + b == a;
    } else {
      assert (a + b)[..|a + b| - 1] == a + b[..|b| - 1];
      RecordsConcat(a, b[..|b| - 1], dir, fetch);
    }
  }

  /** The body of the innermost loop for one server: download both files when its id is truthy, and record them. */
  method DownloadServer(info: ServerInfo, dir: string, fetch: string -> bool) returns (recs: seq<Downloaded>)
    ensures recs == ServerRecord(info, dir, fetch)
  {
    recs := [];
    if info.id.Some? && info.id.value != 0 {
      var id := info.id.value;
      var name := info.friendlyName.GetOr(JStr("unknown"));
      var location := info.location.GetOr(JStr("unknown"));
      if fetch(OvpnPath(id, "udp")) && fetch(OvpnPath(id, "tcp")) {
        recs := [Downloaded(id, name, location, ServerFile(dir, name, location, "udp"), ServerFile(dir, name, location, "tcp"))];
      }
    }
  }

  /** The innermost loop of `download_all_vpns`: the servers of one server type. */
  method DownloadServers(entries: seq<(string, ServerInfo)>, dir: string, fetch: string -> bool) returns (downloaded: seq<Downloaded>)
    ensures downloaded == Records(Values(entries), dir, fetch)
  {
    downloaded := [];
    var k := 0;
    while k < |entries|
      invariant 0 <= k <= |entries|
      invariant downloaded == Records(Values(entries[..k]), dir, fetch)
    {
      var recs := DownloadServer(entries[k].1, dir, fetch);
      downloaded := downloaded + recs;
      assert entries[..k + 1][..k] == entries[..k];
      assert Values(entries[..k + 1]) == Values(entries[..k]) + [entries[k].1];
      k := k + 1;
    }
    assert entries[..k] == entries;
  }

  /** The middle loop: the server types of one location. */
  method DownloadLocation(types: seq<(string, TypeData)>, dir: string, fetch: string -> bool) returns (downloaded: seq<Downloaded>)
    ensures downloaded == Records(LocationServers(types), dir, fetch)
  {
    downloaded := [];
    var j := 0;
    while j < |types|
      invariant 0 <= j <= |types|
      invariant downloaded == Records(LocationServers(types[..j]), dir, fetch)
    {
      var recs: seq<Downloaded> := [];
      if types[j].1.servers.Some? {
        recs := DownloadServers(types[j].1.servers.value, dir, fetch);
      }
      downloaded := downloaded + recs;
      LocationStep(types, j, dir, fetch);
      j := j + 1;
    }
    assert types[..j] == types;
  }

  lemma LocationStep(types: seq<(string, TypeData)>, j: nat, dir: string, fetch: string -> bool)
    requires j < |types|
    ensures Records(LocationServers(types[..j + 1]), dir, fetch)
            == Records(LocationServers(types[..j]), dir, fetch) + Records(TypeServers(types[j].1), dir, fetch)
  {
    assert types[..j + 1][..j] == types[..j];
    RecordsConcat(LocationServers(types[..j]), TypeServers(types[j].1), dir, fetch);
  }

  lemma OptionsStep(options: Options, i: nat, dir: string, fetch: string -> bool)
    requires i < |options|
    ensures Records(OptionServers(options[..i + 1]), dir, fetch)
            == Records(OptionServers(options[..i]), dir, fetch) + Records(LocationServers(options[i].1), dir, fetch)
  {
    assert options[..i + 1][..i] == options[..i];
    RecordsConcat(OptionServers(options[..i]), LocationServers(options[i].1), dir, fetch);
  }

  /** `download_all_vpns()`, given the server response, the directory and the download outcome of each path. */
  method DownloadAllVpns(response: ServersResponse, dir: string, fetch: string -> bool) returns (downloaded: seq<Downloaded>)
    ensures downloaded == Records(VisitedServers(response), dir, fetch)
  {
    downloaded := [];
    if response.Response? && response.data.Some? && response.data.value.Some? {
      var options := response.data.value.value;
      var i := 0;
      while i < |options|
        invariant 0 <= i <= |options|
        invariant downloaded == Records(OptionServers(options[..i]), dir, fetch)
      {
        var recs := DownloadLocation(options[i].1, dir, fetch);
        downloaded := downloaded + recs;
        OptionsStep(options, i, dir, fetch);
        i := i + 1;
      }
      assert options[..i] == options;
    }
  }

  /** At most one record per visited server. */
  lemma {:induction false} AtMostOneRecordPerServer(servers: seq<ServerInfo>, dir: string, fetch: string -> bool)
    ensures |Records(servers, dir, fetch)| <= |servers|
  {
    if servers != [] {
      AtMostOneRecordPerServer(servers[..|servers| - 1], dir, fetch);
    }
  }

  /** Every record comes from a visited server with a truthy id, with its name, location and files named after them. */
  lemma {:induction false} RecordsComeFromServers(servers: seq<ServerInfo>, dir: string, fetch: string -> bool)
    ensures forall d :: d in Records(servers, dir, fetch) ==>
      d.id != 0 && fetch(OvpnPath(d.id, "udp")) && fetch(OvpnPath(d.id, "tcp"))
      && d.udpFile == ServerFile(dir, d.name, d.location, "udp")
      && d.tcpFile == ServerFile(dir, d.name, d.location, "tcp")
      && exists s :: s in servers && s.id == Some(d.id) && ServerName(s) == d.name && ServerLocation(s) == d.location
  {
    if servers != [] {
      RecordsComeFromServers(servers[..|servers| - 1], dir, fetch);
      var last := servers[|servers| - 1];
      forall d | d in Records(servers, dir, fetch)
        ensures exists s :: s in servers && s.id == Some(d.id) && ServerName(s) == d.name && ServerLocation(s) == d.location
      {
        if d in Records(servers[..|servers| - 1], dir, fetch) {
          var s :| s in servers[..|servers| - 1] && s.id == Some(d.id) && ServerName(s) == d.name && ServerLocation(s) == d.location;
          assert s in servers;
        } else {
          assert last in servers;
        }
      }
    }
  }

  /** When no download can succeed (the client has no binary download), nothing is recorded. */
  lemma {:induction false} NoDownloadNoRecords(servers: seq<ServerInfo>, dir: string, fetch: string -> bool)
    requires forall p :: !fetch(p)
    ensures Records(servers, dir, fetch) == []
  {
    if servers != [] {
      NoDownloadNoRecords(servers[..|servers| - 1], dir, fetch);
    }
  }

  /** A server whose id is missing, null or zero is visited but never recorded. */
  lemma FalsyIdNotRecorded(info: ServerInfo, dir: string, fetch: string -> bool)
    requires info.id.None? || info.id == Some(0)
    ensures ServerRecord(info, dir, fetch) == []
  {
  }

  /**
   * A server whose `friendly_name` is present but null is recorded with the
   * name `None` and its files are written as `None_<location>_udp.ovpn` and
   * `None_<location>_tcp.ovpn`; an absent one gives `unknown`.
   */
  lemma NullNameWrittenAsNone(info: ServerInfo, dir: string, fetch: string -> bool)
    requires info.id.Some? && info.id.value != 0
    requires fetch(OvpnPath(info.id.value, "udp")) && fetch(OvpnPath(info.id.value, "tcp"))
    requires info.friendlyName == Some(JNull) || info.friendlyName.None?
    ensures var where := Format(ServerLocation(info));
            var shown := if info.friendlyName.None? then "unknown" else "None";
            |ServerRecord(info, dir, fetch)| == 1
            && ServerRecord(info, dir, fetch)[0].name == (if info.friendlyName.None? then JStr("unknown") else JNull)
            && ServerRecord(info, dir, fetch)[0].udpFile == InDir(dir, OvpnFilename(shown, where, "udp"))
            && ServerRecord(info, dir, fetch)[0].tcpFile == InDir(dir, OvpnFilename(shown, where, "tcp"))
  {
  }

  // ---------------------------------------------------------------- list_vpn_files

  /** A record appended to `vpn_files`. */
  datatype VpnFile = VpnFile(filename: string, name: string, location: string, protocol: string, path: string)

  /** The records for the files `filenames` (the `*.ovpn` glob of the directory, in glob order). */
  function VpnFilesOf(dir: string, filenames: seq<string>): seq<VpnFile> {
    if filenames == [] then []
    else
      var f := filenames[|filenames| - 1];
      VpnFilesOf(dir, filenames[..|filenames| - 1]) +
        match ParseOvpnFilename(f)
        case None => []
        case Some(p) => [VpnFile(f, p.name, p.location, p.protocol, InDir(dir, f))]
  }

  /** `list_vpn_files()` */
  method ListVpnFiles(dir: string, filenames: seq<string>) returns (files: seq<VpnFile>)
    ensures files == VpnFilesOf(dir, filenames)
  {
    files := [];
    var i := 0;
    while i < |filenames|
      invariant 0 <= i <= |filenames|
      invariant files == VpnFilesOf(dir, filenames[..i])
    {
      var filename := filenames[i];
      var parts := Split(RemoveAll(filename, ".ovpn"), '_');
      if |parts| >= 3 {
        files := files + [VpnFile(filename, parts[0], parts[1], Upper(parts[2]), InDir(dir, filename))];
      }
      assert filenames[..i + 1][..i] == filenames[..i];
      i := i + 1;
    }
    assert filenames[..i] == filenames;
  }

  /** Files are listed in glob order, each at most once, and each listed file is named in `filenames`. */
  lemma {:induction false} VpnFilesFromNames(dir: string, filenames: seq<string>)
    ensures |VpnFilesOf(dir, filenames)| <= |filenames|
    ensures forall v :: v in VpnFilesOf(dir, filenames) ==>
      v.filename in filenames && v.path == InDir(dir, v.filename)
      && ParseOvpnFilename(v.filename) == Some(ParsedName(v.name, v.location, v.protocol))
  {
    if filenames != [] {
      VpnFilesFromNames(dir, filenames[..|filenames| - 1]);
      assert forall f :: f in filenames[..|filenames| - 1] ==> f in filenames;
    }
  }

  /** Every file written by `download_all_vpns` is listed again by `list_vpn_files`, with the same name and location. */
  lemma DownloadedFileListed(dir: string, name: string, location: string, proto: string)
    requires '_' !in name && '_' !in location
    requires !Contains(name, ".ovpn") && !Contains(location, ".ovpn")
    requires proto == "udp" || proto == "tcp"
    ensures var f := OvpnFilename(name, location, proto);
            VpnFilesOf(dir, [f]) == [VpnFile(f, name, location, Upper(proto), InDir(dir, f))]
  {
    FilenameRoundTrip(name, location, proto);
    assert [OvpnFilename(name, location, proto)][..0] == [];
  }

  // ---------------------------------------------------------------- start_vpn

  /** `os.path.isabs` on a POSIX path. */
  predicate IsAbs(path: string) {
    StartsWith(path, "/")
  }

  /** The file name `start_vpn` matches against `mode`. */
  predicate ModeMatches(filename: string, mode: string) {
    Contains(Lower(filename), Lower(mode))
  }

  /**
   * The file `start_vpn` picks: `vpn_file` itself when it is absolute, else
   * the first of the glob matches (`*{vpn_file}*` in the directory, in glob
   * order) whose lower-cased name contains the lower-cased mode.
   */
  method SelectVpnFile(vpnFile: string, mode: string, dir: string, matches: seq<string>) returns (path: Option<string>)
    ensures IsAbs(vpnFile) ==> path == Some(vpnFile)
    ensures !IsAbs(vpnFile) ==> (path.None? <==> forall k :: 0 <= k < |matches| ==> !ModeMatches(matches[k], mode))
    ensures !IsAbs(vpnFile) && path.Some? ==>
      exists k :: 0 <= k < |matches| && path.value == InDir(dir, matches[k]) && ModeMatches(matches[k], mode)
                  && forall j :: 0 <= j < k ==> !ModeMatches(matches[j], mode)
  {
    path := None;
    if IsAbs(vpnFile) {
      path := Some(vpnFile);
    } else {
      var i := 0;
      while i < |matches|
        invariant 0 <= i <= |matches|
        invariant path.None?
        invariant forall j :: 0 <= j < i ==> !ModeMatches(matches[j], mode)
      {
        if Contains(Lower(matches[i]), Lower(mode)) {
          path := Some(InDir(dir, matches[i]));
          break;
        }
        i := i + 1;
      }
    }
  }

  /** `Popen(...).returncode` read straight after `Popen`: the process has not been waited for. */
  const ReturncodeAfterPopen: Option<int> := None

  /**
   * `start_vpn` as written: after the file is found and `openvpn --version`
   * succeeds, it tests the `returncode` of a process that has only just been
   * started, which is `None`, so the test `== 0` always fails.
   */
  method StartVpnAsWritten(vpnFile: string, mode: string, dir: string, matches: seq<string>,
                           exists_: string -> bool, openvpnInstalled: bool) returns (started: bool)
    ensures !started
  {
    var path := SelectVpnFile(vpnFile, mode, dir, matches);
    if path.None? || !exists_(path.value) {
      return false;
    }
    if !openvpnInstalled {
      return false;
    }
    var returncode := ReturncodeAfterPopen;
    started := returncode == Some(0);
  }

  /** `matches[k]` is the first of the glob matches whose name contains the mode. */
  predicate FirstModeMatch(matches: seq<string>, mode: string, k: int) {
    0 <= k < |matches| && ModeMatches(matches[k], mode) && forall j :: 0 <= j < k ==> !ModeMatches(matches[j], mode)
  }

  /** There is only one first match. */
  lemma FirstModeMatchUnique(matches: seq<string>, mode: string, k: int, k': int)
    requires FirstModeMatch(matches, mode, k) && FirstModeMatch(matches, mode, k')
    ensures k == k'
  {
  }

  /**
   * `start_vpn` as intended: it reports success exactly when the file it
   * picks (the absolute path, or the first glob match for the mode) exists,
   * OpenVPN is installed, and the launcher
   * (`sudo openvpn --config <file> --daemon`) exits with status 0.
   */
  method StartVpn(vpnFile: string, mode: string, dir: string, matches: seq<string>,
                  exists_: string -> bool, openvpnInstalled: bool, launcherStatus: int) returns (started: bool)
    ensures IsAbs(vpnFile) ==> (started <==> exists_(vpnFile) && openvpnInstalled && launcherStatus == 0)
    ensures !IsAbs(vpnFile) ==>
      (started <==> exists k :: FirstModeMatch(matches, mode, k) && exists_(InDir(dir, matches[k]))
                               && openvpnInstalled && launcherStatus == 0)
    ensures !IsAbs(vpnFile) && (forall k :: 0 <= k < |matches| ==> !ModeMatches(matches[k], mode)) ==> !started
  {
    var path := SelectVpnFile(vpnFile, mode, dir, matches);
    ghost var k: int := -1;
    if !IsAbs(vpnFile) && path.Some? {
      k :| 0 <= k < |matches| && path.value == InDir(dir, matches[k]) && ModeMatches(matches[k], mode)
           && forall j :: 0 <= j < k ==> !ModeMatches(matches[j], mode);
      assert FirstModeMatch(matches, mode, k);
      forall k' | FirstModeMatch(matches, mode, k') ensures k' == k {
        FirstModeMatchUnique(matches, mode, k, k');
      }
    }
    if path.None? || !exists_(path.value) {
      return false;
    }
    if !openvpnInstalled {
      return false;
    }
    started := launcherStatus == 0;
  }
}
