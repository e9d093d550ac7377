/** The command dispatcher of the FRITZ!Box home-automation client
    (fritz/fritzapi.go): request URLs, the name-to-AIN table built from the
    device list, the backlog of work items, the folding of per-device outcomes
    into one error, and the dispatch that ties them together.

    The HTTP exchange is the parameter `fetch`: for a command it stands for
    HTTPClient.Get followed by httpread.ReadFullyString, for the device list
    for HTTPClient.Get together with reading the body. The XML decoding of the
    device list is the parameter `decode`; the parallel fan-out is modelled as running each work item once,
    in an order the model does not fix. */
module Fritz {

  import opened Wrappers
  import opened Text

  // ---------------------------------------------------------------------
  // Data model

  datatype Config = Config(protocol: string, host: string, port: string)

  /** The client: its configuration and the session id of the logged-in session. */
  datatype Client = Client(config: Config, sid: string)

  /** A device of the device list: its name and its raw AIN ("identifier"). */
  datatype Device = Device(name: string, identifier: string)

  /** What one HTTP exchange yields: the response body, or an error. */
  datatype Reply = Reply(msg: string, err: Option<string>)

  /** A work item: a deferred exchange (Go's func() (string, error)). */
  type Work = () -> Reply

  /** Go's `result` struct: a processed target's message and wrapped error. */
  datatype TargetResult = TargetResult(msg: string, err: Option<string>)

  /** The commands of the Fritz interface that go through the dispatcher. */
  datatype Command = SwitchOn | SwitchOff | Toggle | Temperature(celsius: real)

  // ---------------------------------------------------------------------
  // Request URLs

  const HomeAutoSwitchPath := "/webservices/homeautoswitch.lua"

  /** Everything before the query. The format "%s://%s:%s/%s" puts a slash
      before a path that already starts with one. */
  function Endpoint(c: Client): string
  {
    c.config.protocol + "://" + c.config.host + ":" + c.config.port + "/" + HomeAutoSwitchPath
  }

  function Field(f: (string, string)): string
  {
    f.0 + "=" + f.1
  }

  /** The `key=value` texts of the fields, in order. */
  function Fields(fields: seq<(string, string)>): seq<string>
  {
    seq(|fields|, i requires 0 <= i < |fields| => Field(fields[i]))
  }

  /** Appends `&key=value` for each field to `text`, in order. */
  function AppendFields(text: string, rest: seq<(string, string)>): string
    decreases |rest|
  {
    if |rest| == 0 then text
    else AppendFields(text + "&" + rest[0].0 + "=" + rest[0].1, rest[1..])
  }

  /** `base?k0=v0&k1=v1...`: the query is built field by field, left to right,
      as a format string with one verb per place is filled in. */
  function WithQuery(base: string, fields: seq<(string, string)>): string
    requires |fields| > 0
  {
    AppendFields(base + "?" + fields[0].0 + "=" + fields[0].1, fields[1..])
  }

  lemma {:induction false} AppendFieldsIsJoin(text: string, rest: seq<(string, string)>)
    requires |rest| > 0
    decreases |rest|
    ensures AppendFields(text, rest) == text + "&" + Join(Fields(rest), "&")
  {
    var r := rest[0];
    var next := text + "&" + r.0 + "=" + r.1;
    ConcatAssoc4(text + "&", r.0, "=", r.1);
    assert next == text + "&" + Field(r);
    if |rest| == 1 {
      assert Fields(rest) == [Field(r)];
    } else {
      AppendFieldsIsJoin(next, rest[1..]);
      var tail := Join(Fields(rest[1..]), "&");
      assert Fields(rest)[1..] == Fields(rest[1..]);
      assert Join(Fields(rest), "&") == Field(r) + "&" + tail;
      ConcatAssoc4(text + "&", Field(r), "&", tail);
      ConcatAssoc(text, "&", Field(r) + "&" + tail);
    }
  }

  /** The query part of a URL is its fields' `key=value` texts joined by '&'. */
  lemma {:induction false} WithQueryIsJoin(base: string, fields: seq<(string, string)>)
    requires |fields| > 0
    ensures WithQuery(base, fields) == base + "?" + Join(Fields(fields), "&")
  {
    var f := fields[0];
    var first := base + "?" + f.0 + "=" + f.1;
    ConcatAssoc4(base + "?", f.0, "=", f.1);
    assert first == base + "?" + Field(f);
    if |fields| == 1 {
      assert Fields(fields) == [Field(f)];
    } else {
      AppendFieldsIsJoin(first, fields[1..]);
      var tail := Join(Fields(fields[1..]), "&");
      assert Fields(fields)[1..] == Fields(fields[1..]);
      assert Join(Fields(fields), "&") == Field(f) + "&" + tail;
      ConcatAssoc4(base + "?", Field(f), "&", tail);
    }
  }

  /** Reads a URL back: the part before the first '?' and the fields of the query. */
  function ParseUrl(url: string): (string, seq<(string, string)>)
  {
    var (base, query) := Cut(url, '?');
    var parts := Split(query, '&');
    (base, seq(|parts|, i requires 0 <= i < |parts| => Cut(parts[i], '=')))
  }

  /** The configuration holds no '?', so the first '?' of a URL starts its query. */
  predicate PlainConfig(c: Client)
  {
    '?' !in c.config.protocol && '?' !in c.config.host && '?' !in c.config.port
  }

  /** Field names hold no '=' or '&' and values no '&'. */
  predicate PlainFields(fields: seq<(string, string)>)
  {
    forall i :: 0 <= i < |fields| ==> '=' !in fields[i].0 && '&' !in fields[i].0 && '&' !in fields[i].1
  }

  /** A URL built from plain parts reads back as its endpoint and its fields,
      in order. */
  lemma {:induction false} QueryParses(c: Client, fields: seq<(string, string)>)
    requires |fields| > 0
    ensures PlainConfig(c) && PlainFields(fields) ==>
              ParseUrl(WithQuery(Endpoint(c), fields)) == (Endpoint(c), fields)
  {
    if !(PlainConfig(c) && PlainFields(fields)) {
      return;
    }
    var e := Endpoint(c);
    assert '?' !in HomeAutoSwitchPath;
    assert '?' !in e;
    var parts := Fields(fields);
    var q := Join(parts, "&");
    WithQueryIsJoin(e, fields);
    CutAt(e, '?', q);
    forall i | 0 <= i < |parts|
      ensures '&' !in parts[i]
    {
      assert parts[i] == fields[i].0 + "=" + fields[i].1;
    }
    SplitJoin(parts, '&');
    var parsed := seq(|parts|, i requires 0 <= i < |parts| => Cut(parts[i], '='));
    forall i | 0 <= i < |parts|
      ensures parsed[i] == fields[i]
    {
      CutAt(fields[i].0, '=', fields[i].1);
    }
    assert parsed == fields;
  }

  /** The four query fields of getWithAinAndParam. */
  function AinParamFields(c: Client, ain: string, switchcmd: string, param: string): seq<(string, string)>
  {
    [("ain", ain), ("switchcmd", switchcmd), ("param", param), ("sid", c.sid)]
  }

  /** The three query fields of getWithAin. */
  function AinFields(c: Client, ain: string, switchcmd: string): seq<(string, string)>
  {
    [("ain", ain), ("switchcmd", switchcmd), ("sid", c.sid)]
  }

  /** The two query fields of get. */
  function CommandFields(c: Client, switchcmd: string): seq<(string, string)>
  {
    [("switchcmd", switchcmd), ("sid", c.sid)]
  }

  // The three URL functions below spell out the format strings of
  // getWithAinAndParam, getWithAin and get, with each literal segment split at
  // its field names.

  /** The URL requested by getWithAinAndParam. */
  function UrlWithAinAndParam(c: Client, ain: string, switchcmd: string, param: string): (url: string)
    ensures url == WithQuery(Endpoint(c), AinParamFields(c, ain, switchcmd, param))
    ensures PlainConfig(c) && '&' !in ain && '&' !in switchcmd && '&' !in param && '&' !in c.sid ==>
              ParseUrl(url) == (Endpoint(c), AinParamFields(c, ain, switchcmd, param))
  {
    var fields := AinParamFields(c, ain, switchcmd, param);
    var t1 := Endpoint(c) + "?" + "ain" + "=" + ain;
    var t2 := t1 + "&" + "switchcmd" + "=" + switchcmd;
    var t3 := t2 + "&" + "param" + "=" + param;
    var t4 := t3 + "&" + "sid" + "=" + c.sid;
    assert fields[1..] == [("switchcmd", switchcmd), ("param", param), ("sid", c.sid)];
    assert fields[1..][1..] == [("param", param), ("sid", c.sid)];
    assert fields[1..][1..][1..] == [("sid", c.sid)];
    assert AppendFields(t3, fields[1..][1..][1..]) == t4;
    assert AppendFields(t2, fields[1..][1..]) == t4;
    assert AppendFields(t1, fields[1..]) == t4;
    QueryParses(c, fields);
    c.config.protocol + "://" + c.config.host + ":" + c.config.port + "/" + HomeAutoSwitchPath
      + "?" + "ain" + "=" + ain + "&" + "switchcmd" + "=" + switchcmd
      + "&" + "param" + "=" + param + "&" + "sid" + "=" + c.sid
  }

  /** The URL requested by getWithAin. */
  function UrlWithAin(c: Client, ain: string, switchcmd: string): (url: string)
    ensures url == WithQuery(Endpoint(c), AinFields(c, ain, switchcmd))
    ensures PlainConfig(c) && '&' !in ain && '&' !in switchcmd && '&' !in c.sid ==>
              ParseUrl(url) == (Endpoint(c), AinFields(c, ain, switchcmd))
  {
    var fields := AinFields(c, ain, switchcmd);
    var t1 := Endpoint(c) + "?" + "ain" + "=" + ain;
    var t2 := t1 + "&" + "switchcmd" + "=" + switchcmd;
    var t3 := t2 + "&" + "sid" + "=" + c.sid;
    assert fields[1..] == [("switchcmd", switchcmd), ("sid", c.sid)];
    assert fields[1..][1..] == [("sid", c.sid)];
    assert AppendFields(t2, fields[1..][1..]) == t3;
    assert AppendFields(t1, fields[1..]) == t3;
    QueryParses(c, fields);
    c.config.protocol + "://" + c.config.host + ":" + c.config.port + "/" + HomeAutoSwitchPath
      + "?" + "ain" + "=" + ain + "&" + "switchcmd" + "=" + switchcmd + "&" + "sid" + "=" + c.sid
  }

  /** The URL requested by get. */
  function UrlFor(c: Client, switchcmd: string): (url: string)
    ensures url == WithQuery(Endpoint(c), CommandFields(c, switchcmd))
    ensures PlainConfig(c) && '&' !in switchcmd && '&' !in c.sid ==>
              ParseUrl(url) == (Endpoint(c), CommandFields(c, switchcmd))
  {
    var fields := CommandFields(c, switchcmd);
    var t1 := Endpoint(c) + "?" + "switchcmd" + "=" + switchcmd;
    var t2 := t1 + "&" + "sid" + "=" + c.sid;
    assert fields[1..] == [("sid", c.sid)];
    assert AppendFields(t1, fields[1..]) == t2;
    QueryParses(c, fields);
    c.config.protocol + "://" + c.config.host + ":" + c.config.port + "/" + HomeAutoSwitchPath
      + "?" + "switchcmd" + "=" + switchcmd + "&" + "sid" + "=" + c.sid
  }

  /** math.Round on twice the set-point, taken as rounding to the nearest
      integer with halves away from zero, on exact reals. */
  function RoundHalfAwayFromZero(x: real): (n: int)
    ensures n as real - 0.5 <= x <= n as real + 0.5
    ensures x == n as real - 0.5 ==> x > 0.0
    ensures x == n as real + 0.5 ==> x < 0.0
  {
    if x >= 0.0 then (x + 0.5).Floor else -((-x + 0.5).Floor)
  }

  /** The `switchcmd` a command sends. */
  function SwitchCmd(cmd: Command): string
  {
    match cmd
    case SwitchOn => "setswitchon"
    case SwitchOff => "setswitchoff"
    case Toggle => "setswitchtoggle"
    case Temperature(_) => "sethkrtsoll"
  }

  /** The set-point parameter: the temperature in half degrees, rounded. */
  function TemperatureParam(celsius: real): string
  {
    Decimal(RoundHalfAwayFromZero(2.0 * celsius))
  }

  /** The URL a command's work item requests for one AIN
      (switchForAin, toggleForAin and temperatureForAin). */
  function CommandUrl(c: Client, cmd: Command, ain: string): (url: string)
    ensures cmd.Temperature? ==>
              url == WithQuery(Endpoint(c), AinParamFields(c, ain, "sethkrtsoll", TemperatureParam(cmd.celsius)))
    ensures !cmd.Temperature? ==> url == WithQuery(Endpoint(c), AinFields(c, ain, SwitchCmd(cmd)))
  {
    match cmd
    case Temperature(v) => UrlWithAinAndParam(c, ain, SwitchCmd(cmd), TemperatureParam(v))
    case _ => UrlWithAin(c, ain, SwitchCmd(cmd))
  }

  /** Every command URL carries the AIN, the command's switchcmd and the
      session id; a set-temperature request also carries, as `param`, the
      decimal form of round(2 * celsius). */
  lemma CommandUrlFields(c: Client, cmd: Command, ain: string)
    requires PlainConfig(c) && '&' !in ain && '&' !in c.sid
    ensures var (base, fields) := ParseUrl(CommandUrl(c, cmd, ain));
            && base == Endpoint(c)
            && fields[0] == ("ain", ain)
            && fields[1] == ("switchcmd", SwitchCmd(cmd))
            && fields[|fields| - 1] == ("sid", c.sid)
            && (cmd.Temperature? <==> |fields| == 4)
            && (cmd.Temperature? ==>
                  && fields[2].0 == "param"
                  && ParseDecimal(fields[2].1) == Some(RoundHalfAwayFromZero(2.0 * cmd.celsius)))
  {
    if cmd.Temperature? {
      var p := TemperatureParam(cmd.celsius);
      assert '&' !in p;
      DecimalRoundTrip(RoundHalfAwayFromZero(2.0 * cmd.celsius));
    }
  }

  /** The work factory of SwitchOn, SwitchOff, Toggle and Temperature: an AIN
      becomes a deferred exchange with that command's URL. */
  function WorkFactory(c: Client, cmd: Command, fetch: string -> Reply): (factory: string -> Work)
    ensures forall ain :: factory(ain)() == fetch(CommandUrl(c, cmd, ain))
  {
    ain => () => fetch(CommandUrl(c, cmd, ain))
  }

  // ---------------------------------------------------------------------
  // Device list and name-to-AIN table

  /** The URL ListDevices requests. */
  function DeviceListUrl(c: Client): string
  {
    UrlFor(c, "getdevicelistinfos")
  }

  /** ListDevices: a transport error is returned as it is, otherwise the body
      is decoded. */
  function ListDevices(c: Client, fetch: string -> Reply, decode: string -> Result<seq<Device>, string>): (r: Result<seq<Device>, string>)
    ensures fetch(DeviceListUrl(c)).err.Some? ==> r == Failure(fetch(DeviceListUrl(c)).err.value)
    ensures fetch(DeviceListUrl(c)).err.None? ==> r == decode(fetch(DeviceListUrl(c)).msg)
  {
    var reply := fetch(DeviceListUrl(c));
    if reply.err.Some? then Failure(reply.err.value) else decode(reply.msg)
  }

  /** The table the loop of getNameToAinTable leaves after the devices `devs`:
      each device in turn stores its space-free AIN under its name. */
  function Table(devs: seq<Device>): map<string, string>
  {
    if |devs| == 0 then map[]
    else
      var last := devs[|devs| - 1];
      Table(devs[..|devs| - 1])[last.name := RemoveSpaces(last.identifier)]
  }

  /** The keys of the table are exactly the device names. */
  lemma {:induction false} TableKeys(devs: seq<Device>)
    ensures Table(devs).Keys == set d | d in devs :: d.name
  {
    if |devs| > 0 {
      var init := devs[..|devs| - 1];
      TableKeys(init);
      assert devs == init + [devs[|devs| - 1]];
    }
  }

  /** No AIN in the table contains a space. */
  lemma {:induction false} TableHasNoSpaces(devs: seq<Device>)
    ensures forall n :: n in Table(devs) ==> ' ' !in Table(devs)[n]
  {
    if |devs| > 0 {
      TableHasNoSpaces(devs[..|devs| - 1]);
    }
  }

  /** When names repeat, the last device with a name decides its AIN. */
  lemma {:induction false} TableLastWins(devs: seq<Device>, i: nat)
    requires i < |devs|
    requires forall j :: i < j < |devs| ==> devs[j].name != devs[i].name
    ensures devs[i].name in Table(devs)
    ensures Table(devs)[devs[i].name] == RemoveSpaces(devs[i].identifier)
  {
    if i < |devs| - 1 {
      TableLastWins(devs[..|devs| - 1], i);
    }
  }

  /** getNameToAinTable, given what ListDevices returned. */
  method NameToAinTable(listing: Result<seq<Device>, string>) returns (r: Result<map<string, string>, string>)
    ensures listing.Failure? ==> r == Failure(listing.error)
    ensures listing.Success? ==> r == Success(Table(listing.value))
  {
    if listing.Failure? {
      return Failure(listing.error);
    }
    var devs := listing.value;
    var table: map<string, string> := map[];
    for i := 0 to |devs|
      invariant table == Table(devs[..i])
    {
      assert devs[..i + 1][..i] == devs[..i];
      var dev := devs[i];
      table := table[dev.name := RemoveSpaces(dev.identifier)];
    }
    assert devs[..|devs|] == devs;
    return Success(table);
  }

  // ---------------------------------------------------------------------
  // Backlog

  /** A name resolves when the table has a non-empty AIN for it. */
  predicate Resolves(table: map<string, string>, name: string)
  {
    name in table && table[name] != ""
  }

  /** The index of the first name that does not resolve, or |names| if all do. */
  function FirstUnresolved(table: map<string, string>, names: seq<string>): (k: nat)
    ensures k <= |names|
    ensures forall j :: 0 <= j < k ==> Resolves(table, names[j])
    ensures k < |names| ==> !Resolves(table, names[k])
  {
    if |names| == 0 || !Resolves(table, names[0]) then 0
    else 1 + FirstUnresolved(table, names[1..])
  }

  /** `order` lists every element of `keys` exactly once. */
  ghost predicate Enumerates(order: seq<string>, keys: set<string>)
  {
    && (forall i :: 0 <= i < |order| ==> order[i] in keys)
    && (forall k :: k in keys ==> k in order)
    && (forall i, j :: 0 <= i < j < |order| ==> order[i] != order[j])
  }

  /** stringutils.StringKeys: the keys of a map, in no particular order. */
  method StringKeys<V>(m: map<string, V>) returns (keys: seq<string>)
    ensures Enumerates(keys, m.Keys)
  {
    var rest := m.Keys;
    keys := [];
    while rest != {}
      invariant rest <= m.Keys
      invariant forall k :: k in keys <==> k in m.Keys && k !in rest
      invariant forall i, j :: 0 <= i < j < |keys| ==> keys[i] != keys[j]
      decreases |rest|
    {
      var k :| k in rest;
      keys := keys + [k];
      rest := rest - {k};
    }
  }

  /** stringutils.Quote: each string in double quotes. */
  function Quote(keys: seq<string>): seq<string>
  {
    seq(|keys|, i requires 0 <= i < |keys| => "\"" + keys[i] + "\"")
  }

  /** The error of buildBacklog for a name it cannot resolve. */
  function NotFoundMessage(name: string, keys: seq<string>): string
  {
    "No device found with name '" + name + "'. Available devices are " + Join(Quote(keys), ", ")
  }

  /** `msg` is the not-found error for `name`, listing the table's keys in some order. */
  ghost predicate NotFoundError(table: map<string, string>, name: string, msg: string)
  {
    exists keys :: Enumerates(keys, table.Keys) && msg == NotFoundMessage(name, keys)
  }

  /** The not-found error names the missing device and every known device, quoted. */
  lemma NotFoundErrorMentions(table: map<string, string>, name: string, msg: string)
    requires NotFoundError(table, name, msg)
    ensures Contains(msg, name)
    ensures forall k :: k in table ==> Contains(msg, "\"" + k + "\"")
  {
    var keys :| Enumerates(keys, table.Keys) && msg == NotFoundMessage(name, keys);
    var prefix := "No device found with name '" + name + "'. Available devices are ";
    var listed := Join(Quote(keys), ", ");
    assert msg == prefix + listed;
    ContainsMiddle("No device found with name '", name, "'. Available devices are ");
    ContainsAppend(prefix, listed, name);
    forall k | k in table
      ensures Contains(msg, "\"" + k + "\"")
    {
      var i :| 0 <= i < |keys| && keys[i] == k;
      JoinContainsPart(Quote(keys), ", ", i);
      ContainsPrepend(prefix, listed, "\"" + k + "\"");
    }
  }

  /** What buildBacklog yields once the table exists: the targets keyed by the
      requested names, each with the work for its AIN, or the not-found error
      for the first name that does not resolve. */
  ghost predicate BacklogOutcome<W>(table: map<string, string>, names: seq<string>, workFactory: string -> W,
                                    r: Result<map<string, W>, string>)
  {
    var k := FirstUnresolved(table, names);
    if k < |names| then
      r.Failure? && NotFoundError(table, names[k], r.error)
    else
      && r.Success?
      && (forall n :: n in r.value <==> n in names)
      && (forall j :: 0 <= j < |names| ==> r.value[names[j]] == workFactory(table[names[j]]))
  }

  /** The loop state of buildBacklog after the first `i` names: all resolved,
      each a target with the work for its AIN, and no other targets. */
  ghost predicate BacklogSoFar<W>(table: map<string, string>, names: seq<string>, workFactory: string -> W,
                                  i: nat, targets: map<string, W>)
    requires i <= |names|
  {
    && (forall j :: 0 <= j < i ==> Resolves(table, names[j]))
    && (forall n :: n in targets <==> n in names[..i])
    && (forall j :: 0 <= j < i ==> targets[names[j]] == workFactory(table[names[j]]))
  }

  lemma BacklogStep<W>(table: map<string, string>, names: seq<string>, workFactory: string -> W,
                       i: nat, targets: map<string, W>)
    requires i < |names| && Resolves(table, names[i])
    requires BacklogSoFar(table, names, workFactory, i, targets)
    ensures BacklogSoFar(table, names, workFactory, i + 1, targets[names[i] := workFactory(table[names[i]])])
  {
    assert names[..i + 1] == names[..i] + [names[i]];
  }

  /** Stopping at the first name that does not resolve, with the keys of the
      table in some order, is the outcome buildBacklog promises. */
  lemma BacklogStopsAt<W>(table: map<string, string>, names: seq<string>, workFactory: string -> W,
                          i: nat, keys: seq<string>)
    requires i < |names| && !Resolves(table, names[i])
    requires forall j :: 0 <= j < i ==> Resolves(table, names[j])
    requires Enumerates(keys, table.Keys)
    ensures BacklogOutcome(table, names, workFactory, Failure(NotFoundMessage(names[i], keys)))
  {
    assert FirstUnresolved(table, names) == i;
  }

  /** Having gone through all names, the loop state is the outcome buildBacklog
      promises when all names resolve. */
  lemma BacklogCompletes<W>(table: map<string, string>, names: seq<string>, workFactory: string -> W,
                            targets: map<string, W>)
    requires BacklogSoFar(table, names, workFactory, |names|, targets)
    ensures BacklogOutcome(table, names, workFactory, Success(targets))
  {
    assert names[..|names|] == names;
    assert FirstUnresolved(table, names) == |names|;
  }

  /** buildBacklog, given what ListDevices returned. Looking the names up
      stops at the first one that is missing or has an empty AIN. */
  method BuildBacklog<W>(listing: Result<seq<Device>, string>, names: seq<string>, workFactory: string -> W)
    returns (r: Result<map<string, W>, string>)
    ensures listing.Failure? ==> r == Failure(listing.error)
    ensures listing.Success? ==> BacklogOutcome(Table(listing.value), names, workFactory, r)
  {
    var namesAndAins := NameToAinTable(listing);
    if namesAndAins.Failure? {
      return Failure(namesAndAins.error);
    }
    var table := namesAndAins.value;
    var targets: map<string, W> := map[];
    for i := 0 to |names|
      invariant BacklogSoFar(table, names, workFactory, i, targets)
    {
      var name := names[i];
      var ain := if name in table then table[name] else "";
      if ain == "" || name !in table {
        var keys := StringKeys(table);
        BacklogStopsAt(table, names, workFactory, i, keys);
        return Failure(NotFoundMessage(name, keys));
      }
      BacklogStep(table, names, workFactory, i, targets);
      targets := targets[name := workFactory(ain)];
    }
    BacklogCompletes(table, names, workFactory, targets);
    return Success(targets);
  }

  /** A backlog succeeds exactly when every requested name resolves. */
  lemma BacklogSucceedsIffAllResolve<W>(table: map<string, string>, names: seq<string>, workFactory: string -> W,
                                        r: Result<map<string, W>, string>)
    requires BacklogOutcome(table, names, workFactory, r)
    ensures r.Success? <==> forall j :: 0 <= j < |names| ==> Resolves(table, names[j])
    ensures r.Success? ==> |r.value| <= |names|
  {
    if r.Success? {
      var keys := set j | 0 <= j < |names| :: names[j];
      assert r.value.Keys == keys;
      CardinalityOfImage(names);
    }
  }

  lemma {:induction false} CardinalityOfImage(names: seq<string>)
    ensures |set j | 0 <= j < |names| :: names[j]| <= |names|
  {
    if |names| > 0 {
      var init := names[..|names| - 1];
      CardinalityOfImage(init);
      assert (set j | 0 <= j < |names| :: names[j]) == (set j | 0 <= j < |init| :: init[j]) + {names[|names| - 1]};
    }
  }

  // ---------------------------------------------------------------------
  // Outcome handlers and folding

  /** genericSuccessHandler: the message is kept and there is no error. */
  function GenericSuccessHandler(key: string, message: string): (r: TargetResult)
    ensures r.msg == message && r.err.None?
  {
    TargetResult(message, None)
  }

  /** genericErrorHandler: the message is kept and the error is wrapped with
      the device name, whatever the command was. */
  function GenericErrorHandler(key: string, message: string, err: string): (r: TargetResult)
    ensures r.msg == message
    ensures r.err == Some("error toggling device '" + key + "': " + err)
    ensures Contains(r.err.value, key) && Contains(r.err.value, err)
  {
    var head := "error toggling device '" + key;
    var tail := "': " + err;
    var wrapped := head + tail;
    ContainsEnd("error toggling device '", key);
    ContainsAppend(head, tail, key);
    ContainsEnd("': ", err);
    ContainsPrepend(head, tail, err);
    ConcatAssoc(head, "': ", err);
    TargetResult(message, Some(wrapped))
  }

  /** How scatterGather hands one reply to the handlers. */
  function Handle(key: string, reply: Reply): TargetResult
  {
    if reply.err.Some? then GenericErrorHandler(key, reply.msg, reply.err.value)
    else GenericSuccessHandler(key, reply.msg)
  }

  predicate AllSucceeded(results: seq<TargetResult>)
  {
    forall i :: 0 <= i < |results| ==> results[i].err.None?
  }

  /** The error messages of the failed results, in result order (the `errs`
      slice of truncateToOne passed through stringutils.ErrorMessages). */
  function FailureMessages(results: seq<TargetResult>): seq<string>
  {
    if |results| == 0 then []
    else (if results[0].err.Some? then [results[0].err.value] else []) + FailureMessages(results[1..])
  }

  /** Failure messages keep the order of the results they come from. */
  lemma {:induction false} FailureMessagesConcat(a: seq<TargetResult>, b: seq<TargetResult>)
    ensures FailureMessages(a + b) == FailureMessages(a) + FailureMessages(b)
  {
    if |a| == 0 {
      assert a + b == b;
    } else {
      var head := if a[0].err.Some? then [a[0].err.value] else [];
      assert (a + b)[0] == a[0];
      assert (a + b)[1..] == a[1..] + b;
      FailureMessagesConcat(a[1..], b);
      assert FailureMessages(a + b) == head + FailureMessages(a[1..] + b);
      assert FailureMessages(a) == head + FailureMessages(a[1..]);
    }
  }

  /** There are no failure messages exactly when every result succeeded, and
      each failed result's message is among them. */
  lemma {:induction false} FailureMessagesComplete(results: seq<TargetResult>)
    ensures |FailureMessages(results)| == 0 <==> AllSucceeded(results)
    ensures forall i :: 0 <= i < |results| && results[i].err.Some? ==>
              exists k :: 0 <= k < |FailureMessages(results)| && FailureMessages(results)[k] == results[i].err.value
  {
    if |results| > 0 {
      var rest := results[1..];
      FailureMessagesComplete(rest);
      var head := if results[0].err.Some? then [results[0].err.value] else [];
      assert FailureMessages(results) == head + FailureMessages(rest);
      forall i | 0 <= i < |results| && results[i].err.Some?
        ensures exists k :: 0 <= k < |FailureMessages(results)| && FailureMessages(results)[k] == results[i].err.value
      {
        if i == 0 {
          assert FailureMessages(results)[0] == results[i].err.value;
        } else {
          assert rest[i - 1] == results[i];
          var k :| 0 <= k < |FailureMessages(rest)| && FailureMessages(rest)[k] == rest[i - 1].err.value;
          assert FailureMessages(results)[|head| + k] == results[i].err.value;
        }
      }
      if AllSucceeded(rest) && results[0].err.None? {
        assert AllSucceeded(results);
      }
      if !AllSucceeded(rest) {
        var i :| 0 <= i < |rest| && rest[i].err.Some?;
        assert results[i + 1] == rest[i];
      }
    }
  }

  /** truncateToOne: no error when nothing failed, otherwise the failure
      messages joined by "; ". */
  method TruncateToOne(results: seq<TargetResult>) returns (err: Option<string>)
    ensures err.None? <==> AllSucceeded(results)
    ensures err.Some? ==> err.value == Join(FailureMessages(results), "; ")
  {
    var errs: seq<string> := [];
    for i := 0 to |results|
      invariant errs == FailureMessages(results[..i])
    {
      assert results[..i + 1] == results[..i] + [results[i]];
      FailureMessagesConcat(results[..i], [results[i]]);
      if results[i].err.Some? {
        errs := errs + [results[i].err.value];
      }
    }
    assert results[..|results|] == results;
    FailureMessagesComplete(results);
    if |errs| > 0 {
      return Some(Join(errs, "; "));
    }
    return None;
  }

  const NestedErrorsPrefix := "Not all devices could be processed! Nested errors are: "

  /** The verdict of genericResult on a batch of results. */
  function Aggregate(results: seq<TargetResult>): (e: Option<string>)
    ensures e.None? <==> AllSucceeded(results)
    ensures e.Some? ==> e.value == NestedErrorsPrefix + Join(FailureMessages(results), "; ")
  {
    FailureMessagesComplete(results);
    var errs := FailureMessages(results);
    if |errs| > 0 then Some(NestedErrorsPrefix + Join(errs, "; ")) else None
  }

  /** The combined error contains the message of every failed result. */
  lemma AggregateMentionsEachFailure(results: seq<TargetResult>, i: nat)
    requires i < |results| && results[i].err.Some?
    ensures Aggregate(results).Some?
    ensures Contains(Aggregate(results).value, results[i].err.value)
  {
    FailureMessagesComplete(results);
    var errs := FailureMessages(results);
    var k :| 0 <= k < |errs| && errs[k] == results[i].err.value;
    JoinContainsPart(errs, "; ", k);
    ContainsPrepend(NestedErrorsPrefix, Join(errs, "; "), results[i].err.value);
  }

  /** genericResult. */
  method GenericResult(results: seq<TargetResult>) returns (err: Option<string>)
    ensures err == Aggregate(results)
  {
    var truncated := TruncateToOne(results);
    if truncated.Some? {
      return Some(NestedErrorsPrefix + truncated.value);
    }
    return None;
  }

  // ---------------------------------------------------------------------
  // Dispatch

  /** The handled results of running the targets in `order`. */
  function Gather(targets: map<string, Work>, order: seq<string>): (results: seq<TargetResult>)
    requires forall i :: 0 <= i < |order| ==> order[i] in targets
  {
    seq(|order|, i requires 0 <= i < |order| => Handle(order[i], targets[order[i]]()))
  }

  /** scatterGather, sequentially: every target's work is run once and its
      reply handled; the order of the results is not fixed. */
  method ScatterGather(targets: map<string, Work>) returns (results: seq<TargetResult>, order: seq<string>)
    ensures Enumerates(order, targets.Keys)
    ensures results == Gather(targets, order)
  {
    order := StringKeys(targets);
    results := [];
    for i := 0 to |order|
      invariant results == Gather(targets, order[..i])
    {
      var key := order[i];
      var work := targets[key];
      var reply := work();
      results := results + [Handle(key, reply)];
    }
    assert order[..|order|] == order;
  }

  /** The targets buildBacklog builds when every name resolves. */
  ghost function Backlog(table: map<string, string>, names: seq<string>, workFactory: string -> Work): map<string, Work>
  {
    map n | n in names && n in table :: workFactory(table[n])
  }

  lemma ResolvedNamesInTable(table: map<string, string>, names: seq<string>)
    requires forall j :: 0 <= j < |names| ==> Resolves(table, names[j])
    ensures forall n :: n in names ==> n in table
  {
    forall n | n in names
      ensures n in table
    {
      var j :| 0 <= j < |names| && names[j] == n;
      assert Resolves(table, names[j]);
    }
  }

  /** What doConcurrently returns once the table exists: the not-found error
      with nothing executed, or every requested device executed once and the
      verdict of genericResult on their results. */
  ghost predicate DispatchOutcome(table: map<string, string>, names: seq<string>, workFactory: string -> Work,
                                  err: Option<string>, executed: seq<string>)
  {
    var k := FirstUnresolved(table, names);
    if k < |names| then
      executed == [] && err.Some? && NotFoundError(table, names[k], err.value)
    else
      ResolvedNamesInTable(table, names);
      && Enumerates(executed, set n | n in names)
      && err == Aggregate(Gather(Backlog(table, names, workFactory), executed))
  }

  /** doConcurrently, given what ListDevices returned; `executed` lists the
      devices whose work ran, in the order it ran. */
  method DoConcurrently(listing: Result<seq<Device>, string>, names: seq<string>, workFactory: string -> Work)
    returns (err: Option<string>, executed: seq<string>)
    ensures listing.Failure? ==> err == Some(listing.error) && executed == []
    ensures listing.Success? ==> DispatchOutcome(Table(listing.value), names, workFactory, err, executed)
  {
    var targets := BuildBacklog(listing, names, workFactory);
    if targets.Failure? {
      return Some(targets.error), [];
    }
    ghost var table := Table(listing.value);
    assert targets.value == Backlog(table, names, workFactory);
    var results;
    results, executed := ScatterGather(targets.value);
    err := GenericResult(results);
  }

  /** SwitchOn, SwitchOff, Toggle and Temperature: the device list is fetched,
      then doConcurrently runs the command's work factory over `names`. */
  method Dispatch(c: Client, cmd: Command, fetch: string -> Reply, decode: string -> Result<seq<Device>, string>,
                  names: seq<string>) returns (err: Option<string>, executed: seq<string>)
    ensures ListDevices(c, fetch, decode).Failure? ==>
              err == Some(ListDevices(c, fetch, decode).error) && executed == []
    ensures ListDevices(c, fetch, decode).Success? ==>
              DispatchOutcome(Table(ListDevices(c, fetch, decode).value), names, WorkFactory(c, cmd, fetch), err, executed)
  {
    var listing := ListDevices(c, fetch, decode);
    err, executed := DoConcurrently(listing, names, WorkFactory(c, cmd, fetch));
  }

  /** In a dispatch of `cmd`, the work queued for a requested device fetches
      the command URL for that device's own AIN. */
  lemma CommandTargetUsesOwnAin(c: Client, cmd: Command, fetch: string -> Reply, table: map<string, string>,
                                names: seq<string>, name: string)
    requires name in names && name in table
    ensures name in Backlog(table, names, WorkFactory(c, cmd, fetch))
    ensures Backlog(table, names, WorkFactory(c, cmd, fetch))[name]() == fetch(CommandUrl(c, cmd, table[name]))
  {
  }

  /** A device whose exchange failed is named, with its error, in the
      combined error of the batch. */
  lemma FailedDeviceIsReported(targets: map<string, Work>, order: seq<string>, i: nat)
    requires forall j :: 0 <= j < |order| ==> order[j] in targets
    requires i < |order| && targets[order[i]]().err.Some?
    ensures Aggregate(Gather(targets, order)).Some?
    ensures Contains(Aggregate(Gather(targets, order)).value, order[i])
    ensures Contains(Aggregate(Gather(targets, order)).value, targets[order[i]]().err.value)
  {
    var results := Gather(targets, order);
    var wrapped := results[i].err.value;
    AggregateMentionsEachFailure(results, i);
    ContainsTransitive(Aggregate(results).value, wrapped, order[i]);
    ContainsTransitive(Aggregate(results).value, wrapped, targets[order[i]]().err.value);
  }

  /** A batch yields no error exactly when every target's exchange succeeded. */
  lemma NoErrorIffAllExchangesSucceed(targets: map<string, Work>, order: seq<string>)
    requires forall j :: 0 <= j < |order| ==> order[j] in targets
    ensures Aggregate(Gather(targets, order)).None? <==>
              forall j :: 0 <= j < |order| ==> targets[order[j]]().err.None?
  {
    var results := Gather(targets, order);
    assert forall j :: 0 <= j < |order| ==> (results[j].err.None? <==> targets[order[j]]().err.None?);
  }

  /** An AIN written with a space loses it. */
  lemma AinExample()
    ensures RemoveSpaces("1 2") == "12"
  {
    assert "1 2"[1..] == " 2";
    assert " 2"[1..] == "2";
    assert "2"[1..] == "";
  }

  /** A directory of two plugs, one AIN written with a space: the table holds
      both AINs without spaces. */
  lemma LampAndPlugTable()
    ensures Table([Device("Lamp", "1 2"), Device("Plug", "34")]) == map["Lamp" := "12", "Plug" := "34"]
  {
    var devs := [Device("Lamp", "1 2"), Device("Plug", "34")];
    assert devs[..1] == [devs[0]];
    assert devs[..1][..0] == [];
    assert Table(devs[..1]) == Table([])["Lamp" := RemoveSpaces("1 2")];
    assert Table(devs) == Table(devs[..1])["Plug" := RemoveSpaces("34")];
    AinExample();
    RemoveSpacesWithout("34");
  }

  /** With that table, ["Lamp", "Plug"] all resolve, and in ["Lamp", "Fan"]
      the second name is the first that does not. */
  lemma LampAndPlugLookups()
    ensures var table := map["Lamp" := "12", "Plug" := "34"];
            && FirstUnresolved(table, ["Lamp", "Plug"]) == 2
            && FirstUnresolved(table, ["Lamp", "Fan"]) == 1
  {
    var table := map["Lamp" := "12", "Plug" := "34"];
    assert Resolves(table, "Lamp") && Resolves(table, "Plug") && !Resolves(table, "Fan");
  }

  /** Set-point examples: 21.3 and 21.25 degrees are both sent as 43
      half-degrees. */
  lemma TemperatureExamples()
    ensures TemperatureParam(21.3) == "43"
    ensures TemperatureParam(21.25) == "43"
  {
    assert RoundHalfAwayFromZero(2.0 * 21.3) == 43;
    assert RoundHalfAwayFromZero(2.0 * 21.25) == 43;
    assert NatDigits(43) == NatDigits(4) + [DigitChar(3)];
  }
}
