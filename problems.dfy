/**
 * ZabbixManager::Problems (lib/zabbix_manager/classes/problems.rb): the
 * get_full_data query with its defaults, `all`, and remove_problem, which
 * acknowledges every event fetched for a time window.
 */
module Problems {
  import opened Values
  import opened External
  import opened Remote
  import opened ZabbixClient
  import opened Descriptors
  import opened Protocol

  /** The optional filters, passed on as `data[k] || nil`. */
  const OptionalFilters: seq<string> := ["eventids", "groupids", "hostids", "objectids", "applicationids",
    "tags", "time_from", "time_till", "eventid_from", "eventid_till", "countOutput"]

  /** The keys get_full_data always sets besides the optional filters. */
  const FixedKeys: seq<string> := ["filter", "recent", "sortfield", "sortorder", "output",
    "selectAcknowledges", "selectTags", "selectSuppressionData"]

  lemma FixedKeysAreNotFilters()
    ensures forall k | k in FixedKeys :: k !in OptionalFilters
  {
  }

  /** The optional filters of the symbolized data. */
  function OptionalParams(m: Fields): (p: Fields)
    ensures forall k | k in OptionalFilters :: Sym(k) in p && p[Sym(k)] == OrElse(Get(m, Sym(k)), Nil)
    ensures forall k | k in p :: k.Sym? && k.name in OptionalFilters
  {
    map k | k in OptionalFilters :: Sym(k) := OrElse(Get(m, Sym(k)), Nil)
  }

  /** What get_full_data sends under fixed key k. */
  function FixedValue(m: Fields, k: string): Value {
    if k == "filter" then Hash(map[Sym("name") := Get(m, Sym("name"))])
    else if k == "recent" then OrElse(Get(m, Sym("recent")), Bool(false))
    else if k == "sortfield" then OrElse(Get(m, Sym("sortfield")), List([Text("eventid")]))
    else if k == "sortorder" then OrElse(Get(m, Sym("sortorder")), Text("DESC"))
    else Text("extend")
  }

  /** The keys get_full_data sets from its own defaults and constants, each with its value. */
  function FixedParams(m: Fields): (p: Fields)
    ensures forall k | k in p :: k.Sym? && k.name in FixedKeys
    ensures forall k | k in FixedKeys :: Sym(k) in p && p[Sym(k)] == FixedValue(m, k)
  {
    map k | k in FixedKeys :: Sym(k) := FixedValue(m, k)
  }

  /** The params of get_full_data over the symbolized data. */
  function FullDataParams(m: Fields): (p: Fields)
    ensures forall k | k in OptionalFilters :: Sym(k) in p && p[Sym(k)] == OrElse(Get(m, Sym(k)), Nil)
    ensures forall k | k in FixedParams(m) :: k in p && p[k] == FixedParams(m)[k]
  {
    var fixed := FixedParams(m);
    var optional := OptionalParams(m);
    FixedKeysAreNotFilters();
    fixed + optional
  }

  /** get_full_data: `problem.get` over the data with its keys symbolized. */
  function ProblemFullDataCall(ext: Externals, data: Fields): Result<Request> {
    var symbolized :- ext.symbolizeKeys(Hash(data));
    var name :- Index(symbolized, Sym("name"));
    Ok(Request("problem.get", Hash(FullDataParams(symbolized.entries))))
  }

  /**
   * A falsy recent, sortfield or sortorder gives recent false, the sort by
   * eventid and the descending order; a falsy optional filter is still
   * sent, as nil.
   */
  lemma {:induction false} ProblemDefaults(m: Fields)
    requires !Truthy(Get(m, Sym("recent"))) && !Truthy(Get(m, Sym("sortfield"))) && !Truthy(Get(m, Sym("sortorder")))
    ensures var p := FullDataParams(m);
      Sym("recent") in p && p[Sym("recent")] == Bool(false)
      && Sym("sortfield") in p && p[Sym("sortfield")] == List([Text("eventid")])
      && Sym("sortorder") in p && p[Sym("sortorder")] == Text("DESC")
    ensures forall k | k in OptionalFilters && !Truthy(Get(m, Sym(k))) ::
      Sym(k) in FullDataParams(m) && FullDataParams(m)[Sym(k)] == Nil
  {
    var f := FixedParams(m);
    assert FixedKeys[1] == "recent" && FixedKeys[2] == "sortfield" && FixedKeys[3] == "sortorder";
    assert f[Sym("recent")] == Bool(false);
    assert f[Sym("sortfield")] == List([Text("eventid")]);
    assert f[Sym("sortorder")] == Text("DESC");
  }

  /** The name filter and the four "extend" fields are sent whatever the data holds. */
  lemma {:induction false} ProblemFixedFields(m: Fields)
    ensures var p := FullDataParams(m);
      Sym("filter") in p && p[Sym("filter")] == Hash(map[Sym("name") := Get(m, Sym("name"))])
      && Sym("output") in p && p[Sym("output")] == Text("extend")
      && Sym("selectAcknowledges") in p && p[Sym("selectAcknowledges")] == Text("extend")
      && Sym("selectTags") in p && p[Sym("selectTags")] == Text("extend")
      && Sym("selectSuppressionData") in p && p[Sym("selectSuppressionData")] == Text("extend")
  {
    var f := FixedParams(m);
    assert FixedKeys[0] == "filter";
    assert f[Sym("filter")] == Hash(map[Sym("name") := Get(m, Sym("name"))]);
    ExtendKeyValue(m, 4);
    ExtendKeyValue(m, 5);
    ExtendKeyValue(m, 6);
    ExtendKeyValue(m, 7);
  }

  /** The fixed keys from "output" on are sent as "extend". */
  lemma ExtendKeyValue(m: Fields, i: nat)
    requires 4 <= i < |FixedKeys|
    ensures Sym(FixedKeys[i]) in FixedParams(m) && FixedParams(m)[Sym(FixedKeys[i])] == Text("extend")
  {
    var k := FixedKeys[i];
    assert k[0] == 'o' || (k[0] == 's' && k[1] == 'e');
    assert FixedValue(m, k) == Text("extend");
  }

  // ---------------------------------------------------------------------
  // remove_problem

  const AckMessage := "由 RUBY SCRIPT 自动关闭"

  /** ack_event: close the events (action 2) with the fixed message. */
  function AckCall(eventids: Value): Request {
    Request("event.acknowledge", Hash(map[
      Sym("eventids") := eventids,
      Sym("action") := Int(2),
      Sym("message") := Text(AckMessage)]))
  }

  /** The events `data.each { |item| event_ids << item["eventid"] }` collects from record i on. */
  function EventIdsFrom(records: seq<Value>, i: nat, acc: seq<Value>): Result<seq<Value>>
    requires i <= |records|
    decreases |records| - i
  {
    if i == |records| then Ok(acc)
    else
      var id :- Index(records[i], Str("eventid"));
      EventIdsFrom(records, i + 1, acc + [id])
  }

  lemma {:induction false} EventIdsFromRecords(records: seq<Value>, i: nat, acc: seq<Value>)
    requires i <= |records| && Records(records)
    ensures EventIdsFrom(records, i, acc)
         == Ok(acc + seq(|records| - i, j requires 0 <= j < |records| - i => Get(records[i + j].entries, Str("eventid"))))
    decreases |records| - i
  {
    var rest := seq(|records| - i, j requires 0 <= j < |records| - i => Get(records[i + j].entries, Str("eventid")));
    if i == |records| {
      assert acc + rest == acc;
    } else {
      var id := Get(records[i].entries, Str("eventid"));
      EventIdsFromRecords(records, i + 1, acc + [id]);
      var tail := seq(|records| - (i + 1), j requires 0 <= j < |records| - (i + 1) => Get(records[i + 1 + j].entries, Str("eventid")));
      assert rest == [id] + tail;
      assert acc + [id] + tail == acc + rest;
    }
  }

  /** The events of the answer: the loop over its records. */
  function EventIdsOf(result: Value): Result<seq<Value>> {
    var records :- Elements(result);
    EventIdsFrom(records, 0, [])
  }

  method CollectEventIds(records: seq<Value>) returns (r: Result<seq<Value>>)
    ensures r == EventIdsFrom(records, 0, [])
  {
    var eventIds: seq<Value> := [];
    var i := 0;
    while i < |records|
      invariant i <= |records|
      invariant EventIdsFrom(records, i, eventIds) == EventIdsFrom(records, 0, [])
    {
      var id := Index(records[i], Str("eventid"));
      if id.Err? {
        return Err(id.error);
      }
      eventIds := eventIds + [id.value];
      i := i + 1;
    }
    r := Ok(eventIds);
  }

  /** The window remove_problem fetches: `time_from` and `time_till` as epoch seconds. */
  function WindowQuery(timeFrom: int, timeTill: int): Fields {
    map[Sym("time_from") := Int(timeFrom), Sym("time_till") := Int(timeTill)]
  }

  /** remove_problem: the problems of the window, then one acknowledgement of all their events. */
  function RemoveProblemRun(ext: Externals, timeFrom: int, timeTill: int, xs: seq<Exchange>): Option<Result<Value>> {
    match ProblemFullDataCall(ext, WindowQuery(timeFrom, timeTill))
    case Err(e) => if xs == [] then Some(Err(e)) else None
    case Ok(call) =>
      if |xs| == 0 || !Sends(xs[0], call) then None
      else match Outcome(xs[0])
        case Err(e) => if |xs| == 1 then Some(Err(e)) else None
        case Ok(result) =>
          match EventIdsOf(result)
          case Err(e) => if |xs| == 1 then Some(Err(e)) else None
          case Ok(ids) =>
            if |xs| == 2 && Sends(xs[1], AckCall(List(ids))) then Some(Outcome(xs[1])) else None
  }

  /**
   * remove_problem acknowledges exactly the events it fetched, in the
   * order fetched, with action 2, and answers the acknowledgement's result.
   */
  lemma {:induction false} AcknowledgesFetchedEvents(ext: Externals, timeFrom: int, timeTill: int,
                                                     xs: seq<Exchange>, r: Result<Value>, records: seq<Value>)
    requires RemoveProblemRun(ext, timeFrom, timeTill, xs) == Some(r)
    requires |xs| >= 1 && Outcome(xs[0]) == Ok(List(records)) && Records(records)
    ensures |xs| == 2 && r == Outcome(xs[1])
    ensures Sends(xs[1], AckCall(List(seq(|records|, j requires 0 <= j < |records| =>
      Get(records[j].entries, Str("eventid"))))))
  {
    EventIdsOfRecords(records);
    RemoveProblemAcks(ext, timeFrom, timeTill, xs, r, List(records));
  }

  /** Over hash records, the events of the answer are the records' "eventid"s, in order. */
  lemma EventIdsOfRecords(records: seq<Value>)
    requires Records(records)
    ensures EventIdsOf(List(records)) == Ok(seq(|records|, j requires 0 <= j < |records| =>
      Get(records[j].entries, Str("eventid"))))
  {
    EventIdsFromRecords(records, 0, []);
    var ids := seq(|records|, j requires 0 <= j < |records| => Get(records[j].entries, Str("eventid")));
    assert [] + ids == ids;
    assert seq(|records| - 0, j requires 0 <= j < |records| - 0 => Get(records[0 + j].entries, Str("eventid"))) == ids;
  }

  /** When the fetched events are known, remove_problem's second and last call acknowledges them. */
  lemma {:induction false} RemoveProblemAcks(ext: Externals, timeFrom: int, timeTill: int,
                                             xs: seq<Exchange>, r: Result<Value>, result: Value)
    requires RemoveProblemRun(ext, timeFrom, timeTill, xs) == Some(r)
    requires |xs| >= 1 && Outcome(xs[0]) == Ok(result) && EventIdsOf(result).Ok?
    ensures |xs| == 2 && r == Outcome(xs[1])
    ensures Sends(xs[1], AckCall(List(EventIdsOf(result).value)))
  {
  }

  class Problems {
    const base: Basic

    constructor(client: Client, ext: Externals)
      ensures base.kind == Problem && base.client == client && base.ext == ext
    {
      base := new Basic(Problem, client, ext);
    }

    method GetFullData(data: Fields) returns (r: Result<Value>)
      modifies base.client.server
      ensures Extends(old(base.client.server.log), base.client.server.log)
      ensures CallRun(ProblemFullDataCall(base.ext, data), base.client.server.Since(old(|base.client.server.log|))) == Some(r)
    {
      r := base.Call(ProblemFullDataCall(base.ext, data));
    }

    /** all: get_full_data of the empty hash. */
    method All() returns (r: Result<Value>)
      modifies base.client.server
      ensures Extends(old(base.client.server.log), base.client.server.log)
      ensures CallRun(ProblemFullDataCall(base.ext, map[]), base.client.server.Since(old(|base.client.server.log|))) == Some(r)
    {
      r := GetFullData(map[]);
    }

    method AckEvent(eventids: Value) returns (r: Result<Value>)
      modifies base.client.server
      ensures Extends(old(base.client.server.log), base.client.server.log)
      ensures CallRun(Ok(AckCall(eventids)), base.client.server.Since(old(|base.client.server.log|))) == Some(r)
    {
      r := base.Call(Ok(AckCall(eventids)));
    }

    /** remove_problem, with the window's ends given as epoch seconds. */
    method RemoveProblem(timeFrom: int, timeTill: int) returns (r: Result<Value>)
      modifies base.client.server
      ensures Extends(old(base.client.server.log), base.client.server.log)
      ensures RemoveProblemRun(base.ext, timeFrom, timeTill, base.client.server.Since(old(|base.client.server.log|))) == Some(r)
    {
      ghost var n := |base.client.server.log|;
      var call := ProblemFullDataCall(base.ext, WindowQuery(timeFrom, timeTill));
      var data := GetFullData(WindowQuery(timeFrom, timeTill));
      ghost var log1 := base.client.server.log;
      if data.Err? {
        return data;
      }
      var records := Elements(data.value);
      if records.Err? {
        return Err(records.error);
      }
      var eventIds := CollectEventIds(records.value);
      if eventIds.Err? {
        return Err(eventIds.error);
      }
      r := AckEvent(List(eventIds.value));
      ExchangesSplit(log1, base.client.server.log, base.client.server.answer, n);
      assert base.client.server.Since(n)[1] == base.client.server.Since(|log1|)[0];
    }
  }
}
