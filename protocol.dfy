/**
 * The CRUD protocol every resource class inherits from ZabbixManager::Basic
 * (lib/zabbix_manager/basic/basic_logic.rb): create, delete, update,
 * create_or_update, get_id, get_or_create, dump_by_id, get_full_data, all
 * and the raw variants.
 *
 * Each operation has a run function: given the exchanges the operation
 * made with the server, it answers the operation's result, or None when
 * those exchanges are not what the operation posts. The methods of class
 * Basic are proved to make exactly such a run, and the lemmas state the
 * protocol's rules about runs.
 */
module Protocol {
  import opened Values
  import opened External
  import opened Remote
  import opened ZabbixClient
  import opened Descriptors
  import opened Extend

  /** The result of an operation that also changes the caller's hash in place, and that hash after it. */
  datatype Mutated = Mutated(result: Result<Value>, data: Fields)

  // ---------------------------------------------------------------------
  // Single calls

  /** `result.empty? ? nil : result[0][field]`, the reading of the first-record getters. */
  function FirstField(answer: Result<Value>, field: string): Result<Value> {
    var result :- answer;
    var empty :- IsEmpty(result);
    if empty then Ok(Nil)
    else
      var first :- First(result);
      Index(first, Str(field))
  }

  /** For a list of hashes: nil when it is empty, else the first record's field. */
  lemma FirstFieldOfRecords(records: seq<Value>, field: string)
    requires Records(records)
    ensures FirstField(Ok(List(records)), field)
         == Ok(if records == [] then Nil else Get(records[0].entries, Str(field)))
  {
  }

  /** The element create sends: the caller's data, merged into the defaults when there are any. */
  function CreateParams(k: Kind, ext: Externals, data: Fields): Result<Value> {
    if DefaultOptions(k) == map[] then Ok(Hash(data))
    else ext.mergeParams(Hash(DefaultOptions(k)), Hash(data))
  }

  /** create: `<prefix>.create` with a one-element array. */
  function CreateCall(k: Kind, ext: Externals, data: Fields): Result<Request> {
    var element :- CreateParams(k, ext, data);
    var prefix :- MethodName(k);
    Ok(Request(prefix + ".create", List([element])))
  }

  function CreateRun(k: Kind, ext: Externals, data: Fields, xs: seq<Exchange>): Option<Result<Value>> {
    AndThen(CallRun(CreateCall(k, ext, data), xs), ext.parseKeys)
  }

  /** delete: `<prefix>.delete` with the caller's data as the one element. */
  function DeleteCall(k: Kind, data: Fields): Result<Request> {
    var prefix :- MethodName(k);
    Ok(Request(prefix + ".delete", List([Hash(data)])))
  }

  function DeleteRun(k: Kind, ext: Externals, data: Fields, xs: seq<Exchange>): Option<Result<Value>> {
    AndThen(CallRun(DeleteCall(k, data), xs), ext.parseKeys)
  }

  /** get_raw, create_raw, update_raw, delete_raw: `<prefix>.<action>` with data as it is. */
  function RawCall(k: Kind, action: string, data: Value): Result<Request> {
    var prefix :- MethodName(k);
    Ok(Request(prefix + "." + action, data))
  }

  /** get_full_data: the objects whose identify field equals the data's. */
  function FullDataCall(k: Kind, data: Fields): Result<Request> {
    var prefix :- MethodName(k);
    // identify raises for the same classes as method_name, which came first
    var ident := Identify(k).value;
    Ok(Request(prefix + ".get", Hash(map[
      Sym("filter") := Hash(map[Sym(ident) := Get(data, Sym(ident))]),
      Sym("output") := Text("extend")])))
  }

  /** create and delete send the caller's data as the single element of the params array. */
  lemma OneElementParams(k: Kind, ext: Externals, data: Fields)
    requires k != Bare
    ensures DeleteCall(k, data) == Ok(Request(Prefix(k) + ".delete", List([Hash(data)])))
    ensures DefaultOptions(k) == map[] ==>
      CreateCall(k, ext, data) == Ok(Request(Prefix(k) + ".create", List([Hash(data)])))
    ensures DefaultOptions(k) != map[] ==>
      (CreateCall(k, ext, data).Ok? <==> ext.mergeParams(Hash(DefaultOptions(k)), Hash(data)).Ok?)
  {
  }

  /** The raw variants pass the data through unwrapped. */
  lemma RawPassesThrough(k: Kind, action: string, data: Value)
    requires k != Bare
    ensures RawCall(k, action, data) == Ok(Request(Prefix(k) + "." + action, data))
  {
  }

  /** A create or a delete is one exchange whose outcome parse_keys turns into the result. */
  lemma {:induction false} CreateRunIsOneCall(k: Kind, ext: Externals, data: Fields, xs: seq<Exchange>, r: Result<Value>)
    requires CreateRun(k, ext, data, xs) == Some(r)
    ensures CreateCall(k, ext, data).Err? ==> xs == [] && r == Err(CreateCall(k, ext, data).error)
    ensures CreateCall(k, ext, data).Ok? ==>
      |xs| == 1 && Sends(xs[0], CreateCall(k, ext, data).value)
      && r == (if Outcome(xs[0]).Ok? then ext.parseKeys(Outcome(xs[0]).value) else Err(Outcome(xs[0]).error))
  {
    var o := CallRun(CreateCall(k, ext, data), xs);
    assert o.Some?;
  }

  // ---------------------------------------------------------------------
  // The loops over fetched records

  /** `item[key].to_i` */
  function IdAt(record: Value, key: string): Result<int> {
    var v :- Index(record, Str(key));
    ToI(v)
  }

  /** What a loop looks for in a record: its identify field holding a name, or its key holding an id. */
  datatype Selector = Naming(identify: string, name: Value) | KeyedTo(key: string, id: int)

  predicate Selects(s: Selector, record: Value) {
    match s
    case Naming(identify, name) => Index(record, Str(identify)) == Ok(name)
    case KeyedTo(key, id) => IdAt(record, key) == Ok(id)
  }

  /** The position of the last record from i on that the selector picks. */
  function LastWhere(records: seq<Value>, i: nat, s: Selector): (j: Option<nat>)
    requires i <= |records|
    decreases |records| - i
    ensures j.Some? ==> i <= j.value < |records| && Selects(s, records[j.value])
    ensures j.Some? ==> forall m | j.value < m < |records| :: !Selects(s, records[m])
    ensures j.None? ==> forall m | i <= m < |records| :: !Selects(s, records[m])
  {
    if i == |records| then None
    else match LastWhere(records, i + 1, s)
      case Some(j) => Some(j)
      case None => if Selects(s, records[i]) then Some(i) else None
  }

  /**
   * The loop of get_id from record i on, `id` holding the id found so far:
   * a record whose identify field equals the name sets the id to its key's
   * `to_i`.
   */
  function MatchFrom(records: seq<Value>, i: nat, identify: string, key: string, name: Value, id: Option<int>)
    : Result<Option<int>>
    requires i <= |records|
    decreases |records| - i
  {
    if i == |records| then Ok(id)
    else
      var v :- Index(records[i], Str(identify));
      if v == name then
        var n :- IdAt(records[i], key);
        MatchFrom(records, i + 1, identify, key, name, Some(n))
      else MatchFrom(records, i + 1, identify, key, name, id)
  }

  /** get_id's loop finds the key of the last record that names the object, and nil if none does. */
  lemma {:induction false} MatchFromLast(records: seq<Value>, i: nat, identify: string, key: string, name: Value, id: Option<int>)
    requires i <= |records| && Records(records)
    requires forall m | i <= m < |records| :: Selects(Naming(identify, name), records[m]) ==> IdAt(records[m], key).Ok?
    ensures var j := LastWhere(records, i, Naming(identify, name));
      MatchFrom(records, i, identify, key, name, id)
      == Ok(if j.Some? then Some(IdAt(records[j.value], key).value) else id)
    decreases |records| - i
  {
    if i < |records| {
      var next := if Selects(Naming(identify, name), records[i]) then Some(IdAt(records[i], key).value) else id;
      MatchFromLast(records, i + 1, identify, key, name, next);
    }
  }

  method MatchId(records: seq<Value>, identify: string, key: string, name: Value) returns (r: Result<Option<int>>)
    ensures r == MatchFrom(records, 0, identify, key, name, None)
  {
    var id: Option<int> := None;
    var i := 0;
    while i < |records|
      invariant i <= |records|
      invariant MatchFrom(records, i, identify, key, name, id) == MatchFrom(records, 0, identify, key, name, None)
    {
      var v := Index(records[i], Str(identify));
      if v.Err? {
        return Err(v.error);
      }
      if v.value == name {
        var n := IdAt(records[i], key);
        if n.Err? {
          return Err(n.error);
        }
        id := Some(n.value);
      }
      i := i + 1;
    }
    return Ok(id);
  }

  /**
   * The loop of update from record i on, `dump` holding the record found
   * so far: a record whose key's `to_i` equals the target's `to_i` becomes
   * the dump, its keys symbolized.
   */
  function DumpFrom(records: seq<Value>, i: nat, ext: Externals, key: string, target: Value, dump: Value): Result<Value>
    requires i <= |records|
    decreases |records| - i
  {
    if i == |records| then Ok(dump)
    else
      var have :- IdAt(records[i], key);
      var want :- ToI(target);
      if have == want then
        var d :- ext.symbolizeKeys(records[i]);
        DumpFrom(records, i + 1, ext, key, target, d)
      else DumpFrom(records, i + 1, ext, key, target, dump)
  }

  /** update's loop keeps the last record whose key matches, or the empty hash if none does. */
  lemma {:induction false} DumpFromLast(records: seq<Value>, i: nat, ext: Externals, key: string, id: int, target: Value, dump: Value)
    requires i <= |records| && ToI(target) == Ok(id)
    requires forall m | i <= m < |records| :: IdAt(records[m], key).Ok?
    requires forall m | i <= m < |records| :: Selects(KeyedTo(key, id), records[m]) ==> ext.symbolizeKeys(records[m]).Ok?
    ensures var j := LastWhere(records, i, KeyedTo(key, id));
      DumpFrom(records, i, ext, key, target, dump)
      == (if j.Some? then ext.symbolizeKeys(records[j.value]) else Ok(dump))
    decreases |records| - i
  {
    if i < |records| {
      var next := if Selects(KeyedTo(key, id), records[i]) then ext.symbolizeKeys(records[i]).value else dump;
      DumpFromLast(records, i + 1, ext, key, id, target, next);
    }
  }

  method FindDump(records: seq<Value>, ext: Externals, key: string, target: Value) returns (r: Result<Value>)
    ensures r == DumpFrom(records, 0, ext, key, target, Hash(map[]))
  {
    var dump := Hash(map[]);
    var i := 0;
    while i < |records|
      invariant i <= |records|
      invariant DumpFrom(records, i, ext, key, target, dump) == DumpFrom(records, 0, ext, key, target, Hash(map[]))
    {
      var have := IdAt(records[i], key);
      if have.Err? {
        return Err(have.error);
      }
      var want := ToI(target);
      if want.Err? {
        return Err(want.error);
      }
      if have.value == want.value {
        var d := ext.symbolizeKeys(records[i]);
        if d.Err? {
          return Err(d.error);
        }
        dump := d.value;
      }
      i := i + 1;
    }
    return Ok(dump);
  }

  /** The loop of all from record i on: each record maps its identify value to its key value. */
  function AllFrom(records: seq<Value>, i: nat, identify: string, key: string, acc: map<Value, Value>)
    : Result<map<Value, Value>>
    requires i <= |records|
    decreases |records| - i
  {
    if i == |records| then Ok(acc)
    else
      var name :- Index(records[i], Str(identify));
      var id :- Index(records[i], Str(key));
      AllFrom(records, i + 1, identify, key, acc[name := id])
  }

  /**
   * all's table holds a name exactly when some record carries it, and then
   * the key of the last record that does: a later record overwrites an
   * earlier one.
   */
  lemma {:induction false} AllFromAt(records: seq<Value>, i: nat, identify: string, key: string, acc: map<Value, Value>, name: Value)
    requires i <= |records| && Records(records)
    ensures AllFrom(records, i, identify, key, acc).Ok?
    ensures var t := AllFrom(records, i, identify, key, acc).value;
      var j := LastWhere(records, i, Naming(identify, name));
      (name in t <==> name in acc || j.Some?)
      && (j.Some? ==> t[name] == Get(records[j.value].entries, Str(key)))
      && (j.None? && name in acc ==> t[name] == acc[name])
    decreases |records| - i
  {
    if i < |records| {
      var r := records[i];
      AllFromAt(records, i + 1, identify, key, acc[Get(r.entries, Str(identify)) := Get(r.entries, Str(key))], name);
    }
  }

  method CollectAll(records: seq<Value>, identify: string, key: string) returns (r: Result<map<Value, Value>>)
    ensures r == AllFrom(records, 0, identify, key, map[])
  {
    var table: map<Value, Value> := map[];
    var i := 0;
    while i < |records|
      invariant i <= |records|
      invariant AllFrom(records, i, identify, key, table) == AllFrom(records, 0, identify, key, map[])
    {
      var name := Index(records[i], Str(identify));
      if name.Err? {
        return Err(name.error);
      }
      var id := Index(records[i], Str(key));
      if id.Err? {
        return Err(id.error);
      }
      table := table[name.value := id.value];
      i := i + 1;
    }
    return Ok(table);
  }

  // ---------------------------------------------------------------------
  // get_id

  /** What get_id asks for and what its loop then looks for. */
  datatype Lookup = Lookup(request: Request, identify: string, key: string, name: Value)

  /**
   * get_id's request: the data, its keys symbolized when it holds the
   * identify field under a String key, is the filter. A missing or nil
   * name raises before any call.
   */
  function GetIdCall(k: Kind, ext: Externals, data: Fields): (r: Result<Lookup>)
    ensures r.Ok? ==> k != Bare && r.value.name != Nil
    ensures r.Ok? ==> r.value.identify == Identify(k).value && r.value.key == KeyName(k).value
    ensures r.Ok? ==> r.value.request.name == Prefix(k) + ".get"
  {
    var ident :- Identify(k);
    var query :- if Str(ident) in data then ext.symbolizeKeys(Hash(data)) else Ok(Hash(data));
    var name :- Index(query, Sym(ident));
    if name == Nil then Err(ManagerError(ident + " not supplied in call to get_id"))
    else
      var key := KeyName(k).value;
      var prefix := MethodName(k).value;
      Ok(Lookup(Request(prefix + ".get", Hash(map[
        Sym("filter") := query,
        Sym("output") := List([Text(key), Text(ident)])])), ident, key, name))
  }

  /**
   * A query whose keys are all Symbols, as the per-class get_or_create
   * and create_or_update build it, is sent as it is; a nil name raises.
   */
  lemma SymbolQueryLookup(k: Kind, ext: Externals, query: Fields)
    requires k != Bare && Str(Identify(k).value) !in query
    ensures var ident := Identify(k).value;
      var key := KeyName(k).value;
      GetIdCall(k, ext, query)
        == if Get(query, Sym(ident)) == Nil then Err(ManagerError(ident + " not supplied in call to get_id"))
           else Ok(Lookup(Request(Prefix(k) + ".get", Hash(map[
                  Sym("filter") := Hash(query),
                  Sym("output") := List([Text(key), Text(ident)])])), ident, key, Get(query, Sym(ident))))
  {
  }

  /** A query that names nothing under a Symbol key, and has no String key for it, raises before any call. */
  lemma NameMissing(k: Kind, ext: Externals, query: Fields)
    requires k != Bare && Str(Identify(k).value) !in query && Get(query, Sym(Identify(k).value)) == Nil
    ensures GetIdCall(k, ext, query) == Err(ManagerError(Identify(k).value + " not supplied in call to get_id"))
  {
  }

  /** get_id's result for the lookup's answer. */
  function IdOfAnswer(l: Lookup, answer: Result<Value>): Result<Option<int>> {
    var result :- answer;
    var records :- Elements(result);
    MatchFrom(records, 0, l.identify, l.key, l.name, None)
  }

  /** The number of exchanges get_id makes: none when it raises first, else one. */
  function GetIdCalls(k: Kind, ext: Externals, data: Fields): nat {
    if GetIdCall(k, ext, data).Ok? then 1 else 0
  }

  function GetIdRun(k: Kind, ext: Externals, data: Fields, xs: seq<Exchange>): (o: Option<Result<Option<int>>>)
    ensures o.Some? ==> |xs| == GetIdCalls(k, ext, data)
    ensures o.Some? && o.value.Ok? ==> GetIdCall(k, ext, data).Ok?
    ensures GetIdCall(k, ext, data).Err? ==>
      (o.Some? <==> xs == []) && (o.Some? ==> o.value == Err(GetIdCall(k, ext, data).error))
  {
    match GetIdCall(k, ext, data)
    case Err(e) => if xs == [] then Some(Err(e)) else None
    case Ok(l) =>
      if |xs| == 1 && Sends(xs[0], l.request) then Some(IdOfAnswer(l, Outcome(xs[0]))) else None
  }

  /** get_id raises ManagerError, without calling the server, when the name is not supplied. */
  lemma NameRequired(k: Kind, ext: Externals, data: Fields, xs: seq<Exchange>, r: Result<Option<int>>)
    requires k != Bare && Str(Identify(k).value) !in data && Get(data, Sym(Identify(k).value)) == Nil
    requires GetIdRun(k, ext, data, xs) == Some(r)
    ensures xs == [] && r == Err(ManagerError(Identify(k).value + " not supplied in call to get_id"))
  {
  }

  /**
   * When the server answers a list of hashes, get_id answers the key of
   * the last record whose identify field equals the name, and nil exactly
   * when no record does.
   */
  lemma {:induction false} GetIdFindsLast(k: Kind, ext: Externals, data: Fields, xs: seq<Exchange>, r: Result<Option<int>>, records: seq<Value>)
    requires GetIdRun(k, ext, data, xs) == Some(r) && GetIdCall(k, ext, data).Ok?
    requires Outcome(xs[0]) == Ok(List(records)) && Records(records)
    requires var l := GetIdCall(k, ext, data).value;
      forall m | 0 <= m < |records| :: Selects(Naming(l.identify, l.name), records[m]) ==> IdAt(records[m], l.key).Ok?
    ensures var l := GetIdCall(k, ext, data).value;
      var j := LastWhere(records, 0, Naming(l.identify, l.name));
      r == Ok(if j.Some? then Some(IdAt(records[j.value], l.key).value) else None)
    ensures var l := GetIdCall(k, ext, data).value;
      r == Ok(None) <==> forall m | 0 <= m < |records| :: Get(records[m].entries, Str(l.identify)) != l.name
  {
    var l := GetIdCall(k, ext, data).value;
    MatchFromLast(records, 0, l.identify, l.key, l.name, None);
    var j := LastWhere(records, 0, Naming(l.identify, l.name));
    if j.Some? {
      assert Get(records[j.value].entries, Str(l.identify)) == l.name;
    }
  }

  // ---------------------------------------------------------------------
  // update

  /** The dump_by_id update makes: the data's own key and its value. */
  function UpdateDumpCall(k: Kind, data: Fields): Result<Request> {
    var key :- KeyName(k);
    DumpByIdRequest(k, map[Sym(key) := Get(data, Sym(key))])
  }

  function UpdateCall(k: Kind, data: Fields): Result<Request> {
    var prefix :- MethodName(k);
    Ok(Request(prefix + ".update", List([Hash(data)])))
  }

  /** The dump update compares the data with, for the dump_by_id answer. */
  function DumpOfAnswer(ext: Externals, key: string, data: Fields, answer: Result<Value>): Result<Value> {
    var result :- answer;
    var records :- Elements(result);
    DumpFrom(records, 0, ext, key, Get(data, Sym(key)), Hash(map[]))
  }

  /** Whether update skips the write: hash_equals?(dump, data), evaluated always, and not forced. */
  function SkipUpdate(ext: Externals, key: string, data: Fields, force: bool, answer: Result<Value>): Result<bool> {
    var dump :- DumpOfAnswer(ext, key, data, answer);
    var equal :- ext.hashEquals(dump, Hash(data));
    Ok(equal && !force)
  }

  /** `data[key.to_sym].to_i`, the result of a skipped update. */
  function KeptId(key: string, data: Fields): Result<Value> {
    var id :- ToI(Get(data, Sym(key)));
    Ok(Int(id))
  }

  /** What update does once the dump call was answered with `answer`: `ys` are the later exchanges. */
  function UpdateTail(k: Kind, ext: Externals, data: Fields, force: bool, answer: Result<Value>, ys: seq<Exchange>): Option<Result<Value>>
    requires KeyName(k).Ok?
  {
    match SkipUpdate(ext, KeyName(k).value, data, force, answer)
    case Err(e) => if ys == [] then Some(Err(e)) else None
    case Ok(true) => if ys == [] then Some(KeptId(KeyName(k).value, data)) else None
    case Ok(false) => AndThen(CallRun(UpdateCall(k, data), ys), ext.parseKeys)
  }

  function UpdateRun(k: Kind, ext: Externals, data: Fields, force: bool, xs: seq<Exchange>): Option<Result<Value>> {
    match UpdateDumpCall(k, data)
    case Err(e) => if xs == [] then Some(Err(e)) else None
    case Ok(dump) =>
      if |xs| == 0 || !Sends(xs[0], dump) then None
      else UpdateTail(k, ext, data, force, Outcome(xs[0]), xs[1..])
  }

  /**
   * An update makes at most one `<prefix>.update` call, second after the
   * dump, and it sends the data as the one element of the params array.
   */
  lemma {:induction false} UpdateWritesAtMostOnce(k: Kind, ext: Externals, data: Fields, force: bool, xs: seq<Exchange>, r: Result<Value>)
    requires k != Bare && UpdateRun(k, ext, data, force, xs) == Some(r)
    ensures |xs| <= 2
    ensures forall i | 0 <= i < |xs| :: Calls(xs[i], Prefix(k) + ".update") ==>
      i == 1 && Sends(xs[1], Request(Prefix(k) + ".update", List([Hash(data)])))
  {
    DumpNotUpdate(k, data);
    if |xs| == 2 {
      assert xs[1..] == [xs[1]];
    }
  }

  /** The dump is fetched with `.get`, never with `.update`. */
  lemma {:induction false} DumpNotUpdate(k: Kind, data: Fields)
    requires k != Bare
    ensures UpdateDumpCall(k, data).Ok?
    ensures UpdateDumpCall(k, data).value.name == Prefix(k) + ".get"
    ensures UpdateDumpCall(k, data).value.name != Prefix(k) + ".update"
  {
    var p := Prefix(k);
    assert (p + ".get")[|p| + 1] == 'g';
    assert (p + ".update")[|p| + 1] == 'u';
  }

  /**
   * Unforced, when the dump equals the data, update calls nothing but the
   * dump and answers `data[key].to_i`.
   */
  lemma {:induction false} UpdateSkipsEqual(k: Kind, ext: Externals, data: Fields, xs: seq<Exchange>, r: Result<Value>, dump: Value)
    requires k != Bare && UpdateRun(k, ext, data, false, xs) == Some(r)
    requires DumpOfAnswer(ext, KeyName(k).value, data, Outcome(xs[0])) == Ok(dump)
    requires ext.hashEquals(dump, Hash(data)) == Ok(true)
    ensures |xs| == 1 && r == KeptId(KeyName(k).value, data)
    ensures !Calls(xs[0], Prefix(k) + ".update")
  {
    DumpNotUpdate(k, data);
  }

  /** Forced, update writes once, however the comparison comes out. */
  lemma {:induction false} ForcedUpdateWrites(k: Kind, ext: Externals, data: Fields, xs: seq<Exchange>, r: Result<Value>, dump: Value)
    requires k != Bare && UpdateRun(k, ext, data, true, xs) == Some(r)
    requires DumpOfAnswer(ext, KeyName(k).value, data, Outcome(xs[0])) == Ok(dump)
    requires ext.hashEquals(dump, Hash(data)).Ok?
    ensures |xs| == 2 && Sends(xs[1], Request(Prefix(k) + ".update", List([Hash(data)])))
    ensures r == (if Outcome(xs[1]).Ok? then ext.parseKeys(Outcome(xs[1]).value) else Err(Outcome(xs[1]).error))
  {
    DumpNotUpdate(k, data);
    assert xs[1..] == [xs[1]];
  }

  /**
   * The dump update compares against is the last fetched record whose key
   * matches the data's, and the empty hash when none does.
   */
  lemma {:induction false} DumpIsLastMatch(ext: Externals, key: string, data: Fields, records: seq<Value>, id: int)
    requires ToI(Get(data, Sym(key))) == Ok(id)
    requires forall m | 0 <= m < |records| :: IdAt(records[m], key).Ok? && ext.symbolizeKeys(records[m]).Ok?
    ensures var j := LastWhere(records, 0, KeyedTo(key, id));
      DumpOfAnswer(ext, key, data, Ok(List(records)))
      == (if j.Some? then ext.symbolizeKeys(records[j.value]) else Ok(Hash(map[])))
  {
    DumpFromLast(records, 0, ext, key, id, Get(data, Sym(key)), Hash(map[]));
  }

  // ---------------------------------------------------------------------
  // get_or_create and create_or_update

  /** `{identify.to_sym => data[identify.to_sym]}`: the look-up by name alone. */
  function ByIdentify(ident: string, data: Fields): Fields {
    map[Sym(ident) := Get(data, Sym(ident))]
  }

  /** get_or_create with look-up `query`: the id found, else create's result. */
  function GetOrCreateFrom(k: Kind, ext: Externals, query: Fields, data: Fields, xs: seq<Exchange>): Option<Result<Value>> {
    var c := GetIdCalls(k, ext, query);
    if |xs| < c then None
    else match GetIdRun(k, ext, query, xs[..c])
      case None => None
      case Some(Err(e)) => if |xs| == c then Some(Err(e)) else None
      case Some(Ok(Some(id))) => if |xs| == c then Some(Ok(Int(id))) else None
      case Some(Ok(None)) => CreateRun(k, ext, data, xs[c..])
  }

  function GetOrCreateRun(k: Kind, ext: Externals, data: Fields, xs: seq<Exchange>): Option<Result<Value>> {
    match Identify(k)
    case Err(e) => if xs == [] then Some(Err(e)) else None
    case Ok(ident) => GetOrCreateFrom(k, ext, ByIdentify(ident, data), data, xs)
  }

  /**
   * get_or_create issues `<prefix>.create` only as its second call, after
   * a look-up that found nothing; when the look-up finds an id it answers
   * that id and makes no other call.
   */
  lemma {:induction false} CreatesOnlyWhenAbsent(k: Kind, ext: Externals, query: Fields, data: Fields, xs: seq<Exchange>, r: Result<Value>)
    requires k != Bare && GetOrCreateFrom(k, ext, query, data, xs) == Some(r)
    ensures |xs| <= 2
    ensures forall i | 0 <= i < |xs| :: Calls(xs[i], Prefix(k) + ".create") ==>
      i == 1 && GetIdRun(k, ext, query, xs[..1]) == Some(Ok(None))
    ensures forall id :: GetIdRun(k, ext, query, xs[..GetIdCalls(k, ext, query)]) == Some(Ok(Some(id))) ==>
      |xs| == 1 && r == Ok(Int(id))
  {
    var c := GetIdCalls(k, ext, query);
    if c == 1 {
      var l := GetIdCall(k, ext, query).value;
      assert Sends(xs[0], l.request);
      LookupNotCreate(k, l.request.name);
      if |xs| == 2 {
        assert xs[1..] == [xs[1]];
      }
    }
  }

  lemma {:induction false} LookupNotCreate(k: Kind, name: string)
    requires k != Bare && name == Prefix(k) + ".get"
    ensures name != Prefix(k) + ".create"
  {
    var p := Prefix(k);
    assert (p + ".get")[|p| + 1] == 'g';
    assert (p + ".create")[|p| + 1] == 'c';
  }

  /**
   * When the look-up's answer holds a record naming the object, get_or_create
   * answers that record's id (the last such record's) and creates nothing.
   */
  lemma {:induction false} FoundIsNotCreated(k: Kind, ext: Externals, query: Fields, data: Fields, xs: seq<Exchange>, r: Result<Value>, records: seq<Value>)
    requires k != Bare && GetOrCreateFrom(k, ext, query, data, xs) == Some(r)
    requires GetIdCall(k, ext, query).Ok? && |xs| >= 1
    requires Outcome(xs[0]) == Ok(List(records)) && Records(records)
    requires forall m | 0 <= m < |records| :: IdAt(records[m], KeyName(k).value).Ok?
    requires exists m | 0 <= m < |records| :: Selects(Naming(Identify(k).value, GetIdCall(k, ext, query).value.name), records[m])
    ensures |xs| == 1 && r.Ok? && r.value.Int?
    ensures var l := GetIdCall(k, ext, query).value;
      var j := LastWhere(records, 0, Naming(l.identify, l.name));
      j.Some? && r == Ok(Int(IdAt(records[j.value], l.key).value))
  {
    var l := GetIdCall(k, ext, query).value;
    assert xs[..1][0] == xs[0];
    var o := GetIdRun(k, ext, query, xs[..1]);
    assert o.Some?;
    GetIdFindsLast(k, ext, query, xs[..1], o.value, records);
    var m :| 0 <= m < |records| && Selects(Naming(l.identify, l.name), records[m]);
    assert Get(records[m].entries, Str(l.identify)) == l.name;
  }

  /** The id merged into the data of a create_or_update that found it: Basic merges `id.to_s`. */
  function MergedId(id: int, asText: bool): Value {
    if asText then Text(IntToS(id)) else Int(id)
  }

  /** create_or_update with look-up `query`: update with the id merged when found, else create. */
  function CreateOrUpdateFrom(k: Kind, ext: Externals, query: Fields, data: Fields, asText: bool, xs: seq<Exchange>)
    : Option<Result<Value>>
  {
    var c := GetIdCalls(k, ext, query);
    if |xs| < c then None
    else match GetIdRun(k, ext, query, xs[..c])
      case None => None
      case Some(Err(e)) => if |xs| == c then Some(Err(e)) else None
      case Some(Ok(Some(id))) =>
        UpdateRun(k, ext, data[Sym(KeyName(k).value) := MergedId(id, asText)], false, xs[c..])
      case Some(Ok(None)) => CreateRun(k, ext, data, xs[c..])
  }

  function CreateOrUpdateRun(k: Kind, ext: Externals, data: Fields, xs: seq<Exchange>): Option<Result<Value>> {
    match Identify(k)
    case Err(e) => if xs == [] then Some(Err(e)) else None
    case Ok(ident) => CreateOrUpdateFrom(k, ext, ByIdentify(ident, data), data, true, xs)
  }

  /**
   * A create_or_update that finds the object updates it with the id
   * merged, and when that update is skipped it answers the found id:
   * `id.to_s.to_i == id`.
   */
  lemma {:induction false} FoundIsUpdated(k: Kind, ext: Externals, query: Fields, data: Fields, asText: bool, xs: seq<Exchange>, r: Result<Value>, id: int)
    requires k != Bare && CreateOrUpdateFrom(k, ext, query, data, asText, xs) == Some(r)
    requires GetIdCall(k, ext, query).Ok? && |xs| >= 1
    requires GetIdRun(k, ext, query, xs[..1]) == Some(Ok(Some(id)))
    ensures 2 <= |xs| <= 3
    ensures UpdateRun(k, ext, data[Sym(KeyName(k).value) := MergedId(id, asText)], false, xs[1..]) == Some(r)
    ensures |xs| == 2 && r.Ok? ==> r == Ok(Int(id))
    ensures |xs| == 3 ==>
      Sends(xs[2], Request(Prefix(k) + ".update", List([Hash(data[Sym(KeyName(k).value) := MergedId(id, asText)])])))
  {
    var ys := xs[1..];
    UpdateOfFound(k, ext, data, asText, ys, r, id);
    if |ys| == 2 {
      assert ys[1] == xs[2];
    }
  }

  /** The update of a found object, with its id merged: at most one write, and the found id when skipped. */
  lemma {:induction false} UpdateOfFound(k: Kind, ext: Externals, data: Fields, asText: bool, ys: seq<Exchange>, r: Result<Value>, id: int)
    requires k != Bare && UpdateRun(k, ext, data[Sym(KeyName(k).value) := MergedId(id, asText)], false, ys) == Some(r)
    ensures 1 <= |ys| <= 2
    ensures |ys| == 1 && r.Ok? ==> r == Ok(Int(id))
    ensures |ys| == 2 ==>
      Sends(ys[1], Request(Prefix(k) + ".update", List([Hash(data[Sym(KeyName(k).value) := MergedId(id, asText)])])))
  {
    var key := KeyName(k).value;
    var merged := data[Sym(key) := MergedId(id, asText)];
    UpdateRunShape(k, ext, merged, false, ys, r);
    if |ys| == 1 && r.Ok? {
      StrToIOfIntToS(id);
      assert Get(merged, Sym(key)) == MergedId(id, asText);
    }
  }

  /** An update is the dump alone, answering the kept id when it succeeds, or the dump and then the write. */
  lemma {:induction false} UpdateRunShape(k: Kind, ext: Externals, data: Fields, force: bool, xs: seq<Exchange>, r: Result<Value>)
    requires k != Bare && UpdateRun(k, ext, data, force, xs) == Some(r)
    ensures 1 <= |xs| <= 2
    ensures |xs| == 1 && r.Ok? ==> r == KeptId(KeyName(k).value, data)
    ensures |xs| == 2 ==> Sends(xs[1], Request(Prefix(k) + ".update", List([Hash(data)])))
  {
    DumpNotUpdate(k, data);
    assert UpdateCall(k, data) == Ok(Request(Prefix(k) + ".update", List([Hash(data)])));
    if |xs| == 2 {
      assert xs[1..] == [xs[1]];
    }
  }

  /** When the look-up finds nothing, create_or_update creates with the caller's data. */
  lemma {:induction false} AbsentIsCreated(k: Kind, ext: Externals, query: Fields, data: Fields, asText: bool, xs: seq<Exchange>, r: Result<Value>)
    requires CreateOrUpdateFrom(k, ext, query, data, asText, xs) == Some(r)
    requires GetIdCall(k, ext, query).Ok? && |xs| >= 1
    requires GetIdRun(k, ext, query, xs[..1]) == Some(Ok(None))
    ensures CreateRun(k, ext, data, xs[1..]) == Some(r)
  {
  }

  // ---------------------------------------------------------------------
  // all

  function AllCall(k: Kind): Result<Request> {
    var prefix :- MethodName(k);
    Ok(Request(prefix + ".get", Hash(map[Sym("output") := Text("extend")])))
  }

  function AllOfAnswer(k: Kind, answer: Result<Value>): Result<map<Value, Value>>
    requires k != Bare
  {
    var result :- answer;
    var records :- Elements(result);
    AllFrom(records, 0, Identify(k).value, KeyName(k).value, map[])
  }

  function AllRun(k: Kind, xs: seq<Exchange>): Option<Result<map<Value, Value>>> {
    match AllCall(k)
    case Err(e) => if xs == [] then Some(Err(e)) else None
    case Ok(req) => if |xs| == 1 && Sends(xs[0], req) then Some(AllOfAnswer(k, Outcome(xs[0]))) else None
  }

  /**
   * all maps every fetched name to the key of the last record carrying it,
   * and holds no other name.
   */
  lemma {:induction false} AllMapsNamesToKeys(k: Kind, xs: seq<Exchange>, t: map<Value, Value>, records: seq<Value>, name: Value)
    requires k != Bare && AllRun(k, xs) == Some(Ok(t))
    requires Outcome(xs[0]) == Ok(List(records)) && Records(records)
    ensures var j := LastWhere(records, 0, Naming(Identify(k).value, name));
      (name in t <==> j.Some?)
      && (j.Some? ==> t[name] == Get(records[j.value].entries, Str(KeyName(k).value)))
  {
    AllFromAt(records, 0, Identify(k).value, KeyName(k).value, map[], name);
  }

  // ---------------------------------------------------------------------
  // The Basic object

  class Basic {
    const kind: Kind
    const client: Client
    const ext: Externals

    /** Basic.new(client): the client is the only state. */
    constructor(kind: Kind, client: Client, ext: Externals)
      ensures this.kind == kind && this.client == client && this.ext == ext
    {
      this.kind := kind;
      this.client := client;
      this.ext := ext;
    }

    /** One api_request for `call`, or the error that kept it from being built. */
    method Call(call: Result<Request>) returns (r: Result<Value>)
      modifies client.server
      ensures Extends(old(client.server.log), client.server.log)
      ensures CallRun(call, client.server.Since(old(|client.server.log|))) == Some(r)
    {
      if call.Err? {
        assert client.server.Since(old(|client.server.log|)) == [];
        return Err(call.error);
      }
      r := client.ApiRequest(call.value.name, call.value.params);
    }

    /** A call whose result goes through parse_keys. */
    method CallParsed(call: Result<Request>) returns (r: Result<Value>)
      modifies client.server
      ensures Extends(old(client.server.log), client.server.log)
      ensures AndThen(CallRun(call, client.server.Since(old(|client.server.log|))), ext.parseKeys) == Some(r)
    {
      r := Call(call);
      if r.Ok? {
        r := ext.parseKeys(r.value);
      }
    }

    method Create(data: Fields) returns (r: Result<Value>)
      modifies client.server
      ensures Extends(old(client.server.log), client.server.log)
      ensures CreateRun(kind, ext, data, client.server.Since(old(|client.server.log|))) == Some(r)
    {
      r := CallParsed(CreateCall(kind, ext, data));
    }

    method Delete(data: Fields) returns (r: Result<Value>)
      modifies client.server
      ensures Extends(old(client.server.log), client.server.log)
      ensures DeleteRun(kind, ext, data, client.server.Since(old(|client.server.log|))) == Some(r)
    {
      r := CallParsed(DeleteCall(kind, data));
    }

    /** get_raw, create_raw, update_raw and delete_raw, by action. */
    method Raw(action: string, data: Value) returns (r: Result<Value>)
      modifies client.server
      ensures Extends(old(client.server.log), client.server.log)
      ensures CallRun(RawCall(kind, action, data), client.server.Since(old(|client.server.log|))) == Some(r)
    {
      r := Call(RawCall(kind, action, data));
    }

    /** mojo_update: any method, the data as params. */
    method MojoUpdate(rpc: string, data: Value) returns (r: Result<Value>)
      modifies client.server
      ensures Extends(old(client.server.log), client.server.log)
      ensures CallRun(Ok(Request(rpc, data)), client.server.Since(old(|client.server.log|))) == Some(r)
    {
      r := Call(Ok(Request(rpc, data)));
    }

    method GetFullData(data: Fields) returns (r: Result<Value>)
      modifies client.server
      ensures Extends(old(client.server.log), client.server.log)
      ensures CallRun(FullDataCall(kind, data), client.server.Since(old(|client.server.log|))) == Some(r)
    {
      r := Call(FullDataCall(kind, data));
    }

    method DumpById(data: Fields) returns (r: Result<Value>)
      modifies client.server
      ensures Extends(old(client.server.log), client.server.log)
      ensures CallRun(DumpByIdRequest(kind, data), client.server.Since(old(|client.server.log|))) == Some(r)
    {
      r := Call(DumpByIdRequest(kind, data));
    }

    method All() returns (r: Result<map<Value, Value>>)
      modifies client.server
      ensures Extends(old(client.server.log), client.server.log)
      ensures AllRun(kind, client.server.Since(old(|client.server.log|))) == Some(r)
    {
      var call := AllCall(kind);
      var result := Call(call);
      if call.Err? {
        return Err(call.error);
      }
      if result.Err? {
        return Err(result.error);
      }
      var records := Elements(result.value);
      if records.Err? {
        return Err(records.error);
      }
      r := CollectAll(records.value, Identify(kind).value, KeyName(kind).value);
    }

    method GetId(data: Fields) returns (r: Result<Option<int>>)
      modifies client.server
      ensures Extends(old(client.server.log), client.server.log)
      ensures GetIdRun(kind, ext, data, client.server.Since(old(|client.server.log|))) == Some(r)
    {
      var call := GetIdCall(kind, ext, data);
      if call.Err? {
        assert client.server.Since(old(|client.server.log|)) == [];
        return Err(call.error);
      }
      var l := call.value;
      var result := client.ApiRequest(l.request.name, l.request.params);
      if result.Err? {
        return Err(result.error);
      }
      var records := Elements(result.value);
      if records.Err? {
        return Err(records.error);
      }
      r := MatchId(records.value, l.identify, l.key, l.name);
    }

    /** The rest of update once the dump call was answered: find the dump, compare, maybe write. */
    method UpdateFromAnswer(data: Fields, force: bool, answer: Result<Value>) returns (r: Result<Value>)
      requires KeyName(kind).Ok?
      modifies client.server
      ensures Extends(old(client.server.log), client.server.log)
      ensures UpdateTail(kind, ext, data, force, answer, client.server.Since(old(|client.server.log|))) == Some(r)
    {
      var key := KeyName(kind).value;
      var dump: Result<Value> := Err(NoMethodError);
      if answer.Err? {
        dump := Err(answer.error);
      } else {
        var records := Elements(answer.value);
        if records.Err? {
          dump := Err(records.error);
        } else {
          dump := FindDump(records.value, ext, key, Get(data, Sym(key)));
        }
      }
      assert dump == DumpOfAnswer(ext, key, data, answer);
      assert client.server.Since(|client.server.log|) == [];
      if dump.Err? {
        return Err(dump.error);
      }
      var equal := ext.hashEquals(dump.value, Hash(data));
      if equal.Err? {
        return Err(equal.error);
      }
      if equal.value && !force {
        return KeptId(key, data);
      }
      r := CallParsed(UpdateCall(kind, data));
    }

    method Update(data: Fields, force: bool) returns (r: Result<Value>)
      modifies client.server
      ensures Extends(old(client.server.log), client.server.log)
      ensures UpdateRun(kind, ext, data, force, client.server.Since(old(|client.server.log|))) == Some(r)
    {
      ghost var n := |client.server.log|;
      var call := UpdateDumpCall(kind, data);
      if call.Err? {
        assert client.server.Since(n) == [];
        return Err(call.error);
      }
      var result := client.ApiRequest(call.value.name, call.value.params);
      ghost var log1 := client.server.log;
      ghost var x := client.server.Since(n)[0];
      r := UpdateFromAnswer(data, force, result);
      ExchangesSplit(log1, client.server.log, client.server.answer, n);
      assert client.server.Since(n)[1..] == client.server.Since(|log1|);
    }

    /** get_or_create and the per-class variants: look up by `query`, create when absent. */
    method GetOrCreateBy(query: Fields, data: Fields) returns (r: Result<Value>)
      modifies client.server
      ensures Extends(old(client.server.log), client.server.log)
      ensures GetOrCreateFrom(kind, ext, query, data, client.server.Since(old(|client.server.log|))) == Some(r)
    {
      ghost var n := |client.server.log|;
      var id := GetId(query);
      ghost var log1 := client.server.log;
      ghost var ys := client.server.Since(n);
      assert ys[..|ys|] == ys;
      if id.Err? {
        return Err(id.error);
      }
      if id.value.Some? {
        return Ok(Int(id.value.value));
      }
      r := Create(data);
      ExchangesSplit(log1, client.server.log, client.server.answer, n);
      assert client.server.Since(n)[..|ys|] == ys;
      assert client.server.Since(n)[|ys|..] == client.server.Since(|log1|);
    }

    method GetOrCreate(data: Fields) returns (r: Result<Value>)
      modifies client.server
      ensures Extends(old(client.server.log), client.server.log)
      ensures GetOrCreateRun(kind, ext, data, client.server.Since(old(|client.server.log|))) == Some(r)
    {
      var ident := Identify(kind);
      if ident.Err? {
        assert client.server.Since(old(|client.server.log|)) == [];
        return Err(ident.error);
      }
      r := GetOrCreateBy(ByIdentify(ident.value, data), data);
    }

    /** create_or_update and the per-class variants: look up by `query`, then update or create. */
    method CreateOrUpdateBy(query: Fields, data: Fields, asText: bool) returns (r: Result<Value>)
      modifies client.server
      ensures Extends(old(client.server.log), client.server.log)
      ensures CreateOrUpdateFrom(kind, ext, query, data, asText, client.server.Since(old(|client.server.log|))) == Some(r)
    {
      ghost var n := |client.server.log|;
      var id := GetId(query);
      ghost var log1 := client.server.log;
      ghost var ys := client.server.Since(n);
      assert ys[..|ys|] == ys;
      if id.Err? {
        return Err(id.error);
      }
      if id.value.Some? {
        var key := KeyName(kind).value;
        r := Update(data[Sym(key) := MergedId(id.value.value, asText)], false);
      } else {
        r := Create(data);
      }
      ExchangesSplit(log1, client.server.log, client.server.answer, n);
      assert client.server.Since(n)[..|ys|] == ys;
      assert client.server.Since(n)[|ys|..] == client.server.Since(|log1|);
    }

    method CreateOrUpdate(data: Fields) returns (r: Result<Value>)
      modifies client.server
      ensures Extends(old(client.server.log), client.server.log)
      ensures CreateOrUpdateRun(kind, ext, data, client.server.Since(old(|client.server.log|))) == Some(r)
    {
      var ident := Identify(kind);
      if ident.Err? {
        assert client.server.Since(old(|client.server.log|)) == [];
        return Err(ident.error);
      }
      r := CreateOrUpdateBy(ByIdentify(ident.value, data), data, true);
    }

    /** get_hostgroup_ids: the group ids of the names in `[data].flatten`, always from `hostgroup.get`. */
    method GetHostgroupIds(data: Value) returns (r: Result<Value>)
      modifies client.server
      ensures Extends(old(client.server.log), client.server.log)
      ensures HostgroupIdsRun(data, client.server.Since(old(|client.server.log|))) == Some(r)
    {
      var call := HostgroupIdsCall(data);
      var result := client.ApiRequest(call.name, call.params);
      r := GroupIdsOf(result);
    }

    /** One iteration of get_or_create_hostgroups; its errors are rescued. */
    method HostgroupStep(item: Value)
      modifies client.server
      ensures Extends(old(client.server.log), client.server.log)
      ensures ItemStep(item, client.server.Since(old(|client.server.log|)))
    {
      ghost var n := |client.server.log|;
      var ids := GetHostgroupIds(item);
      ghost var log1 := client.server.log;
      if ids == Ok(Nil) {
        var call := HostgroupCreate(item);
        var created := client.ApiRequest(call.name, call.params);
        ExchangesSplit(log1, client.server.log, client.server.answer, n);
      }
    }

    /**
     * get_or_create_hostgroups: every name of `[data].flatten` in turn,
     * created when its look-up answers nil; it never raises and answers
     * the flattened list.
     */
    method GetOrCreateHostgroups(data: Value) returns (r: Value)
      modifies client.server
      ensures Extends(old(client.server.log), client.server.log)
      ensures r == List(Flatten(data))
      ensures HostgroupsRun(Flatten(data), client.server.Since(old(|client.server.log|)))
    {
      var items := Flatten(data);
      EachHostgroup(items);
      r := List(items);
    }

    /** The loop of get_or_create_hostgroups: one iteration per name, in order. */
    method EachHostgroup(items: seq<Value>)
      modifies client.server
      ensures Extends(old(client.server.log), client.server.log)
      ensures HostgroupsRun(items, client.server.Since(old(|client.server.log|)))
    {
      ghost var n := |client.server.log|;
      var i := 0;
      while i < |items|
        invariant i <= |items|
        invariant Extends(old(client.server.log), client.server.log) && n == old(|client.server.log|)
        invariant HostgroupsRun(items[..i], client.server.Since(n))
      {
        ghost var log1 := client.server.log;
        ghost var before := client.server.Since(n);
        HostgroupStep(items[i]);
        ExchangesSplit(log1, client.server.log, client.server.answer, n);
        HostgroupsRunStep(items[..i], before, items[i], client.server.Since(|log1|));
        assert items[..i + 1] == items[..i] + [items[i]];
        i := i + 1;
      }
      assert items[..|items|] == items;
    }
  }
}
