/**
 * ZabbixManager::Triggers (lib/zabbix_manager/classes/triggers.rb):
 * safe_update, which compares a trigger with its stored version after
 * normalising both expressions and, when they differ, disables the old
 * trigger and creates a new one; the look-ups by (description, hostid);
 * and the create_trigger / update_trigger request builders.
 */
module Triggers {
  import opened Values
  import opened External
  import opened Remote
  import opened ZabbixClient
  import opened Descriptors
  import opened Protocol

  // ---------------------------------------------------------------------
  // The stored expression: `gsub(/\{(\d*)\}/, "{#{expression}}")`

  /** The position of the `}` that closes a run of digits starting at j. */
  function BraceAfterDigits(s: string, j: nat): (m: Option<nat>)
    requires j <= |s|
    decreases |s| - j
    ensures m.Some? ==> j <= m.value < |s| && s[m.value] == '}'
    ensures m.Some? ==> forall k | j <= k < m.value :: IsDigit(s[k])
  {
    if j == |s| then None
    else if s[j] == '}' then Some(j)
    else if IsDigit(s[j]) then BraceAfterDigits(s, j + 1)
    else None
  }

  /** Every `{digits}` from position i on replaced by `{e}`, scanning left to right. */
  function ReplaceFrom(s: string, i: nat, e: string): string
    requires i <= |s|
    decreases |s| - i
  {
    if i == |s| then ""
    else if s[i] == '{' && BraceAfterDigits(s, i + 1).Some? then
      "{" + e + "}" + ReplaceFrom(s, BraceAfterDigits(s, i + 1).value + 1, e)
    else [s[i]] + ReplaceFrom(s, i + 1, e)
  }

  function ReplacePlaceholders(s: string, e: string): string {
    ReplaceFrom(s, 0, e)
  }

  lemma {:induction false} NoBraceUnchanged(s: string, i: nat, e: string)
    requires i <= |s| && forall k | i <= k < |s| :: s[k] != '{'
    ensures ReplaceFrom(s, i, e) == s[i..]
    decreases |s| - i
  {
    if i < |s| {
      NoBraceUnchanged(s, i + 1, e);
      assert s[i..] == [s[i]] + s[i + 1..];
    }
  }

  lemma {:induction false} DigitsReachBrace(s: string, j: nat, m: nat)
    requires j <= m < |s| && s[m] == '}' && forall k | j <= k < m :: IsDigit(s[k])
    ensures BraceAfterDigits(s, j) == Some(m)
    decreases m - j
  {
    if j < m {
      DigitsReachBrace(s, j + 1, m);
    }
  }

  /** A stored `{id}` reference followed by text without braces becomes `{e}`. */
  lemma {:induction false} PlaceholderReplaced(ds: string, rest: string, e: string)
    requires forall k | 0 <= k < |ds| :: IsDigit(ds[k])
    requires forall k | 0 <= k < |rest| :: rest[k] != '{'
    ensures ReplacePlaceholders("{" + ds + "}" + rest, e) == "{" + e + "}" + rest
  {
    var s := "{" + ds + "}" + rest;
    DigitsReachBrace(s, 1, |ds| + 1);
    NoBraceUnchanged(s, |ds| + 2, e);
    assert s[|ds| + 2..] == rest;
  }

  // ---------------------------------------------------------------------
  // The submitted expression: `gsub(/\{.*:/, "{")`

  /** The last `:` from position j on before the end of the line; `.` does not match a newline. */
  function LastColon(s: string, j: nat): (m: Option<nat>)
    requires j <= |s|
    decreases |s| - j
    ensures m.Some? ==> j <= m.value < |s| && s[m.value] == ':'
  {
    if j == |s| || s[j] == '\n' then None
    else match LastColon(s, j + 1)
      case Some(m) => Some(m)
      case None => if s[j] == ':' then Some(j) else None
  }

  /** Every `{` from position i on that a `:` follows on its line, with all text up to the last such `:`, replaced by `{`. */
  function StripFrom(s: string, i: nat): string
    requires i <= |s|
    decreases |s| - i
  {
    if i == |s| then ""
    else if s[i] == '{' && LastColon(s, i + 1).Some? then "{" + StripFrom(s, LastColon(s, i + 1).value + 1)
    else [s[i]] + StripFrom(s, i + 1)
  }

  function StripHostPrefix(s: string): string {
    StripFrom(s, 0)
  }

  lemma {:induction false} NoColonNone(s: string, j: nat)
    requires j <= |s| && forall k | j <= k < |s| :: s[k] != ':'
    ensures LastColon(s, j) == None
    decreases |s| - j
  {
    if j < |s| && s[j] != '\n' {
      NoColonNone(s, j + 1);
    }
  }

  lemma {:induction false} NoColonUnchanged(s: string, i: nat)
    requires i <= |s| && forall k | i <= k < |s| :: s[k] != ':'
    ensures StripFrom(s, i) == s[i..]
    decreases |s| - i
  {
    if i < |s| {
      NoColonNone(s, i + 1);
      NoColonUnchanged(s, i + 1);
      assert s[i..] == [s[i]] + s[i + 1..];
    }
  }

  lemma {:induction false} LastColonAt(s: string, j: nat, m: nat)
    requires j <= m < |s| && s[m] == ':'
    requires forall k | j <= k < m :: s[k] != '\n'
    requires forall k | m < k < |s| :: s[k] != ':'
    ensures LastColon(s, j) == Some(m)
    decreases m - j
  {
    if j < m {
      LastColonAt(s, j + 1, m);
    } else {
      NoColonNone(s, m + 1);
    }
  }

  /**
   * The match is greedy: from the first `{` of a line it takes everything
   * up to the last `:` of that line, so of `{A:x}>=1 or {B:y}>=2` only
   * `{y}>=2` remains.
   */
  lemma {:induction false} StripIsGreedy(pre: string, b: string)
    requires forall k | 0 <= k < |pre| :: pre[k] != '\n'
    requires forall k | 0 <= k < |b| :: b[k] != ':'
    ensures StripHostPrefix("{" + pre + ":" + b) == "{" + b
  {
    var s := "{" + pre + ":" + b;
    LastColonAt(s, 1, |pre| + 1);
    NoColonUnchanged(s, |pre| + 2);
    assert s[|pre| + 2..] == b;
  }

  /**
   * For a trigger over a single item function that has not changed, the
   * two normalisations agree: the stored `{id}rest` with the reference
   * rebuilt from the first item and function, and the submitted
   * `{host:reference}rest` with its host prefix stripped, are both
   * `{reference}rest`.
   */
  lemma {:induction false} UnchangedExpressionsAgree(ds: string, host: string, reference: string, rest: string)
    requires forall k | 0 <= k < |ds| :: IsDigit(ds[k])
    requires forall k | 0 <= k < |host| :: host[k] != '\n'
    requires forall k | 0 <= k < |reference| :: reference[k] != ':'
    requires forall k | 0 <= k < |rest| :: rest[k] != ':' && rest[k] != '{'
    ensures ReplacePlaceholders("{" + ds + "}" + rest, reference)
         == StripHostPrefix("{" + host + ":" + reference + "}" + rest)
  {
    PlaceholderReplaced(ds, rest, reference);
    var b := reference + "}" + rest;
    forall k | 0 <= k < |b|
      ensures b[k] != ':'
    {
      if k < |reference| {
        assert b[k] == reference[k];
      } else if k > |reference| {
        assert b[k] == rest[k - |reference| - 1];
      }
    }
    StripIsGreedy(host, b);
    assert "{" + host + ":" + reference + "}" + rest == "{" + host + ":" + b;
    assert "{" + reference + "}" + rest == "{" + b;
  }

  // ---------------------------------------------------------------------
  // safe_update

  const TriggerKey := "triggerid"

  /** `"#{items[0][:key_]}.#{functions[0][:function]}(#{functions[0][:parameter]})"` of a dump. */
  function ItemExpression(ext: Externals, dump: Value): (r: Result<string>)
    ensures r.Ok? ==> dump.Hash?
  {
    var items :- Index(dump, Sym("items"));
    var item :- First(items);
    var itemKey :- Index(item, Sym("key_"));
    var functions :- Index(dump, Sym("functions"));
    var function0 :- First(functions);
    var name :- Index(function0, Sym("function"));
    var parameter :- Index(function0, Sym("parameter"));
    Ok(ToS(ext, itemKey) + "." + ToS(ext, name) + "(" + ToS(ext, parameter) + ")")
  }

  /** The stored trigger as safe_update compares it: placeholders expanded, items and functions removed. */
  function NormaliseDump(ext: Externals, dump: Value): (r: Result<Value>)
    ensures r.Ok? ==> r.value.Hash? && Sym("items") !in r.value.entries && Sym("functions") !in r.value.entries
  {
    var e :- ItemExpression(ext, dump);
    var stored := Get(dump.entries, Sym("expression"));
    if !stored.Text? then Err(NoMethodError)
    else Ok(Hash(dump.entries[Sym("expression") := Text(ReplacePlaceholders(stored.s, e))]
                 - {Sym("functions"), Sym("items")}))
  }

  /** The caller's data as safe_update compares it: host prefixes stripped, templateid removed. */
  function StripData(data: Fields): (r: Result<Fields>)
    ensures r.Ok? <==> Get(data, Sym("expression")).Text?
    ensures r.Ok? ==> Sym("templateid") !in r.value
  {
    var e := Get(data, Sym("expression"));
    if !e.Text? then Err(NoMethodError)
    else Ok(data[Sym("expression") := Text(StripHostPrefix(e.s))] - {Sym("templateid")})
  }

  /** safe_update's dump_by_id: only `triggerid` is passed, so the `triggerids` filter is nil. */
  function SafeDumpCall(data: Fields): Request {
    DumpByIdRequest(Trigger, map[Sym(TriggerKey) := Get(data, Sym(TriggerKey))]).value
  }

  /** The disable: `trigger.update` of the old trigger with status "1". */
  function DisableCall(data: Fields): Request {
    Request("trigger.update", List([Hash(map[
      Sym("triggerid") := Get(data, Sym(TriggerKey)),
      Sym("status") := Text("1")])]))
  }

  /** The stored trigger, normalised, for the dump_by_id answer. */
  function StoredTrigger(ext: Externals, data: Fields, answer: Result<Value>): Result<Value> {
    var dump :- DumpOfAnswer(ext, TriggerKey, data, answer);
    NormaliseDump(ext, dump)
  }

  /**
   * The exchanges of safe_update: `triggerid.to_i` first, which raises
   * before any call; then the dump_by_id; then, after the comparison, the
   * migration when the trigger changed.
   */
  function SafeUpdateRun(ext: Externals, data: Fields, xs: seq<Exchange>): Option<Mutated> {
    match ToI(Get(data, Sym(TriggerKey)))
    case Err(e) => if xs == [] then Some(Mutated(Err(e), data)) else None
    case Ok(itemId) =>
      if |xs| == 0 || !Sends(xs[0], SafeDumpCall(data)) then None
      else CompareRun(ext, data, itemId, Outcome(xs[0]), xs[1..])
  }

  /** The caller's hash when the trigger changed: stripped, but with its own expression back. */
  function Restored(data: Fields): (d: Fields)
    requires StripData(data).Ok?
    ensures d == data - {Sym("templateid")}
  {
    var d := StripData(data).value[Sym("expression") := Get(data, Sym("expression"))];
    assert d == data - {Sym("templateid")};
    d
  }

  /** The restored data keeps the triggerid, and without it is the caller's data without both ids. */
  lemma RestoredWithoutId(data: Fields)
    requires StripData(data).Ok?
    ensures Get(Restored(data), Sym(TriggerKey)) == Get(data, Sym(TriggerKey))
    ensures Restored(data) - {Sym(TriggerKey)} == data - {Sym("templateid"), Sym(TriggerKey)}
  {
    var d := Restored(data);
    assert Sym(TriggerKey) != Sym("templateid");
    assert d - {Sym(TriggerKey)} == data - {Sym("templateid"), Sym(TriggerKey)};
  }

  /** After the dump_by_id answered `answer`: the comparison, and the migration when it fails. */
  function CompareRun(ext: Externals, data: Fields, itemId: int, answer: Result<Value>, ys: seq<Exchange>): Option<Mutated> {
    match StoredTrigger(ext, data, answer)
    case Err(e) => if ys == [] then Some(Mutated(Err(e), data)) else None
    case Ok(stored) =>
      match StripData(data)
      case Err(e) => if ys == [] then Some(Mutated(Err(e), data)) else None
      case Ok(submitted) =>
        match ext.hashEquals(stored, Hash(submitted))
        case Err(e) => if ys == [] then Some(Mutated(Err(e), submitted)) else None
        case Ok(true) => if ys == [] then Some(Mutated(Ok(Int(itemId)), submitted)) else None
        case Ok(false) => MigrateRun(ext, Restored(data), ys)
  }

  /** The migration of a changed trigger: disable the old one, then create the data without its id. */
  function MigrateRun(ext: Externals, restored: Fields, ys: seq<Exchange>): Option<Mutated> {
    if |ys| == 0 || !Sends(ys[0], DisableCall(restored)) then None
    else if Outcome(ys[0]).Err? then
      if |ys| == 1 then Some(Mutated(Err(Outcome(ys[0]).error), restored)) else None
    else
      var renewed := restored - {Sym(TriggerKey)};
      match CreateRun(Trigger, ext, renewed, ys[1..])
      case None => None
      case Some(r) => Some(Mutated(r, renewed))
  }

  /** Whether safe_update finds the trigger unchanged. */
  function Unchanged(ext: Externals, data: Fields, answer: Result<Value>): Result<bool> {
    var stored :- StoredTrigger(ext, data, answer);
    var submitted :- StripData(data);
    ext.hashEquals(stored, Hash(submitted))
  }

  lemma TriggerCallsDiffer()
    ensures "trigger.get" != "trigger.update" && "trigger.get" != "trigger.create" && "trigger.update" != "trigger.create"
    ensures "trigger.get" != "trigger.delete" && "trigger.update" != "trigger.delete" && "trigger.create" != "trigger.delete"
  {
    assert "trigger.get"[8] == 'g' && "trigger.update"[8] == 'u';
    assert "trigger.create"[8] == 'c' && "trigger.delete"[8] == 'd';
  }

  lemma SafeDumpIsGet(data: Fields)
    ensures SafeDumpCall(data).name == "trigger.get"
    ensures SafeDumpCall(data).params == Hash(map[
      Sym("filter") := Hash(map[Sym("triggerids") := Nil]),
      Sym("output") := Text("extend"),
      Sym("select_items") := Text("extend"),
      Sym("select_functions") := Text("extend")])
  {
  }

  /**
   * An unchanged trigger: safe_update answers the original
   * `triggerid.to_i` after the one dump_by_id, with no update and no
   * create. The caller's hash is left normalised.
   */
  lemma {:induction false} UnchangedKeepsId(ext: Externals, data: Fields, xs: seq<Exchange>, o: Mutated)
    requires SafeUpdateRun(ext, data, xs) == Some(o)
    requires |xs| >= 1 && Unchanged(ext, data, Outcome(xs[0])) == Ok(true)
    ensures ToI(Get(data, Sym(TriggerKey))).Ok?
    ensures |xs| == 1 && o.result == Ok(Int(ToI(Get(data, Sym(TriggerKey))).value))
    ensures o.data == StripData(data).value
    ensures !Calls(xs[0], "trigger.update") && !Calls(xs[0], "trigger.create")
  {
    TriggerCallsDiffer();
    SafeDumpIsGet(data);
    assert xs[1..] == [];
  }

  /** The migration disables first and then creates, and never deletes. */
  lemma {:induction false} MigrationSteps(ext: Externals, restored: Fields, ys: seq<Exchange>, o: Mutated)
    requires MigrateRun(ext, restored, ys) == Some(o)
    ensures 1 <= |ys| <= 2 && Sends(ys[0], DisableCall(restored))
    ensures |ys| == 2 ==>
      o.data == restored - {Sym(TriggerKey)}
      && Sends(ys[1], Request("trigger.create", List([Hash(restored - {Sym(TriggerKey)})])))
  {
    var renewed := restored - {Sym(TriggerKey)};
    if |ys| >= 2 {
      assert "trigger" + ".create" == "trigger.create";
      assert CreateCall(Trigger, ext, renewed) == Ok(Request("trigger.create", List([Hash(renewed)])));
      assert |ys[1..]| == 1 && ys[1..][0] == ys[1];
    }
  }

  /** Neither step of the migration is a delete. */
  lemma {:induction false} MigrationNeverDeletes(ext: Externals, restored: Fields, ys: seq<Exchange>, o: Mutated)
    requires MigrateRun(ext, restored, ys) == Some(o)
    ensures forall i | 0 <= i < |ys| :: !Calls(ys[i], "trigger.delete")
  {
    TriggerCallsDiffer();
    MigrationSteps(ext, restored, ys, o);
    SendsIsNotCall(ys[0], DisableCall(restored), "trigger.delete");
    if |ys| == 2 {
      SendsIsNotCall(ys[1], Request("trigger.create", List([Hash(restored - {Sym(TriggerKey)})])), "trigger.delete");
    }
  }

  lemma SafeRunSplit(ext: Externals, data: Fields, xs: seq<Exchange>, o: Mutated)
    requires SafeUpdateRun(ext, data, xs) == Some(o) && |xs| >= 1
    ensures ToI(Get(data, Sym(TriggerKey))).Ok? && Sends(xs[0], SafeDumpCall(data))
    ensures CompareRun(ext, data, ToI(Get(data, Sym(TriggerKey))).value, Outcome(xs[0]), xs[1..]) == Some(o)
  {
  }

  lemma CompareChanged(ext: Externals, data: Fields, itemId: int, answer: Result<Value>, ys: seq<Exchange>)
    requires Unchanged(ext, data, answer) == Ok(false)
    ensures StripData(data).Ok?
    ensures CompareRun(ext, data, itemId, answer, ys) == MigrateRun(ext, Restored(data), ys)
  {
  }

  /**
   * A changed trigger: safe_update disables the old one with
   * `trigger.update [{triggerid, status: "1"}]` and then creates the
   * caller's data without its triggerid and templateid and with its own
   * expression. It never deletes.
   */
  lemma {:induction false} ChangedIsMigrated(ext: Externals, data: Fields, xs: seq<Exchange>, o: Mutated)
    requires SafeUpdateRun(ext, data, xs) == Some(o)
    requires |xs| >= 1 && Unchanged(ext, data, Outcome(xs[0])) == Ok(false)
    ensures 2 <= |xs| <= 3
    ensures Sends(xs[1], Request("trigger.update", List([Hash(map[
      Sym("triggerid") := Get(data, Sym(TriggerKey)), Sym("status") := Text("1")])])))
    ensures |xs| == 3 ==>
      o.data == data - {Sym("templateid"), Sym(TriggerKey)}
      && Sends(xs[2], Request("trigger.create", List([Hash(data - {Sym("templateid"), Sym(TriggerKey)})])))
  {
    TriggerCallsDiffer();
    SafeDumpIsGet(data);
    SafeRunSplit(ext, data, xs, o);
    var ys := xs[1..];
    var restored := Restored(data);
    CompareChanged(ext, data, ToI(Get(data, Sym(TriggerKey))).value, Outcome(xs[0]), ys);
    MigrationSteps(ext, restored, ys, o);
    RestoredWithoutId(data);
    assert xs[1] == ys[0];
    if |xs| == 3 {
      assert xs[2] == ys[1];
    }
  }

  /** safe_update never deletes a trigger, whether or not it changed. */
  lemma {:induction false} SafeUpdateNeverDeletes(ext: Externals, data: Fields, xs: seq<Exchange>, o: Mutated)
    requires SafeUpdateRun(ext, data, xs) == Some(o)
    ensures forall i | 0 <= i < |xs| :: !Calls(xs[i], "trigger.delete")
  {
    if |xs| > 0 {
      TriggerCallsDiffer();
      SafeDumpIsGet(data);
      SafeRunSplit(ext, data, xs, o);
      var ys := xs[1..];
      if Unchanged(ext, data, Outcome(xs[0])) == Ok(false) {
        CompareChanged(ext, data, ToI(Get(data, Sym(TriggerKey))).value, Outcome(xs[0]), ys);
        MigrationNeverDeletes(ext, Restored(data), ys, o);
      } else {
        assert ys == [];
      }
      forall i | 0 <= i < |xs|
        ensures !Calls(xs[i], "trigger.delete")
      {
        if i > 0 {
          assert xs[i] == ys[i - 1];
        }
      }
    }
  }

  // ---------------------------------------------------------------------
  // The look-ups and the request builders

  /** `{description: data[:description], hostid: data[:hostid]}` */
  function TriggerQuery(data: Fields): Fields {
    map[Sym("description") := Get(data, Sym("description")), Sym("hostid") := Get(data, Sym("hostid"))]
  }

  /** get_id for a trigger raises before any call when the description is missing. */
  lemma TriggerDescriptionRequired(ext: Externals, data: Fields)
    requires Get(data, Sym("description")) == Nil
    ensures GetIdCall(Trigger, ext, TriggerQuery(data))
         == Err(ManagerError("description" + " not supplied in call to get_id"))
  {
    var query := TriggerQuery(data);
    assert Identify(Trigger) == Ok("description");
    assert Str("description") !in query;
    NameMissing(Trigger, ext, query);
  }

  /** get_id for a trigger filters on both description and host. */
  lemma TriggerLookup(ext: Externals, data: Fields)
    requires Get(data, Sym("description")) != Nil
    ensures GetIdCall(Trigger, ext, TriggerQuery(data)).Ok?
    ensures GetIdCall(Trigger, ext, TriggerQuery(data)).value.request == Request("trigger.get", Hash(map[
      Sym("filter") := Hash(TriggerQuery(data)),
      Sym("output") := List([Text("triggerid"), Text("description")])]))
  {
    DerivedDescriptors();
    SymbolQueryLookup(Trigger, ext, TriggerQuery(data));
    assert Prefix(Trigger) + ".get" == "trigger.get";
  }

  /** `data.with_indifferent_access[name]`, a String key taken before a Symbol one. */
  function Indifferent(data: Fields, name: string): Value {
    if Str(name) in data then data[Str(name)] else Get(data, Sym(name))
  }

  /** The caller's fields create_trigger and update_trigger copy. */
  function TriggerFields(data: Fields): Fields {
    map[
      Sym("comments") := Indifferent(data, "comments"),
      Sym("priority") := Indifferent(data, "priority"),
      Sym("description") := Indifferent(data, "description"),
      Sym("expression") := Indifferent(data, "expression"),
      Sym("recovery_expression") := Indifferent(data, "recovery_expression"),
      Sym("opdata") := Indifferent(data, "opdata")]
  }

  function CreateTriggerCall(data: Fields): Request {
    Request("trigger.create", Hash(TriggerFields(data) + map[
      Sym("recovery_mode") := Int(1), Sym("type") := Int(0), Sym("manual_close") := Int(1)]))
  }

  function UpdateTriggerCall(triggerid: Value, data: Fields): Result<Request> {
    var id :- ToI(triggerid);
    Ok(Request("trigger.update", Hash(map[Sym("triggerid") := Int(id)] + TriggerFields(data) + map[
      Sym("recovery_mode") := Int(1), Sym("type") := Int(1), Sym("manual_close") := Int(1)])))
  }

  /** `result.empty? ? nil : result["triggerids"]` */
  function TriggerIdsOf(answer: Result<Value>): Result<Value> {
    var result :- answer;
    var empty :- IsEmpty(result);
    if empty then Ok(Nil) else Index(result, Str("triggerids"))
  }

  /**
   * Both builders fix recovery_mode and manual_close to 1 and copy the
   * caller's fields; the type is 0 on create and 1 on update, which also
   * carries `triggerid.to_i`.
   */
  lemma TriggerBuilders(triggerid: Value, data: Fields, id: int)
    requires ToI(triggerid) == Ok(id)
    ensures var p := CreateTriggerCall(data).params.entries;
      p[Sym("recovery_mode")] == Int(1) && p[Sym("manual_close")] == Int(1) && p[Sym("type")] == Int(0)
      && p[Sym("description")] == Indifferent(data, "description")
      && p[Sym("expression")] == Indifferent(data, "expression")
    ensures UpdateTriggerCall(triggerid, data).Ok?
    ensures var p := UpdateTriggerCall(triggerid, data).value.params.entries;
      p[Sym("recovery_mode")] == Int(1) && p[Sym("manual_close")] == Int(1) && p[Sym("type")] == Int(1)
      && p[Sym("triggerid")] == Int(id)
      && p[Sym("description")] == Indifferent(data, "description")
      && p[Sym("expression")] == Indifferent(data, "expression")
  {
    CreateTriggerParams(data);
    UpdateTriggerParams(triggerid, data, id);
  }

  /** create_trigger's params: the copied fields, recovery_mode 1, manual_close 1 and type 0. */
  lemma CreateTriggerParams(data: Fields)
    ensures var p := CreateTriggerCall(data).params.entries;
      Sym("recovery_mode") in p && Sym("manual_close") in p && Sym("type") in p
      && Sym("description") in p && Sym("expression") in p
      && p[Sym("recovery_mode")] == Int(1) && p[Sym("manual_close")] == Int(1) && p[Sym("type")] == Int(0)
      && p[Sym("description")] == Indifferent(data, "description")
      && p[Sym("expression")] == Indifferent(data, "expression")
  {
  }

  /** update_trigger's params: as create's, with type 1 and the id. */
  lemma UpdateTriggerParams(triggerid: Value, data: Fields, id: int)
    requires ToI(triggerid) == Ok(id)
    ensures UpdateTriggerCall(triggerid, data).Ok?
    ensures var p := UpdateTriggerCall(triggerid, data).value.params.entries;
      Sym("recovery_mode") in p && Sym("manual_close") in p && Sym("type") in p
      && Sym("triggerid") in p && Sym("description") in p && Sym("expression") in p
      && p[Sym("recovery_mode")] == Int(1) && p[Sym("manual_close")] == Int(1) && p[Sym("type")] == Int(1)
      && p[Sym("triggerid")] == Int(id)
      && p[Sym("description")] == Indifferent(data, "description")
      && p[Sym("expression")] == Indifferent(data, "expression")
  {
  }

  /** The builders answer nil for an empty result and otherwise its "triggerids"; an error passes through. */
  lemma TriggerIdsResult(h: Fields, e: Error)
    ensures TriggerIdsOf(Ok(Hash(h))) == Ok(if h == map[] then Nil else Get(h, Str("triggerids")))
    ensures TriggerIdsOf(Ok(List([]))) == Ok(Nil)
    ensures TriggerIdsOf(Err(e)) == Err(e)
  {
  }

  class Triggers {
    const base: Basic

    constructor(client: Client, ext: Externals)
      ensures base.kind == Trigger && base.client == client && base.ext == ext
    {
      base := new Basic(Trigger, client, ext);
    }

    method GetOrCreate(data: Fields) returns (r: Result<Value>)
      requires base.kind == Trigger
      modifies base.client.server
      ensures Extends(old(base.client.server.log), base.client.server.log)
      ensures GetOrCreateFrom(Trigger, base.ext, TriggerQuery(data), data,
                              base.client.server.Since(old(|base.client.server.log|))) == Some(r)
    {
      r := base.GetOrCreateBy(TriggerQuery(data), data);
    }

    /** create_or_update merges the found id as an Integer `triggerid`. */
    method CreateOrUpdate(data: Fields) returns (r: Result<Value>)
      requires base.kind == Trigger
      modifies base.client.server
      ensures Extends(old(base.client.server.log), base.client.server.log)
      ensures CreateOrUpdateFrom(Trigger, base.ext, TriggerQuery(data), data, false,
                                 base.client.server.Since(old(|base.client.server.log|))) == Some(r)
    {
      r := base.CreateOrUpdateBy(TriggerQuery(data), data, false);
    }

    method CreateTrigger(data: Fields) returns (r: Result<Value>)
      modifies base.client.server
      ensures Extends(old(base.client.server.log), base.client.server.log)
      ensures var xs := base.client.server.Since(old(|base.client.server.log|));
        |xs| == 1 && Sends(xs[0], CreateTriggerCall(data)) && r == TriggerIdsOf(Outcome(xs[0]))
    {
      var call := CreateTriggerCall(data);
      var result := base.client.ApiRequest(call.name, call.params);
      r := TriggerIdsOf(result);
    }

    method UpdateTrigger(triggerid: Value, data: Fields) returns (r: Result<Value>)
      modifies base.client.server
      ensures Extends(old(base.client.server.log), base.client.server.log)
      ensures AndThen(CallRun(UpdateTriggerCall(triggerid, data), base.client.server.Since(old(|base.client.server.log|))),
                      (v: Value) => TriggerIdsOf(Ok(v))) == Some(r)
    {
      var result := base.Call(UpdateTriggerCall(triggerid, data));
      r := if result.Ok? then TriggerIdsOf(result) else result;
    }

    /** The migration of a changed trigger: the disable, then the create of the data without its id. */
    method Migrate(restored: Fields) returns (r: Result<Value>, after: Fields)
      requires base.kind == Trigger
      modifies base.client.server
      ensures Extends(old(base.client.server.log), base.client.server.log)
      ensures MigrateRun(base.ext, restored, base.client.server.Since(old(|base.client.server.log|)))
           == Some(Mutated(r, after))
    {
      ghost var n := |base.client.server.log|;
      var disable := DisableCall(restored);
      var disabled := base.client.ApiRequest(disable.name, disable.params);
      ghost var log1 := base.client.server.log;
      if disabled.Err? {
        return Err(disabled.error), restored;
      }
      after := restored - {Sym(TriggerKey)};
      r := base.Create(after);
      ExchangesSplit(log1, base.client.server.log, base.client.server.answer, n);
      assert base.client.server.Since(n)[1..] == base.client.server.Since(|log1|);
    }

    /**
     * safe_update: the stored trigger and the caller's data, both
     * normalised, are compared; an unchanged trigger keeps its id, a
     * changed one is disabled and created anew. The caller's hash is
     * changed in place; `after` is that hash afterwards.
     */
    method SafeUpdate(data: Fields) returns (r: Result<Value>, after: Fields)
      requires base.kind == Trigger
      modifies base.client.server
      ensures Extends(old(base.client.server.log), base.client.server.log)
      ensures SafeUpdateRun(base.ext, data, base.client.server.Since(old(|base.client.server.log|)))
           == Some(Mutated(r, after))
    {
      ghost var n := |base.client.server.log|;
      var itemId := ToI(Get(data, Sym(TriggerKey)));
      if itemId.Err? {
        assert base.client.server.Since(n) == [];
        return Err(itemId.error), data;
      }
      var answer := base.DumpById(map[Sym(TriggerKey) := Get(data, Sym(TriggerKey))]);
      ghost var log1 := base.client.server.log;
      r, after := CompareFromAnswer(data, itemId.value, answer);
      ExchangesSplit(log1, base.client.server.log, base.client.server.answer, n);
      assert base.client.server.Since(n)[1..] == base.client.server.Since(|log1|);
    }

    /** The rest of safe_update once the dump_by_id was answered: compare, and migrate when changed. */
    method CompareFromAnswer(data: Fields, itemId: int, answer: Result<Value>) returns (r: Result<Value>, after: Fields)
      requires base.kind == Trigger
      modifies base.client.server
      ensures Extends(old(base.client.server.log), base.client.server.log)
      ensures CompareRun(base.ext, data, itemId, answer, base.client.server.Since(old(|base.client.server.log|)))
           == Some(Mutated(r, after))
    {
      var ext := base.ext;
      var dump: Result<Value> := Err(NoMethodError);
      if answer.Err? {
        dump := Err(answer.error);
      } else {
        var records := Elements(answer.value);
        if records.Err? {
          dump := Err(records.error);
        } else {
          dump := FindDump(records.value, ext, TriggerKey, Get(data, Sym(TriggerKey)));
        }
      }
      assert dump == DumpOfAnswer(ext, TriggerKey, data, answer);
      assert base.client.server.Since(|base.client.server.log|) == [];
      if dump.Err? {
        return Err(dump.error), data;
      }
      var stored := NormaliseDump(ext, dump.value);
      if stored.Err? {
        return Err(stored.error), data;
      }
      var submitted := StripData(data);
      if submitted.Err? {
        return Err(submitted.error), data;
      }
      var equal := ext.hashEquals(stored.value, Hash(submitted.value));
      if equal.Err? {
        return Err(equal.error), submitted.value;
      }
      if equal.value {
        return Ok(Int(itemId)), submitted.value;
      }
      r, after := Migrate(Restored(data));
    }
  }
}
