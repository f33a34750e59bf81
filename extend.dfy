/**
 * The host-group helpers of lib/zabbix_manager/basic/basic_extend.rb,
 * which HostGroups (lib/zabbix_manager/classes/hostgroups.rb) overrides
 * with identical definitions: the look-up of group ids by name and the
 * best-effort loop that creates the groups that are missing.
 */
module Extend {
  import opened Values
  import opened Remote
  import opened ZabbixClient

  const GroupGet := "hostgroup.get"
  const GroupCreate := "hostgroup.create"

  /** get_hostgroup_ids' request: the names of `[data].flatten` as the name filter. */
  function HostgroupIdsCall(data: Value): Request {
    Request(GroupGet, Hash(map[
      Sym("output") := Text("extend"),
      Sym("filter") := Hash(map[Sym("name") := List(Flatten(data))])]))
  }

  /** `records.map { |item| { groupid: item["groupid"] } }` */
  function GroupIds(records: seq<Value>): (r: Result<seq<Value>>)
    ensures Records(records) ==> r.Ok?
    ensures r.Ok? ==> |r.value| == |records|
    ensures r.Ok? ==> forall i | 0 <= i < |records| ::
      Index(records[i], Str("groupid")).Ok?
      && r.value[i] == Hash(map[Sym("groupid") := Index(records[i], Str("groupid")).value])
  {
    if records == [] then Ok([])
    else
      var id :- Index(records[0], Str("groupid"));
      var rest :- GroupIds(records[1..]);
      Ok([Hash(map[Sym("groupid") := id])] + rest)
  }

  /** get_hostgroup_ids' result for the answer: nil when empty, else the list of `{groupid}`. */
  function GroupIdsOf(answer: Result<Value>): Result<Value> {
    var result :- answer;
    var records :- Elements(result);
    var ids :- GroupIds(records);
    if |ids| == 0 then Ok(Nil) else Ok(List(FlattenAll(ids)))
  }

  function HostgroupIdsRun(data: Value, xs: seq<Exchange>): Option<Result<Value>> {
    if |xs| == 1 && Sends(xs[0], HostgroupIdsCall(data)) then Some(GroupIdsOf(Outcome(xs[0]))) else None
  }

  /**
   * For an answer that lists hashes, get_hostgroup_ids answers nil when the
   * list is empty, and otherwise one `{groupid}` per record, in the
   * server's order (the final flatten changes nothing).
   */
  lemma {:induction false} OneGroupIdPerRecord(records: seq<Value>)
    requires Records(records)
    ensures GroupIdsOf(Ok(List(records)))
         == if records == [] then Ok(Nil)
            else Ok(List(seq(|records|, i requires 0 <= i < |records| =>
                           Hash(map[Sym("groupid") := Get(records[i].entries, Str("groupid"))]))))
  {
    var ids := GroupIds(records).value;
    FlattenAllFlat(ids);
    if records != [] {
      var want := seq(|records|, i requires 0 <= i < |records| =>
                        Hash(map[Sym("groupid") := Get(records[i].entries, Str("groupid"))]));
      assert ids == want;
    }
  }

  /** The one create of get_or_create_hostgroups: `hostgroup.create` with the name. */
  function HostgroupCreate(item: Value): Request {
    Request(GroupCreate, Hash(map[Sym("name") := item]))
  }

  /**
   * The exchanges of one iteration: the look-up, then the create exactly
   * when the look-up answered nil. An error in either is rescued.
   */
  predicate ItemStep(item: Value, ys: seq<Exchange>) {
    |ys| >= 1 && Sends(ys[0], HostgroupIdsCall(item))
    && if GroupIdsOf(Outcome(ys[0])) == Ok(Nil)
       then |ys| == 2 && Sends(ys[1], HostgroupCreate(item))
       else |ys| == 1
  }

  /** The number of exchanges of the iteration whose look-up is x. */
  function StepLength(x: Exchange): nat {
    if GroupIdsOf(Outcome(x)) == Ok(Nil) then 2 else 1
  }

  /** The exchanges of get_or_create_hostgroups over `items`: one iteration after another, in order. */
  predicate HostgroupsRun(items: seq<Value>, xs: seq<Exchange>)
    decreases |items|
  {
    if items == [] then xs == []
    else
      |xs| >= 1 && |xs| >= StepLength(xs[0])
      && ItemStep(items[0], xs[..StepLength(xs[0])])
      && HostgroupsRun(items[1..], xs[StepLength(xs[0])..])
  }

  /** One more iteration extends the run by its exchanges. */
  lemma {:induction false} HostgroupsRunStep(items: seq<Value>, xs: seq<Exchange>, item: Value, ys: seq<Exchange>)
    requires HostgroupsRun(items, xs) && ItemStep(item, ys)
    ensures HostgroupsRun(items + [item], xs + ys)
    decreases |items|
  {
    if items == [] {
      assert items + [item] == [item];
      assert xs + ys == ys;
      SingleRun(item, ys);
    } else {
      var c := StepLength(xs[0]);
      HostgroupsRunStep(items[1..], xs[c..], item, ys);
      SplitAfterFirst(items, xs, item, ys, c);
      assert (xs + ys)[0] == xs[0];
    }
  }

  /** How a run one item longer splits at its first iteration. */
  lemma SplitAfterFirst(items: seq<Value>, xs: seq<Exchange>, item: Value, ys: seq<Exchange>, c: nat)
    requires items != [] && c <= |xs|
    ensures (items + [item])[0] == items[0] && (items + [item])[1..] == items[1..] + [item]
    ensures (xs + ys)[..c] == xs[..c] && (xs + ys)[c..] == xs[c..] + ys
  {
  }

  /** One iteration alone is the run over its one item. */
  lemma SingleRun(item: Value, ys: seq<Exchange>)
    requires ItemStep(item, ys)
    ensures HostgroupsRun([item], ys)
  {
    assert ys[..StepLength(ys[0])] == ys;
    assert [item][1..] == [];
  }

  /** The requests for method `name` among the exchanges, in order. */
  function CallsOf(xs: seq<Exchange>, name: string): seq<Request> {
    if xs == [] then []
    else (if Calls(xs[0], name) then [RequestOf(xs[0].message).value] else []) + CallsOf(xs[1..], name)
  }

  lemma {:induction false} CallsOfAppend(xs: seq<Exchange>, ys: seq<Exchange>, name: string)
    ensures CallsOf(xs + ys, name) == CallsOf(xs, name) + CallsOf(ys, name)
    decreases |xs|
  {
    if xs != [] {
      assert (xs + ys)[0] == xs[0];
      assert (xs + ys)[1..] == xs[1..] + ys;
      CallsOfAppend(xs[1..], ys, name);
    } else {
      assert xs + ys == ys;
    }
  }

  lemma GetIsNotCreate()
    ensures GroupGet != GroupCreate
  {
    assert GroupGet[10] == 'g';
    assert GroupCreate[10] == 'c';
  }

  /**
   * get_or_create_hostgroups looks every item up once, in input order, and
   * creates only names whose look-up answered nil, also in input order.
   */
  lemma {:induction false} LookupsInOrder(items: seq<Value>, xs: seq<Exchange>)
    requires HostgroupsRun(items, xs)
    ensures CallsOf(xs, GroupGet) == seq(|items|, i requires 0 <= i < |items| => HostgroupIdsCall(items[i]))
    ensures |CallsOf(xs, GroupCreate)| <= |items|
  {
    GetsInOrder(items, xs);
    CreatesBounded(items, xs);
    var l := LookupCalls(items);
    assert l == seq(|items|, i requires 0 <= i < |items| => HostgroupIdsCall(items[i]));
  }

  /** The look-up of each item, in input order. */
  function LookupCalls(items: seq<Value>): (r: seq<Request>)
    ensures |r| == |items| && forall i | 0 <= i < |items| :: r[i] == HostgroupIdsCall(items[i])
  {
    if items == [] then [] else [HostgroupIdsCall(items[0])] + LookupCalls(items[1..])
  }

  /** The look-ups of a run, one per item, in input order. */
  lemma {:induction false} GetsInOrder(items: seq<Value>, xs: seq<Exchange>)
    requires HostgroupsRun(items, xs)
    ensures CallsOf(xs, GroupGet) == LookupCalls(items)
    decreases |items|
  {
    if items != [] {
      var c := StepLength(xs[0]);
      CallsOfAppend(xs[..c], xs[c..], GroupGet);
      assert xs[..c] + xs[c..] == xs;
      GetsInOrder(items[1..], xs[c..]);
      StepCalls(items[0], xs[..c]);
    }
  }

  /** A run creates at most once per item. */
  lemma {:induction false} CreatesBounded(items: seq<Value>, xs: seq<Exchange>)
    requires HostgroupsRun(items, xs)
    ensures |CallsOf(xs, GroupCreate)| <= |items|
    decreases |items|
  {
    if items != [] {
      var c := StepLength(xs[0]);
      CallsOfAppend(xs[..c], xs[c..], GroupCreate);
      assert xs[..c] + xs[c..] == xs;
      CreatesBounded(items[1..], xs[c..]);
      StepCalls(items[0], xs[..c]);
    }
  }

  /** One iteration makes one look-up of its item and at most one create. */
  lemma {:induction false} StepCalls(item: Value, ys: seq<Exchange>)
    requires ItemStep(item, ys)
    ensures CallsOf(ys, GroupGet) == [HostgroupIdsCall(item)]
    ensures |CallsOf(ys, GroupCreate)| <= 1
  {
    GetIsNotCreate();
    if |ys| == 2 {
      assert ys == [ys[0]] + [ys[1]];
      CallsOfAppend([ys[0]], [ys[1]], GroupGet);
      CallsOfAppend([ys[0]], [ys[1]], GroupCreate);
    } else {
      assert ys == [ys[0]];
    }
    assert CallsOf([ys[0]], GroupGet) == [HostgroupIdsCall(item)];
  }

  /**
   * Every `hostgroup.create` of a run directly follows the look-up of the
   * same name, and that look-up answered nil.
   */
  lemma {:induction false} CreateFollowsNilLookup(items: seq<Value>, xs: seq<Exchange>, i: nat)
    requires HostgroupsRun(items, xs) && i < |xs| && Calls(xs[i], GroupCreate)
    ensures 0 < i && GroupIdsOf(Outcome(xs[i - 1])) == Ok(Nil)
    ensures exists j | 0 <= j < |items| ::
      Sends(xs[i - 1], HostgroupIdsCall(items[j])) && Sends(xs[i], HostgroupCreate(items[j]))
    decreases |items|
  {
    GetIsNotCreate();
    var c := StepLength(xs[0]);
    if i < c {
      assert xs[..c][i] == xs[i];
      assert i == 1;
      assert xs[..c][0] == xs[0];
      assert Sends(xs[0], HostgroupIdsCall(items[0])) && Sends(xs[1], HostgroupCreate(items[0]));
    } else {
      assert xs[c..][i - c] == xs[i];
      CreateFollowsNilLookup(items[1..], xs[c..], i - c);
      assert xs[c..][i - c - 1] == xs[i - 1];
      var j :| 0 <= j < |items[1..]|
        && Sends(xs[c..][i - c - 1], HostgroupIdsCall(items[1..][j])) && Sends(xs[c..][i - c], HostgroupCreate(items[1..][j]));
      assert items[1..][j] == items[j + 1];
    }
  }
}
