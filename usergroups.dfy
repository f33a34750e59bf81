/**
 * ZabbixManager::Usergroups (lib/zabbix_manager/classes/usergroups.rb):
 * granting a group rights on host groups, and putting users into groups.
 */
module Usergroups {
  import opened Values
  import opened Remote
  import opened ZabbixClient
  import opened Descriptors
  import opened Protocol

  /** The right `{permission:, id:}` of one host group. */
  function Right(permission: Value, id: Value): Value {
    Hash(map[Sym("permission") := permission, Sym("id") := id])
  }

  /** `hostgroupids.map { |t| {permission: permission, id: t} }` */
  function Rights(permission: Value, ids: seq<Value>): (r: seq<Value>)
    ensures |r| == |ids|
    ensures forall i | 0 <= i < |r| :: r[i].Hash? && r[i].entries.Keys == {Sym("permission"), Sym("id")}
    ensures forall i | 0 <= i < |r| :: Get(r[i].entries, Sym("permission")) == permission
    ensures forall i | 0 <= i < |r| :: Get(r[i].entries, Sym("id")) == ids[i]
  {
    seq(|ids|, i requires 0 <= i < |ids| => Right(permission, ids[i]))
  }

  /** The host groups a list of rights is about, in order. */
  function RightIds(rights: seq<Value>): seq<Value>
    requires forall i | 0 <= i < |rights| :: rights[i].Hash?
  {
    seq(|rights|, i requires 0 <= i < |rights| => Get(rights[i].entries, Sym("id")))
  }

  /** The rights name the host groups given, each once and in the given order. */
  lemma RightsRoundTrip(permission: Value, ids: seq<Value>)
    ensures var r := Rights(permission, ids); (forall i | 0 <= i < |r| :: r[i].Hash?) && RightIds(r) == ids
  {
  }

  /** The permission granted: the one given, or 2 (read-write) when it is nil or false. */
  function Permission(data: Fields): (p: Value)
    ensures !Truthy(Get(data, Sym("permission"))) ==> p == Int(2)
    ensures Truthy(Get(data, Sym("permission"))) ==> p == data[Sym("permission")]
  {
    OrElse(Get(data, Sym("permission")), Int(2))
  }

  /** permissions: `usergroup.update` with the group and its new rights. */
  function PermissionsCall(data: Fields): (r: Result<Request>)
    ensures r.Ok? <==> Elements(Get(data, Sym("hostgroupids"))).Ok?
    ensures r.Ok? ==> r.value.name == "usergroup.update" && r.value.params.Hash?
    ensures r.Ok? ==> r.value.params.entries.Keys == {Sym("usrgrpid"), Sym("rights")}
    ensures r.Ok? ==> r.value.params.entries[Sym("usrgrpid")] == Get(data, Sym("usrgrpid"))
    ensures r.Ok? ==>
      r.value.params.entries[Sym("rights")] == List(Rights(Permission(data), Elements(Get(data, Sym("hostgroupids"))).value))
  {
    var ids :- Elements(Get(data, Sym("hostgroupids")));
    Ok(Request("usergroup.update", Hash(map[
      Sym("usrgrpid") := Get(data, Sym("usrgrpid")),
      Sym("rights") := List(Rights(Permission(data), ids))])))
  }

  /** `result ? result["usrgrpids"][0].to_i : nil` */
  function GroupIdOf(result: Value): (r: Result<Value>)
    ensures !Truthy(result) ==> r == Ok(Nil)
    ensures r.Ok? && r.value != Nil ==> r.value.Int?
    ensures result.Hash? && Get(result.entries, Str("usrgrpids")).List?
            && |Get(result.entries, Str("usrgrpids")).items| > 0
            && Get(result.entries, Str("usrgrpids")).items[0].Int?
            ==> r == Ok(Get(result.entries, Str("usrgrpids")).items[0])
  {
    if !Truthy(result) then Ok(Nil)
    else
      var ids :- Index(result, Str("usrgrpids"));
      var first :- First(ids);
      var n :- ToI(first);
      Ok(Int(n))
  }

  /** The record `{usrgrpid:, userids:}` of one group. */
  function Membership(group: Value, userids: Value): Value {
    Hash(map[Sym("usrgrpid") := group, Sym("userids") := userids])
  }

  /** update_users: one record per group, in order, all carrying the same users. */
  function UpdateUsersCall(data: Fields): (r: Result<Request>)
    ensures r.Ok? <==> Elements(Get(data, Sym("usrgrpids"))).Ok?
    ensures r.Ok? ==> r.value.name == "usergroup.update" && r.value.params.List?
    ensures r.Ok? ==> var groups := Elements(Get(data, Sym("usrgrpids"))).value;
      var records := r.value.params.items;
      |records| == |groups|
      && forall i | 0 <= i < |records| ::
           records[i].Hash? && records[i].entries.Keys == {Sym("usrgrpid"), Sym("userids")}
           && records[i].entries[Sym("usrgrpid")] == groups[i]
           && records[i].entries[Sym("userids")] == Get(data, Sym("userids"))
  {
    var groups :- Elements(Get(data, Sym("usrgrpids")));
    Ok(Request("usergroup.update", List(seq(|groups|, i requires 0 <= i < |groups| =>
      Membership(groups[i], Get(data, Sym("userids")))))))
  }

  /** Both calls update a user group, and the two bodies never coincide. */
  lemma {:induction false} UsergroupUpdatesDiffer(data: Fields, other: Fields)
    requires PermissionsCall(data).Ok? && UpdateUsersCall(other).Ok?
    ensures PermissionsCall(data).value.name == UpdateUsersCall(other).value.name
    ensures PermissionsCall(data).value != UpdateUsersCall(other).value
  {
    assert PermissionsCall(data).value.params.Hash?;
    assert UpdateUsersCall(other).value.params.List?;
  }

  class Usergroups {
    const base: Basic

    constructor(client: Client, ext: External.Externals)
      ensures base.kind == Usergroup && base.client == client && base.ext == ext
    {
      base := new Basic(Usergroup, client, ext);
    }

    method Permissions(data: Fields) returns (r: Result<Value>)
      modifies base.client.server
      ensures Extends(old(base.client.server.log), base.client.server.log)
      ensures AndThen(CallRun(PermissionsCall(data), base.client.server.Since(old(|base.client.server.log|))), GroupIdOf) == Some(r)
    {
      var result := base.Call(PermissionsCall(data));
      if result.Err? {
        return result;
      }
      r := GroupIdOf(result.value);
    }

    method UpdateUsers(data: Fields) returns (r: Result<Value>)
      modifies base.client.server
      ensures Extends(old(base.client.server.log), base.client.server.log)
      ensures AndThen(CallRun(UpdateUsersCall(data), base.client.server.Since(old(|base.client.server.log|))), GroupIdOf) == Some(r)
    {
      var result := base.Call(UpdateUsersCall(data));
      if result.Err? {
        return result;
      }
      r := GroupIdOf(result.value);
    }

    /** add_user: the same as update_users. */
    method AddUser(data: Fields) returns (r: Result<Value>)
      modifies base.client.server
      ensures Extends(old(base.client.server.log), base.client.server.log)
      ensures AndThen(CallRun(UpdateUsersCall(data), base.client.server.Since(old(|base.client.server.log|))), GroupIdOf) == Some(r)
    {
      r := UpdateUsers(data);
    }
  }
}
