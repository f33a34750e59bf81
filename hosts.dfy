/**
 * ZabbixManager::Hosts (lib/zabbix_manager/classes/hosts.rb): the host
 * id look-ups, the interface id, unlink_templates, and create_or_update,
 * which updates an existing host's interface and host record separately
 * and rescues every error.
 */
module Hosts {
  import opened Values
  import opened External
  import opened Remote
  import opened ZabbixClient
  import opened Descriptors
  import opened Protocol

  /** get_host_id: the host whose technical name is `name`. */
  function HostIdCall(name: Value): Request {
    Request("host.get", Hash(map[
      Sym("output") := Text("extend"),
      Sym("filter") := Hash(map[Sym("host") := name])]))
  }

  /** get_hostid_by_name: the host whose visible name is `name`. */
  function HostIdByNameCall(name: Value): Request {
    Request("host.get", Hash(map[
      Sym("output") := Text("extend"),
      Sym("filter") := Hash(map[Sym("name") := name])]))
  }

  /** get_interface_id: the interfaces of the host. */
  function InterfaceIdCall(hostid: Value): Request {
    Request("hostinterface.get", Hash(map[Sym("hostids") := hostid]))
  }

  function UnlinkCall(data: Fields): Request {
    Request("host.massRemove", Hash(map[
      Sym("hostids") := Get(data, Sym("hosts_id")),
      Sym("templates") := Get(data, Sym("templates_id"))]))
  }

  /** `result.empty? ? false : true` */
  function UnlinkedOf(answer: Result<Value>): (r: Result<bool>)
    ensures answer.Ok? && answer.value.List? ==> r == Ok(answer.value.items != [])
    ensures answer.Ok? && answer.value.Hash? ==> r == Ok(answer.value.entries != map[])
    ensures answer.Err? ==> r == Err(answer.error)
  {
    var result :- answer;
    var empty :- IsEmpty(result);
    Ok(!empty)
  }

  /** The two look-ups differ only in the filter field. */
  lemma HostLookupsDiffer(name: Value)
    ensures HostIdCall(name).name == HostIdByNameCall(name).name
    ensures HostIdCall(name) != HostIdByNameCall(name)
  {
    var a := HostIdCall(name).params.entries[Sym("filter")];
    var b := HostIdByNameCall(name).params.entries[Sym("filter")];
    assert Sym("host") in a.entries && Sym("host") !in b.entries;
  }

  // ---------------------------------------------------------------------
  // create_or_update

  /** The look-up create_or_update makes: `get_id(host: data[:host])`. */
  function HostQuery(data: Fields): Fields {
    map[Sym("host") := Get(data, Sym("host"))]
  }

  /** The result of a step whose error the method's rescue turns into nil (the value of `puts`). */
  function Rescued(r: Result<Value>): Value {
    if r.Ok? then r.value else Nil
  }

  function HostUpdateRequest(data: Fields, id: int): Request {
    Request("host.update", Hash(data[Sym("hostid") := Int(id)]))
  }

  /**
   * The found branch from the interface look-up on: `:interfaces` taken out
   * of the caller's hash and given the interface id, `:templates` removed,
   * the interface updated, then the host with its id merged.
   */
  function FoundRun(data: Fields, id: int, ys: seq<Exchange>): Option<Mutated> {
    if |ys| == 0 || !Sends(ys[0], InterfaceIdCall(Int(id))) then None
    else FoundTail(data, id, FirstField(Outcome(ys[0]), "interfaceid"), ys[1..])
  }

  /** The found branch once the interface look-up answered `interfaceId`: `zs` are the later exchanges. */
  function FoundTail(data: Fields, id: int, interfaceId: Result<Value>, zs: seq<Exchange>): Option<Mutated> {
    match interfaceId
    case Err(_) => if zs == [] then Some(Mutated(Ok(Nil), data)) else None
    case Ok(iid) =>
      var withoutInterfaces := data - {Sym("interfaces")};
      match StoreKey(Get(data, Sym("interfaces")), Sym("interfaceid"), iid)
      case Err(_) => if zs == [] then Some(Mutated(Ok(Nil), withoutInterfaces)) else None
      case Ok(interfaces) =>
        var sent := withoutInterfaces - {Sym("templates")};
        if |zs| == 0 || !Sends(zs[0], Request("hostinterface.update", interfaces)) then None
        else if Outcome(zs[0]).Err? then
          if |zs| == 1 then Some(Mutated(Ok(Nil), sent)) else None
        else if |zs| == 2 && Sends(zs[1], HostUpdateRequest(sent, id)) then
          Some(Mutated(Ok(Rescued(Outcome(zs[1]))), sent))
        else None
  }

  /** create_or_update: never raises; every error answers nil. */
  function HostCreateOrUpdateRun(ext: Externals, data: Fields, xs: seq<Exchange>): Option<Mutated> {
    var c := GetIdCalls(Host, ext, HostQuery(data));
    if |xs| < c then None
    else match GetIdRun(Host, ext, HostQuery(data), xs[..c])
      case None => None
      case Some(Err(_)) => if |xs| == c then Some(Mutated(Ok(Nil), data)) else None
      case Some(Ok(Some(id))) => FoundRun(data, id, xs[c..])
      case Some(Ok(None)) =>
        match CreateRun(Host, ext, data, xs[c..])
        case None => None
        case Some(r) => Some(Mutated(Ok(Rescued(r)), data))
  }

  lemma {:induction false} FoundRunOk(data: Fields, id: int, ys: seq<Exchange>, o: Mutated)
    requires FoundRun(data, id, ys) == Some(o)
    ensures o.result.Ok? && 1 <= |ys| <= 3
  {
  }

  /** create_or_update never raises: its result is a value, nil when a step failed. */
  lemma {:induction false} HostCreateOrUpdateNeverRaises(ext: Externals, data: Fields, xs: seq<Exchange>, o: Mutated)
    requires HostCreateOrUpdateRun(ext, data, xs) == Some(o)
    ensures o.result.Ok?
  {
    var c := GetIdCalls(Host, ext, HostQuery(data));
    var id := GetIdRun(Host, ext, HostQuery(data), xs[..c]);
    if id.Some? && id.value.Ok? && id.value.value.Some? {
      FoundRunOk(data, id.value.value.value, xs[c..], o);
    }
  }

  lemma HostUpdatesDiffer()
    ensures "hostinterface.get" != "hostinterface.update" && "hostinterface.update" != "host.update"
    ensures "host.create" != "host.update" && "host.get" != "host.update"
  {
    assert "hostinterface.get"[14] == 'g' && "hostinterface.update"[14] == 'u';
    assert "hostinterface.update"[4] == 'i' && "host.update"[4] == '.';
    assert "host.create"[5] == 'c' && "host.update"[5] == 'u' && "host.get"[5] == 'g';
  }

  /**
   * An existing host: after the interface look-up, its interface is
   * updated with the interface id and then the host, without its
   * interfaces and templates and with its id, in that order; the caller's
   * hash loses `:interfaces` and `:templates`.
   */
  lemma {:induction false} ExistingHostIsUpdated(data: Fields, id: int, ys: seq<Exchange>, o: Mutated, interfaces: Fields, interfaceId: Value)
    requires FoundRun(data, id, ys) == Some(o) && |ys| == 3
    requires Get(data, Sym("interfaces")) == Hash(interfaces)
    requires FirstField(Outcome(ys[0]), "interfaceid") == Ok(interfaceId)
    ensures Sends(ys[0], InterfaceIdCall(Int(id)))
    ensures Sends(ys[1], Request("hostinterface.update", Hash(interfaces[Sym("interfaceid") := interfaceId])))
    ensures Sends(ys[2], Request("host.update",
      Hash((data - {Sym("interfaces"), Sym("templates")})[Sym("hostid") := Int(id)])))
    ensures o.data == data - {Sym("interfaces"), Sym("templates")}
    ensures o.result == Ok(Rescued(Outcome(ys[2])))
  {
    assert data - {Sym("interfaces")} - {Sym("templates")} == data - {Sym("interfaces"), Sym("templates")};
  }

  /** The host create call: `host.create` with the caller's data merged into the host defaults. */
  lemma HostCreateCall(ext: Externals, data: Fields)
    ensures CreateCall(Host, ext, data).Ok? <==> ext.mergeParams(Hash(HostDefaults()), Hash(data)).Ok?
    ensures CreateCall(Host, ext, data).Ok? ==>
      CreateCall(Host, ext, data).value == Request("host.create", List([ext.mergeParams(Hash(HostDefaults()), Hash(data)).value]))
  {
    assert Prefix(Host) == "host";
    assert "host" + ".create" == "host.create";
    assert DefaultOptions(Host) != map[];
  }

  /** A missing host is created with the host defaults merged in, and the caller's hash is left as it was. */
  lemma {:induction false} MissingHostIsCreated(ext: Externals, data: Fields, xs: seq<Exchange>, o: Mutated)
    requires HostCreateOrUpdateRun(ext, data, xs) == Some(o)
    requires GetIdCall(Host, ext, HostQuery(data)).Ok? && |xs| >= 1
    requires GetIdRun(Host, ext, HostQuery(data), xs[..1]) == Some(Ok(None))
    ensures |xs| == 2 ==>
      CreateCall(Host, ext, data).Ok?
      && Sends(xs[1], Request("host.create", List([ext.mergeParams(Hash(HostDefaults()), Hash(data)).value])))
    ensures Sends(xs[0], GetIdCall(Host, ext, HostQuery(data)).value.request)
    ensures |xs| <= 2 && o.data == data
  {
    HostCreateCall(ext, data);
    assert xs[..1][0] == xs[0];
    if |xs| == 2 {
      assert xs[1..] == [xs[1]];
    }
  }

  /** On the way to creating a missing host, nothing is updated: one `host.get`, then at most a `host.create`. */
  lemma {:induction false} MissingHostNotUpdated(ext: Externals, data: Fields, xs: seq<Exchange>, o: Mutated)
    requires HostCreateOrUpdateRun(ext, data, xs) == Some(o)
    requires GetIdCall(Host, ext, HostQuery(data)).Ok? && |xs| >= 1
    requires GetIdRun(Host, ext, HostQuery(data), xs[..1]) == Some(Ok(None))
    ensures forall i | 0 <= i < |xs| :: !Calls(xs[i], "host.update")
  {
    MissingHostIsCreated(ext, data, xs, o);
    assert xs[..1][0] == xs[0];
    var get := GetIdCall(Host, ext, HostQuery(data)).value.request;
    if |xs| == 2 {
      GetThenCreate(xs, get, Request("host.create", List([ext.mergeParams(Hash(HostDefaults()), Hash(data)).value])));
    } else {
      GetThenCreate(xs, get, get);
    }
  }

  /** A `host.get` followed by at most a `host.create` calls no `host.update`. */
  lemma GetThenCreate(xs: seq<Exchange>, get: Request, create: Request)
    requires 1 <= |xs| <= 2 && Sends(xs[0], get) && get.name == Prefix(Host) + ".get"
    requires |xs| == 2 ==> Sends(xs[1], create) && create.name == "host.create"
    ensures forall i | 0 <= i < |xs| :: !Calls(xs[i], "host.update")
  {
    HostUpdatesDiffer();
    assert Prefix(Host) == "host";
    assert "host" + ".get" == "host.get";
    SendsIsNotCall(xs[0], get, "host.update");
    if |xs| == 2 {
      SendsIsNotCall(xs[1], create, "host.update");
    }
  }

  class Hosts {
    const base: Basic

    constructor(client: Client, ext: Externals)
      ensures base.kind == Host && base.client == client && base.ext == ext
    {
      base := new Basic(Host, client, ext);
    }

    method GetHostId(name: Value) returns (r: Result<Value>)
      modifies base.client.server
      ensures Extends(old(base.client.server.log), base.client.server.log)
      ensures var xs := base.client.server.Since(old(|base.client.server.log|));
        |xs| == 1 && Sends(xs[0], HostIdCall(name)) && r == FirstField(Outcome(xs[0]), "hostid")
    {
      var call := HostIdCall(name);
      var result := base.client.ApiRequest(call.name, call.params);
      r := FirstField(result, "hostid");
    }

    method GetHostidByName(name: Value) returns (r: Result<Value>)
      modifies base.client.server
      ensures Extends(old(base.client.server.log), base.client.server.log)
      ensures var xs := base.client.server.Since(old(|base.client.server.log|));
        |xs| == 1 && Sends(xs[0], HostIdByNameCall(name)) && r == FirstField(Outcome(xs[0]), "hostid")
    {
      var call := HostIdByNameCall(name);
      var result := base.client.ApiRequest(call.name, call.params);
      r := FirstField(result, "hostid");
    }

    method GetInterfaceId(hostid: Value) returns (r: Result<Value>)
      modifies base.client.server
      ensures Extends(old(base.client.server.log), base.client.server.log)
      ensures var xs := base.client.server.Since(old(|base.client.server.log|));
        |xs| == 1 && Sends(xs[0], InterfaceIdCall(hostid)) && r == FirstField(Outcome(xs[0]), "interfaceid")
    {
      var call := InterfaceIdCall(hostid);
      var result := base.client.ApiRequest(call.name, call.params);
      r := FirstField(result, "interfaceid");
    }

    method UnlinkTemplates(data: Fields) returns (r: Result<bool>)
      modifies base.client.server
      ensures Extends(old(base.client.server.log), base.client.server.log)
      ensures var xs := base.client.server.Since(old(|base.client.server.log|));
        |xs| == 1 && Sends(xs[0], UnlinkCall(data)) && r == UnlinkedOf(Outcome(xs[0]))
    {
      var call := UnlinkCall(data);
      var result := base.client.ApiRequest(call.name, call.params);
      r := UnlinkedOf(result);
    }

    /** The found branch of create_or_update, from the interface look-up on. */
    method UpdateExisting(data: Fields, id: int) returns (r: Value, after: Fields)
      modifies base.client.server
      ensures Extends(old(base.client.server.log), base.client.server.log)
      ensures FoundRun(data, id, base.client.server.Since(old(|base.client.server.log|))) == Some(Mutated(Ok(r), after))
    {
      ghost var n := |base.client.server.log|;
      var interfaceId := GetInterfaceId(Int(id));
      ghost var log1 := base.client.server.log;
      r, after := UpdateFound(data, id, interfaceId);
      ExchangesSplit(log1, base.client.server.log, base.client.server.answer, n);
      assert base.client.server.Since(n)[1..] == base.client.server.Since(|log1|);
    }

    /** The found branch once the interface look-up was answered: the two updates. */
    method UpdateFound(data: Fields, id: int, interfaceId: Result<Value>) returns (r: Value, after: Fields)
      modifies base.client.server
      ensures Extends(old(base.client.server.log), base.client.server.log)
      ensures FoundTail(data, id, interfaceId, base.client.server.Since(old(|base.client.server.log|))) == Some(Mutated(Ok(r), after))
    {
      ghost var n := |base.client.server.log|;
      assert base.client.server.Since(n) == [];
      if interfaceId.Err? {
        return Nil, data;
      }
      after := data - {Sym("interfaces")};
      var interfaces := StoreKey(Get(data, Sym("interfaces")), Sym("interfaceid"), interfaceId.value);
      if interfaces.Err? {
        return Nil, after;
      }
      after := after - {Sym("templates")};
      var updated := base.MojoUpdate("hostinterface.update", interfaces.value);
      ghost var log1 := base.client.server.log;
      if updated.Err? {
        return Nil, after;
      }
      var call := HostUpdateRequest(after, id);
      var result := base.MojoUpdate(call.name, call.params);
      r := Rescued(result);
      ExchangesSplit(log1, base.client.server.log, base.client.server.answer, n);
      assert base.client.server.Since(n)[1] == base.client.server.Since(|log1|)[0];
    }

    /** create_or_update: all errors rescued; `after` is the caller's hash afterwards. */
    method CreateOrUpdate(data: Fields) returns (r: Value, after: Fields)
      requires base.kind == Host
      modifies base.client.server
      ensures Extends(old(base.client.server.log), base.client.server.log)
      ensures HostCreateOrUpdateRun(base.ext, data, base.client.server.Since(old(|base.client.server.log|)))
           == Some(Mutated(Ok(r), after))
    {
      ghost var n := |base.client.server.log|;
      var id := base.GetId(HostQuery(data));
      ghost var log1 := base.client.server.log;
      ghost var ys := base.client.server.Since(n);
      assert ys[..|ys|] == ys;
      if id.Err? {
        return Nil, data;
      }
      if id.value.Some? {
        r, after := UpdateExisting(data, id.value.value);
      } else {
        var created := base.Create(data);
        r, after := Rescued(created), data;
      }
      ExchangesSplit(log1, base.client.server.log, base.client.server.answer, n);
      assert base.client.server.Since(n)[..|ys|] == ys;
      assert base.client.server.Since(n)[|ys|..] == base.client.server.Since(|log1|);
    }
  }
}
