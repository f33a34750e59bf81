/**
 * ZabbixManager::Proxies (lib/zabbix_manager/classes/proxies.rb): deleting
 * proxies, the access checks, and looking a proxy up by its host name.
 */
module Proxies {
  import opened Values
  import opened Remote
  import opened ZabbixClient
  import opened Descriptors
  import opened Protocol

  /** delete: `proxy.delete` with the given ids as the params themselves. */
  function ProxyDeleteCall(data: Value): Request {
    Request("proxy.delete", data)
  }

  /** Unlike Basic#delete, the proxy ids are not wrapped in a further array. */
  lemma {:induction false} ProxyDeleteUnwrapped(data: Fields)
    ensures ProxyDeleteCall(Hash(data)).name == DeleteCall(Proxy, data).value.name
    ensures ProxyDeleteCall(Hash(data)).params != DeleteCall(Proxy, data).value.params
  {
    assert Prefix(Proxy) == "proxy";
    assert "proxy" + ".delete" == "proxy.delete";
    assert DeleteCall(Proxy, data).value.params == List([Hash(data)]);
  }

  /** `result.empty? ? nil : result['proxyids'][0].to_i` */
  function DeletedIdOf(result: Value): (r: Result<Value>)
    ensures result == List([]) || result == Hash(map[]) || result == Text("") ==> r == Ok(Nil)
    ensures r.Ok? && r.value != Nil ==> r.value.Int?
    ensures result.Hash? && Get(result.entries, Str("proxyids")).List?
            && |Get(result.entries, Str("proxyids")).items| > 0
            && Get(result.entries, Str("proxyids")).items[0].Int?
            ==> r == Ok(Get(result.entries, Str("proxyids")).items[0])
    ensures result.Nil? || result.Int? || result.Bool? ==> r == Err(NoMethodError)
  {
    var empty :- IsEmpty(result);
    if empty then Ok(Nil)
    else
      var ids :- Index(result, Str("proxyids"));
      var first :- First(ids);
      var n :- ToI(first);
      Ok(Int(n))
  }

  /** get_proxy_id: the proxy whose host name is `proxy`. */
  function ProxyIdCall(proxy: Value): Request {
    Request("proxy.get", Hash(map[
      Sym("output") := Text("extend"),
      Sym("filter") := Hash(map[Sym("host") := proxy])]))
  }

  /** get_proxy_id: nil without a call for a nil name, else the first match's proxyid. */
  function ProxyIdRun(proxy: Value, xs: seq<Exchange>): Option<Result<Value>> {
    if proxy == Nil then (if xs == [] then Some(Ok(Nil)) else None)
    else if |xs| == 1 && Sends(xs[0], ProxyIdCall(proxy)) then Some(FirstField(Outcome(xs[0]), "proxyid"))
    else None
  }

  /**
   * A proxy name is looked up by exactly one `proxy.get`, and a list of
   * proxies answers nil when empty, else the first one's proxyid.
   */
  lemma {:induction false} ProxyIdOfRecords(proxy: Value, xs: seq<Exchange>, r: Result<Value>, records: seq<Value>)
    requires ProxyIdRun(proxy, xs) == Some(r)
    requires proxy != Nil && Records(records)
    requires |xs| > 0 && Outcome(xs[0]) == Ok(List(records))
    ensures |xs| == 1 && Sends(xs[0], ProxyIdCall(proxy))
    ensures r == Ok(if records == [] then Nil else Get(records[0].entries, Str("proxyid")))
  {
    FirstFieldOfRecords(records, "proxyid");
  }

  class Proxies {
    const base: Basic

    constructor(client: Client, ext: External.Externals)
      ensures base.kind == Proxy && base.client == client && base.ext == ext
    {
      base := new Basic(Proxy, client, ext);
    }

    method Delete(data: Value) returns (r: Result<Value>)
      modifies base.client.server
      ensures Extends(old(base.client.server.log), base.client.server.log)
      ensures AndThen(CallRun(Ok(ProxyDeleteCall(data)), base.client.server.Since(old(|base.client.server.log|))), DeletedIdOf) == Some(r)
    {
      var result := base.Call(Ok(ProxyDeleteCall(data)));
      if result.Err? {
        return result;
      }
      r := DeletedIdOf(result.value);
    }

    /** isreadable: the server's answer, as it is. */
    method IsReadable(data: Value) returns (r: Result<Value>)
      modifies base.client.server
      ensures Extends(old(base.client.server.log), base.client.server.log)
      ensures CallRun(Ok(Request("proxy.isreadable", data)), base.client.server.Since(old(|base.client.server.log|))) == Some(r)
    {
      r := base.Call(Ok(Request("proxy.isreadable", data)));
    }

    /** iswritable: the server's answer, as it is. */
    method IsWritable(data: Value) returns (r: Result<Value>)
      modifies base.client.server
      ensures Extends(old(base.client.server.log), base.client.server.log)
      ensures CallRun(Ok(Request("proxy.iswritable", data)), base.client.server.Since(old(|base.client.server.log|))) == Some(r)
    {
      r := base.Call(Ok(Request("proxy.iswritable", data)));
    }

    method GetProxyId(proxy: Value) returns (r: Result<Value>)
      modifies base.client.server
      ensures Extends(old(base.client.server.log), base.client.server.log)
      ensures ProxyIdRun(proxy, base.client.server.Since(old(|base.client.server.log|))) == Some(r)
    {
      if proxy == Nil {
        assert base.client.server.Since(|base.client.server.log|) == [];
        return Ok(Nil);
      }
      r := base.Call(Ok(ProxyIdCall(proxy)));
      if r.Ok? {
        r := FirstField(r, "proxyid");
      }
    }
  }
}
