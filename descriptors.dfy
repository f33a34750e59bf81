/**
 * The resource descriptors of ZabbixManager::Basic and its subclasses:
 * the API method prefix (`method_name`), the field that names an object
 * (`identify`), the id field (`key`) and its plural (`keys`), the
 * defaults merged into a create (`default_options`), and the request of
 * each class's `dump_by_id`.
 */
module Descriptors {
  import opened Values
  import opened Remote

  /** Basic itself (Bare) and the subclasses modelled here. */
  datatype Kind = Bare | HostGroup | Host | Item | Trigger | Problem | Usergroup | Proxy

  /** method_name: the prefix of every API method of the class. */
  function MethodName(k: Kind): (r: Result<string>)
    ensures r.Err? <==> k == Bare
    ensures k == Bare ==> r == Err(ManagerError("Can't call method_name here"))
  {
    match k
    case Bare => Err(ManagerError("Can't call method_name here"))
    case HostGroup => Ok("hostgroup")
    case Host => Ok("host")
    case Item => Ok("item")
    case Trigger => Ok("trigger")
    case Problem => Ok("problem")
    case Usergroup => Ok("usergroup")
    case Proxy => Ok("proxy")
  }

  /** identify: the field whose value names an object. */
  function Identify(k: Kind): (r: Result<string>)
    ensures r.Err? <==> k == Bare
    ensures k == Bare ==> r == Err(ManagerError("Can't call identify here"))
  {
    match k
    case Bare => Err(ManagerError("Can't call identify here"))
    case HostGroup => Ok("name")
    case Host => Ok("host")
    case Item => Ok("name")
    case Trigger => Ok("description")
    case Problem => Ok("name")
    case Usergroup => Ok("name")
    case Proxy => Ok("host")
  }

  /** The classes that override `key`. */
  predicate OverridesKey(k: Kind) {
    k == HostGroup || k == Problem || k == Usergroup
  }

  /** key: the id field; `method_name + "id"` unless the class overrides it. */
  function KeyName(k: Kind): (r: Result<string>)
    ensures r.Err? <==> k == Bare
    ensures k == Bare ==> r == MethodName(k).PropagateFailure()
  {
    match k
    case HostGroup => Ok("groupid")
    case Problem => Ok("problemid")
    case Usergroup => Ok("usrgrpid")
    case Bare => MethodName(k).PropagateFailure()
    case _ => Ok(Prefix(k) + "id")
  }

  /** keys: the plural id field; `key + "s"` unless the class overrides it. */
  function KeysName(k: Kind): (r: Result<string>)
    ensures r.Err? <==> k == Bare
  {
    match k
    case Problem => Ok("problemids")
    case Bare => KeyName(k).PropagateFailure()
    case _ => Ok(KeyName(k).value + "s")
  }

  /** The prefix of a class other than Basic itself. */
  function Prefix(k: Kind): string
    requires k != Bare
  {
    MethodName(k).value
  }

  /** A class that does not override `key` derives it from its method name. */
  lemma KeyDerived(k: Kind)
    requires k != Bare && !OverridesKey(k)
    ensures KeyName(k) == Ok(Prefix(k) + "id")
  {
  }

  /** The plural follows the singular for every class, Problems' override included. */
  lemma KeysArePlural(k: Kind)
    requires k != Bare
    ensures KeysName(k) == Ok(KeyName(k).value + "s")
  {
    assert "problemid" + "s" == "problemids";
  }

  function ItemDefaults(): Fields {
    map[
      Sym("name") := Nil,
      Sym("key_") := Nil,
      Sym("hostid") := Nil,
      Sym("delay") := Int(60),
      Sym("history") := Int(3600),
      Sym("status") := Int(0),
      Sym("type") := Int(7),
      Sym("snmp_community") := Text(""),
      Sym("snmp_oid") := Text(""),
      Sym("value_type") := Int(3),
      Sym("data_type") := Int(0),
      Sym("trapper_hosts") := Text("localhost"),
      Sym("snmp_port") := Int(161),
      Sym("units") := Text(""),
      Sym("multiplier") := Int(0),
      Sym("delta") := Int(0),
      Sym("snmpv3_securityname") := Text(""),
      Sym("snmpv3_securitylevel") := Int(0),
      Sym("snmpv3_authpassphrase") := Text(""),
      Sym("snmpv3_privpassphrase") := Text(""),
      Sym("formula") := Int(0),
      Sym("trends") := Int(86400),
      Sym("logtimefmt") := Text(""),
      Sym("valuemapid") := Int(0),
      Sym("delay_flex") := Text(""),
      Sym("authtype") := Int(0),
      Sym("username") := Text(""),
      Sym("password") := Text(""),
      Sym("publickey") := Text(""),
      Sym("privatekey") := Text(""),
      Sym("params") := Text(""),
      Sym("ipmi_sensor") := Text("")
    ]
  }

  function HostDefaults(): Fields {
    map[
      Sym("host") := Nil,
      Sym("interfaces") := Hash(map[
        Sym("main") := Int(1),
        Sym("useip") := Int(1),
        Sym("type") := Int(2),
        Sym("ip") := Nil,
        Sym("dns") := Text(""),
        Sym("port") := Int(161),
        Sym("details") := Hash(map[
          Sym("version") := Int(2),
          Sym("community") := Text("transsion")])]),
      Sym("status") := Int(0),
      Sym("available") := Int(1),
      Sym("groups") := List([]),
      Sym("proxy_hostid") := Nil,
      Sym("inventory_mode") := Int(1)
    ]
  }

  /** default_options: empty unless the class overrides it. */
  function DefaultOptions(k: Kind): (r: Fields)
    ensures k != Item && k != Host ==> r == map[]
    ensures k == Item || k == Host ==> r != map[]
  {
    match k
    case Item =>
      assert Sym("delay") in ItemDefaults();
      ItemDefaults()
    case Host =>
      assert Sym("host") in HostDefaults();
      HostDefaults()
    case _ => map[]
  }

  /**
   * dump_by_id: the query for the records whose id field matches. Triggers
   * filter on the plural field and also fetch items and functions;
   * Problems filter on the identify field.
   */
  function DumpByIdRequest(k: Kind, data: Fields): (r: Result<Request>)
    ensures r.Err? <==> k == Bare
    ensures r.Ok? ==> r.value.name == Prefix(k) + ".get"
    ensures r.Ok? ==> r.value.params.Hash? && Get(r.value.params.entries, Sym("output")) == Text("extend")
  {
    match k
    case Trigger =>
      Ok(Request("trigger.get", Hash(map[
        Sym("filter") := Hash(map[Sym("triggerids") := Get(data, Sym("triggerids"))]),
        Sym("output") := Text("extend"),
        Sym("select_items") := Text("extend"),
        Sym("select_functions") := Text("extend")])))
    case Problem =>
      Ok(Request("problem.get", Hash(map[
        Sym("filter") := Hash(map[Sym("name") := Get(data, Sym("name"))]),
        Sym("output") := Text("extend")])))
    case Host =>
      Ok(Request("host.get", Hash(map[
        Sym("filter") := Hash(map[Sym("hostid") := Get(data, Sym("hostid"))]),
        Sym("output") := Text("extend")])))
    case Bare => MethodName(k).PropagateFailure()
    case _ =>
      var key := KeyName(k).value;
      Ok(Request(Prefix(k) + ".get", Hash(map[
        Sym("filter") := Hash(map[Sym(key) := Get(data, Sym(key))]),
        Sym("output") := Text("extend")])))
  }

  /** The filter dump_by_id sends. */
  function DumpFilter(k: Kind, data: Fields): Value
    requires k != Bare
  {
    Get(DumpByIdRequest(k, data).value.params.entries, Sym("filter"))
  }

  /** Every class but Triggers and Problems filters on its own key. */
  lemma DumpFiltersOnKey(k: Kind, data: Fields)
    requires k != Bare && k != Trigger && k != Problem
    ensures DumpFilter(k, data) == Hash(map[Sym(KeyName(k).value) := Get(data, Sym(KeyName(k).value))])
  {
    assert "host" + "id" == "hostid";
  }

  /**
   * Triggers filter on `triggerids`; given only `triggerid`, as update and
   * safe_update give it, the filter value is nil.
   */
  lemma TriggerDumpFilter(id: Value)
    ensures DumpFilter(Trigger, map[Sym("triggerid") := id])
         == Hash(map[Sym("triggerids") := Nil])
  {
  }

  /** Problems filter on the name, whatever key value they are given. */
  lemma ProblemDumpFilter(data: Fields)
    ensures DumpFilter(Problem, data) == Hash(map[Sym("name") := Get(data, Sym("name"))])
  {
  }

  lemma HostGroupDescriptor()
    ensures MethodName(HostGroup) == Ok("hostgroup") && Identify(HostGroup) == Ok("name")
    ensures KeyName(HostGroup) == Ok("groupid") && KeysName(HostGroup) == Ok("groupids")
  {
    assert "groupid" + "s" == "groupids";
  }

  lemma ProblemDescriptor()
    ensures MethodName(Problem) == Ok("problem") && Identify(Problem) == Ok("name")
    ensures KeyName(Problem) == Ok("problemid") && KeysName(Problem) == Ok("problemids")
  {
  }

  lemma UsergroupDescriptor()
    ensures MethodName(Usergroup) == Ok("usergroup") && Identify(Usergroup) == Ok("name")
    ensures KeyName(Usergroup) == Ok("usrgrpid")
  {
  }

  lemma DerivedDescriptors()
    ensures KeyName(Trigger) == Ok("triggerid") && Identify(Trigger) == Ok("description")
    ensures KeyName(Item) == Ok("itemid") && Identify(Item) == Ok("name")
    ensures KeyName(Host) == Ok("hostid") && Identify(Host) == Ok("host")
    ensures KeyName(Proxy) == Ok("proxyid") && Identify(Proxy) == Ok("host")
  {
    assert "trigger" + "id" == "triggerid";
    assert "item" + "id" == "itemid";
    assert "host" + "id" == "hostid";
    assert "proxy" + "id" == "proxyid";
  }

  /** A few of the item defaults: the polling interval and the SNMP port. */
  lemma ItemDefaultValues()
    ensures DefaultOptions(Item)[Sym("delay")] == Int(60)
    ensures DefaultOptions(Item)[Sym("snmp_port")] == Int(161)
  {
  }

  /** A few of the item defaults: the trend period and the value type. */
  lemma ItemDefaultStorage()
    ensures DefaultOptions(Item)[Sym("trends")] == Int(86400)
    ensures DefaultOptions(Item)[Sym("value_type")] == Int(3)
  {
  }
}
