/**
 * ZabbixManager::Items (lib/zabbix_manager/classes/items.rb): the look-ups
 * by (name, hostid), the interface items of a host with their OID filter
 * and their order by `key_`, and the DNS item.
 */
module Items {
  import opened Values
  import opened External
  import opened Remote
  import opened ZabbixClient
  import opened Descriptors
  import opened Protocol

  /** `{name: data[:name], hostid: data[:hostid]}` */
  function ItemQuery(data: Fields): Fields {
    map[Sym("name") := Get(data, Sym("name")), Sym("hostid") := Get(data, Sym("hostid"))]
  }

  /** get_id for an item raises before any call when the name is missing. */
  lemma ItemNameRequired(ext: Externals, data: Fields)
    requires Get(data, Sym("name")) == Nil
    ensures GetIdCall(Item, ext, ItemQuery(data)) == Err(ManagerError("name" + " not supplied in call to get_id"))
  {
    var query := ItemQuery(data);
    assert Identify(Item) == Ok("name");
    assert Str("name") !in query;
    NameMissing(Item, ext, query);
  }

  /** get_id for an item filters on both name and host. */
  lemma ItemLookup(ext: Externals, data: Fields)
    requires Get(data, Sym("name")) != Nil
    ensures GetIdCall(Item, ext, ItemQuery(data)).Ok?
    ensures GetIdCall(Item, ext, ItemQuery(data)).value.request == Request("item.get", Hash(map[
      Sym("filter") := Hash(ItemQuery(data)),
      Sym("output") := List([Text("itemid"), Text("name")])]))
  {
    DerivedDescriptors();
    SymbolQueryLookup(Item, ext, ItemQuery(data));
    assert Prefix(Item) + ".get" == "item.get";
  }

  // ---------------------------------------------------------------------
  // The interface search term: `"#{name&.gsub(%r{[^/0-9]}, "")&.strip}("`

  predicate Kept(c: char) { c == '/' || IsDigit(c) }

  /** `gsub(%r{[^/0-9]}, "")`: every character other than `/` and the digits removed. */
  function KeepSlashDigits(s: string): (t: string)
    ensures |t| <= |s|
    ensures forall k | 0 <= k < |t| :: Kept(t[k])
  {
    if s == [] then []
    else (if Kept(s[0]) then [s[0]] else []) + KeepSlashDigits(s[1..])
  }

  /** Exactly the slashes and digits of the name remain. */
  lemma {:induction false} KeepMembers(s: string)
    ensures forall c | c in s && Kept(c) :: c in KeepSlashDigits(s)
    ensures forall c | c in KeepSlashDigits(s) :: c in s
  {
    if s != [] {
      KeepMembers(s[1..]);
      assert forall c | c in s :: c == s[0] || c in s[1..];
    }
  }

  /** The characters String#strip removes at either end. */
  predicate Blank(c: char) { IsSpace(c) || c == '\0' }

  function StripStart(s: string): (t: string)
    ensures |t| <= |s| && t == s[|s| - |t|..]
    ensures t == [] || !Blank(t[0])
  {
    if s != [] && Blank(s[0]) then StripStart(s[1..]) else s
  }

  function StripEnd(s: string): (t: string)
    ensures |t| <= |s| && t == s[..|t|]
    ensures t == [] || !Blank(t[|t| - 1])
  {
    if s != [] && Blank(s[|s| - 1]) then StripEnd(s[..|s| - 1]) else s
  }

  /** String#strip */
  function Strip(s: string): string {
    StripEnd(StripStart(s))
  }

  lemma StripKeepsNonBlank(s: string)
    requires forall k | 0 <= k < |s| :: !Blank(s[k])
    ensures Strip(s) == s
  {
  }

  /**
   * The search term get_interface_items sends: the name's slashes and
   * digits followed by `(`, or just `(` for a nil name. Any other value
   * has no gsub.
   */
  function InterfaceSearchTerm(name: Value): (r: Result<string>)
    ensures name.Nil? ==> r == Ok("(")
    ensures name.Text? ==> r == Ok(KeepSlashDigits(name.s) + "(")
    ensures !name.Nil? && !name.Text? ==> r == Err(NoMethodError)
  {
    match name
    case Nil => Ok("(")
    case Text(s) =>
      var kept := KeepSlashDigits(s);
      StripKeepsNonBlank(kept);
      Ok(Strip(kept) + "(")
    case _ => Err(NoMethodError)
  }

  /**
   * An interface name made of a type without digits or slashes and a port
   * of digits and slashes, such as `GigabitEthernet` and `1/0/12`, is
   * searched for by its port and `(`.
   */
  lemma InterfaceTermIsPort(kind: string, port: string)
    requires forall k | 0 <= k < |kind| :: !Kept(kind[k])
    requires forall k | 0 <= k < |port| :: Kept(port[k])
    ensures InterfaceSearchTerm(Text(kind + port)) == Ok(port + "(")
  {
    KeepAppend(kind, port);
    KeepNone(kind);
    KeepAll(port);
    assert [] + port == port;
    assert KeepSlashDigits(kind + port) == port;
  }

  lemma {:induction false} KeepNone(s: string)
    requires forall k | 0 <= k < |s| :: !Kept(s[k])
    ensures KeepSlashDigits(s) == []
  {
    if s != [] {
      KeepNone(s[1..]);
    }
  }

  lemma {:induction false} KeepAll(s: string)
    requires forall k | 0 <= k < |s| :: Kept(s[k])
    ensures KeepSlashDigits(s) == s
  {
    if s != [] {
      KeepAll(s[1..]);
      assert s == [s[0]] + s[1..];
    }
  }

  /** Removing the other characters a second time changes nothing. */
  lemma {:induction false} KeepIdempotent(s: string)
    ensures KeepSlashDigits(KeepSlashDigits(s)) == KeepSlashDigits(s)
  {
    if s != [] {
      KeepIdempotent(s[1..]);
      KeepAppend(if Kept(s[0]) then [s[0]] else [], KeepSlashDigits(s[1..]));
    }
  }

  lemma {:induction false} KeepAppend(a: string, b: string)
    ensures KeepSlashDigits(a + b) == KeepSlashDigits(a) + KeepSlashDigits(b)
  {
    if a == [] {
      assert a + b == b;
    } else {
      assert (a + b)[0] == a[0];
      assert (a + b)[1..] == a[1..] + b;
      KeepAppend(a[1..], b);
    }
  }

  /** The get_interface_items request. */
  function InterfaceItemsCall(hostid: Value, name: Value): Result<Request> {
    var term :- InterfaceSearchTerm(name);
    Ok(Request("item.get", Hash(map[
      Sym("output") := Text("extend"),
      Sym("hostids") := hostid,
      Sym("search") := Hash(map[Sym("name") := Text(term)])])))
  }

  // ---------------------------------------------------------------------
  // The OID filter: `select { |item| item["snmp_oid"].match?(OID) }`

  /** A record the filter keeps: its snmp_oid is a String matching the pattern. */
  predicate Wanted(ext: Externals, record: Value) {
    var oid := Index(record, Str("snmp_oid"));
    oid.Ok? && oid.value.Text? && ext.oidMatches(oid.value.s)
  }

  /** A record the filter can test: its snmp_oid is a String, which has `match?`. */
  predicate Testable(record: Value) {
    var oid := Index(record, Str("snmp_oid"));
    oid.Ok? && oid.value.Text?
  }

  function SelectOids(ext: Externals, records: seq<Value>): (r: Result<seq<Value>>)
    ensures r.Ok? <==> forall i | 0 <= i < |records| :: Testable(records[i])
    ensures r.Ok? ==> forall e | e in r.value :: e in records && Wanted(ext, e)
    ensures r.Ok? ==> forall i | 0 <= i < |records| :: Wanted(ext, records[i]) ==> records[i] in r.value
  {
    if records == [] then Ok([])
    else
      var oid :- Index(records[0], Str("snmp_oid"));
      if !oid.Text? then Err(NoMethodError)
      else
        var rest :- SelectOids(ext, records[1..]);
        assert forall i | 1 <= i < |records| :: records[i] == records[1..][i - 1];
        Ok((if ext.oidMatches(oid.s) then [records[0]] else []) + rest)
  }

  /** The select keeps every wanted record as often as it occurs, and no other record. */
  lemma {:induction false} SelectOidsCounts(ext: Externals, records: seq<Value>)
    requires SelectOids(ext, records).Ok?
    ensures forall e :: multiset(SelectOids(ext, records).value)[e]
                     == if Wanted(ext, e) then multiset(records)[e] else 0
  {
    if records != [] {
      SelectOidsCounts(ext, records[1..]);
      assert records == [records[0]] + records[1..];
    }
  }

  // ---------------------------------------------------------------------
  // The order: `sort_by { |item| item["key_"] }`

  /** `item["key_"]` of a record the filter kept (a Hash or a String). */
  function KeyOf(record: Value): Value {
    var k := Index(record, Str("key_"));
    if k.Ok? then k.value else Nil
  }

  /** String#<=> on character codes. */
  predicate TextLe(a: string, b: string) {
    if a == [] then true
    else if b == [] then false
    else if a[0] != b[0] then a[0] < b[0]
    else TextLe(a[1..], b[1..])
  }

  lemma {:induction false} TextLeTotal(a: string, b: string)
    ensures TextLe(a, b) || TextLe(b, a)
  {
    if a != [] && b != [] && a[0] == b[0] {
      TextLeTotal(a[1..], b[1..]);
    }
  }

  lemma {:induction false} TextLeTrans(a: string, b: string, c: string)
    requires TextLe(a, b) && TextLe(b, c)
    ensures TextLe(a, c)
  {
    if a != [] && b != [] && c != [] && a[0] == b[0] && b[0] == c[0] {
      TextLeTrans(a[1..], b[1..], c[1..]);
    }
  }

  /** The kinds of key `<=>` orders among themselves: Strings, Integers, and nils. */
  function KeyKind(v: Value): nat {
    match v
    case Text(_) => 0
    case Int(_) => 1
    case Nil => 2
    case _ => 3
  }

  predicate KeyLe(a: Value, b: Value) {
    match a
    case Text(s) => b.Text? ==> TextLe(s, b.s)
    case Int(i) => b.Int? ==> i <= b.i
    case _ => true
  }

  lemma KeyLeTotal(a: Value, b: Value)
    requires KeyKind(a) == KeyKind(b) < 3
    ensures KeyLe(a, b) || KeyLe(b, a)
  {
    if a.Text? {
      TextLeTotal(a.s, b.s);
    }
  }

  lemma KeyLeTrans(a: Value, b: Value, c: Value)
    requires KeyKind(a) == KeyKind(b) == KeyKind(c) < 3
    requires KeyLe(a, b) && KeyLe(b, c)
    ensures KeyLe(a, c)
  {
    if a.Text? {
      TextLeTrans(a.s, b.s, c.s);
    }
  }

  /** Every record's key is of kind `kind`. */
  predicate OfKind(records: seq<Value>, kind: nat) {
    forall e | e in records :: KeyKind(KeyOf(e)) == kind
  }

  predicate SortedByKey(records: seq<Value>) {
    forall i, j | 0 <= i < j < |records| :: KeyLe(KeyOf(records[i]), KeyOf(records[j]))
  }

  /** x placed before the first record whose key is not below its own. */
  function Insert(x: Value, s: seq<Value>): (r: seq<Value>)
    ensures multiset(r) == multiset(s) + multiset{x}
  {
    if s == [] then [x]
    else if KeyLe(KeyOf(x), KeyOf(s[0])) then [x] + s
    else
      assert s == [s[0]] + s[1..];
      [s[0]] + Insert(x, s[1..])
  }

  /** The reference order: insertion of each record into the ordered rest. */
  function SortByKey(s: seq<Value>): (r: seq<Value>)
    ensures multiset(r) == multiset(s)
  {
    if s == [] then []
    else
      assert s == [s[0]] + s[1..];
      Insert(s[0], SortByKey(s[1..]))
  }

  /** Every record of the insertion is x or one of the records it went into. */
  lemma {:induction false} InsertMembers(x: Value, t: seq<Value>)
    ensures forall e | e in Insert(x, t) :: e == x || e in t
  {
    if t != [] && !KeyLe(KeyOf(x), KeyOf(t[0])) {
      InsertMembers(x, t[1..]);
      assert forall e | e in t[1..] :: e in t;
    }
  }

  /** A record no greater than any of a sorted list's records can go in front of it. */
  lemma ConsSorted(y: Value, r: seq<Value>)
    requires SortedByKey(r) && forall e | e in r :: KeyLe(KeyOf(y), KeyOf(e))
    ensures SortedByKey([y] + r)
  {
    var yr := [y] + r;
    forall i, j | 0 <= i < j < |yr|
      ensures KeyLe(KeyOf(yr[i]), KeyOf(yr[j]))
    {
      if i == 0 {
        assert yr[j] == r[j - 1] && r[j - 1] in r;
      } else {
        assert yr[i] == r[i - 1] && yr[j] == r[j - 1];
      }
    }
  }

  lemma {:induction false} InsertSorted(x: Value, s: seq<Value>, kind: nat)
    requires kind < 3 && OfKind(s, kind) && KeyKind(KeyOf(x)) == kind && SortedByKey(s)
    ensures SortedByKey(Insert(x, s))
  {
    if s == [] {
    } else if KeyLe(KeyOf(x), KeyOf(s[0])) {
      assert s[0] in s;
      forall e | e in s
        ensures KeyLe(KeyOf(x), KeyOf(e))
      {
        var m :| 0 <= m < |s| && s[m] == e;
        if m > 0 {
          KeyLeTrans(KeyOf(x), KeyOf(s[0]), KeyOf(e));
        }
      }
      ConsSorted(x, s);
    } else {
      assert s[0] in s;
      KeyLeTotal(KeyOf(x), KeyOf(s[0]));
      var t := s[1..];
      assert forall e | e in t :: e in s;
      InsertSorted(x, t, kind);
      InsertMembers(x, t);
      forall e | e in Insert(x, t)
        ensures KeyLe(KeyOf(s[0]), KeyOf(e))
      {
        if e != x {
          var m :| 0 <= m < |t| && t[m] == e;
          assert s[m + 1] == e;
        }
      }
      ConsSorted(s[0], Insert(x, t));
    }
  }

  lemma {:induction false} SortByKeySorted(s: seq<Value>, kind: nat)
    requires kind < 3 && OfKind(s, kind)
    ensures SortedByKey(SortByKey(s))
  {
    if s != [] {
      assert s[0] in s;
      assert forall e | e in s[1..] :: e in s;
      SortByKeySorted(s[1..], kind);
      var rest := SortByKey(s[1..]);
      assert forall e | e in rest :: e in multiset(s[1..]);
      InsertSorted(s[0], rest, kind);
    }
  }

  /** Every two records have equal keys, so `<=>` answers 0 between them whatever their class. */
  predicate KeysAllEqual(records: seq<Value>) {
    forall i, j | 0 <= i < j < |records| :: KeyOf(records[i]) == KeyOf(records[j])
  }

  /**
   * sort_by: no comparison for fewer than two records. Otherwise the keys
   * must all be Strings, all Integers or all nil, or else all equal: keys
   * of different classes make `<=>` answer nil and sort_by raise
   * ArgumentError; unequal keys of any other class are taken here as
   * incomparable in the same way, Arrays included, which Ruby would compare
   * element by element. A sort compares every two records that end up next
   * to each other. All-equal keys leave the records as they are, one
   * of the orders Ruby may give.
   */
  function SortItems(records: seq<Value>): Result<seq<Value>> {
    if |records| <= 1 then Ok(records)
    else
      var kind := KeyKind(KeyOf(records[0]));
      if kind < 3 && OfKind(records, kind) then Ok(SortByKey(records))
      else if KeysAllEqual(records) then Ok(records)
      else Err(ArgumentError)
  }

  lemma {:induction false} SortItemsOrders(records: seq<Value>)
    ensures SortItems(records).Ok? <==>
      |records| <= 1 || (exists kind | 0 <= kind < 3 :: OfKind(records, kind)) || KeysAllEqual(records)
    ensures SortItems(records).Ok? ==>
      SortedByKey(SortItems(records).value) && multiset(SortItems(records).value) == multiset(records)
  {
    if |records| >= 2 {
      var kind := KeyKind(KeyOf(records[0]));
      assert records[0] in records;
      if kind < 3 && OfKind(records, kind) {
        SortByKeySorted(records, kind);
      } else if KeysAllEqual(records) {
        AllEqualSorted(records);
      }
    }
  }

  /** Records whose keys are all equal and not all Strings, Integers or nils are already in order. */
  lemma AllEqualSorted(records: seq<Value>)
    requires |records| >= 2 && KeysAllEqual(records)
    requires !(KeyKind(KeyOf(records[0])) < 3 && OfKind(records, KeyKind(KeyOf(records[0]))))
    ensures SortedByKey(records)
  {
    forall e | e in records
      ensures KeyOf(e) == KeyOf(records[0])
    {
      var m :| 0 <= m < |records| && records[m] == e;
      if m > 0 {
        assert KeyOf(records[0]) == KeyOf(records[m]);
      }
    }
    assert KeyKind(KeyOf(records[0])) == 3;
  }

  /** get_interface_items' result for the answer: nil when no record is kept. */
  function InterfaceItemsOf(ext: Externals, answer: Result<Value>): Result<Value> {
    var result :- answer;
    var records :- Elements(result);
    var kept :- SelectOids(ext, records);
    var sorted :- SortItems(kept);
    if sorted == [] then Ok(Nil) else Ok(List(sorted))
  }

  function InterfaceItemsRun(ext: Externals, hostid: Value, name: Value, xs: seq<Exchange>): Option<Result<Value>> {
    match CallRun(InterfaceItemsCall(hostid, name), xs)
    case None => None
    case Some(answer) => Some(InterfaceItemsOf(ext, answer))
  }

  /**
   * For a list answer: nil exactly when no record's OID matches; otherwise
   * the matching records and only those, all of them, ordered by `key_`.
   */
  lemma {:induction false} InterfaceItemsAreMatchingInOrder(ext: Externals, records: seq<Value>, v: Value)
    requires InterfaceItemsOf(ext, Ok(List(records))) == Ok(v)
    ensures forall i | 0 <= i < |records| :: Testable(records[i])
    ensures v == Nil <==> forall i | 0 <= i < |records| :: !Wanted(ext, records[i])
    ensures v != Nil ==> v.List? && SortedByKey(v.items)
    ensures v != Nil ==> forall e | e in v.items :: e in records && Wanted(ext, e)
    ensures v != Nil ==> forall i | 0 <= i < |records| :: Wanted(ext, records[i]) ==> records[i] in v.items
    ensures v != Nil ==> forall e :: multiset(v.items)[e] == if Wanted(ext, e) then multiset(records)[e] else 0
  {
    var kept := SelectOids(ext, records).value;
    SortItemsOrders(kept);
    var sorted := SortItems(kept).value;
    SelectOidsCounts(ext, records);
    assert forall e | e in sorted :: e in multiset(kept);
    assert forall e | e in kept :: e in multiset(sorted);
    if v == Nil {
      assert sorted == [] && kept == [];
    } else {
      assert kept != [] && kept[0] in kept;
    }
  }

  // ---------------------------------------------------------------------
  // create_dns_item

  /** The item's name label; the non-ASCII characters of the label are `?` in the text this model follows. */
  const DnsItemLabel := "???DNS?????????????????????"
  const DnsCreatedReport := "???????????? dns?????? "
  const DnsFailedReport := "?????? dns?????? "

  function DnsItemCall(ext: Externals, hostid: Value, dns: Value): Request {
    Request("item.create", Hash(map[
      Sym("hostid") := hostid,
      Sym("name") := Text(DnsItemLabel + ToS(ext, dns)),
      Sym("key_") := Text("net.dns.record[," + ToS(ext, dns) + ",A,2,2]"),
      Sym("type") := Int(0),
      Sym("value_type") := Int(1),
      Sym("delay") := Text("1m"),
      Sym("history") := Text("90d"),
      Sym("lifetime") := Text("30d"),
      Sym("timeout") := Text("3s")]))
  }

  /** What create_dns_item returns: the string `p` printed, for success or for a rescued error. */
  function DnsReport(ext: Externals, dns: Value, answer: Result<Value>): string {
    if answer.Ok? then DnsCreatedReport + ToS(ext, dns)
    else DnsFailedReport + ToS(ext, dns) + " ??????"
  }

  /** The two reports differ for every name, so the return value tells success from failure. */
  lemma DnsReportTellsOutcome(ext: Externals, dns: Value, v: Value, e: Error)
    ensures DnsReport(ext, dns, Ok(v)) != DnsReport(ext, dns, Err(e))
  {
    assert DnsReport(ext, dns, Ok(v))[6] == '?';
    assert DnsReport(ext, dns, Err(e))[6] == ' ';
  }

  /** The DNS check is a zabbix-agent A-record look-up of the name, text-valued, every minute. */
  lemma DnsItemKey(ext: Externals, hostid: Value, dns: string)
    ensures var p := DnsItemCall(ext, hostid, Text(dns)).params.entries;
      p[Sym("key_")] == Text("net.dns.record[," + dns + ",A,2,2]")
      && p[Sym("type")] == Int(0) && p[Sym("value_type")] == Int(1) && p[Sym("delay")] == Text("1m")
      && p[Sym("hostid")] == hostid
  {
  }

  class Items {
    const base: Basic

    constructor(client: Client, ext: Externals)
      ensures base.kind == Item && base.client == client && base.ext == ext
    {
      base := new Basic(Item, client, ext);
    }

    method GetOrCreate(data: Fields) returns (r: Result<Value>)
      requires base.kind == Item
      modifies base.client.server
      ensures Extends(old(base.client.server.log), base.client.server.log)
      ensures GetOrCreateFrom(Item, base.ext, ItemQuery(data), data,
                              base.client.server.Since(old(|base.client.server.log|))) == Some(r)
    {
      r := base.GetOrCreateBy(ItemQuery(data), data);
    }

    /** create_or_update merges the found id as an Integer `itemid`. */
    method CreateOrUpdate(data: Fields) returns (r: Result<Value>)
      requires base.kind == Item
      modifies base.client.server
      ensures Extends(old(base.client.server.log), base.client.server.log)
      ensures CreateOrUpdateFrom(Item, base.ext, ItemQuery(data), data, false,
                                 base.client.server.Since(old(|base.client.server.log|))) == Some(r)
    {
      r := base.CreateOrUpdateBy(ItemQuery(data), data, false);
    }

    method GetInterfaceItems(hostid: Value, name: Value) returns (r: Result<Value>)
      modifies base.client.server
      ensures Extends(old(base.client.server.log), base.client.server.log)
      ensures InterfaceItemsRun(base.ext, hostid, name, base.client.server.Since(old(|base.client.server.log|))) == Some(r)
    {
      var result := base.Call(InterfaceItemsCall(hostid, name));
      if result.Err? {
        return result;
      }
      r := InterfaceItemsOf(base.ext, result);
    }

    /** create_dns_item: one `item.create`; an error is rescued into the failure report. */
    method CreateDnsItem(hostid: Value, dns: Value) returns (r: string)
      modifies base.client.server
      ensures Extends(old(base.client.server.log), base.client.server.log)
      ensures var xs := base.client.server.Since(old(|base.client.server.log|));
        |xs| == 1 && Sends(xs[0], DnsItemCall(base.ext, hostid, dns))
        && r == DnsReport(base.ext, dns, Outcome(xs[0]))
    {
      var call := DnsItemCall(base.ext, hostid, dns);
      var result := base.client.ApiRequest(call.name, call.params);
      r := DnsReport(base.ext, dns, result);
    }
  }
}
