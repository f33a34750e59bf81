/**
 * Ruby values as they travel through zabbix_manager: the caller's option
 * hashes, the JSON-RPC payloads built from them and the parsed answers of
 * the Zabbix server, together with the handful of core Ruby operations the
 * library applies to them (Hash#[], Array#[0], #each, #empty?, #to_i,
 * Integer#to_s, Array#flatten and JSON's key stringification).
 */
module Values {

  datatype Option<+T> = None | Some(value: T)

  /** A key of a Ruby Hash: a Symbol (`:name`) or a String (`"name"`). */
  datatype Key = Sym(name: string) | Str(name: string)

  /** The Ruby values that occur in requests and in parsed JSON answers. */
  datatype Value =
    | Nil
    | Bool(b: bool)
    | Int(i: int)
    | Text(s: string)
    | List(items: seq<Value>)
    | Hash(entries: map<Key, Value>)

  /** A Ruby Hash whose keys and values are modelled as above. */
  type Fields = map<Key, Value>

  /**
   * The exceptions the library raises or lets through. ManagerError and
   * HttpError are the library's own classes; the others are Ruby's.
   */
  datatype Error =
    | ManagerError(message: string)
      /** ManagerError raised by the client for an answer carrying "error";
          `request` is the redacted request that was sent. */
    | ApiError(error: Value, request: Fields, response: Value)
      /** ManagerError raised by the client for a 7.x server version. */
    | UnsupportedVersion(version: Value)
    | HttpError(code: string)
      /** No HTTP answer at all: connection refused, timeout, broken pipe. */
    | TransportFailure
    | TypeError
    | NoMethodError
    | ArgumentError
      /** Iteration over a non-empty Hash, whose order is not modelled. */
    | HashIteration

  datatype Result<+T> = Ok(value: T) | Err(error: Error) {
    predicate IsFailure() { Err? }
    function PropagateFailure<U>(): Result<U> requires Err? { Err(error) }
    function Extract(): T requires Ok? { value }
  }

  /** Ruby truthiness: everything except nil and false. */
  predicate Truthy(v: Value) {
    v != Nil && v != Bool(false)
  }

  /** `v || default`: v unless it is nil or false. */
  function OrElse(v: Value, default: Value): (r: Value)
    ensures Truthy(v) ==> r == v
    ensures !Truthy(v) ==> r == default
  {
    if Truthy(v) then v else default
  }

  /** Hash#[] on a hash: the stored value, or nil for a missing key. */
  function Get(h: Fields, k: Key): Value {
    if k in h then h[k] else Nil
  }

  predicate IsSubstring(t: string, s: string) {
    exists i | 0 <= i <= |s| :: t <= s[i..]
  }

  /** `v[k]` for a key k of any receiver. */
  function Index(v: Value, k: Key): (r: Result<Value>)
    ensures v.Hash? ==> r == Ok(Get(v.entries, k))
    ensures r.Ok? <==> v.Hash? || (v.Text? && k.Str?)
  {
    match v
    case Hash(m) => Ok(Get(m, k))
    // String#[](str) returns the argument when it occurs in the receiver
    case Text(s) =>
      if k.Str? then Ok(if IsSubstring(k.name, s) then Text(k.name) else Nil)
      else Err(TypeError)
    case List(_) => Err(TypeError)
    case Int(_) => Err(TypeError)
    case _ => Err(NoMethodError)
  }

  /** `v[0]`. Hash keys are never integers here, so a Hash answers nil. */
  function First(v: Value): (r: Result<Value>)
    ensures v.List? ==> r == Ok(if |v.items| > 0 then v.items[0] else Nil)
    ensures r.Err? <==> v.Nil? || v.Bool?
  {
    match v
    case List(xs) => Ok(if |xs| > 0 then xs[0] else Nil)
    case Hash(_) => Ok(Nil)
    case Text(s) => Ok(if |s| > 0 then Text(s[..1]) else Nil)
    case Int(n) => Ok(Int(n % 2))
    case _ => Err(NoMethodError)
  }

  /**
   * The elements `each`, `map` and `select` visit. Strings, integers, nil
   * and booleans do not respond to them.
   */
  function Elements(v: Value): (r: Result<seq<Value>>)
    ensures r.Ok? <==> v.List? || v == Hash(map[])
    ensures r.Ok? ==> r.value == (if v.List? then v.items else [])
  {
    match v
    case List(xs) => Ok(xs)
    case Hash(m) => if m == map[] then Ok([]) else Err(HashIteration)
    case _ => Err(NoMethodError)
  }

  /** The records of a server answer as the loops over it see them: every one a Hash. */
  predicate Records(records: seq<Value>) {
    forall m | 0 <= m < |records| :: records[m].Hash?
  }

  /** `v.empty?`. */
  function IsEmpty(v: Value): (r: Result<bool>)
    ensures r.Ok? <==> v.List? || v.Hash? || v.Text?
    ensures v.List? ==> r == Ok(|v.items| == 0)
  {
    match v
    case List(xs) => Ok(|xs| == 0)
    case Hash(m) => Ok(m == map[])
    case Text(s) => Ok(s == "")
    case _ => Err(NoMethodError)
  }

  /** `v[k] = x` on a receiver of any class. */
  function StoreKey(v: Value, k: Key, x: Value): (r: Result<Value>)
    ensures r.Ok? <==> v.Hash?
    ensures r.Ok? ==> r.value == Hash(v.entries[k := x])
  {
    match v
    case Hash(m) => Ok(Hash(m[k := x]))
    case List(_) => Err(TypeError)
    case Text(_) => Err(TypeError)
    case _ => Err(NoMethodError)
  }

  // ---------------------------------------------------------------------
  // Decimal integers: Integer#to_s and String#to_i

  predicate IsDigit(c: char) { '0' as int <= c as int <= '9' as int }

  predicate IsSpace(c: char) {
    c == ' ' || c == '\t' || c == '\n' || c == '\r' || c as int == 11 || c as int == 12
  }

  function DigitChar(d: nat): char
    requires d < 10
  {
    "0123456789"[d]
  }

  /** The decimal digits of n, most significant first. */
  function NatToS(n: nat): (s: string)
    ensures |s| > 0
    ensures forall i | 0 <= i < |s| :: IsDigit(s[i])
    decreases n
  {
    if n < 10 then [DigitChar(n)] else NatToS(n / 10) + [DigitChar(n % 10)]
  }

  /** Integer#to_s. */
  function IntToS(n: int): string {
    if n < 0 then "-" + NatToS(-n) else NatToS(n)
  }

  /** The number a string of decimal digits denotes. */
  function DigitsValue(ds: string): nat
    requires forall i | 0 <= i < |ds| :: IsDigit(ds[i])
  {
    if ds == [] then 0
    else
      assert IsDigit(ds[|ds| - 1]);
      DigitsValue(ds[..|ds| - 1]) * 10 + (ds[|ds| - 1] as int - '0' as int)
  }

  /**
   * The digits String#to_i takes after the first one: further digits, each
   * single underscore that stands between two digits being skipped.
   */
  function MoreDigits(s: string): (ds: string)
    ensures forall i | 0 <= i < |ds| :: IsDigit(ds[i])
  {
    if |s| > 0 && IsDigit(s[0]) then [s[0]] + MoreDigits(s[1..])
    else if |s| > 1 && s[0] == '_' && IsDigit(s[1]) then [s[1]] + MoreDigits(s[2..])
    else ""
  }

  /** The digits of the longest numeric prefix of s. */
  function DigitRun(s: string): (ds: string)
    ensures forall i | 0 <= i < |ds| :: IsDigit(ds[i])
  {
    if |s| > 0 && IsDigit(s[0]) then [s[0]] + MoreDigits(s[1..]) else ""
  }

  function SkipSpace(s: string): (t: string)
    ensures |t| <= |s|
    ensures |t| > 0 ==> !IsSpace(t[0])
  {
    if |s| > 0 && IsSpace(s[0]) then SkipSpace(s[1..]) else s
  }

  /** The optional base-10 prefix `0d` or `0D`, skipped. */
  function Unprefixed(t: string): (u: string)
    ensures u == t || (|t| >= 2 && t[0] == '0' && (t[1] == 'd' || t[1] == 'D') && u == t[2..])
  {
    if |t| >= 2 && t[0] == '0' && (t[1] == 'd' || t[1] == 'D') then t[2..] else t
  }

  /**
   * String#to_i: leading white space, an optional sign, an optional `0d`
   * prefix, then the longest decimal prefix; 0 when there is no digit.
   */
  function StrToI(s: string): int {
    var t := SkipSpace(s);
    if |t| > 0 && t[0] == '-' then -(DigitsValue(DigitRun(Unprefixed(t[1..]))) as int)
    else if |t| > 0 && t[0] == '+' then DigitsValue(DigitRun(Unprefixed(t[1..])))
    else DigitsValue(DigitRun(Unprefixed(t)))
  }

  /** The base-10 prefix is read: `"0d12".to_i == 12` and `"-0D5".to_i == -5`. */
  lemma DecimalPrefixRead()
    ensures StrToI("0d12") == 12 && StrToI("-0D5") == -5
  {
    assert SkipSpace("0d12") == "0d12";
    assert Unprefixed("0d12") == "12";
    assert DigitRun("12") == "12";
    assert DigitsValue("12") == 12 by {
      assert "12"[..1] == "1";
    }
    assert SkipSpace("-0D5") == "-0D5";
    assert "-0D5"[1..] == "0D5";
    assert Unprefixed("0D5") == "5";
    assert DigitRun("5") == "5";
  }

  /** Ruby's #to_i as nil, integers and strings answer it. */
  function ToI(v: Value): (r: Result<int>)
    ensures r.Ok? <==> v.Nil? || v.Int? || v.Text?
    ensures v.Int? ==> r == Ok(v.i)
    ensures v.Nil? ==> r == Ok(0)
  {
    match v
    case Nil => Ok(0)
    case Int(n) => Ok(n)
    case Text(s) => Ok(StrToI(s))
    case _ => Err(NoMethodError)
  }

  lemma {:induction false} MoreDigitsOfDigits(s: string)
    requires forall i | 0 <= i < |s| :: IsDigit(s[i])
    ensures MoreDigits(s) == s
    decreases |s|
  {
    if |s| > 0 {
      MoreDigitsOfDigits(s[1..]);
      assert s == [s[0]] + s[1..];
    }
  }

  lemma {:induction false} DigitsValueOfNatToS(n: nat)
    ensures DigitsValue(NatToS(n)) == n
    decreases n
  {
    if n >= 10 {
      DigitsValueOfNatToS(n / 10);
      var s := NatToS(n / 10) + [DigitChar(n % 10)];
      assert s[..|s| - 1] == NatToS(n / 10);
    }
  }

  /** The digits Integer#to_s writes carry no prefix and are read whole. */
  lemma DigitRunOfNatToS(m: nat)
    ensures DigitRun(Unprefixed(NatToS(m))) == NatToS(m)
  {
    var ds := NatToS(m);
    MoreDigitsOfDigits(ds[1..]);
    assert ds == [ds[0]] + ds[1..];
    assert DigitRun(ds) == ds;
    if |ds| >= 2 {
      assert IsDigit(ds[1]);
    }
  }

  /** String#to_i reads back what Integer#to_s wrote. */
  lemma {:induction false} StrToIOfIntToS(n: int)
    ensures StrToI(IntToS(n)) == n
  {
    var m: nat := if n < 0 then -n else n;
    var ds := NatToS(m);
    DigitRunOfNatToS(m);
    DigitsValueOfNatToS(m);
    if n < 0 {
      assert SkipSpace(IntToS(n)) == IntToS(n);
      assert IntToS(n)[1..] == ds;
    } else {
      assert SkipSpace(ds) == ds;
    }
  }

  // ---------------------------------------------------------------------
  // Array#flatten

  /** The elements of xs with nested arrays spliced in, recursively. */
  function FlattenAll(xs: seq<Value>): (r: seq<Value>)
    ensures forall i | 0 <= i < |r| :: !r[i].List?
  {
    if xs == [] then []
    else (if xs[0].List? then FlattenAll(xs[0].items) else [xs[0]]) + FlattenAll(xs[1..])
  }

  /** `[v].flatten`. */
  function Flatten(v: Value): (r: seq<Value>)
    ensures !v.List? ==> r == [v]
    ensures forall i | 0 <= i < |r| :: !r[i].List?
  {
    assert FlattenAll([v]) == (if v.List? then FlattenAll(v.items) else [v]) + FlattenAll([]);
    FlattenAll([v])
  }

  lemma {:induction false} FlattenAllFlat(xs: seq<Value>)
    requires forall i | 0 <= i < |xs| :: !xs[i].List?
    ensures FlattenAll(xs) == xs
  {
    if xs != [] {
      FlattenAllFlat(xs[1..]);
      assert xs == [xs[0]] + xs[1..];
    }
  }

  /** Flattening an already flat array changes nothing. */
  lemma FlattenIdempotent(v: Value)
    ensures Flatten(List(Flatten(v))) == Flatten(v)
  {
    var r := Flatten(v);
    FlattenAllFlat(r);
    assert FlattenAll([List(r)]) == FlattenAll(r) + FlattenAll([]);
  }

  // ---------------------------------------------------------------------
  // JSON: what the other side of a JSON round trip sees

  function KeyNames(m: Fields): set<string> {
    set k | k in m :: k.name
  }

  /**
   * `JSON.parse(JSON.generate(v))`: every hash key becomes a String. When a
   * hash holds both `:k` and `"k"`, the string key's value is kept.
   */
  function Wire(v: Value): Value
    decreases v, 1
  {
    match v
    case List(xs) => List(seq(|xs|, i requires 0 <= i < |xs| => Wire(xs[i])))
    case Hash(m) => Hash(WireFields(m))
    case _ => v
  }

  /** The JSON round trip of a hash, as a hash. */
  function WireFields(m: Fields): (r: Fields)
    ensures forall k | k in r :: k.Str?
    ensures forall n :: Str(n) in r <==> Str(n) in m || Sym(n) in m
    decreases Hash(m), 0
  {
    assert forall n :: (Str(n) in m || Sym(n) in m) ==> n in KeyNames(m);
    map n | n in KeyNames(m) ::
      Str(n) := if Str(n) in m then Wire(m[Str(n)]) else Wire(m[Sym(n)])
  }

  /** A string key seen after the round trip, looked up on the sending side. */
  lemma WireGet(m: Fields, n: string)
    ensures Get(WireFields(m), Str(n))
         == (if Str(n) in m then Wire(m[Str(n)]) else Wire(Get(m, Sym(n))))
  {
    if Str(n) !in m && Sym(n) !in m {
      assert Str(n) !in WireFields(m);
    }
  }

  /** A symbol key without a string twin reaches the other side as a string key, its value round-tripped. */
  lemma WireSym(m: Fields, n: string)
    requires Sym(n) in m && Str(n) !in m
    ensures Str(n) in WireFields(m) && WireFields(m)[Str(n)] == Wire(m[Sym(n)])
  {
    WireGet(m, n);
  }
}
