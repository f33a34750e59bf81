/**
 * The code zabbix_manager calls but does not define here: the helpers of
 * lib/zabbix_manager/basic/basic_func.rb, Ruby's #inspect, and the OID
 * pattern of items.rb. Each is an arbitrary function; the helpers may
 * raise, which they do by answering Err.
 */
module External {
  import opened Values

  datatype Externals = Externals(
    /** merge_params(defaults, data) */
    mergeParams: (Value, Value) -> Result<Value>,
    /** parse_keys(result) */
    parseKeys: Value -> Result<Value>,
    /** hash_equals?(a, b) */
    hashEquals: (Value, Value) -> Result<bool>,
    /** symbolize_keys(data) */
    symbolizeKeys: Value -> Result<Value>,
    /** Object#inspect, used when an array or hash is interpolated */
    inspect: Value -> string,
    /** `oid.match?(OID)` for the OID pattern of items.rb */
    oidMatches: string -> bool)

  /** `"#{v}"`: the text string interpolation inserts for v. */
  function ToS(ext: Externals, v: Value): (s: string)
    ensures v.Text? ==> s == v.s
    ensures v.Nil? ==> s == ""
    ensures v.Int? ==> s == IntToS(v.i)
  {
    match v
    case Nil => ""
    case Bool(b) => if b then "true" else "false"
    case Int(n) => IntToS(n)
    case Text(t) => t
    case _ => ext.inspect(v)
  }
}
