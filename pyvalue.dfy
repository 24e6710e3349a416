/**
 * The Python values the exporter handles: decoded JSON records, the datetime
 * objects produced by date parsing, and the exceptions that abort an export.
 * A dict keeps its insertion order, because the raw exports list keys in that
 * order.
 */
module PyValue {
  import opened Results

  /** A datetime as the date-parsing library returns it. */
  datatype Timestamp = Timestamp(year: int, month: int, day: int, hour: int, minute: int, second: int)

  datatype Value =
    | Null
    | Bool(b: bool)
    | Int(i: int)
    | Float(r: real)
    | Str(s: string)
    | List(items: seq<Value>)
    | Dict(fields: seq<Entry>)
    | DateTime(t: Timestamp)

  /** One key/value pair of a dict, in insertion order. */
  datatype Entry = Entry(key: string, value: Value)

  /** The exceptions that can end an export or a request. */
  datatype Failure =
    | KeyError(key: Value)
    | TypeError
    | IndexError
    | AttributeError(name: string)
    /** Also what float() and dateutil's parser raise; for those the message is the rejected text. */
    | ValueError(message: string)
    /** chargify.APIError: the payload is kept in `data`, the message is str(data). */
    | ApiError(data: Value, message: string)
    | TransportError(detail: string)

  /**
   * The foreign libraries the exporter calls: dateutil's parser, strftime with
   * "%Y-%m-%d %H:%M:%S", relativedelta(months=1), float() on a string, and str()
   * of floats, containers and datetimes.
   */
  datatype Host = Host(
    parseDate: string -> Option<Timestamp>,
    formatDate: Timestamp -> string,
    addMonth: Timestamp -> Timestamp,
    parseFloat: string -> Option<real>,
    render: Value -> string)

  /** Python truthiness. */
  predicate Truthy(v: Value) {
    match v
    case Null => false
    case Bool(b) => b
    case Int(i) => i != 0
    case Float(r) => r != 0.0
    case Str(s) => s != []
    case List(xs) => xs != []
    case Dict(fs) => fs != []
    case DateTime(_) => true
  }

  /** Lists and dicts cannot be dict keys. */
  predicate Hashable(v: Value) {
    !v.List? && !v.Dict?
  }

  // ---------------------------------------------------------------------
  // Insertion-ordered dicts
  // ---------------------------------------------------------------------

  function Keys(fields: seq<Entry>): (ks: seq<string>)
    ensures |ks| == |fields|
    ensures forall j :: 0 <= j < |fields| ==> ks[j] == fields[j].key
  {
    if fields == [] then [] else [fields[0].key] + Keys(fields[1..])
  }

  function Values(fields: seq<Entry>): (vs: seq<Value>)
    ensures |vs| == |fields|
    ensures forall j :: 0 <= j < |fields| ==> vs[j] == fields[j].value
  {
    if fields == [] then [] else [fields[0].value] + Values(fields[1..])
  }

  predicate DistinctKeys(fields: seq<Entry>) {
    forall j, k :: 0 <= j < k < |fields| ==> fields[j].key != fields[k].key
  }

  /** d[k], or None when k is absent. */
  function Lookup(fields: seq<Entry>, k: string): (r: Option<Value>)
    ensures r.Some? <==> k in Keys(fields)
  {
    if fields == [] then None
    else if fields[0].key == k then Some(fields[0].value)
    else Lookup(fields[1..], k)
  }

  /** d[k] = v: an existing key keeps its position, a new key goes last. */
  function Put(fields: seq<Entry>, k: string, v: Value): (r: seq<Entry>)
    ensures k in Keys(fields) ==> |r| == |fields|
    ensures k !in Keys(fields) ==> |r| == |fields| + 1
  {
    if fields == [] then [Entry(k, v)]
    else if fields[0].key == k then [Entry(k, v)] + fields[1..]
    else [fields[0]] + Put(fields[1..], k, v)
  }

  lemma {:induction false} PutLookup(fields: seq<Entry>, k: string, v: Value, k': string)
    ensures Lookup(Put(fields, k, v), k') == if k' == k then Some(v) else Lookup(fields, k')
  {
    if fields != [] && fields[0].key != k {
      PutLookup(fields[1..], k, v, k');
    }
  }

  lemma {:induction false} PutKeys(fields: seq<Entry>, k: string, v: Value)
    ensures Keys(Put(fields, k, v)) == if k in Keys(fields) then Keys(fields) else Keys(fields) + [k]
  {
    if fields != [] && fields[0].key != k {
      PutKeys(fields[1..], k, v);
      assert Keys(fields) == [fields[0].key] + Keys(fields[1..]);
    }
  }

  /** Writing the same key twice leaves only the second write. */
  lemma {:induction false} PutPut(fields: seq<Entry>, k: string, v1: Value, v2: Value)
    ensures Put(Put(fields, k, v1), k, v2) == Put(fields, k, v2)
  {
    if fields != [] && fields[0].key != k {
      PutPut(fields[1..], k, v1, v2);
    }
  }

  lemma {:induction false} PutDistinct(fields: seq<Entry>, k: string, v: Value)
    requires DistinctKeys(fields)
    ensures DistinctKeys(Put(fields, k, v))
  {
    PutKeys(fields, k, v);
    var r := Put(fields, k, v);
    var ks := Keys(r);
    forall j, l | 0 <= j < l < |r| ensures r[j].key != r[l].key {
      assert ks[j] == r[j].key && ks[l] == r[l].key;
      if k in Keys(fields) {
        assert Keys(fields)[j] == fields[j].key && Keys(fields)[l] == fields[l].key;
      } else {
        if l < |fields| {
          assert Keys(fields)[j] == fields[j].key && Keys(fields)[l] == fields[l].key;
        } else {
          assert ks[l] == k && ks[j] == Keys(fields)[j];
        }
      }
    }
  }

  // ---------------------------------------------------------------------
  // Python operations that may raise
  // ---------------------------------------------------------------------

  /** v[k] with a string key. */
  function Get(v: Value, k: string): (r: Result<Value, Failure>)
    ensures r.Ok? <==> v.Dict? && k in Keys(v.fields)
    ensures r.Ok? ==> Lookup(v.fields, k) == Some(r.value)
    ensures v.Dict? && r.Err? ==> r.error == KeyError(Str(k))
    ensures !v.Dict? ==> r == Err(TypeError)
  {
    if v.Dict? then
      match Lookup(v.fields, k)
      case Some(x) => Ok(x)
      case None => Err(KeyError(Str(k)))
    else Err(TypeError)
  }

  /** v[i] for a small non-negative integer index. */
  function Index(v: Value, i: nat): Result<Value, Failure> {
    match v
    case List(xs) => if i < |xs| then Ok(xs[i]) else Err(IndexError)
    case Str(s) => if i < |s| then Ok(Str([s[i]])) else Err(IndexError)
    // dict keys are strings, so an integer key is never found
    case Dict(_) => Err(KeyError(Int(i)))
    case _ => Err(TypeError)
  }

  /** len(v). */
  function Len(v: Value): Result<nat, Failure> {
    match v
    case List(xs) => Ok(|xs|)
    case Str(s) => Ok(|s|)
    case Dict(fs) => Ok(|fs|)
    case _ => Err(TypeError)
  }

  /** v.append(x), returning the list as it is afterwards. */
  function Append(v: Value, x: Value): Result<Value, Failure> {
    if v.List? then Ok(List(v.items + [x])) else Err(AttributeError("append"))
  }

  /** What `for item in v` yields: list elements, dict keys or characters. */
  function Items(v: Value): (r: Result<seq<Value>, Failure>)
    ensures r.Ok? && Truthy(v) ==> r.value != []
    ensures r.Ok? && !Truthy(v) ==> r.value == []
  {
    match v
    case List(xs) => Ok(xs)
    case Dict(fs) => Ok(seq(|fs|, j requires 0 <= j < |fs| => Str(fs[j].key)))
    case Str(s) => Ok(seq(|s|, j requires 0 <= j < |s| => Str([s[j]])))
    case _ => Err(TypeError)
  }

  /** d[k] on a dict whose keys are arbitrary values. */
  function LookupKey<T>(m: map<Value, T>, k: Value): (r: Result<T, Failure>)
    ensures r.Ok? <==> Hashable(k) && k in m
    ensures r.Ok? ==> r.value == m[k]
    ensures Hashable(k) && k !in m ==> r == Err(KeyError(k))
  {
    if !Hashable(k) then Err(TypeError)
    else if k in m then Ok(m[k])
    else Err(KeyError(k))
  }

  /** float(v). */
  function ToFloat(host: Host, v: Value): Result<real, Failure> {
    match v
    case Int(i) => Ok(i as real)
    case Float(r) => Ok(r)
    case Bool(b) => Ok(if b then 1.0 else 0.0)
    case Str(s) =>
      (match host.parseFloat(s)
       case Some(r) => Ok(r)
       case None => Err(ValueError(s)))
    case _ => Err(TypeError)
  }

  function DigitChar(d: nat): char
    requires d < 10
  {
    "0123456789"[d]
  }

  function NatToString(n: nat): (s: string)
    ensures s != []
    decreases n
  {
    if n < 10 then [DigitChar(n)] else NatToString(n / 10) + [DigitChar(n % 10)]
  }

  /** str(v), as an f-string or %s renders it. */
  function PyStr(host: Host, v: Value): string {
    match v
    case Null => "None"
    case Bool(b) => if b then "True" else "False"
    case Int(i) => if i < 0 then "-" + NatToString(-i) else NatToString(i)
    case Str(s) => s
    case _ => host.render(v)
  }
}
