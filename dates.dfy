/**
 * format_date and the date parsing the exporter relies on. Parsing, strftime
 * and month arithmetic are the host's; what is modelled is the branching.
 */
module Dates {
  import opened Results
  import opened PyValue

  /** dateparse(v): a string is parsed by the host; anything else is refused. */
  function ParseDate(host: Host, v: Value): (r: Result<Timestamp, Failure>)
    ensures r.Ok? <==> v.Str? && host.parseDate(v.s).Some?
    ensures r.Ok? ==> r.value == host.parseDate(v.s).value
    ensures v.Str? && r.Err? ==> r.error == ValueError(v.s)
  {
    match v
    case Str(s) =>
      (match host.parseDate(s)
       case Some(t) => Ok(t)
       case None => Err(ValueError(s)))
    case _ => Err(TypeError)
  }

  /**
   * format_date: falsy input gives None, a datetime is returned unchanged, and
   * anything else is parsed and printed as "%Y-%m-%d %H:%M:%S".
   */
  function FormatDate(host: Host, v: Value): (r: Result<Value, Failure>)
    ensures !Truthy(v) ==> r == Ok(Null)
    ensures v.DateTime? ==> r == Ok(v)
    ensures Truthy(v) && !v.DateTime? ==> (r.Ok? <==> ParseDate(host, v).Ok?)
    ensures r.Ok? && Truthy(v) && !v.DateTime? ==> r.value == Str(host.formatDate(ParseDate(host, v).value))
    ensures r.Err? ==> r.error == ParseDate(host, v).error
  {
    if !Truthy(v) then Ok(Null)
    else if v.DateTime? then Ok(v)
    else
      var t :- ParseDate(host, v);
      Ok(Str(host.formatDate(t)))
  }

  /** The host prints every datetime as a non-empty string it can parse back. */
  ghost predicate PrintsParseably(host: Host) {
    forall t :: host.formatDate(t) != [] && host.parseDate(host.formatDate(t)) == Some(t)
  }

  /** With such a host, formatting an already formatted date changes nothing. */
  lemma FormatDateIdempotent(host: Host, v: Value)
    requires PrintsParseably(host)
    requires FormatDate(host, v).Ok?
    ensures FormatDate(host, FormatDate(host, v).value) == FormatDate(host, v)
  {
    var r := FormatDate(host, v).value;
    if r.Str? {
      var t := ParseDate(host, v).value;
      assert host.formatDate(t) != [] && host.parseDate(host.formatDate(t)) == Some(t);
    }
  }
}
