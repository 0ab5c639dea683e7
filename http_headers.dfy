/** HTTP header values as Node's `IncomingHttpHeaders` holds them, and their flattening to the
    string-valued headers MSAL's network responses carry (`simplifyHeaders`). */
module HttpHeaders {
  import opened JsStrings

  /** A property of an `IncomingHttpHeaders` object: a string, an array of strings or `undefined`. */
  datatype HeaderValue = HStr(s: string) | HArr(values: seq<string>) | HUndefined

  /** A header object as its `Object.entries`, in property order. */
  type Headers = seq<(string, HeaderValue)>

  /** The names of a list of header entries, in order. */
  function Names<V>(h: seq<(string, V)>): (names: seq<string>)
    ensures |names| == |h| && forall i :: 0 <= i < |h| ==> names[i] == h[i].0
  {
    if h == [] then [] else [h[0].0] + Names(h[1..])
  }

  /** One header object value flattened to a string: a string stays itself, an array is joined
      with '\n', anything else becomes "". */
  function SimplifyValue(v: HeaderValue): string
  {
    match v
    case HStr(s) => s
    case HArr(values) => Join(values, "\n")
    case HUndefined => ""
  }

  /** `Object.fromEntries(Object.entries(headers).map(...))` of `simplifyHeaders`: the same
      names in the same order, each value flattened by `SimplifyValue`. */
  function SimplifyHeaders(h: Headers): (r: seq<(string, string)>)
    ensures Names(r) == Names(h)
    ensures |r| == |h| && forall i :: 0 <= i < |h| ==> r[i].1 == SimplifyValue(h[i].1)
  {
    if h == [] then [] else [(h[0].0, SimplifyValue(h[0].1))] + SimplifyHeaders(h[1..])
  }

  /** A string-valued header keeps its value; an array-valued one becomes one line per value,
      recoverable by splitting on '\n' when no value holds a line break. */
  lemma SimplifiedValues(h: Headers, i: nat)
    requires i < |h|
    ensures h[i].1.HStr? ==> SimplifyHeaders(h)[i] == (h[i].0, h[i].1.s)
    ensures h[i].1.HArr? && |h[i].1.values| >= 1 && (forall j :: 0 <= j < |h[i].1.values| ==> '\n' !in h[i].1.values[j])
            ==> Split(SimplifyHeaders(h)[i].1, '\n') == h[i].1.values
    ensures h[i].1.HUndefined? ==> SimplifyHeaders(h)[i].1 == ""
  {
    if h[i].1.HArr? && |h[i].1.values| >= 1 && (forall j :: 0 <= j < |h[i].1.values| ==> '\n' !in h[i].1.values[j]) {
      SplitJoin(h[i].1.values, '\n');
    }
  }
}
