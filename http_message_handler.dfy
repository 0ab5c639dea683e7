/** `GhaHttpMessageHandler` of the Microsoft Graph client library (`GhaHttpMessageHandler.js`):
    the Graph SDK middleware that sends each fetch-style request through `@actions/http-client`,
    converting the request body and headers on the way out and the response on the way back. */
module HttpMessageHandler {
  import opened Wrappers
  import opened JsStrings
  import opened HttpHeaders

  newtype byte = x: int | 0 <= x < 256

  // ---- request body ----

  /** The fetch `BodyInit` kinds the conversion tells apart. A `URLSearchParams` is given by the
      text its `toString()` yields; `BodyOther` stands for any other body (a readable stream, form
      data), identified by a tag. */
  datatype BodyInit =
    | BodyUndefined
    | BodyString(text: string)
    | BodyBuffer(bytes: seq<byte>)
    | BodyArrayBuffer(bytes: seq<byte>)
    | BodyView(buffer: seq<byte>, byteOffset: nat, byteLength: nat)
    | BodySearchParams(serialized: string)
    | BodyOther(tag: string)

  /** What `httpClient.request` is given as data: `null`, a string, a readable stream of bytes,
      or the body itself. */
  datatype RequestData = DataNull | DataString(text: string) | DataStream(bytes: seq<byte>) | DataOther(tag: string)

  /** `ArrayBuffer.prototype.slice(begin, end)` with non-negative bounds: both clamped to the
      buffer's length. */
  function SliceBuffer(buffer: seq<byte>, begin: nat, end: nat): (r: seq<byte>)
  {
    var b := if begin <= |buffer| then begin else |buffer|;
    var e := if end <= |buffer| then end else |buffer|;
    if b < e then buffer[b..e] else []
  }

  /** `bodyInitToData(body)`. */
  function BodyInitToData(body: BodyInit): RequestData
  {
    match body
    case BodyUndefined => DataNull
    case BodyString(text) => DataString(text)
    case BodyBuffer(bytes) => DataStream(bytes)
    case BodyArrayBuffer(bytes) => DataStream(bytes)
    case BodyView(buffer, byteOffset, byteLength) => DataStream(SliceBuffer(buffer, byteOffset, byteOffset + byteLength))
    case BodySearchParams(serialized) => DataString(serialized)
    case BodyOther(tag) => DataOther(tag)
  }

  /** No body is sent as `null`, text and search parameters as their text, every binary body as
      a stream of its bytes — for a view, exactly the bytes from its offset for its length — and
      any other body as itself. */
  lemma BodyInitToDataContract(body: BodyInit)
    ensures var data := BodyInitToData(body);
            && (data.DataNull? <==> body.BodyUndefined?)
            && (body.BodyString? ==> data == DataString(body.text))
            && (body.BodySearchParams? ==> data == DataString(body.serialized))
            && (body.BodyBuffer? || body.BodyArrayBuffer? ==> data == DataStream(body.bytes))
            && (body.BodyView? && body.byteOffset + body.byteLength <= |body.buffer| ==>
                  && data == DataStream(body.buffer[body.byteOffset..body.byteOffset + body.byteLength])
                  && |data.bytes| == body.byteLength)
            && (body.BodyOther? ==> data == DataOther(body.tag))
  {
  }

  // ---- request headers ----

  /** The fetch `HeadersInit` kinds: `[name, ...values]` arrays, a node-fetch `Headers` object
      (given by what its `raw()` returns), another iterable of `[name, ...values]` entries, and a
      plain record of strings. */
  datatype HeadersInit =
    | HeadersUndefined
    | HeadersArray(entries: seq<seq<string>>)
    | HeadersFetch(raw: map<string, seq<string>>)
    | HeadersIterable(parts: seq<seq<string>>)
    | HeadersRecord(record: map<string, string>)

  /** A value of node's `OutgoingHttpHeaders`. */
  datatype OutValue = OutStr(s: string) | OutList(values: seq<string>)

  type OutHeaders = map<string, OutValue>

  /** `Object.fromEntries(entries)`: a later entry for a name replaces an earlier one. */
  function FromEntries<V>(entries: seq<(string, V)>): map<string, V>
  {
    if entries == [] then map[]
    else FromEntries(entries[..|entries| - 1])[entries[|entries| - 1].0 := entries[|entries| - 1].1]
  }

  /** `Object.fromEntries` holds exactly the names of its entries, each with the value of the LAST
      entry of that name. */
  lemma {:induction false} LaterDuplicatesWin<V>(entries: seq<(string, V)>, name: string)
    ensures name in FromEntries(entries) <==> exists i :: 0 <= i < |entries| && entries[i].0 == name
    ensures forall i :: 0 <= i < |entries| && entries[i].0 == name && (forall j :: i < j < |entries| ==> entries[j].0 != name)
              ==> name in FromEntries(entries) && FromEntries(entries)[name] == entries[i].1
  {
    if entries != [] {
      var init := entries[..|entries| - 1];
      LaterDuplicatesWin(init, name);
      forall i | 0 <= i < |init| && init[i].0 == name
        ensures exists k :: 0 <= k < |entries| && entries[k].0 == name
      {
        assert entries[i].0 == name;
      }
      if name != entries[|entries| - 1].0 {
        forall i | 0 <= i < |entries| && entries[i].0 == name
          ensures exists k :: 0 <= k < |init| && init[k].0 == name
        {
          assert init[i].0 == name;
        }
      }
    }
  }

  /** The name of a `[key, ...values]` entry: an empty entry has `undefined` for its key, which
      `Object.fromEntries` turns into the property name "undefined". */
  function EntryKey(entry: seq<string>): string
  {
    if entry == [] then "undefined" else entry[0]
  }

  /** The array branch: each `[key, ...values]` becomes `key` → the values joined with '\n'. */
  function ArrayEntries(entries: seq<seq<string>>): (r: seq<(string, OutValue)>)
    ensures |r| == |entries|
    ensures forall i :: 0 <= i < |entries| ==> r[i] == (EntryKey(entries[i]), OutStr(Join(if entries[i] == [] then [] else entries[i][1..], "\n")))
  {
    if entries == [] then []
    else
      var last := entries[|entries| - 1];
      ArrayEntries(entries[..|entries| - 1]) + [(EntryKey(last), OutStr(Join(if last == [] then [] else last[1..], "\n")))]
  }

  /** The value an iterable entry's remaining parts give: one part unwrapped, otherwise the array. */
  function PartsValue(values: seq<string>): OutValue
  {
    if |values| == 1 then OutStr(values[0]) else OutList(values)
  }

  /** The entry one iterable entry contributes: none when its name (its first part) is absent
      or empty. */
  function NamedEntry(entry: seq<string>): seq<(string, OutValue)>
  {
    if |entry| >= 1 && entry[0] != "" then [(entry[0], PartsValue(entry[1..]))] else []
  }

  /** `outHeaderEntries` of the iterable branch, entry by entry. */
  function NamedEntries(parts: seq<seq<string>>): seq<(string, OutValue)>
  {
    if parts == [] then []
    else NamedEntries(parts[..|parts| - 1]) + NamedEntry(parts[|parts| - 1])
  }

  /** The iterable branch keeps exactly the entries with a non-empty name, in order, and nothing
      is made up: every kept entry is some input entry's name with its parts after the first. */
  lemma {:induction false} NamedEntriesContract(parts: seq<seq<string>>)
    ensures |NamedEntries(parts)| <= |parts|
    ensures forall k :: 0 <= k < |NamedEntries(parts)| ==>
              exists i :: 0 <= i < |parts| && |parts[i]| >= 1 && parts[i][0] != ""
                       && NamedEntries(parts)[k] == (parts[i][0], PartsValue(parts[i][1..]))
    ensures (forall i :: 0 <= i < |parts| ==> |parts[i]| >= 1 && parts[i][0] != "") ==> |NamedEntries(parts)| == |parts|
  {
    if parts != [] {
      var init := parts[..|parts| - 1];
      NamedEntriesContract(init);
      forall k | 0 <= k < |NamedEntries(parts)|
        ensures exists i :: 0 <= i < |parts| && |parts[i]| >= 1 && parts[i][0] != ""
                         && NamedEntries(parts)[k] == (parts[i][0], PartsValue(parts[i][1..]))
      {
        if k < |NamedEntries(init)| {
          var i :| 0 <= i < |init| && |init[i]| >= 1 && init[i][0] != ""
                   && NamedEntries(init)[k] == (init[i][0], PartsValue(init[i][1..]));
          assert parts[i] == init[i];
        } else {
          assert parts[|parts| - 1][0] != "";
        }
      }
    }
  }

  /** `headersInitToOutgoingHeaders(headers)` as a value. */
  function OutgoingHeaders(headers: HeadersInit): Option<OutHeaders>
  {
    match headers
    case HeadersUndefined => None
    case HeadersArray(entries) => Some(FromEntries(ArrayEntries(entries)))
    case HeadersFetch(raw) => Some(map name | name in raw :: OutList(raw[name]))
    case HeadersIterable(parts) => Some(FromEntries(NamedEntries(parts)))
    case HeadersRecord(record) => Some(map name | name in record :: OutStr(record[name]))
  }

  /** Undefined headers stay undefined; with array headers every key is present, holding the
      '\n'-joined values of its last entry; with iterable headers a name is present exactly when
      some entry has it as its non-empty first part, and holds the single remaining part as a
      string or several (or none) as an array, from the last such entry. */
  lemma OutgoingHeadersContract(headers: HeadersInit, name: string)
    ensures headers.HeadersUndefined? <==> OutgoingHeaders(headers).None?
    ensures headers.HeadersArray? ==>
              var es := headers.entries;
              && (name in OutgoingHeaders(headers).value <==> exists i :: 0 <= i < |es| && EntryKey(es[i]) == name)
              && forall i :: 0 <= i < |es| && EntryKey(es[i]) == name && (forall j :: i < j < |es| ==> EntryKey(es[j]) != name)
                   ==> OutgoingHeaders(headers).value[name] == OutStr(Join(if es[i] == [] then [] else es[i][1..], "\n"))
    ensures headers.HeadersIterable? && name != "" ==>
              var ps := headers.parts;
              && (name in OutgoingHeaders(headers).value <==> exists i :: 0 <= i < |ps| && Named(ps[i], name))
              && forall i :: 0 <= i < |ps| && Named(ps[i], name) && (forall j :: i < j < |ps| ==> !Named(ps[j], name))
                   ==> OutgoingHeaders(headers).value[name] == (if |ps[i]| == 2 then OutStr(ps[i][1]) else OutList(ps[i][1..]))
    ensures headers.HeadersIterable? ==> "" !in OutgoingHeaders(headers).value
  {
    if headers.HeadersArray? {
      var es := headers.entries;
      var entries := ArrayEntries(es);
      LaterDuplicatesWin(entries, name);
      forall i | 0 <= i < |es| && EntryKey(es[i]) == name && (forall j :: i < j < |es| ==> EntryKey(es[j]) != name)
        ensures OutgoingHeaders(headers).value[name] == OutStr(Join(if es[i] == [] then [] else es[i][1..], "\n"))
      {
        assert entries[i].0 == name;
        assert forall j :: i < j < |entries| ==> entries[j].0 != name;
      }
      if name in OutgoingHeaders(headers).value {
        var i :| 0 <= i < |entries| && entries[i].0 == name;
        assert EntryKey(es[i]) == name;
      }
    }
    if headers.HeadersIterable? {
      var ps := headers.parts;
      IterableNoEmptyName(ps);
      if name != "" {
        IterablePresent(ps, name);
        forall i | 0 <= i < |ps| && Named(ps[i], name) && (forall j :: i < j < |ps| ==> !Named(ps[j], name))
          ensures OutgoingHeaders(headers).value[name] == (if |ps[i]| == 2 then OutStr(ps[i][1]) else OutList(ps[i][1..]))
        {
          IterableLast(ps, name, i);
        }
      }
    }
  }

  /** An iterable entry whose first part is `name`. */
  predicate Named(entry: seq<string>, name: string)
  {
    |entry| >= 1 && entry[0] == name
  }

  /** The iterable branch's object after one more entry. */
  lemma IterableStep(parts: seq<seq<string>>)
    requires parts != []
    ensures var init := parts[..|parts| - 1];
            var last := parts[|parts| - 1];
            FromEntries(NamedEntries(parts))
            == if |last| >= 1 && last[0] != "" then FromEntries(NamedEntries(init))[last[0] := PartsValue(last[1..])]
               else FromEntries(NamedEntries(init))
  {
    FromEntriesAppend(NamedEntries(parts[..|parts| - 1]), NamedEntry(parts[|parts| - 1]));
  }

  /** A non-empty name is present exactly when some entry starts with it. */
  lemma {:induction false} IterablePresent(parts: seq<seq<string>>, name: string)
    requires name != ""
    ensures name in FromEntries(NamedEntries(parts)) <==> exists i :: 0 <= i < |parts| && Named(parts[i], name)
  {
    if parts != [] {
      var init := parts[..|parts| - 1];
      IterableStep(parts);
      IterablePresent(init, name);
      if exists i :: 0 <= i < |init| && Named(init[i], name) {
        var i :| 0 <= i < |init| && Named(init[i], name);
        assert Named(parts[i], name);
      }
      if !Named(parts[|parts| - 1], name) {
        if exists i :: 0 <= i < |parts| && Named(parts[i], name) {
          var i :| 0 <= i < |parts| && Named(parts[i], name);
          assert Named(init[i], name);
        }
      }
    }
  }

  /** A non-empty name holds the remaining parts of the last entry starting with it. */
  lemma {:induction false} IterableLast(parts: seq<seq<string>>, name: string, i: nat)
    requires name != "" && i < |parts| && Named(parts[i], name)
    requires forall j :: i < j < |parts| ==> !Named(parts[j], name)
    ensures name in FromEntries(NamedEntries(parts)) && FromEntries(NamedEntries(parts))[name] == PartsValue(parts[i][1..])
  {
    if i == |parts| - 1 {
      IterableAtLast(parts, name);
    } else {
      IterableLast(parts[..|parts| - 1], name, i);
      IterableKeeps(parts, name);
    }
  }

  /** An entry for `name` sets its value. */
  lemma IterableAtLast(parts: seq<seq<string>>, name: string)
    requires name != "" && parts != [] && Named(parts[|parts| - 1], name)
    ensures name in FromEntries(NamedEntries(parts))
    ensures FromEntries(NamedEntries(parts))[name] == PartsValue(parts[|parts| - 1][1..])
  {
    IterableStep(parts);
  }

  /** An entry for another name, or for none, keeps the value of `name`. */
  lemma IterableKeeps(parts: seq<seq<string>>, name: string)
    requires parts != [] && !Named(parts[|parts| - 1], name)
    requires name in FromEntries(NamedEntries(parts[..|parts| - 1]))
    ensures name in FromEntries(NamedEntries(parts))
    ensures FromEntries(NamedEntries(parts))[name] == FromEntries(NamedEntries(parts[..|parts| - 1]))[name]
  {
    IterableStep(parts);
  }

  /** No entry with an empty name is kept. */
  lemma {:induction false} IterableNoEmptyName(parts: seq<seq<string>>)
    ensures "" !in FromEntries(NamedEntries(parts))
  {
    if parts != [] {
      IterableStep(parts);
      IterableNoEmptyName(parts[..|parts| - 1]);
    }
  }

  /** Appending zero or one entry to `Object.fromEntries`'s input. */
  lemma FromEntriesAppend<V>(entries: seq<(string, V)>, more: seq<(string, V)>)
    requires |more| <= 1
    ensures more == [] ==> FromEntries(entries + more) == FromEntries(entries)
    ensures |more| == 1 ==> FromEntries(entries + more) == FromEntries(entries)[more[0].0 := more[0].1]
  {
    if more == [] {
      assert entries + more == entries;
    } else {
      assert (entries + more)[..|entries + more| - 1] == entries;
    }
  }

  /** The iterable branch's loops: for each entry, the first part is the name and the others are
      collected, tracked by the `first` flag; an entry with a name is kept. */
  method IterableHeaderEntries(parts: seq<seq<string>>) returns (outHeaderEntries: seq<(string, OutValue)>)
    ensures outHeaderEntries == NamedEntries(parts)
  {
    outHeaderEntries := [];
    var k := 0;
    while k < |parts|
      invariant 0 <= k <= |parts|
      invariant outHeaderEntries == NamedEntries(parts[..k])
    {
      var entry := parts[k];
      var first := true;
      var name: Option<string> := None;
      var values: seq<string> := [];
      var j := 0;
      while j < |entry|
        invariant 0 <= j <= |entry|
        invariant first <==> j == 0
        invariant j == 0 ==> name.None? && values == []
        invariant j > 0 ==> name == Some(entry[0]) && values == entry[1..j]
      {
        if first {
          name := Some(entry[j]);
        } else {
          values := values + [entry[j]];
        }
        first := false;
        j := j + 1;
      }
      assert |entry| >= 1 ==> values == entry[1..];
      if name.Some? && name.value != "" {
        outHeaderEntries := outHeaderEntries + [(name.value, if |values| == 1 then OutStr(values[0]) else OutList(values))];
      }
      assert parts[..k + 1][..k] == parts[..k] && parts[..k + 1][k] == entry;
      k := k + 1;
    }
    assert parts[..k] == parts;
  }

  /** `headersInitToOutgoingHeaders(headers)`. */
  method HeadersInitToOutgoingHeaders(headers: HeadersInit) returns (r: Option<OutHeaders>)
    ensures r == OutgoingHeaders(headers)
  {
    match headers {
      case HeadersUndefined =>
        r := None;
      case HeadersArray(entries) =>
        r := Some(FromEntries(ArrayEntries(entries)));
      case HeadersFetch(raw) =>
        r := Some(map name | name in raw :: OutList(raw[name]));
      case HeadersIterable(parts) =>
        var outHeaderEntries := IterableHeaderEntries(parts);
        r := Some(FromEntries(outHeaderEntries));
      case HeadersRecord(record) =>
        r := Some(map name | name in record :: OutStr(record[name]));
    }
  }

  // ---- response ----

  /** An `HttpClientResponse` as far as the conversion reads it: its message's headers, status
      code and status message (either possibly absent), and the message itself as the body. */
  datatype ClientResponse = ClientResponse(headers: Headers, statusCode: Option<int>, statusMessage: Option<string>, body: string)

  /** The node-fetch `Response` built from it. */
  datatype FetchResponse = FetchResponse(body: string, headers: seq<(string, string)>, status: Option<int>, statusText: Option<string>)

  /** `[name, v]` for each of `values`, in order. */
  function Tagged(name: string, values: seq<string>): seq<(string, string)>
  {
    if values == [] then [] else Tagged(name, values[..|values| - 1]) + [(name, values[|values| - 1])]
  }

  /** `Tagged` pairs every value, in order, with the name. */
  lemma {:induction false} TaggedValues(name: string, values: seq<string>)
    ensures |Tagged(name, values)| == |values|
    ensures forall i :: 0 <= i < |values| ==> Tagged(name, values)[i] == (name, values[i])
  {
    if values != [] {
      TaggedValues(name, values[..|values| - 1]);
    }
  }

  /** The pairs one response header contributes: one per array element, else
      `[name, value || '']`. */
  function HeaderPairs(name: string, value: HeaderValue): seq<(string, string)>
  {
    match value
    case HArr(values) => Tagged(name, values)
    case HStr(s) => [(name, s)]
    case HUndefined => [(name, "")]
  }

  /** `headersArray`, header by header. */
  function FetchHeaders(headers: Headers): seq<(string, string)>
  {
    if headers == [] then []
    else FetchHeaders(headers[..|headers| - 1]) + HeaderPairs(headers[|headers| - 1].0, headers[|headers| - 1].1)
  }

  /** The values of a list of pairs, in order. */
  function PairValues(pairs: seq<(string, string)>): (vs: seq<string>)
    ensures |vs| == |pairs| && forall i :: 0 <= i < |pairs| ==> vs[i] == pairs[i].1
  {
    if pairs == [] then [] else [pairs[0].1] + PairValues(pairs[1..])
  }

  /** Each response header contributes pairs of its own name only, one per array element (one for
      any other value), and its values in order: joined with '\n' they are what MSAL's
      `simplifyHeaders` makes of the same header. */
  lemma HeaderPairsContract(name: string, value: HeaderValue)
    ensures var pairs := HeaderPairs(name, value);
            && (forall i :: 0 <= i < |pairs| ==> pairs[i].0 == name)
            && |pairs| == (if value.HArr? then |value.values| else 1)
            && (value.HArr? ==> PairValues(pairs) == value.values)
            && Join(PairValues(pairs), "\n") == SimplifyValue(value)
  {
    var pairs := HeaderPairs(name, value);
    if value.HArr? {
      TaggedValues(name, value.values);
      assert PairValues(pairs) == value.values;
    } else {
      assert PairValues(pairs) == [pairs[0].1];
    }
  }

  /** The headers are converted one after another: the pairs of a list of headers are those of
      its parts, in order, so every header's pairs sit together in its own position. */
  lemma {:induction false} FetchHeadersAppend(a: Headers, b: Headers)
    ensures FetchHeaders(a + b) == FetchHeaders(a) + FetchHeaders(b)
  {
    if b == [] {
      assert a + b == a;
    } else {
      var b' := b[..|b| - 1];
      var last := b[|b| - 1];
      FetchHeadersAppend(a, b');
      assert (a + b)[..|a + b| - 1] == a + b';
      assert (a + b)[|a + b| - 1] == last;
      Regroup(FetchHeaders(a), FetchHeaders(b'), HeaderPairs(last.0, last.1), FetchHeaders(a + b'), FetchHeaders(a + b),
        FetchHeaders(b));
    }
  }

  /** Sequence concatenation regrouped, over names for its parts. */
  lemma Regroup<T>(x: seq<T>, y: seq<T>, z: seq<T>, xy: seq<T>, whole: seq<T>, yz: seq<T>)
    requires xy == x + y && whole == xy + z && yz == y + z
    ensures whole == x + yz
  {
  }

  /** Where one header's pairs sit: after those of the headers before it, and before those of
      the headers after it. */
  lemma FetchHeadersAt(headers: Headers, i: nat)
    requires i < |headers|
    ensures FetchHeaders(headers)
            == FetchHeaders(headers[..i]) + HeaderPairs(headers[i].0, headers[i].1) + FetchHeaders(headers[i + 1..])
  {
    var pre, h, post := headers[..i], headers[i], headers[i + 1..];
    SplitAt(headers, i);
    FetchHeadersAppend(pre + [h], post);
    FetchHeadersAppend(pre, [h]);
    assert [h][..0] == [];
    assert FetchHeaders([h]) == HeaderPairs(h.0, h.1);
  }

  /** One more header converted. */
  lemma FetchHeadersStep(headers: Headers, k: nat)
    requires k < |headers|
    ensures FetchHeaders(headers[..k + 1]) == FetchHeaders(headers[..k]) + HeaderPairs(headers[k].0, headers[k].1)
  {
    assert headers[..k + 1][..k] == headers[..k];
  }

  /** A sequence around one of its elements. */
  lemma SplitAt<T>(s: seq<T>, i: nat)
    requires i < |s|
    ensures s == (s[..i] + [s[i]]) + s[i + 1..]
  {
  }

  /** `httpClientResponseToFetchResponse(response)`: the header loops, and the status and status
      text copied. */
  method HttpClientResponseToFetchResponse(response: ClientResponse) returns (r: FetchResponse)
    ensures r.headers == FetchHeaders(response.headers)
    ensures r.status == response.statusCode && r.statusText == response.statusMessage
    ensures r.body == response.body
  {
    var headers := response.headers;
    var headersArray: seq<(string, string)> := [];
    var k := 0;
    while k < |headers|
      invariant 0 <= k <= |headers|
      invariant headersArray == FetchHeaders(headers[..k])
    {
      var (name, value) := headers[k];
      if value.HArr? {
        var base := headersArray;
        var j := 0;
        while j < |value.values|
          invariant 0 <= j <= |value.values|
          invariant headersArray == base + Tagged(name, value.values[..j])
        {
          headersArray := headersArray + [(name, value.values[j])];
          assert value.values[..j + 1][..j] == value.values[..j];
          j := j + 1;
        }
        assert value.values[..j] == value.values;
      } else {
        headersArray := headersArray + [(name, if value.HStr? then value.s else "")];
      }
      FetchHeadersStep(headers, k);
      k := k + 1;
    }
    assert headers[..k] == headers;
    r := FetchResponse(response.body, headersArray, response.statusCode, response.statusMessage);
  }

  // ---- execute ----

  /** The fetch `RequestInit` of a request (`verb` is its `method`); absent members are `None` or
      undefined. */
  datatype RequestInit = RequestInit(verb: Option<string>, body: BodyInit, headers: HeadersInit)

  /** One `httpClient.request(method, url, data, headers)`. */
  datatype RequestCall = RequestCall(verb: string, url: string, data: RequestData, headers: Option<OutHeaders>)

  /** The Graph middleware context: the request and its options, and the response slot. */
  class Context {
    const request: string
    const options: Option<RequestInit>
    var response: Option<FetchResponse>

    constructor (request: string, options: Option<RequestInit>)
      ensures this.request == request && this.options == options && response.None?
    {
      this.request := request;
      this.options := options;
      response := None;
    }
  }

  /** `const { method = 'GET', body, headers } = options || {}`: the method of the options when
      given, else GET. */
  function MethodOf(options: Option<RequestInit>): (m: string)
    ensures options.Some? && options.value.verb.Some? ==> m == options.value.verb.value
    ensures options.None? || options.value.verb.None? ==> m == "GET"
  {
    if options.Some? && options.value.verb.Some? then options.value.verb.value else "GET"
  }

  /** The request `execute` makes for some options. */
  function CallFor(url: string, options: Option<RequestInit>): RequestCall
  {
    var body := if options.Some? then options.value.body else BodyUndefined;
    var headers := if options.Some? then options.value.headers else HeadersUndefined;
    RequestCall(MethodOf(options), url, BodyInitToData(body), OutgoingHeaders(headers))
  }

  class Handler {
    /** The `@actions/http-client` client: a request is answered or rejected. */
    const send: RequestCall -> Result<ClientResponse>

    constructor (send: RequestCall -> Result<ClientResponse>)
      ensures this.send == send
    {
      this.send := send;
    }

    /** `execute(context)`: one request with the converted method, URL, body and headers; the
        converted response is stored in the context, which is left as it was when the client
        rejects. */
    method Execute(context: Context) returns (r: Result<()>)
      modifies context
      ensures var answer := send(CallFor(context.request, context.options));
              && (answer.Err? ==> r == Err(answer.error) && context.response == old(context.response))
              && (answer.Ok? ==>
                    && r == Ok(())
                    && context.response.Some?
                    && context.response.value.headers == FetchHeaders(answer.value.headers)
                    && context.response.value.status == answer.value.statusCode
                    && context.response.value.statusText == answer.value.statusMessage
                    && context.response.value.body == answer.value.body)
    {
      var options := context.options;
      var verb := if options.Some? && options.value.verb.Some? then options.value.verb.value else "GET";
      var body := if options.Some? then options.value.body else BodyUndefined;
      var requHeaders := if options.Some? then options.value.headers else HeadersUndefined;
      var requData := BodyInitToData(body);
      var outHeaders := HeadersInitToOutgoingHeaders(requHeaders);
      var resp := send(RequestCall(verb, context.request, requData, outHeaders));
      if resp.Err? {
        return Err(resp.error);
      }
      var response := HttpClientResponseToFetchResponse(resp.value);
      context.response := Some(response);
      r := Ok(());
    }
  }
}
