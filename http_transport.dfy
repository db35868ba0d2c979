/** The request side of src/core/http-transport.ts: the query string, the
    URL each verb builds, the timeout, and which body and headers an
    XMLHttpRequest is given. The network exchange itself is not part of
    this model: a request ends with the XHR opened, configured and sent. */
module Http {
  import opened Wrappers
  import opened Strings
  import opened MyDash

  datatype Method = Get | Post | Put | Delete

  /** A JavaScript value that is not an object. */
  type Primitive = v: JsValue | !v.Obj? witness Undefined

  /** `options.data`: a primitive (`undefined` when absent), a plain object
      given by its own entries in `Object.entries` order, or a `FormData`
      instance, which has no own enumerable entries. */
  datatype Payload =
    | Scalar(value: Primitive)
    | Record(entries: seq<(string, JsValue)>)
    | Form(fields: seq<(string, string)>)

  /** `if (data)`: objects are always truthy. */
  predicate PayloadTruthy(data: Payload)
  {
    match data
    case Scalar(v) => Truthy(v)
    case Record(_) => true
    case Form(_) => true
  }

  /** `${v}`, the template-literal text of a value; objects print as
      "[object Object]". */
  function Interpolate(v: JsValue): string
  {
    match v
    case Undefined => "undefined"
    case Null => "null"
    case Bool(b) => if b then "true" else "false"
    case Num(n) => if n < 0 then "-" + Decimal(-n) else Decimal(n)
    case Str(s) => s
    case Obj(_) => "[object Object]"
  }

  /** The `key=value` texts of the entries, unencoded. */
  function PairTexts(entries: seq<(string, JsValue)>): (texts: seq<string>)
    ensures |texts| == |entries|
    ensures forall i :: 0 <= i < |entries| ==> texts[i] == entries[i].0 + "=" + Interpolate(entries[i].1)
  {
    if |entries| == 0 then []
    else [entries[0].0 + "=" + Interpolate(entries[0].1)] + PairTexts(entries[1..])
  }

  /** `queryStringify`: "" for a non-object or null, otherwise "?" followed
      by the entries joined with '&' (just "?" when there are none). */
  function QueryStringify(data: Payload): (q: string)
    ensures q == "" <==> data.Scalar?
    ensures !data.Scalar? ==> q[0] == '?'
    ensures data.Form? ==> q == "?"
  {
    match data
    case Scalar(_) => ""
    case Form(_) => "?"
    case Record(entries) =>
      if |entries| == 0 then "?" else "?" + Join(PairTexts(entries), '&')
  }

  /** Reads a query string back into `(key, text)` pairs: split the part
      after '?' on '&', and each pair at its first '='. */
  function ParseQuery(q: string): seq<(string, string)>
    requires |q| > 0
  {
    var pairs := Split(q[1..], '&');
    seq(|pairs|, i requires 0 <= i < |pairs| => ParsePair(pairs[i]))
  }

  function ParsePair(pair: string): (string, string)
  {
    var kv := Split(pair, '=');
    if |kv| == 1 then (kv[0], "") else (kv[0], Join(kv[1..], '='))
  }

  /** A pair whose key has no '=' parses back into that key and text. */
  lemma ParsePairText(key: string, text: string)
    requires '=' !in key
    ensures ParsePair(key + "=" + text) == (key, text)
  {
    var tail := "=" + text;
    assert key + "=" + text == key + tail;
    SplitConcatNoSep(key, tail, '=');
    assert tail[1..] == text;
    var rest := Split(tail, '=');
    assert rest == [""] + Split(text, '=');
    assert rest[0] == "" && rest[1..] == Split(text, '=');
    assert key + rest[0] == key;
    assert Split(key + tail, '=') == [key] + Split(text, '=');
    JoinSplit(text, '=');
  }

  /** Reading the query string back gives every entry, in order, with its
      value's text, as long as keys contain neither '&' nor '=' and texts
      contain no '&' (nothing is percent-encoded, so those characters would
      cut the string in the wrong places). */
  lemma QueryRoundTrip(entries: seq<(string, JsValue)>)
    requires |entries| > 0
    requires forall i :: 0 <= i < |entries| ==>
      '&' !in entries[i].0 && '=' !in entries[i].0 && '&' !in Interpolate(entries[i].1)
    ensures var q := QueryStringify(Record(entries));
      |q| > 0 && ParseQuery(q) == seq(|entries|, i requires 0 <= i < |entries| => (entries[i].0, Interpolate(entries[i].1)))
  {
    var texts := PairTexts(entries);
    forall i | 0 <= i < |texts|
      ensures '&' !in texts[i]
    {
      assert texts[i] == entries[i].0 + "=" + Interpolate(entries[i].1);
    }
    SplitJoin(texts, '&');
    var q := QueryStringify(Record(entries));
    assert q[1..] == Join(texts, '&');
    forall i | 0 <= i < |entries|
      ensures ParsePair(texts[i]) == (entries[i].0, Interpolate(entries[i].1))
    {
      ParsePairText(entries[i].0, Interpolate(entries[i].1));
    }
  }

  /** The query string of a one-entry object with a string value. */
  lemma QueryOfOneEntry(key: string, text: string)
    ensures QueryStringify(Record([(key, Str(text))])) == "?" + key + "=" + text
  {
    assert PairTexts([(key, Str(text))]) == [key + "=" + text];
  }

  /** Two '&'-free pairs joined by '&' read back as two pairs. */
  lemma TwoPairs(p: string, q: string)
    requires '&' !in p && '&' !in q
    ensures |ParseQuery("?" + p + "&" + q)| == 2
  {
    JoinCons(p, [q], '&');
    assert [p] + [q] == [p, q];
    SplitJoin([p, q], '&');
    assert ("?" + p + "&" + q)[1..] == Join([p, q], '&');
  }

  /** Without percent-encoding a value's '&' starts a new pair: the one
      entry `{a: "x&y=z"}` reads back as two. */
  lemma QueryNotEncoded()
    ensures QueryStringify(Record([("a", Str("x&y=z"))])) == "?a=x&y=z"
    ensures |ParseQuery("?a=x&y=z")| == 2
  {
    QueryOfOneEntry("a", "x&y=z");
    assert "?" + "a" + "=" + "x&y=z" == "?a=x&y=z";
    TwoPairs("a=x", "y=z");
    assert "?" + "a=x" + "&" + "y=z" == "?a=x&y=z";
  }

  /** The options object; `{}` when omitted. */
  datatype Options = Options(headers: seq<(string, string)>, data: Payload, timeout: Option<nat>)

  const NoOptions := Options([], Scalar(Undefined), None)

  /** The `timeout = 5000` default of `request`. */
  const DefaultTimeout := 5000

  /** `request`'s timeout argument: the caller's when one is given (even 0),
      5000 when it is `undefined`. */
  function TimeoutFor(timeout: Option<nat>): (t: nat)
    ensures timeout.None? ==> t == DefaultTimeout
    ensures timeout.Some? ==> t == timeout.value
  {
    match timeout
    case None => DefaultTimeout
    case Some(v) => v
  }

  /** The URL `get` requests: the query string is appended only for truthy
      data. */
  function GetUrl(baseUrl: string, endpoint: string, data: Payload): string
  {
    baseUrl + (if PayloadTruthy(data) then endpoint + QueryStringify(data) else endpoint)
  }

  /** With absent or falsy data the GET URL is the base and the endpoint;
      with record data it is followed by a query string that reads back
      into that data. */
  lemma GetUrlRule(baseUrl: string, endpoint: string, data: Payload)
    ensures !PayloadTruthy(data) ==> GetUrl(baseUrl, endpoint, data) == baseUrl + endpoint
    ensures data.Record? && |data.entries| > 0
        && (forall i :: 0 <= i < |data.entries| ==>
          '&' !in data.entries[i].0 && '=' !in data.entries[i].0 && '&' !in Interpolate(data.entries[i].1))
      ==> (exists q :: GetUrl(baseUrl, endpoint, data) == baseUrl + endpoint + q && |q| > 0
             && ParseQuery(q) == seq(|data.entries|, i requires 0 <= i < |data.entries| =>
                  (data.entries[i].0, Interpolate(data.entries[i].1))))
  {
    if data.Record? && |data.entries| > 0
      && (forall i :: 0 <= i < |data.entries| ==>
        '&' !in data.entries[i].0 && '=' !in data.entries[i].0 && '&' !in Interpolate(data.entries[i].1))
    {
      var q := QueryStringify(data);
      QueryRoundTrip(data.entries);
      assert GetUrl(baseUrl, endpoint, data) == baseUrl + endpoint + q;
    }
  }

  /** What `xhr.send` is given. */
  datatype Body =
    | NoBody
    | FormBody(fields: seq<(string, string)>)
    | JsonBody(data: Payload)

  /** The branch at the end of `request`. */
  function BodyFor(verb: Method, data: Payload): Body
  {
    if verb == Get || !PayloadTruthy(data) then NoBody
    else if data.Form? then FormBody(data.fields)
    else JsonBody(data)
  }

  const ContentTypeJson := ("Content-Type", "application/json")

  /** The caller's headers in order, plus the JSON content type when the
      body is JSON. */
  function HeadersSent(headers: seq<(string, string)>, body: Body): seq<(string, string)>
  {
    if body.JsonBody? then headers + [ContentTypeJson] else headers
  }

  /** The three bodies partition the requests: GET or falsy data sends
      nothing, FormData goes as it is, anything else as JSON with an
      added content type; a body always carries the data it was given. */
  lemma BodyRule(verb: Method, data: Payload, headers: seq<(string, string)>)
    ensures BodyFor(verb, data).NoBody? <==> verb == Get || !PayloadTruthy(data)
    ensures BodyFor(verb, data).FormBody? <==> verb != Get && data.Form?
    ensures BodyFor(verb, data).JsonBody? <==> verb != Get && PayloadTruthy(data) && !data.Form?
    ensures BodyFor(verb, data).FormBody? ==> BodyFor(verb, data).fields == data.fields
    ensures BodyFor(verb, data).JsonBody? ==> BodyFor(verb, data).data == data
    ensures (ContentTypeJson in HeadersSent(headers, BodyFor(verb, data)))
        <==> (ContentTypeJson in headers || BodyFor(verb, data).JsonBody?)
  {
  }

  /** The browser's request object, as far as `request` configures it. */
  class Xhr {
    var verb: Method
    var url: string
    var headers: seq<(string, string)>
    var timeout: nat
    var sent: Option<Body>

    constructor ()
      ensures headers == [] && timeout == 0 && sent == None
    {
      verb := Get;
      url := "";
      headers := [];
      timeout := 0;
      sent := None;
    }

    method Open(verb: Method, url: string)
      modifies this
      ensures this.verb == verb && this.url == url
      ensures headers == old(headers) && timeout == old(timeout) && sent == old(sent)
    {
      this.verb := verb;
      this.url := url;
    }

    method SetRequestHeader(key: string, value: string)
      modifies this
      ensures headers == old(headers) + [(key, value)]
      ensures verb == old(verb) && url == old(url) && timeout == old(timeout) && sent == old(sent)
    {
      headers := headers + [(key, value)];
    }

    method Send(body: Body)
      modifies this
      ensures sent == Some(body)
      ensures verb == old(verb) && url == old(url) && headers == old(headers) && timeout == old(timeout)
    {
      sent := Some(body);
    }
  }

  class Transport {
    const baseUrl: string

    constructor (baseUrl: string)
      ensures this.baseUrl == baseUrl
    {
      this.baseUrl := baseUrl;
    }

    /** `get`: the URL carries the query string of truthy data. */
    method Get(endpoint: string, options: Options) returns (xhr: Xhr)
      ensures fresh(xhr) && xhr.verb == Method.Get
      ensures xhr.url == GetUrl(baseUrl, endpoint, options.data)
      ensures xhr.timeout == TimeoutFor(options.timeout)
      ensures xhr.headers == options.headers && xhr.sent == Some(NoBody)
    {
      xhr := Request(GetUrl(baseUrl, endpoint, options.data), Method.Get, options);
    }

    /** `put`, `post` and `delete`: the base and the endpoint, whatever
        the data, with the verb of the call. */
    method Send(verb: Method, endpoint: string, options: Options) returns (xhr: Xhr)
      requires verb != Method.Get
      ensures fresh(xhr) && xhr.verb == verb && xhr.url == baseUrl + endpoint
      ensures xhr.timeout == TimeoutFor(options.timeout)
      ensures xhr.sent == Some(BodyFor(verb, options.data))
      ensures xhr.headers == HeadersSent(options.headers, BodyFor(verb, options.data))
    {
      xhr := Request(baseUrl + endpoint, verb, options);
    }

    /** `request`: open, copy the headers in order, set the timeout, then
        send the body the verb and data call for. */
    method Request(url: string, verb: Method, options: Options) returns (xhr: Xhr)
      ensures fresh(xhr) && xhr.verb == verb && xhr.url == url
      ensures xhr.timeout == TimeoutFor(options.timeout)
      ensures xhr.sent == Some(BodyFor(verb, options.data))
      ensures xhr.headers == HeadersSent(options.headers, BodyFor(verb, options.data))
    {
      xhr := new Xhr();
      xhr.Open(verb, url);
      var i := 0;
      while i < |options.headers|
        invariant 0 <= i <= |options.headers|
        invariant xhr.headers == options.headers[..i] && xhr.verb == verb && xhr.url == url
        invariant xhr.sent == None
      {
        assert options.headers[..i + 1] == options.headers[..i] + [options.headers[i]];
        xhr.SetRequestHeader(options.headers[i].0, options.headers[i].1);
        i := i + 1;
      }
      assert options.headers[..i] == options.headers;
      xhr.timeout := TimeoutFor(options.timeout);
      if verb == Method.Get || !PayloadTruthy(options.data) {
        xhr.Send(NoBody);
      } else if options.data.Form? {
        xhr.Send(FormBody(options.data.fields));
      } else {
        xhr.SetRequestHeader(ContentTypeJson.0, ContentTypeJson.1);
        xhr.Send(JsonBody(options.data));
      }
    }
  }
}
