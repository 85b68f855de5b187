/** The HTTP and JSON vocabulary the OpenAI connections use: requests as
    values, multipart entities as part lists, responses as a status and a
    body, and `org.json`'s `JSONObject` as a mutable map. The transport and
    the JSON text syntax belong to libraries and come in as functions. */
module Http {
  import opened Common
  import opened Strings

  datatype HttpMethod = GET | POST

  /** A multipart part: a field name, a file name for file parts, the
      content bytes and the declared content type. */
  datatype HttpPart = HttpPart(name: string, fileName: Option<string>, content: seq<Byte>, contentType: string)

  const TextPlain := "text/plain"

  /** `new HttpPart(name, value.getBytes(), MediaType.TEXT_PLAIN, length)`,
      with the default charset taken to be UTF-8. */
  function TextPart(name: string, value: string): (p: HttpPart)
    ensures p.name == name && p.fileName.None? && p.contentType == TextPlain
    ensures |value| <= |p.content| <= 4 * |value|
  {
    HttpPart(name, None, Utf8(value), TextPlain)
  }

  /** A JSON value as `org.json` holds it: strings, numbers with the text of
      their `toString()`, booleans, `JSONObject.NULL`, and anything else
      (arrays, nested objects) by its text. */
  datatype Json = JString(s: string) | JNumber(value: real, text: string) | JBool(b: bool) | JNull | JOther(text: string)

  datatype Entity =
    | NoEntity
    | Multipart(parts: seq<HttpPart>)
    | JsonEntity(fields: map<string, Json>)
    | Bytes(data: seq<Byte>)

  datatype HttpRequest = HttpRequest(verb: HttpMethod, uri: string, headers: seq<(string, string)>, entity: Entity)

  datatype HttpResponse = HttpResponse(status: int, content: seq<Byte>)

  /** What the transport gives back: a response, or the exception it failed
      with (an `IOException`, a `TimeoutException`, ...). */
  datatype Exchange = Answered(response: HttpResponse) | Broken(exception: Throwable)

  /** `HttpClient.send` and `sendAsync`, as a function of the request. */
  type Client = HttpRequest -> Exchange

  /** The library code the connections lean on for text: `IOUtils.toString`
      of a body, and `new JSONObject(text)`, which fails on text that is not
      a JSON object. */
  datatype TextSupport = TextSupport(decode: seq<Byte> -> string, parse: string -> Option<map<string, Json>>)

  /** `"Bearer " + apiKey` in the Authorization header. */
  function Authorization(apiKey: string): (h: (string, string))
    ensures h.0 == "Authorization" && StartsWith(h.1, "Bearer ") && h.1[|"Bearer "|..] == apiKey
  {
    ("Authorization", "Bearer " + apiKey)
  }

  /** `URI.resolve(relative)` for a relative path without a scheme: the base
      up to and including its last '/', then the relative path (section
      5.2.3 of RFC 3986, merging paths). */
  function Resolve(base: string, relative: string): (uri: string)
    ensures EndsWith(uri, relative)
    ensures EndsWith(base, "/") ==> uri == base + relative
  {
    var k := LastIndexOf(base, '/');
    assert EndsWith(base, "/") ==> base[..k + 1] == base;
    base[..k + 1] + relative
  }

  const UnexpectedStatusPrefix := "Unexpected status code "

  /** `"Unexpected status code " + status + " from " + origin`. */
  function UnexpectedStatus(status: int, origin: string): (message: string)
    ensures StartsWith(message, UnexpectedStatusPrefix) && EndsWith(message, " from " + origin)
    ensures Contains(message, IntToString(status))
  {
    ContainsMiddle(UnexpectedStatusPrefix, IntToString(status), " from " + origin);
    UnexpectedStatusPrefix + IntToString(status) + (" from " + origin)
  }

  /** The middle of `p + x + s` is determined by the whole. */
  lemma MiddleDetermined(p: string, x: string, y: string, s: string)
    requires p + x + s == p + y + s
    ensures x == y
  {
    assert |x| == |y|;
    assert x == (p + x + s)[|p|..|p| + |x|];
    assert y == (p + y + s)[|p|..|p| + |y|];
  }

  /** The status can be read back from the message. */
  lemma UnexpectedStatusNamesTheStatus(a: int, b: int, origin: string)
    requires UnexpectedStatus(a, origin) == UnexpectedStatus(b, origin)
    ensures a == b
  {
    MiddleDetermined(UnexpectedStatusPrefix, IntToString(a), IntToString(b), " from " + origin);
    IntToStringInjective(a, b);
  }

  // ------------------------------------------------------------ part lists

  /** The field names of a part list, in order. */
  function Names(parts: seq<HttpPart>): (names: seq<string>)
    ensures |names| == |parts|
  {
    if parts == [] then [] else [parts[0].name] + Names(parts[1..])
  }

  /** The first part with the given field name. */
  function Lookup(parts: seq<HttpPart>, name: string): (p: Option<HttpPart>)
    ensures p.Some? ==> p.value.name == name
  {
    if parts == [] then None
    else if parts[0].name == name then Some(parts[0])
    else Lookup(parts[1..], name)
  }

  /** A name the list does not hold finds nothing, and one it holds finds
      a part of the list. */
  lemma {:induction false} LookupFinds(parts: seq<HttpPart>, name: string)
    ensures Lookup(parts, name).None? <==> name !in Names(parts)
    ensures Lookup(parts, name).Some? ==> Lookup(parts, name).value in parts
    decreases |parts|
  {
    if parts != [] {
      assert Names(parts) == [parts[0].name] + Names(parts[1..]);
      if parts[0].name != name {
        LookupFinds(parts[1..], name);
      }
    }
  }

  /** A lookup in a joined list answers from the first list if it can, and
      from the second otherwise. */
  lemma {:induction false} LookupConcat(a: seq<HttpPart>, b: seq<HttpPart>, name: string)
    ensures Lookup(a + b, name) == if Lookup(a, name).Some? then Lookup(a, name) else Lookup(b, name)
    decreases |a|
  {
    if a == [] {
      assert a + b == b;
    } else {
      assert (a + b)[0] == a[0];
      assert (a + b)[1..] == a[1..] + b;
      if a[0].name != name {
        LookupConcat(a[1..], b, name);
      }
    }
  }

  /** The names of a joined list are the joined names. */
  lemma {:induction false} NamesConcat(a: seq<HttpPart>, b: seq<HttpPart>)
    ensures Names(a + b) == Names(a) + Names(b)
    decreases |a|
  {
    if a == [] {
      assert a + b == b;
    } else {
      assert (a + b)[0] == a[0];
      assert (a + b)[1..] == a[1..] + b;
      NamesConcat(a[1..], b);
    }
  }

  // ------------------------------------------------------------ JSONObject

  /** `org.json`'s `JSONObject` while a payload is built. */
  class JsonObject {
    var fields: map<string, Json>

    constructor()
      ensures fields == map[]
    {
      fields := map[];
    }

    /** `put(key, value)`: a `null` value removes the key. */
    method Put(key: string, value: Option<Json>)
      modifies this
      ensures fields == if value.None? then old(fields) - {key} else old(fields)[key := value.value]
    {
      if value.None? {
        fields := fields - {key};
      } else {
        fields := fields[key := value.value];
      }
    }
  }

  /** `optString(key)`: the empty string for a missing key or `NULL`, the
      text of the value otherwise. */
  function OptString(obj: map<string, Json>, key: string): (s: string)
    ensures key !in obj ==> s == ""
    ensures key in obj && obj[key].JString? ==> s == obj[key].s
  {
    if key !in obj then ""
    else match obj[key]
      case JString(s) => s
      case JNumber(_, text) => text
      case JBool(b) => if b then "true" else "false"
      case JNull => ""
      case JOther(text) => text
  }

  /** `optDouble(key)` on the values the replies carry, with `NaN` as
      `None`: a JSON number has its value, anything else none (org.json's
      conversion of a numeric string is not modelled). */
  function OptDouble(obj: map<string, Json>, key: string): (d: Option<real>)
    ensures d.Some? <==> key in obj && obj[key].JNumber?
    ensures d.Some? ==> d.value == obj[key].value
  {
    if key in obj && obj[key].JNumber? then Some(obj[key].value) else None
  }

  /** `getString(key)`: a `JSONException` unless the key holds a string. */
  function GetString(obj: map<string, Json>, key: string): (r: Result<string>)
    ensures r.Ok? <==> key in obj && obj[key].JString?
    ensures r.Ok? ==> r.value == obj[key].s
    ensures r.Err? ==> r.error.kind == JSONException
  {
    if key in obj && obj[key].JString? then Ok(obj[key].s) else Err(Error(JSONException, ""))
  }
}
