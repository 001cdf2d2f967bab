/** The content resolver: note versions whose text is a `URL: <url>`
    placeholder are fetched from the FHIR server and rewritten as the base64
    text of the payload, together with its content type.  The network is an
    oracle: `http(url, accept)` is the server's answer to a GET of `url`
    with that `Accept` header. */
module ContentResolver {
  import opened PyJson
  import opened Schema
  import Base64

  /** The answer to one GET: an exception (timeout, connection error,
      invalid header), or a response with its status, its body and the body
      parsed as JSON (`None` when `.json()` raises JSONDecodeError). */
  datatype Reply =
    | Threw
    | Response(status: int, body: seq<Base64.byte>, parsed: Option<Json>)

  type Oracle = (string, Json) -> Reply

  /** What `fetch_binary_content` returns: `(None, None)`, or the body and
      the content type it was fetched under. */
  datatype Fetched = NoContent | Content(body: seq<Base64.byte>, contentType: Json)

  const FhirJson: string := "application/fhir+json"
  const OctetStream: string := "application/octet-stream"

  /** The fallback `Accept` values, in the order they are tried. */
  const Probes: seq<string> := [
    "application/pdf", "text/plain", "text/html", "image/jpeg",
    "image/png", "application/xml", "application/octet-stream"]

  /** The `Accept` header values for a list of MIME types. */
  function Accepts(mimes: seq<string>): (r: seq<Json>)
    ensures |r| == |mimes|
    ensures forall i :: 0 <= i < |r| ==> r[i] == JStr(mimes[i])
  {
    seq(|mimes|, i requires 0 <= i < |mimes| => JStr(mimes[i]))
  }

  // ---------------------------------------------------------------------
  // fetch_binary_content

  /** The fallback loop: the body of the first MIME type answered with 200,
      paired with that type; nothing when every type fails or a request
      raises. */
  function ProbeFrom(http: Oracle, url: string, mimes: seq<string>): Fetched
    decreases |mimes|
  {
    if mimes == [] then NoContent
    else match http(url, JStr(mimes[0]))
      case Threw => NoContent
      case Response(status, body, _) =>
        if status == 200 then Content(body, JStr(mimes[0])) else ProbeFrom(http, url, mimes[1..])
  }

  /** The `Accept` values the fallback loop sends, in order. */
  function ProbeAttempts(http: Oracle, url: string, mimes: seq<string>): seq<Json>
    decreases |mimes|
  {
    if mimes == [] then []
    else
      [JStr(mimes[0])] +
        match http(url, JStr(mimes[0]))
        case Threw => []
        case Response(status, _, _) => if status == 200 then [] else ProbeAttempts(http, url, mimes[1..])
  }

  /** `fetch_binary_content(url)`: the metadata request, then the request
      for the declared type, then the fallback loop.  A metadata body that
      is JSON but not an object makes `.get` raise AttributeError, which
      the outer handler turns into `(None, None)`. */
  function Fetch(http: Oracle, url: string): Fetched {
    match http(url, JStr(FhirJson))
    case Threw => NoContent
    case Response(status, _, parsed) =>
      if status == 200 && parsed.Some? then
        match Get(parsed.value, "contentType", JStr(OctetStream))
        case Raised => NoContent
        case Ok(declared) =>
          match http(url, declared)
          case Threw => NoContent
          case Response(s, body, _) =>
            if s == 200 then Content(body, declared) else ProbeFrom(http, url, Probes)
      else ProbeFrom(http, url, Probes)
  }

  /** The declared-type request: made exactly when the metadata request
      answers 200 with a JSON object; its `Accept` is the object's
      `contentType`, or `application/octet-stream` when it has none. */
  function Declared(http: Oracle, url: string): (r: seq<Json>)
    ensures |r| <= 1
  {
    var reply := http(url, JStr(FhirJson));
    if reply.Response? && reply.status == 200 && reply.parsed.Some? && reply.parsed.value.JObj? then
      var fields := reply.parsed.value.fields;
      [if Lookup(fields, "contentType").Some? then Lookup(fields, "contentType").value else JStr(OctetStream)]
    else []
  }

  /** Whether the fallback loop runs: the metadata request was answered
      but not with a parsed 200, or the declared-type request was answered
      with a status other than 200. */
  predicate FallsBack(http: Oracle, url: string) {
    var reply := http(url, JStr(FhirJson));
    && reply.Response?
    && if reply.status == 200 && reply.parsed.Some? then
         var d := Declared(http, url);
         d != [] && http(url, d[0]).Response? && http(url, d[0]).status != 200
       else true
  }

  /** The `Accept` values `fetch_binary_content(url)` sends, in order. */
  function Attempts(http: Oracle, url: string): seq<Json> {
    [JStr(FhirJson)] + Declared(http, url)
      + if FallsBack(http, url) then ProbeAttempts(http, url, Probes) else []
  }

  /** The fallback loop tries a prefix of its list in order, every request
      but the last is answered with a status other than 200, and it returns
      content exactly when its last request is answered with 200. */
  lemma {:induction false} ProbeRule(http: Oracle, url: string, mimes: seq<string>)
    ensures var r := ProbeFrom(http, url, mimes); var a := ProbeAttempts(http, url, mimes);
      && |a| <= |mimes| && a == Accepts(mimes)[..|a|]
      && (forall i :: 0 <= i < |a| - 1 ==> http(url, a[i]).Response? && http(url, a[i]).status != 200)
      && (r.Content? <==> |a| >= 1 && http(url, a[|a| - 1]).Response? && http(url, a[|a| - 1]).status == 200)
      && (r.Content? ==> r.contentType == a[|a| - 1] && r.body == http(url, a[|a| - 1]).body)
      && (r.NoContent? && |a| >= 1 && http(url, a[|a| - 1]).Response? ==> |a| == |mimes|)
    decreases |mimes|
  {
    if mimes != [] {
      var head := JStr(mimes[0]);
      var reply := http(url, head);
      if reply.Response? && reply.status != 200 {
        ProbeRule(http, url, mimes[1..]);
        var rest := ProbeAttempts(http, url, mimes[1..]);
        var a := [head] + rest;
        assert ProbeAttempts(http, url, mimes) == a;
        assert Accepts(mimes)[..|a|] == [head] + Accepts(mimes[1..])[..|rest|];
        forall i | 0 <= i < |a| - 1
          ensures http(url, a[i]).Response? && http(url, a[i]).status != 200
        {
          if i > 0 {
            assert a[i] == rest[i - 1];
          }
        }
      } else {
        assert ProbeAttempts(http, url, mimes) == [head];
        assert Accepts(mimes)[..1] == [head];
      }
    }
  }

  /** The order of requests: `application/fhir+json` first, then the
      declared type when the metadata request answered 200 with an object,
      then a prefix of the fallback list; at most nine requests. */
  lemma AttemptOrder(http: Oracle, url: string)
    ensures var a := Attempts(http, url); var d := Declared(http, url);
      && 1 + |d| <= |a| <= 1 + |d| + |Probes| <= 9
      && a[..1 + |d|] == [JStr(FhirJson)] + d
      && a[1 + |d|..] == Accepts(Probes)[..|a| - 1 - |d|]
  {
    ProbeRule(http, url, Probes);
    var a := Attempts(http, url);
    var d := Declared(http, url);
    var reply := http(url, JStr(FhirJson));
    if reply.Response? && reply.status == 200 && reply.parsed.Some? && reply.parsed.value.JObj? {
      var declared := Get(reply.parsed.value, "contentType", JStr(OctetStream)).value;
      assert d == [declared];
      var after := http(url, declared);
      if after.Response? && after.status != 200 {
        assert a == [JStr(FhirJson)] + [declared] + ProbeAttempts(http, url, Probes);
      } else {
        assert a == [JStr(FhirJson)] + [declared];
      }
    } else if reply.Response? && !(reply.status == 200 && reply.parsed.Some?) {
      assert a == [JStr(FhirJson)] + ProbeAttempts(http, url, Probes);
    } else {
      assert a == [JStr(FhirJson)];
    }
  }

  /** The first-success rule for a result `r` after the requests `a`: the
      result is the body of the last request, under that request's `Accept`
      value, exactly when that request (not the metadata request) was
      answered with 200; every request before it was answered, with a
      status other than 200 after the first one; and when the last request
      was answered but brought no content, `full` requests were made. */
  ghost predicate FirstSuccessRule(http: Oracle, url: string, r: Fetched, a: seq<Json>, full: nat) {
    && |a| >= 1
    && (r.Content? <==> |a| >= 2 && http(url, a[|a| - 1]).Response? && http(url, a[|a| - 1]).status == 200)
    && (r.Content? ==> r.contentType == a[|a| - 1] && r.body == http(url, a[|a| - 1]).body)
    && (forall i :: 0 <= i < |a| - 1 ==> http(url, a[i]).Response?)
    && (forall i :: 1 <= i < |a| - 1 ==> http(url, a[i]).status != 200)
    && (r.NoContent? && |a| >= 2 && http(url, a[|a| - 1]).Response? ==> |a| == full)
  }

  /** The fallback loop after requests `pre` that were all answered, with
      a status other than 200 after the first. */
  lemma ProbeAfter(http: Oracle, url: string, pre: seq<Json>, r: Fetched, a: seq<Json>, full: nat)
    requires |pre| >= 1
    requires forall i :: 0 <= i < |pre| ==> http(url, pre[i]).Response?
    requires forall i :: 1 <= i < |pre| ==> http(url, pre[i]).status != 200
    requires r == ProbeFrom(http, url, Probes) && a == pre + ProbeAttempts(http, url, Probes)
    requires full == |pre| + |Probes|
    ensures FirstSuccessRule(http, url, r, a, full)
  {
    ProbeRule(http, url, Probes);
    var p := ProbeAttempts(http, url, Probes);
    var a := pre + p;
    forall i | 0 <= i < |a| - 1
      ensures http(url, a[i]).Response?
      ensures i >= 1 ==> http(url, a[i]).status != 200
    {
      if i >= |pre| {
        assert a[i] == p[i - |pre|];
      }
    }
    if p != [] {
      assert a[|a| - 1] == p[|p| - 1];
    }
  }

  /** The case of a metadata object: the declared-type request follows. */
  lemma FirstSuccessDeclared(http: Oracle, url: string)
    requires var reply := http(url, JStr(FhirJson));
      reply.Response? && reply.status == 200 && reply.parsed.Some? && reply.parsed.value.JObj?
    ensures FirstSuccessRule(http, url, Fetch(http, url), Attempts(http, url),
                             1 + |Declared(http, url)| + |Probes|)
  {
    var reply := http(url, JStr(FhirJson));
    var declared := Get(reply.parsed.value, "contentType", JStr(OctetStream)).value;
    assert Declared(http, url) == [declared];
    var after := http(url, declared);
    if after.Response? && after.status != 200 {
      DeclaredThenProbes(http, url, declared);
    } else {
      DeclaredOnly(http, url, declared);
    }
  }

  /** The declared-type request answered with a status other than 200:
      the fallback loop follows. */
  lemma DeclaredThenProbes(http: Oracle, url: string, declared: Json)
    requires var reply := http(url, JStr(FhirJson));
      reply.Response? && reply.status == 200 && reply.parsed.Some? && reply.parsed.value.JObj?
    requires Get(http(url, JStr(FhirJson)).parsed.value, "contentType", JStr(OctetStream)) == Ok(declared)
    requires Declared(http, url) == [declared]
    requires http(url, declared).Response? && http(url, declared).status != 200
    ensures FirstSuccessRule(http, url, Fetch(http, url), Attempts(http, url),
                             1 + |Declared(http, url)| + |Probes|)
  {
    var pre := [JStr(FhirJson)] + [declared];
    ProbingShape(http, url, declared);
    ProbeAfter(http, url, pre, Fetch(http, url), Attempts(http, url), 1 + |Declared(http, url)| + |Probes|);
  }

  lemma ProbingShape(http: Oracle, url: string, declared: Json)
    requires var reply := http(url, JStr(FhirJson));
      reply.Response? && reply.status == 200 && reply.parsed.Some? && reply.parsed.value.JObj?
    requires Get(http(url, JStr(FhirJson)).parsed.value, "contentType", JStr(OctetStream)) == Ok(declared)
    requires Declared(http, url) == [declared]
    requires http(url, declared).Response? && http(url, declared).status != 200
    ensures Fetch(http, url) == ProbeFrom(http, url, Probes)
    ensures Attempts(http, url) == [JStr(FhirJson)] + [declared] + ProbeAttempts(http, url, Probes)
  {
    assert FallsBack(http, url);
  }

  /** The declared-type request raised or answered 200: the fetch ends. */
  lemma DeclaredOnly(http: Oracle, url: string, declared: Json)
    requires var reply := http(url, JStr(FhirJson));
      reply.Response? && reply.status == 200 && reply.parsed.Some? && reply.parsed.value.JObj?
    requires Get(http(url, JStr(FhirJson)).parsed.value, "contentType", JStr(OctetStream)) == Ok(declared)
    requires Declared(http, url) == [declared]
    requires http(url, declared).Response? ==> http(url, declared).status == 200
    ensures FirstSuccessRule(http, url, Fetch(http, url), Attempts(http, url),
                             1 + |Declared(http, url)| + |Probes|)
  {
    var after := http(url, declared);
    assert Fetch(http, url) == if after.Threw? then NoContent else Content(after.body, declared);
    assert !FallsBack(http, url);
    assert Attempts(http, url) == [JStr(FhirJson), declared];
    TwoRequests(http, url, declared, Fetch(http, url), 1 + |Declared(http, url)| + |Probes|);
  }

  /** The rule when the metadata request was answered and the declared-type
      request ended the fetch. */
  lemma TwoRequests(http: Oracle, url: string, declared: Json, r: Fetched, full: nat)
    requires http(url, JStr(FhirJson)).Response?
    requires http(url, declared).Response? ==> http(url, declared).status == 200
    requires r == if http(url, declared).Threw? then NoContent else Content(http(url, declared).body, declared)
    ensures FirstSuccessRule(http, url, r, [JStr(FhirJson), declared], full)
  {
    var a := [JStr(FhirJson), declared];
    assert a[0] == JStr(FhirJson) && a[|a| - 1] == declared;
  }

  /** `fetch_binary_content` follows the first-success rule; when every
      request is answered without content, it has made all of them. */
  lemma FirstSuccess(http: Oracle, url: string)
    ensures FirstSuccessRule(http, url, Fetch(http, url), Attempts(http, url),
                             1 + |Declared(http, url)| + |Probes|)
  {
    var a := Attempts(http, url);
    var reply := http(url, JStr(FhirJson));
    if reply.Response? && reply.status == 200 && reply.parsed.Some? {
      if reply.parsed.value.JObj? {
        FirstSuccessDeclared(http, url);
      } else {
        assert a == [JStr(FhirJson)];
      }
    } else if reply.Response? {
      assert Declared(http, url) == [] && FallsBack(http, url);
      assert [JStr(FhirJson)] + [] == [JStr(FhirJson)];
      assert a == [JStr(FhirJson)] + ProbeAttempts(http, url, Probes);
      ProbeAfter(http, url, [JStr(FhirJson)], Fetch(http, url), a, 1 + |Declared(http, url)| + |Probes|);
    } else {
      assert a == [JStr(FhirJson)];
    }
  }

  /** Metadata and content both answered with 200: the body comes back
      under the declared type, `application/octet-stream` by default. */
  lemma DeclaredTypeWins(http: Oracle, url: string, fields: seq<(string, Json)>, body: seq<Base64.byte>)
    requires var reply := http(url, JStr(FhirJson));
      reply.Response? && reply.status == 200 && reply.parsed == Some(JObj(fields))
    requires var declared := if Lookup(fields, "contentType").Some? then Lookup(fields, "contentType").value else JStr(OctetStream);
      http(url, declared).Response? && http(url, declared).status == 200 && http(url, declared).body == body
    ensures Lookup(fields, "contentType").None? ==> Fetch(http, url) == Content(body, JStr(OctetStream))
    ensures Lookup(fields, "contentType").Some? ==> Fetch(http, url) == Content(body, Lookup(fields, "contentType").value)
  {
  }

  /** `fetch_binary_content(url)`, request by request; `requested` records
      the `Accept` value of each request sent. */
  method FetchBinaryContent(http: Oracle, url: string) returns (fetched: Fetched, ghost requested: seq<Json>)
    ensures fetched == Fetch(http, url)
    ensures requested == Attempts(http, url)
  {
    requested := [JStr(FhirJson)];
    var metadata := http(url, JStr(FhirJson));
    if metadata.Threw? {
      return NoContent, requested;
    }
    if metadata.status == 200 && metadata.parsed.Some? {
      var declared := Get(metadata.parsed.value, "contentType", JStr(OctetStream));
      if declared.Raised? {
        return NoContent, requested;
      }
      requested := requested + [declared.value];
      var content := http(url, declared.value);
      if content.Threw? {
        return NoContent, requested;
      }
      if content.status == 200 {
        return Content(content.body, declared.value), requested;
      }
    }
    assert FallsBack(http, url) && Fetch(http, url) == ProbeFrom(http, url, Probes);
    assert requested == [JStr(FhirJson)] + Declared(http, url);
    ghost var probed;
    fetched, probed := ProbeCommonTypes(http, url);
    requested := requested + probed;
  }

  /** The fallback loop of `fetch_binary_content` over the common MIME
      types, stopping at the first answer 200 or the first exception. */
  method ProbeCommonTypes(http: Oracle, url: string) returns (fetched: Fetched, ghost requested: seq<Json>)
    ensures fetched == ProbeFrom(http, url, Probes)
    ensures requested == ProbeAttempts(http, url, Probes)
  {
    fetched, requested := ProbeTypes(http, url, Probes);
  }

  /** The loop itself, over any list of MIME types. */
  method ProbeTypes(http: Oracle, url: string, mimes: seq<string>) returns (fetched: Fetched, ghost requested: seq<Json>)
    ensures fetched == ProbeFrom(http, url, mimes)
    ensures requested == ProbeAttempts(http, url, mimes)
  {
    requested := [];
    var i := 0;
    while i < |mimes|
      invariant 0 <= i <= |mimes|
      invariant ProbeFrom(http, url, mimes[i..]) == ProbeFrom(http, url, mimes)
      invariant requested + ProbeAttempts(http, url, mimes[i..]) == ProbeAttempts(http, url, mimes)
    {
      var mime := mimes[i];
      ghost var rest := mimes[i..];
      ghost var before := requested;
      ProbeStep(http, url, rest);
      assert rest[0] == mime && rest[1..] == mimes[i + 1..];
      requested := requested + [JStr(mime)];
      var response := http(url, JStr(mime));
      if response.Threw? {
        return NoContent, requested;
      }
      if response.status == 200 {
        return Content(response.body, JStr(mime)), requested;
      }
      SentThenRest(before, JStr(mime), ProbeAttempts(http, url, rest[1..]));
      i := i + 1;
    }
    assert requested + ProbeAttempts(http, url, mimes[i..]) == requested + [];
    return NoContent, requested;
  }

  lemma SentThenRest(sent: seq<Json>, accept: Json, rest: seq<Json>)
    ensures sent + ([accept] + rest) == (sent + [accept]) + rest
  {
  }

  /** One request of the fallback loop: it ends the loop on an exception
      or a 200, and otherwise the loop goes on with the next type. */
  lemma ProbeStep(http: Oracle, url: string, mimes: seq<string>)
    requires mimes != []
    ensures var reply := http(url, JStr(mimes[0]));
      && (reply.Threw? ==> ProbeFrom(http, url, mimes) == NoContent)
      && (reply.Response? && reply.status == 200 ==> ProbeFrom(http, url, mimes) == Content(reply.body, JStr(mimes[0])))
      && (reply.Response? && reply.status != 200 ==> ProbeFrom(http, url, mimes) == ProbeFrom(http, url, mimes[1..]))
      && (reply.Threw? || reply.status == 200 ==> ProbeAttempts(http, url, mimes) == [JStr(mimes[0])])
      && (reply.Response? && reply.status != 200 ==>
            ProbeAttempts(http, url, mimes) == [JStr(mimes[0])] + ProbeAttempts(http, url, mimes[1..]))
  {
    var reply := http(url, JStr(mimes[0]));
    if reply.Threw? || reply.status == 200 {
      assert [JStr(mimes[0])] + [] == [JStr(mimes[0])];
    }
  }

  // ---------------------------------------------------------------------
  // update_note_with_binary_content

  /** The version table after `UPDATE note_version SET note_text = ?,
      content_type = ? WHERE version_id = ?`: only the row with that
      surrogate key changes, and no row changes when there is none. */
  function SetContent(versions: seq<VersionRow>, versionId: nat, text: string, contentType: Json): (r: seq<VersionRow>)
    ensures |r| == |versions|
    ensures forall i :: 0 <= i < |r| && i + 1 != versionId ==> r[i] == versions[i]
    ensures 1 <= versionId <= |versions| ==>
      r[versionId - 1] == versions[versionId - 1].(noteText := JStr(text), contentType := contentType)
  {
    if 1 <= versionId <= |versions| then
      versions[versionId - 1 := versions[versionId - 1].(noteText := JStr(text), contentType := contentType)]
    else versions
  }

  /** `update_note_with_binary_content`: stores the base64 text of the
      payload and its content type; a content type sqlite3 cannot bind
      (a list or a dict) makes it roll back and report failure. */
  method UpdateNoteWithBinaryContent(db: Database, versionId: nat, content: seq<Base64.byte>, contentType: Json)
    returns (ok: bool)
    modifies db
    ensures ok <==> Bindable(contentType)
    ensures db.versions ==
      if ok then SetContent(old(db.versions), versionId, Base64.Encode(content), contentType) else old(db.versions)
    ensures db.categories == old(db.categories) && db.notes == old(db.notes)
    ensures db.medications == old(db.medications) && db.requests == old(db.requests)
    ensures db.administrations == old(db.administrations)
  {
    var encoded := Base64.Encode(content);
    if !Bindable(contentType) {
      return false;
    }
    db.versions := SetContent(db.versions, versionId, encoded, contentType);
    return true;
  }

  // ---------------------------------------------------------------------
  // The placeholder text.

  /** ASCII lower case, as SQLite's LIKE folds letters. */
  function Lower(c: char): char {
    if 'A' <= c <= 'Z' then (c as int + 32) as char else c
  }

  /** `note_text LIKE 'URL: %'`: the text begins with `url: `, ASCII
      letters compared without case. */
  predicate IsPlaceholder(s: string) {
    |s| >= 5 && Lower(s[0]) == 'u' && Lower(s[1]) == 'r' && Lower(s[2]) == 'l' && s[3] == ':' && s[4] == ' '
  }

  /** Python `s.replace(pat, '')`: every occurrence of `pat`, scanning left
      to right without overlap, removed. */
  function RemoveAll(s: string, pat: string): (r: string)
    requires pat != []
    ensures |r| <= |s|
    decreases |s|
  {
    if |s| < |pat| then s
    else if s[..|pat|] == pat then RemoveAll(s[|pat|..], pat)
    else [s[0]] + RemoveAll(s[1..], pat)
  }

  /** The characters Python's `str.isspace` accepts. */
  predicate IsSpace(c: char) {
    var n := c as int;
    (9 <= n <= 13) || (28 <= n <= 32) || n == 0x85 || n == 0xA0 || n == 0x1680
    || (0x2000 <= n <= 0x200A) || n == 0x2028 || n == 0x2029 || n == 0x202F
    || n == 0x205F || n == 0x3000
  }

  function StripStart(s: string): (r: string)
    ensures r == [] || !IsSpace(r[0])
    ensures |r| <= |s| && r == s[|s| - |r|..]
    ensures forall i :: 0 <= i < |s| - |r| ==> IsSpace(s[i])
    decreases |s|
  {
    if s != [] && IsSpace(s[0]) then StripStart(s[1..]) else s
  }

  function StripEnd(s: string): (r: string)
    ensures r == [] || !IsSpace(r[|r| - 1])
    ensures |r| <= |s| && r == s[..|r|]
    ensures forall i :: |r| <= i < |s| ==> IsSpace(s[i])
    decreases |s|
  {
    if s != [] && IsSpace(s[|s| - 1]) then StripEnd(s[..|s| - 1]) else s
  }

  /** Python `s.strip()`. */
  function Strip(s: string): string {
    StripEnd(StripStart(s))
  }

  /** The URL a placeholder stands for: `url_text.replace('URL: ', '').strip()`. */
  function UrlOf(text: string): string {
    Strip(RemoveAll(text, "URL: "))
  }

  lemma {:induction false} RemoveAllAbsent(s: string, pat: string)
    requires pat != [] && !IsSubstring(pat, s)
    ensures RemoveAll(s, pat) == s
    decreases |s|
  {
    if |s| >= |pat| {
      assert !StartsWith(s, pat);
      RemoveAllAbsent(s[1..], pat);
      assert [s[0]] + s[1..] == s;
    }
  }

  /** The placeholder the document importer writes leads back to its URL
      when the URL has no `URL: ` inside and no surrounding whitespace. */
  lemma PlaceholderRoundTrip(url: string)
    requires !IsSubstring("URL: ", url)
    requires url == [] || (!IsSpace(url[0]) && !IsSpace(url[|url| - 1]))
    ensures IsPlaceholder("URL: " + url)
    ensures UrlOf("URL: " + url) == url
  {
    var s := "URL: " + url;
    assert s[..5] == "URL: " && s[5..] == url;
    RemoveAllAbsent(url, "URL: ");
    assert RemoveAll(s, "URL: ") == url;
  }

  /** Base64 text never looks like a placeholder: its alphabet has no `:`. */
  lemma EncodedNotPlaceholder(b: seq<Base64.byte>)
    ensures !IsPlaceholder(Base64.Encode(b))
  {
    Base64.EncodeAlphabet(b);
    var s := Base64.Encode(b);
    if |s| >= 5 {
      assert Base64.IsEncodingChar(s[3]);
    }
  }

  // ---------------------------------------------------------------------
  // process_url_references

  /** A row of `SELECT n.note_id, nv.version_id, nv.note_text FROM note n
      JOIN note_version nv ON n.note_id = nv.note_id WHERE nv.note_text
      LIKE 'URL: %'`. */
  datatype UrlRow = UrlRow(noteId: nat, versionId: nat, noteText: string)

  /** A version row the query selects. */
  predicate Selected(notes: seq<NoteRow>, row: VersionRow) {
    1 <= row.noteId <= |notes| && row.noteText.JStr? && IsPlaceholder(row.noteText.s)
  }

  /** The query's rows among versions `from` onwards, in table order. */
  function SelectUrlRows(notes: seq<NoteRow>, versions: seq<VersionRow>, from: nat): (r: seq<UrlRow>)
    ensures forall k :: 0 <= k < |r| ==>
      && from < r[k].versionId <= |versions|
      && Selected(notes, versions[r[k].versionId - 1])
      && r[k].noteText == versions[r[k].versionId - 1].noteText.s
    decreases |versions| - from
  {
    if from >= |versions| then []
    else if Selected(notes, versions[from]) then
      [UrlRow(versions[from].noteId, from + 1, versions[from].noteText.s)] + SelectUrlRows(notes, versions, from + 1)
    else SelectUrlRows(notes, versions, from + 1)
  }

  /** One step of the query: version `from` is kept or dropped. */
  lemma SelectUrlRowsStep(notes: seq<NoteRow>, versions: seq<VersionRow>, from: nat)
    requires from < |versions|
    ensures var rest := SelectUrlRows(notes, versions, from + 1);
      || SelectUrlRows(notes, versions, from) == rest
      || SelectUrlRows(notes, versions, from)
           == [UrlRow(versions[from].noteId, from + 1, versions[from].noteText.s)] + rest
  {
  }

  /** Every row of the query from `from` is a later version than `from`. */
  lemma SelectUrlRowsAbove(notes: seq<NoteRow>, versions: seq<VersionRow>, from: nat)
    ensures forall k :: 0 <= k < |SelectUrlRows(notes, versions, from)| ==>
              from < SelectUrlRows(notes, versions, from)[k].versionId
  {
  }

  /** Every selected version from `from` onwards is among the query's rows. */
  lemma {:induction false} SelectUrlRowsComplete(notes: seq<NoteRow>, versions: seq<VersionRow>, from: nat, i: nat)
    requires from <= i < |versions| && Selected(notes, versions[i])
    ensures exists k :: 0 <= k < |SelectUrlRows(notes, versions, from)|
                        && SelectUrlRows(notes, versions, from)[k].versionId == i + 1
    decreases i - from
  {
    var r := SelectUrlRows(notes, versions, from);
    if i == from {
      assert r[0].versionId == i + 1;
    } else {
      SelectUrlRowsStep(notes, versions, from);
      SelectUrlRowsComplete(notes, versions, from + 1, i);
      var rest := SelectUrlRows(notes, versions, from + 1);
      var k :| 0 <= k < |rest| && rest[k].versionId == i + 1;
      var at := if r == rest then k else k + 1;
      assert r[at] == rest[k];
    }
  }

  /** The rows' version ids strictly increase. */
  predicate IdsIncreasing(rows: seq<UrlRow>) {
    forall j, k :: 0 <= j < k < |rows| ==> rows[j].versionId < rows[k].versionId
  }

  /** A row below every id of an increasing run extends it. */
  lemma ConsIncreasing(row: UrlRow, rest: seq<UrlRow>)
    requires IdsIncreasing(rest)
    requires forall k :: 0 <= k < |rest| ==> row.versionId < rest[k].versionId
    ensures IdsIncreasing([row] + rest)
  {
    var r := [row] + rest;
    forall j, k | 0 <= j < k < |r|
      ensures r[j].versionId < r[k].versionId
    {
      assert r[k] == rest[k - 1];
      if j > 0 {
        assert r[j] == rest[j - 1];
      }
    }
  }

  /** The query's rows come in strictly increasing version order, so no
      version is returned twice. */
  lemma {:induction false} SelectUrlRowsIncreasing(notes: seq<NoteRow>, versions: seq<VersionRow>, from: nat)
    ensures IdsIncreasing(SelectUrlRows(notes, versions, from))
    decreases |versions| - from
  {
    if from < |versions| {
      var rest := SelectUrlRows(notes, versions, from + 1);
      SelectUrlRowsStep(notes, versions, from);
      SelectUrlRowsIncreasing(notes, versions, from + 1);
      if SelectUrlRows(notes, versions, from) != rest {
        SelectUrlRowsAbove(notes, versions, from + 1);
        ConsIncreasing(UrlRow(versions[from].noteId, from + 1, versions[from].noteText.s), rest);
      }
    }
  }

  /** What resolving a placeholder yields: the base64 text and content type
      to store, or nothing (no content, an empty body, or an unbindable
      content type). */
  datatype Resolution = Resolved(text: string, contentType: Json) | Unresolved

  /** How one placeholder text is resolved.  The loop and its lemmas are
      stated for any resolver; `Resolve(http)` is the one the source uses. */
  type Resolver = string -> Resolution

  /** One placeholder against the server: fetch the URL, then keep a
      non-empty body whose content type sqlite3 can bind. */
  function Attempt(text: string, http: Oracle): Resolution {
    match Fetch(http, UrlOf(text))
    case Content(body, contentType) =>
      if body != [] && Bindable(contentType) then Resolved(Base64.Encode(body), contentType) else Unresolved
    case NoContent => Unresolved
  }

  function Resolve(http: Oracle): Resolver {
    text => Attempt(text, http)
  }

  /** A resolver that never stores text the query would select again. */
  ghost predicate StoresNoPlaceholder(resolve: Resolver) {
    forall text :: resolve(text).Resolved? ==> !IsPlaceholder(resolve(text).text)
  }

  /** The server's resolver stores base64 text only. */
  lemma ResolveStoresBase64(http: Oracle)
    ensures StoresNoPlaceholder(Resolve(http))
  {
    forall text | Resolve(http)(text).Resolved?
      ensures !IsPlaceholder(Resolve(http)(text).text)
    {
      assert Resolve(http)(text) == Attempt(text, http);
      var fetched := Fetch(http, UrlOf(text));
      assert fetched.Content? && fetched.body != [];
      assert Resolve(http)(text).text == Base64.Encode(fetched.body);
      EncodedNotPlaceholder(fetched.body);
    }
  }

  /** A version row after the run, as a reference per row: a selected row
      whose placeholder resolves carries the stored text and content type;
      every other row is as it was. */
  function ResolveRow(notes: seq<NoteRow>, row: VersionRow, resolve: Resolver): VersionRow {
    if !Selected(notes, row) then row
    else match resolve(row.noteText.s)
      case Resolved(text, contentType) => row.(noteText := JStr(text), contentType := contentType)
      case Unresolved => row
  }

  function ResolveAll(notes: seq<NoteRow>, versions: seq<VersionRow>, resolve: Resolver): (r: seq<VersionRow>)
    ensures |r| == |versions|
    ensures forall i :: 0 <= i < |r| ==> r[i] == ResolveRow(notes, versions[i], resolve)
  {
    seq(|versions|, i requires 0 <= i < |versions| => ResolveRow(notes, versions[i], resolve))
  }

  /** The loop's state: the version table and the two counters. */
  datatype Progress = Progress(versions: seq<VersionRow>, success: nat, errors: nat)

  /** One iteration of the loop over the selected rows. */
  function Step(p: Progress, row: UrlRow, outcome: Resolution): Progress {
    match outcome
    case Resolved(text, contentType) =>
      Progress(SetContent(p.versions, row.versionId, text, contentType), p.success + 1, p.errors)
    case Unresolved => p.(errors := p.errors + 1)
  }

  function Run(p: Progress, rows: seq<UrlRow>, resolve: Resolver): Progress
    decreases |rows|
  {
    if rows == [] then p else Run(Step(p, rows[0], resolve(rows[0].noteText)), rows[1..], resolve)
  }

  /** How many of the rows resolve. */
  function Successes(rows: seq<UrlRow>, resolve: Resolver): (n: nat)
    ensures n <= |rows|
  {
    if rows == [] then 0
    else (if resolve(rows[0].noteText).Resolved? then 1 else 0) + Successes(rows[1..], resolve)
  }

  /** Every selected row is counted once, as a success exactly when it
      resolves. */
  lemma {:induction false} RunCounts(p: Progress, rows: seq<UrlRow>, resolve: Resolver)
    ensures Run(p, rows, resolve).success == p.success + Successes(rows, resolve)
    ensures Run(p, rows, resolve).errors == p.errors + |rows| - Successes(rows, resolve)
    ensures |Run(p, rows, resolve).versions| == |p.versions|
    decreases |rows|
  {
    if rows != [] {
      RunCounts(Step(p, rows[0], resolve(rows[0].noteText)), rows[1..], resolve);
    }
  }

  lemma SelectedHead(notes: seq<NoteRow>, v0: seq<VersionRow>, from: nat)
    requires from < |v0| && Selected(notes, v0[from])
    ensures var rows := SelectUrlRows(notes, v0, from);
      && rows != []
      && rows[0] == UrlRow(v0[from].noteId, from + 1, v0[from].noteText.s)
      && rows[1..] == SelectUrlRows(notes, v0, from + 1)
  {
    var row := UrlRow(v0[from].noteId, from + 1, v0[from].noteText.s);
    var rest := SelectUrlRows(notes, v0, from + 1);
    assert ([row] + rest)[1..] == rest;
  }

  /** The step for a selected row resolves that row and no other. */
  lemma StepResolvesRow(notes: seq<NoteRow>, v0: seq<VersionRow>, p: Progress, from: nat, resolve: Resolver)
    requires from < |v0| && |p.versions| == |v0| && p.versions[from] == v0[from]
    requires Selected(notes, v0[from])
    ensures var next := Step(p, UrlRow(v0[from].noteId, from + 1, v0[from].noteText.s), resolve(v0[from].noteText.s));
      && |next.versions| == |v0|
      && (forall i :: 0 <= i < |v0| && i != from ==> next.versions[i] == p.versions[i])
      && next.versions[from] == ResolveRow(notes, v0[from], resolve)
  {
  }

  /** The loop's result from `from` onwards: rows before `from` as `p`
      holds them, the rest as the per-row reference computes them. */
  ghost predicate RunsFrom(notes: seq<NoteRow>, v0: seq<VersionRow>, p: Progress, from: nat, resolve: Resolver)
    requires from <= |v0|
  {
    var r := Run(p, SelectUrlRows(notes, v0, from), resolve).versions;
    && |r| == |v0|
    && (forall i :: 0 <= i < from && i < |p.versions| ==> r[i] == p.versions[i])
    && (forall i :: from <= i < |v0| ==> r[i] == ResolveRow(notes, v0[i], resolve))
  }

  /** Running the loop over the rows selected from `from` onwards resolves
      exactly those rows and leaves the others alone. */
  lemma {:induction false} RunFrom(notes: seq<NoteRow>, v0: seq<VersionRow>, p: Progress, from: nat, resolve: Resolver)
    requires from <= |v0| && |p.versions| == |v0|
    requires forall i :: from <= i < |v0| ==> p.versions[i] == v0[i]
    ensures RunsFrom(notes, v0, p, from, resolve)
    decreases |v0| - from, 1
  {
    if from == |v0| {
      assert SelectUrlRows(notes, v0, from) == [];
    } else if Selected(notes, v0[from]) {
      RunFromSelected(notes, v0, p, from, resolve);
    } else {
      RunFromSkipped(notes, v0, p, from, resolve);
    }
  }

  lemma {:induction false} RunFromSelected(notes: seq<NoteRow>, v0: seq<VersionRow>, p: Progress, from: nat, resolve: Resolver)
    requires from < |v0| && |p.versions| == |v0| && Selected(notes, v0[from])
    requires forall i :: from <= i < |v0| ==> p.versions[i] == v0[i]
    ensures RunsFrom(notes, v0, p, from, resolve)
    decreases |v0| - from, 0
  {
    var row := UrlRow(v0[from].noteId, from + 1, v0[from].noteText.s);
    var next := Step(p, row, resolve(row.noteText));
    SelectedHead(notes, v0, from);
    assert Run(p, SelectUrlRows(notes, v0, from), resolve) == Run(next, SelectUrlRows(notes, v0, from + 1), resolve);
    StepResolvesRow(notes, v0, p, from, resolve);
    RunFrom(notes, v0, next, from + 1, resolve);
    var r := Run(next, SelectUrlRows(notes, v0, from + 1), resolve).versions;
    forall i | 0 <= i < from
      ensures r[i] == p.versions[i]
    {
      assert r[i] == next.versions[i];
    }
    forall i | from <= i < |v0|
      ensures r[i] == ResolveRow(notes, v0[i], resolve)
    {
      if i == from {
        assert r[from] == next.versions[from];
      }
    }
  }

  lemma {:induction false} RunFromSkipped(notes: seq<NoteRow>, v0: seq<VersionRow>, p: Progress, from: nat, resolve: Resolver)
    requires from < |v0| && |p.versions| == |v0| && !Selected(notes, v0[from])
    requires forall i :: from <= i < |v0| ==> p.versions[i] == v0[i]
    ensures RunsFrom(notes, v0, p, from, resolve)
    decreases |v0| - from, 0
  {
    SkippedHead(notes, v0, from);
    RunFrom(notes, v0, p, from + 1, resolve);
    var r := Run(p, SelectUrlRows(notes, v0, from + 1), resolve).versions;
    assert r == Run(p, SelectUrlRows(notes, v0, from), resolve).versions;
    assert r[from] == p.versions[from];
    assert ResolveRow(notes, v0[from], resolve) == v0[from];
  }

  lemma SkippedHead(notes: seq<NoteRow>, v0: seq<VersionRow>, from: nat)
    requires from < |v0| && !Selected(notes, v0[from])
    ensures SelectUrlRows(notes, v0, from) == SelectUrlRows(notes, v0, from + 1)
  {
  }

  /** The loop over the query's rows computes the per-row reference. */
  lemma RunIsResolveAll(notes: seq<NoteRow>, versions: seq<VersionRow>, resolve: Resolver)
    ensures Run(Progress(versions, 0, 0), SelectUrlRows(notes, versions, 0), resolve).versions
              == ResolveAll(notes, versions, resolve)
  {
    RunFrom(notes, versions, Progress(versions, 0, 0), 0, resolve);
  }

  /** Re-running changes nothing when the resolver stores no placeholder
      and answers as before: a resolved row is no longer selected, and an
      unresolved row fails again. */
  lemma ResolveIdempotent(notes: seq<NoteRow>, versions: seq<VersionRow>, resolve: Resolver)
    requires StoresNoPlaceholder(resolve)
    ensures ResolveAll(notes, ResolveAll(notes, versions, resolve), resolve) == ResolveAll(notes, versions, resolve)
  {
  }

  /** A resolved row stays as it is on a later run, whatever that run's
      resolver does. */
  lemma ResolvedRowsStay(notes: seq<NoteRow>, versions: seq<VersionRow>, resolve: Resolver, later: Resolver, i: nat)
    requires StoresNoPlaceholder(resolve)
    requires i < |versions|
    requires ResolveAll(notes, versions, resolve)[i] != versions[i]
    ensures ResolveAll(notes, ResolveAll(notes, versions, resolve), later)[i] == ResolveAll(notes, versions, resolve)[i]
  {
  }

  /** Running `process_url_references` twice against the same server
      leaves the table as the first run left it. */
  lemma RerunChangesNothing(notes: seq<NoteRow>, versions: seq<VersionRow>, http: Oracle)
    ensures ResolveAll(notes, ResolveAll(notes, versions, Resolve(http)), Resolve(http))
              == ResolveAll(notes, versions, Resolve(http))
  {
    ResolveStoresBase64(http);
    ResolveIdempotent(notes, versions, Resolve(http));
  }

  /** Resolution rewrites text and content type only, so versions keep
      their notes. */
  lemma ResolveKeepsConsistent(notes: seq<NoteRow>, versions: seq<VersionRow>, resolve: Resolver)
    requires NotesConsistent(notes, versions)
    ensures NotesConsistent(notes, ResolveAll(notes, versions, resolve))
  {
    var r := ResolveAll(notes, versions, resolve);
    assert forall v :: 0 <= v < |r| ==> r[v].noteId == versions[v].noteId;
  }

  lemma RunUnfold(p: Progress, rows: seq<UrlRow>, resolve: Resolver)
    requires rows != []
    ensures Run(p, rows, resolve) == Run(Step(p, rows[0], resolve(rows[0].noteText)), rows[1..], resolve)
  {
  }

  /** The body of the loop in `process_url_references` for one row. */
  method ProcessRow(db: Database, row: UrlRow, http: Oracle) returns (updated: bool, ghost outcome: Resolution)
    modifies db
    ensures outcome == Attempt(row.noteText, http)
    ensures updated <==> outcome.Resolved?
    ensures db.versions == if updated then SetContent(old(db.versions), row.versionId, outcome.text, outcome.contentType)
                           else old(db.versions)
    ensures db.categories == old(db.categories) && db.notes == old(db.notes)
    ensures db.medications == old(db.medications) && db.requests == old(db.requests)
    ensures db.administrations == old(db.administrations)
  {
    var url := UrlOf(row.noteText);
    var fetched;
    ghost var requested;
    fetched, requested := FetchBinaryContent(http, url);
    outcome := Attempt(row.noteText, http);
    if fetched.Content? && fetched.body != [] {
      updated := UpdateNoteWithBinaryContent(db, row.versionId, fetched.body, fetched.contentType);
    } else {
      updated := false;
    }
  }

  /** `Resolve(http)`, known only through its answers: reasoning about
      `Run` over it does not unfold `Fetch` for rows not yet reached. */
  lemma AnswersOf(http: Oracle) returns (r: Resolver)
    ensures forall t {:trigger Attempt(t, http)} :: r(t) == Attempt(t, http)
  {
    r := Resolve(http);
  }

  /** `Run` depends on the resolver's answers only. */
  lemma {:induction false} RunSameAnswers(p: Progress, rows: seq<UrlRow>, r1: Resolver, r2: Resolver)
    requires forall t :: r1(t) == r2(t)
    ensures Run(p, rows, r1) == Run(p, rows, r2)
    decreases |rows|
  {
    if rows != [] {
      RunSameAnswers(Step(p, rows[0], r1(rows[0].noteText)), rows[1..], r1, r2);
    }
  }

  /** The loop of `process_url_references` over the selected rows: fetch
      and store each one, counting successes and errors. */
  method ResolveRows(db: Database, rows: seq<UrlRow>, http: Oracle) returns (success: nat, errors: nat)
    modifies db
    ensures Progress(db.versions, success, errors) == Run(Progress(old(db.versions), 0, 0), rows, Resolve(http))
    ensures db.categories == old(db.categories) && db.notes == old(db.notes)
    ensures db.medications == old(db.medications) && db.requests == old(db.requests)
    ensures db.administrations == old(db.administrations)
  {
    ghost var resolve := AnswersOf(http);
    ghost var start := Progress(db.versions, 0, 0);
    success, errors := 0, 0;
    var k := 0;
    while k < |rows|
      invariant 0 <= k <= |rows|
      invariant Run(start, rows, resolve) == Run(Progress(db.versions, success, errors), rows[k..], resolve)
      invariant db.categories == old(db.categories) && db.notes == old(db.notes)
      invariant db.medications == old(db.medications) && db.requests == old(db.requests)
      invariant db.administrations == old(db.administrations)
    {
      ghost var before := Progress(db.versions, success, errors);
      RunUnfold(before, rows[k..], resolve);
      assert rows[k..][0] == rows[k] && rows[k..][1..] == rows[k + 1..];
      var updated;
      ghost var outcome;
      updated, outcome := ProcessRow(db, rows[k], http);
      if updated {
        success := success + 1;
      } else {
        errors := errors + 1;
      }
      assert Progress(db.versions, success, errors) == Step(before, rows[k], resolve(rows[k].noteText));
      k := k + 1;
    }
    assert rows[k..] == [];
    RunSameAnswers(start, rows, resolve, Resolve(http));
  }

  /** What the loop over the selected rows amounts to: every row counted
      once, the versions resolved row by row, and the links kept. */
  lemma RunResult(notes: seq<NoteRow>, versions: seq<VersionRow>, resolve: Resolver)
    ensures var rows := SelectUrlRows(notes, versions, 0);
      var r := Run(Progress(versions, 0, 0), rows, resolve);
      && r.success + r.errors == |rows|
      && r.success == Successes(rows, resolve)
      && r.versions == ResolveAll(notes, versions, resolve)
      && (NotesConsistent(notes, versions) ==> NotesConsistent(notes, r.versions))
  {
    var rows := SelectUrlRows(notes, versions, 0);
    RunCounts(Progress(versions, 0, 0), rows, resolve);
    RunIsResolveAll(notes, versions, resolve);
    if NotesConsistent(notes, versions) {
      ResolveKeepsConsistent(notes, versions, resolve);
    }
  }

  /** `process_url_references()`: selects the placeholder rows, then fetches
      and stores each one, counting successes and errors. */
  method ProcessUrlReferences(db: Database, http: Oracle) returns (success: nat, errors: nat)
    modifies db
    ensures var rows := SelectUrlRows(old(db.notes), old(db.versions), 0);
      && success + errors == |rows|
      && success == Successes(rows, Resolve(http))
    ensures db.versions == ResolveAll(old(db.notes), old(db.versions), Resolve(http))
    ensures db.categories == old(db.categories) && db.notes == old(db.notes)
    ensures db.medications == old(db.medications) && db.requests == old(db.requests)
    ensures db.administrations == old(db.administrations)
    ensures old(db.Valid()) ==> db.Valid()
  {
    var rows := SelectUrlRows(db.notes, db.versions, 0);
    RunResult(db.notes, db.versions, Resolve(http));
    success, errors := ResolveRows(db, rows, http);
  }
}
