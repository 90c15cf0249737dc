// The HttpResource of datagrowth/resources/http/generic.py: the status
// classes of a stored response, the choice of the key that carries request
// data, the normalised URI and the data hash under which requests are looked
// up, the Content-Type parser, the retry loop of `_send`, the copies of the
// request with and without authentication, the continuation request and the
// validation of a stored request.
//
// A URL is a scheme, the part after "://" up to the query (host, port and
// path) and the query parameters as a dict, which is what URLObject's
// `query.dict` gives; SHA-1, `json.dumps`, `json.loads` and the network are
// parameters.

module HttpResources {
  import opened Wrappers
  import opened Exceptions
  import opened Text
  import opened Json
  import opened InputSchemas

  // ------------------------------------------------------------ status classes

  /** `success`: a status is recorded and lies in 200..208. */
  predicate Success(status: Option<int>)
  {
    status.Some? && 200 <= status.value < 209
  }

  /** `handle_errors`: a server error (5xx, section 15.6 of RFC 9110) raises
      DGHttpError50X, a client error (4xx, section 15.5 of RFC 9110) raises
      DGHttpError40X, anything lower passes; comparing a missing status with
      500 is a TypeError in Python. */
  function HandleErrors(status: Option<int>): (r: Result<bool, Exception>)
    ensures status.None? ==> r == Err(TypeError)
    ensures r == Err(HttpError50X) <==> status.Some? && status.value >= 500
    ensures r == Err(HttpError40X) <==> status.Some? && 400 <= status.value < 500
    ensures r.Ok? <==> status.Some? && status.value < 400
    ensures r.Ok? ==> r.value
  {
    match status
    case None => Err(TypeError)
    case Some(s) =>
      if s >= 500 then Err(HttpError50X)
      else if s >= 400 then Err(HttpError40X)
      else Ok(true)
  }

  /** A successful response lies in the 2xx class (section 15.3 of RFC 9110)
      and never raises in `handle_errors`. */
  lemma SuccessPasses(status: Option<int>)
    requires Success(status)
    ensures 200 <= status.value < 300
    ensures HandleErrors(status) == Ok(true)
  {
  }

  /** A status outside 200..208 is not a success, even in the 2xx class. */
  lemma SuccessBoundary()
    ensures Success(Some(208)) && !Success(Some(209)) && !Success(Some(199)) && !Success(None)
    ensures HandleErrors(Some(209)) == Ok(true)
  {
  }

  // ------------------------------------------------------------ data key

  /** `_get_data_key`: the key of the request that carries its body. An
      explicit "data" or "json" key wins (in that order); otherwise non-empty
      headers decide by their Content-Type. A headers value of None and an
      empty dict are both falsy and are both the empty map here. */
  function GetDataKey(requestKeys: set<string>, headers: map<string, string>): (r: Result<string, Exception>)
    ensures r.Ok? ==> r.value == "data" || r.value == "json"
    ensures "data" in requestKeys ==> r == Ok("data")
    ensures "data" !in requestKeys && "json" in requestKeys ==> r == Ok("json")
    ensures r.Err? <==> "data" !in requestKeys && "json" !in requestKeys && |headers| == 0
    ensures r.Err? ==> r.error == AssertionError
    ensures "data" !in requestKeys && "json" !in requestKeys && |headers| > 0 ==>
      (r == Ok("json") <==> "Content-Type" in headers && headers["Content-Type"] == "application/json")
  {
    if "data" in requestKeys then Ok("data")
    else if "json" in requestKeys then Ok("json")
    else if |headers| > 0 then
      (if "Content-Type" in headers && headers["Content-Type"] == "application/json" then Ok("json") else Ok("data"))
    else Err(AssertionError)
  }

  // ------------------------------------------------------------ URLs and URIs

  /** A URL: its scheme, what follows "://" up to the query, and the query
      parameters. */
  datatype Url = Url(scheme: string, rest: string, params: map<string, string>)

  /** The "key=value" pieces of `params` in the order of `keys`. */
  function QueryPieces(keys: seq<string>, params: map<string, string>): (r: seq<string>)
    requires forall k :: k in keys ==> k in params
    ensures |r| == |keys|
    ensures forall i :: 0 <= i < |keys| ==> r[i] == keys[i] + "=" + params[keys[i]]
  {
    seq(|keys|, i requires 0 <= i < |keys| => keys[i] + "=" + params[keys[i]])
  }

  /** The query string of a URL whose parameters were sorted by key before
      they were encoded: empty without parameters, else "?" and the pairs. */
  function SortedQuery(params: map<string, string>): string
  {
    if |params| == 0 then ""
    else "?" + Join(QueryPieces(SortedElements(params.Keys), params), "&")
  }

  /** Two sorted duplicate-free sequences with the same members are equal:
      the sorted order of a set of keys is unique. */
  lemma {:induction false} SortedKeysUnique(a: seq<string>, b: seq<string>)
    requires Sorted(a) && NoDup(a) && Sorted(b) && NoDup(b)
    requires forall x :: x in a <==> x in b
    ensures a == b
    decreases |a|
  {
    if a != [] {
      assert a[0] in b;
      assert b != [];
      assert b[0] in a;
      var i :| 0 <= i < |b| && b[i] == a[0];
      var j :| 0 <= j < |a| && a[j] == b[0];
      assert Le(b[0], b[i]) by { if i > 0 { assert Le(b[0], b[i]); } else { LeReflexive(b[0]); } }
      assert Le(a[0], a[j]) by { if j > 0 { assert Le(a[0], a[j]); } else { LeReflexive(a[0]); } }
      LeAntisymmetric(a[0], b[0]);
      forall x
        ensures x in a[1..] <==> x in b[1..]
      {
        if x in a[1..] {
          var k :| 1 <= k < |a| && a[k] == x;
          assert x != a[0];
          assert x in b;
          var m :| 0 <= m < |b| && b[m] == x;
          assert m != 0;
          assert b[m] == b[1..][m - 1];
        }
        if x in b[1..] {
          var k :| 1 <= k < |b| && b[k] == x;
          assert x != b[0];
          assert x in a;
          var m :| 0 <= m < |a| && a[m] == x;
          assert m != 0;
          assert a[m] == a[1..][m - 1];
        }
      }
      SortedKeysUnique(a[1..], b[1..]);
      assert a == [a[0]] + a[1..];
      assert b == [b[0]] + b[1..];
    } else {
      HeadIsMember(b);
    }
  }

  lemma HeadIsMember(b: seq<string>)
    ensures b != [] ==> b[0] in b
  {
  }

  /** The query string lists the parameters by ascending key whatever order
      they were given in: any sorted, duplicate-free listing of the keys
      gives it. */
  lemma SortedQueryOrder(params: map<string, string>, keys: seq<string>)
    requires Sorted(keys) && NoDup(keys) && forall k :: k in keys <==> k in params
    ensures |params| > 0 ==> SortedQuery(params) == "?" + Join(QueryPieces(keys, params), "&")
    ensures |params| == 0 ==> SortedQuery(params) == ""
  {
    SortedElementsSorted(params.Keys);
    SortedKeysUnique(keys, SortedElements(params.Keys));
  }

  /** `uri_from_url`: the URL with its parameters sorted by key and every
      occurrence of its scheme followed by "://" removed. */
  function UriFromUrl(url: Url): string
  {
    ReplaceAll(url.scheme + "://" + url.rest + SortedQuery(url.params), url.scheme + "://", "")
  }

  /** Removing a pattern from a text that begins with it removes that first
      occurrence and continues after it. */
  lemma ReplaceAllLeading(pat: string, t: string)
    requires |pat| > 0
    ensures ReplaceAll(pat + t, pat, "") == ReplaceAll(t, pat, "")
  {
    var s := pat + t;
    assert s[..|pat|] == pat;
    assert s[|pat|..] == t;
  }

  /** The URI is the URL without its scheme, its parameters sorted by key,
      when "<scheme>://" does not occur again further on. */
  lemma UriDropsScheme(url: Url)
    requires !Contains(url.rest + SortedQuery(url.params), url.scheme + "://")
    ensures UriFromUrl(url) == url.rest + SortedQuery(url.params)
  {
    var pat := url.scheme + "://";
    var t := url.rest + SortedQuery(url.params);
    assert url.scheme + "://" + url.rest + SortedQuery(url.params) == pat + t;
    ReplaceAllLeading(pat, t);
    ReplaceAllAbsent(t, pat, "");
  }

  /** Two URLs that differ only in their scheme have the same URI, when
      neither scheme occurs further on. */
  lemma UriSchemeIndependent(a: Url, b: Url)
    requires a.rest == b.rest && a.params == b.params
    requires !Contains(a.rest + SortedQuery(a.params), a.scheme + "://")
    requires !Contains(b.rest + SortedQuery(b.params), b.scheme + "://")
    ensures UriFromUrl(a) == UriFromUrl(b)
  {
    UriDropsScheme(a);
    UriDropsScheme(b);
  }

  /** A text without some character of the pattern does not contain the
      pattern. */
  lemma MissingCharacter(s: string, pat: string, k: nat)
    requires k < |pat| && forall i :: 0 <= i < |s| ==> s[i] != pat[k]
    ensures !Contains(s, pat)
  {
    if i: nat :| i <= |s| && OccursAt(s, pat, i) {
      assert s[i..i + |pat|][k] == pat[k];
      assert s[i + k] == pat[k];
    }
  }

  /** The query string of the parameters z=z and a=a. */
  lemma QueryExample()
    ensures SortedQuery(map["z" := "z", "a" := "a"]) == "?a=a&z=z"
  {
    var params := map["z" := "z", "a" := "a"];
    var keys := ["a", "z"];
    assert Sorted(keys) && NoDup(keys) by { assert Le("a", "z"); }
    assert forall k :: k in keys <==> k in params;
    assert |params| > 0 by { assert "a" in params; }
    SortedQueryOrder(params, keys);
    PiecesExample();
  }

  lemma PiecesExample()
    ensures Join(QueryPieces(["a", "z"], map["z" := "z", "a" := "a"]), "&") == "a=a&z=z"
  {
    var pieces := QueryPieces(["a", "z"], map["z" := "z", "a" := "a"]);
    assert pieces[0] == "a" + "=" + "a" == "a=a";
    assert pieces[1] == "z" + "=" + "z" == "z=z";
    assert pieces[1..] == ["z=z"];
    assert Join(pieces, "&") == "a=a" + "&" + "z=z";
  }

  /** The test case of `uri_from_url`: the scheme goes and the parameters
      z and a come out as a before z. */
  lemma UriExample()
    ensures UriFromUrl(Url("http", "localhost:8000/", map["z" := "z", "a" := "a"])) == "localhost:8000/?a=a&z=z"
  {
    var params := map["z" := "z", "a" := "a"];
    QueryExample();
    var q := SortedQuery(params);
    var t := "localhost:8000/" + q;
    ExampleLink(q);
    var pat := "http" + "://";
    assert pat[3] == 'p';
    NoLetterP(t);
    MissingCharacter(t, pat, 3);
    UriDropsScheme(Url("http", "localhost:8000/", params));
  }

  lemma ExampleLink(q: string)
    requires q == "?a=a&z=z"
    ensures "localhost:8000/" + q == "localhost:8000/?a=a&z=z"
  {
  }

  lemma NoLetterP(t: string)
    requires t == "localhost:8000/?a=a&z=z"
    ensures forall i :: 0 <= i < |t| ==> t[i] != 'p'
  {
  }

  // ------------------------------------------------------------ data hash

  /** A value as it enters the hash payload: a nested dict is replaced by its
      own hash, any other value is kept. */
  function Entry(value: Json, sha1: string -> string, dumps: seq<(string, Json)> -> string): (r: Json)
    ensures !value.Dict? ==> r == value
    decreases value, 2
  {
    if value.Dict? then Str(DictHash(value, sha1, dumps)) else value
  }

  /** The hash of a dict: empty for an empty dict, else SHA-1 of the JSON
      dump of its payload. */
  function DictHash(data: Json, sha1: string -> string, dumps: seq<(string, Json)> -> string): (r: string)
    requires data.Dict?
    ensures |data.fields| == 0 ==> r == ""
    decreases data, 1
  {
    if |data.fields| == 0 then "" else sha1(dumps(Payload(data, sha1, dumps)))
  }

  /** Keys of a payload strictly ascending. */
  predicate KeysAscending(payload: seq<(string, Json)>)
  {
    forall i, j :: 0 <= i < j < |payload| ==> Le(payload[i].0, payload[j].0) && payload[i].0 != payload[j].0
  }

  /** The (key, entry) pairs of a dict, sorted by key. */
  function Payload(data: Json, sha1: string -> string, dumps: seq<(string, Json)> -> string): (r: seq<(string, Json)>)
    requires data.Dict?
    ensures KeysAscending(r)
    ensures forall k :: k in data.fields <==> k in PayloadKeys(r)
    ensures forall i :: 0 <= i < |r| ==> r[i].0 in data.fields && r[i].1 == Entry(data.fields[r[i].0], sha1, dumps)
    decreases data, 0
  {
    var keys := SortedElements(data.fields.Keys);
    SortedElementsSorted(data.fields.Keys);
    var r := seq(|keys|, i requires 0 <= i < |keys| => (keys[i], Entry(data.fields[keys[i]], sha1, dumps)));
    assert PayloadKeys(r) == keys;
    r
  }

  /** The keys of a payload, in order. */
  function PayloadKeys(payload: seq<(string, Json)>): (r: seq<string>)
    ensures |r| == |payload| && forall i :: 0 <= i < |payload| ==> r[i] == payload[i].0
  {
    seq(|payload|, i requires 0 <= i < |payload| => payload[i].0)
  }

  /** The payload is determined by the dict alone: whichever order the
      entries were collected in, sorting them by key gives this payload. */
  lemma PayloadUnique(data: Json, sha1: string -> string, dumps: seq<(string, Json)> -> string, p: seq<(string, Json)>)
    requires data.Dict? && KeysAscending(p)
    requires forall k :: k in data.fields <==> k in PayloadKeys(p)
    requires forall i :: 0 <= i < |p| ==> p[i].0 in data.fields && p[i].1 == Entry(data.fields[p[i].0], sha1, dumps)
    ensures p == Payload(data, sha1, dumps)
  {
    var q := Payload(data, sha1, dumps);
    var pk, qk := PayloadKeys(p), PayloadKeys(q);
    SortedKeysUnique(pk, qk);
    assert |p| == |q|;
    forall i | 0 <= i < |p| ensures p[i] == q[i] {
      assert pk[i] == qk[i];
    }
  }

  /** `hash_from_data`: falsy data hashes to the empty string; other data
      must be a dict (anything else has no `items`, an AttributeError) and
      hashes to SHA-1 of the JSON dump of its key-sorted payload, nested
      dicts entering by their own hash. */
  function HashFromData(data: Json, sha1: string -> string, dumps: seq<(string, Json)> -> string): (r: Result<string, Exception>)
    ensures !Truthy(data) ==> r == Ok("")
    ensures Truthy(data) && !data.Dict? ==> r == Err(AttributeError)
    ensures data.Dict? && |data.fields| > 0 ==> r == Ok(sha1(dumps(Payload(data, sha1, dumps))))
    ensures r.Err? <==> Truthy(data) && !data.Dict?
  {
    if !Truthy(data) then Ok("")
    else if !data.Dict? then Err(AttributeError)
    else Ok(DictHash(data, sha1, dumps))
  }

  /** Changing the value under a key changes what is hashed: the payloads
      of two dicts with the same keys differ at that key's entry. */
  lemma PayloadSeesValues(a: Json, b: Json, key: string, sha1: string -> string, dumps: seq<(string, Json)> -> string)
    requires a.Dict? && b.Dict? && a.fields.Keys == b.fields.Keys && key in a.fields
    requires !a.fields[key].Dict? && !b.fields[key].Dict? && a.fields[key] != b.fields[key]
    ensures Payload(a, sha1, dumps) != Payload(b, sha1, dumps)
  {
    var pa, pb := Payload(a, sha1, dumps), Payload(b, sha1, dumps);
    var ka, kb := PayloadKeys(pa), PayloadKeys(pb);
    SortedKeysUnique(ka, kb);
    assert key in ka;
    var i :| 0 <= i < |ka| && ka[i] == key;
    assert pa[i].1 == a.fields[key];
    assert pb[i].0 == key;
    assert pb[i].1 == b.fields[key];
  }

  // ------------------------------------------------------------ Content-Type

  predicate IsLetter(c: char)
  {
    'A' <= c <= 'Z' || 'a' <= c <= 'z'
  }

  predicate IsCharsetChar(c: char)
  {
    IsLetter(c) || '0' <= c <= '9' || c == '-'
  }

  /** The length of the longest run of letters at the start of `s`. */
  function LetterRun(s: string): (n: nat)
    ensures n <= |s|
    ensures forall i :: 0 <= i < n ==> IsLetter(s[i])
    ensures n < |s| ==> !IsLetter(s[n])
  {
    if |s| > 0 && IsLetter(s[0]) then 1 + LetterRun(s[1..]) else 0
  }

  /** The length of the longest run of charset characters at the start of
      `s`. */
  function CharsetRun(s: string): (n: nat)
    ensures n <= |s|
    ensures forall i :: 0 <= i < n ==> IsCharsetChar(s[i])
    ensures n < |s| ==> !IsCharsetChar(s[n])
  {
    if |s| > 0 && IsCharsetChar(s[0]) then 1 + CharsetRun(s[1..]) else 0
  }

  /** A media type of the form `letters/letters`. */
  predicate IsMimeType(m: string)
  {
    exists i :: 0 < i < |m| - 1 && m[i] == '/' && AllLettersBut(m, i)
  }

  predicate AllLettersBut(m: string, i: int)
  {
    forall j :: 0 <= j < |m| && j != i ==> IsLetter(m[j])
  }

  /** A nonempty charset name. */
  predicate IsCharset(e: string)
  {
    |e| > 0 && forall j :: 0 <= j < |e| ==> IsCharsetChar(e[j])
  }

  /** `s` without a leading `c`, if it has one. */
  function SkipOptional(s: string, c: char): (r: string)
    ensures r == s || (|s| > 0 && s[0] == c && r == s[1..])
  {
    if |s| > 0 && s[0] == c then s[1..] else s
  }

  /** The encoding the pattern finds after the media type: an optional ';',
      an optional ' ' and then `charset=` with a nonempty charset name, or
      else the default. */
  function EncodingAfter(s: string, defaultEncoding: string): (r: string)
    ensures r == defaultEncoding || IsCharset(r)
  {
    var t := SkipOptional(SkipOptional(s, ';'), ' ');
    if StartsWith(t, "charset=") && CharsetRun(t[8..]) > 0 then t[8..8 + CharsetRun(t[8..])]
    else defaultEncoding
  }

  /** `parse_content_type`: the media type at the start of a Content-Type
      header (section 8.3 of RFC 9110) and its charset parameter, or the
      default encoding without one; a header that does not start with a
      media type is a ValueError. */
  function ParseContentType(contentType: string, defaultEncoding: string): (r: Result<(string, string), Exception>)
    ensures r.Err? ==> r.error == ValueError
    ensures r.Ok? ==> IsMimeType(r.value.0) && StartsWith(contentType, r.value.0)
    ensures r.Ok? ==> |r.value.0| == |contentType| || !IsLetter(contentType[|r.value.0|])
    ensures r.Ok? ==> r.value.1 == defaultEncoding || IsCharset(r.value.1)
    ensures r.Err? <==> forall n :: 0 <= n <= |contentType| ==> !IsMimeType(contentType[..n])
  {
    var n1 := LetterRun(contentType);
    if n1 == 0 || n1 == |contentType| || contentType[n1] != '/' then
      NoMimeType(contentType);
      Err(ValueError)
    else
      var n2 := LetterRun(contentType[n1 + 1..]);
      if n2 == 0 then
        NoMimeType(contentType);
        Err(ValueError)
      else
        MimeTypeFound(contentType, n1, n2);
        assert IsMimeType(contentType[..n1 + 1 + n2]);
        Ok((contentType[..n1 + 1 + n2], EncodingAfter(contentType[n1 + 1 + n2..], defaultEncoding)))
  }

  /** Letters, '/' and letters at the start of a header form a media type
      that ends where the letters do. */
  lemma MimeTypeFound(contentType: string, n1: nat, n2: nat)
    requires n1 == LetterRun(contentType) && 0 < n1 < |contentType| && contentType[n1] == '/'
    requires n2 == LetterRun(contentType[n1 + 1..]) && n2 > 0
    ensures IsMimeType(contentType[..n1 + 1 + n2])
    ensures n1 + 1 + n2 == |contentType| || !IsLetter(contentType[n1 + 1 + n2])
  {
    var tail := contentType[n1 + 1..];
    var mime := contentType[..n1 + 1 + n2];
    forall j | 0 <= j < |mime| && j != n1 ensures IsLetter(mime[j]) {
      if j > n1 {
        assert mime[j] == tail[j - n1 - 1];
      }
    }
    assert 0 < n1 < |mime| - 1 && mime[n1] == '/' && AllLettersBut(mime, n1);
    if n1 + 1 + n2 < |contentType| {
      assert contentType[n1 + 1 + n2] == tail[n2];
    }
  }

  /** A run of letters of length `k` followed by the end or a non-letter
      is the letter run. */
  lemma LetterRunStops(s: string, k: nat)
    requires k <= |s| && (forall j :: 0 <= j < k ==> IsLetter(s[j])) && (k == |s| || !IsLetter(s[k]))
    ensures LetterRun(s) == k
  {
  }

  /** A prefix that is a media type `a/b` makes `a` the letter run and puts
      a letter after the '/'. */
  lemma MimeTypePrefix(contentType: string, n: nat)
    requires n <= |contentType| && IsMimeType(contentType[..n])
    ensures var n1 := LetterRun(contentType);
      0 < n1 < |contentType| && contentType[n1] == '/' && LetterRun(contentType[n1 + 1..]) > 0
  {
    var m := contentType[..n];
    var i :| 0 < i < |m| - 1 && m[i] == '/' && AllLettersBut(m, i);
    forall j | 0 <= j < i ensures IsLetter(contentType[j]) {
      assert m[j] == contentType[j];
    }
    assert contentType[i] == m[i];
    LetterRunStops(contentType, i);
    var t := contentType[i + 1..];
    assert t[0] == m[i + 1];
    assert IsLetter(t[0]);
  }

  /** When the letters at the start are not followed by '/' and another
      letter, no prefix is a media type. */
  lemma NoMimeType(contentType: string)
    requires var n1 := LetterRun(contentType);
      n1 == 0 || n1 == |contentType| || contentType[n1] != '/' || LetterRun(contentType[n1 + 1..]) == 0
    ensures forall n :: 0 <= n <= |contentType| ==> !IsMimeType(contentType[..n])
  {
    forall n | 0 <= n <= |contentType| ensures !IsMimeType(contentType[..n]) {
      if IsMimeType(contentType[..n]) {
        MimeTypePrefix(contentType, n);
      }
    }
  }

  /** The letter runs of a media type `a/b` followed by `t`, where `t` does
      not start with a letter, are `a` and then `b`. */
  lemma LetterRunsOfMime(m: string, i: int, t: string)
    requires 0 < i < |m| - 1 && m[i] == '/' && AllLettersBut(m, i)
    requires |t| == 0 || !IsLetter(t[0])
    ensures LetterRun(m + t) == i
    ensures LetterRun((m + t)[i + 1..]) == |m| - i - 1
  {
    var s := m + t;
    forall j | 0 <= j < i ensures IsLetter(s[j]) { assert s[j] == m[j]; }
    assert s[i] == '/';
    LetterRunStops(s, i);
    var u := s[i + 1..];
    forall j | 0 <= j < |m| - i - 1 ensures IsLetter(u[j]) { assert u[j] == m[i + 1 + j]; }
    if |t| > 0 { assert u[|m| - i - 1] == t[0]; }
    LetterRunStops(u, |m| - i - 1);
  }

  /** A header made of a media type alone parses to that type and the
      default encoding. */
  lemma ParseMimeTypeOnly(m: string, defaultEncoding: string)
    requires IsMimeType(m)
    ensures ParseContentType(m, defaultEncoding) == Ok((m, defaultEncoding))
  {
    var i :| 0 < i < |m| - 1 && m[i] == '/' && AllLettersBut(m, i);
    LetterRunsOfMime(m, i, "");
    assert m + "" == m;
    assert m[..|m|] == m;
    assert m[|m|..] == "";
  }

  /** A media type followed by "; charset=" and a charset name parses to
      both. */
  lemma ParseMimeTypeCharset(m: string, e: string, defaultEncoding: string)
    requires IsMimeType(m) && IsCharset(e)
    ensures ParseContentType(m + "; charset=" + e, defaultEncoding) == Ok((m, e))
  {
    var i :| 0 < i < |m| - 1 && m[i] == '/' && AllLettersBut(m, i);
    var t := "; charset=" + e;
    var ct := m + t;
    assert ct == m + "; charset=" + e;
    LetterRunsOfMime(m, i, t);
    assert ct[..|m|] == m;
    assert ct[|m|..] == t;
    EncodingAfterCharset(e, defaultEncoding);
  }

  /** What follows the media type in "; charset=<e>" yields `e`. */
  lemma EncodingAfterCharset(e: string, defaultEncoding: string)
    requires IsCharset(e)
    ensures EncodingAfter("; charset=" + e, defaultEncoding) == e
  {
    var t := "; charset=" + e;
    assert t[0] == ';';
    var t1 := SkipOptional(t, ';');
    assert t1 == t[1..];
    assert t1 == " charset=" + e;
    assert t1[0] == ' ';
    var t2 := SkipOptional(t1, ' ');
    assert t2 == t1[1..];
    assert t2 == "charset=" + e;
    assert t2[..8] == "charset=";
    assert t2[8..] == e;
    CharsetRunAll(e);
    assert t2[8..8 + |e|] == e;
  }

  lemma {:induction false} CharsetRunAll(s: string)
    requires forall j :: 0 <= j < |s| ==> IsCharsetChar(s[j])
    ensures CharsetRun(s) == |s|
    decreases |s|
  {
    if |s| > 0 { CharsetRunAll(s[1..]); }
  }

  // ------------------------------------------------------------ requests

  /** The parts of a request dict that authentication and continuation
      touch: method, URL, headers and the backoff delay `_send` records
      (None while it has not recorded one). */
  datatype HttpRequest = HttpRequest(httpMethod: string, url: Url, headers: map<string, string>, backoffDelay: Option<Json>)

  /** What one attempt of `_send` ends in: a response with its status,
      headers and body, or one of the connection failures. */
  datatype Outcome =
    | Response(status: int, head: map<string, string>, body: string)
    | SslFailure
    | TimeoutFailure
    | ConnectionFailure
    | DecodeFailure

  /** The status an attempt leaves: the response's own, or the one
      `set_error` records for a failure. */
  function OutcomeStatus(outcome: Outcome): (s: int)
    ensures !outcome.Response? ==> s in {496, 504, 502, 600}
  {
    match outcome
    case Response(status, _, _) => status
    case SslFailure => 496
    case TimeoutFailure => 504
    case ConnectionFailure => 502
    case DecodeFailure => 600
  }

  /** Statuses after which `_send` backs off and tries again. */
  const RetryStatuses: set<int> := {420, 429, 502, 503, 504}

  function Statuses(outcomes: seq<Outcome>): (r: seq<int>)
    ensures |r| == |outcomes| && forall i :: 0 <= i < |outcomes| ==> r[i] == OutcomeStatus(outcomes[i])
  {
    seq(|outcomes|, i requires 0 <= i < |outcomes| => OutcomeStatus(outcomes[i]))
  }

  /** How many attempts `_send` makes when the attempts would end in
      `statuses`: up to and including the first status that is not retried,
      or all of them. */
  function Attempts(statuses: seq<int>): (n: nat)
    requires |statuses| > 0
    ensures 1 <= n <= |statuses|
    ensures forall i :: 0 <= i < n - 1 ==> statuses[i] in RetryStatuses
    ensures n == |statuses| || statuses[n - 1] !in RetryStatuses
  {
    if |statuses| == 1 || statuses[0] !in RetryStatuses then 1
    else 1 + Attempts(statuses[1..])
  }

  /** Every attempt is made when every status is retried. */
  lemma {:induction false} AttemptsAllRetried(statuses: seq<int>)
    requires |statuses| > 0 && forall i :: 0 <= i < |statuses| ==> statuses[i] in RetryStatuses
    ensures Attempts(statuses) == |statuses|
    decreases |statuses|
  {
    if |statuses| > 1 { AttemptsAllRetried(statuses[1..]); }
  }

  /** A first status that is not retried ends `_send` after one attempt. */
  lemma FirstFinal(statuses: seq<int>)
    requires |statuses| > 0 && statuses[0] !in RetryStatuses
    ensures Attempts(statuses) == 1
  {
  }

  /** The number of attempts is the position of the first status that is
      not retried, plus one. */
  lemma {:induction false} AttemptsAt(statuses: seq<int>, k: nat)
    requires k < |statuses|
    requires forall i :: 0 <= i < k ==> statuses[i] in RetryStatuses
    requires k == |statuses| - 1 || statuses[k] !in RetryStatuses
    ensures Attempts(statuses) == k + 1
    decreases k
  {
    if k > 0 {
      AttemptsAt(statuses[1..], k - 1);
    }
  }

  /** The value `_send` records as `backoff_delay`: the delay waited before
      the last attempt, or False when that was no delay. */
  function RecordedDelay(delay: nat): (r: Json)
    ensures r == Bool(false) <==> delay == 0
    ensures delay > 0 ==> r == Int(delay)
  {
    if delay == 0 then Bool(false) else Int(delay)
  }

  /** The request with `extra` merged into its query parameters, later
      values winning, as `set_query_params` of the updated `query.dict`
      does. */
  function WithParams(request: HttpRequest, extra: map<string, string>): (r: HttpRequest)
    ensures r.url.params.Keys == request.url.params.Keys + extra.Keys
    ensures forall k :: k in extra ==> r.url.params[k] == extra[k]
    ensures forall k :: k in request.url.params && k !in extra ==> r.url.params[k] == request.url.params[k]
    ensures r.httpMethod == request.httpMethod && r.headers == request.headers
    ensures r.url.scheme == request.url.scheme && r.url.rest == request.url.rest
    ensures r.backoffDelay == request.backoffDelay
  {
    request.(url := request.url.(params := request.url.params + extra))
  }

  /** An HttpResource: the consts stand for what the overridable methods
      `auth_parameters`, `auth_headers` and `next_parameters` return and for
      the class's GET_SCHEMA and POST_SCHEMA. */
  class HttpResource {
    const authParameters: map<string, string>
    const authHeaders: map<string, string>
    const nextParameters: map<string, string>
    const getArgsSchema: Schema
    const getKwargsSchema: Schema
    const postArgsSchema: Schema
    const postKwargsSchema: Schema
    var request: HttpRequest
    var status: Option<int>
    var head: map<string, string>
    var body: string
    var purgeAt: Option<int>

    constructor(authParameters: map<string, string>, authHeaders: map<string, string>, nextParameters: map<string, string>,
                getSchemas: (Schema, Schema), postSchemas: (Schema, Schema), request: HttpRequest)
      ensures this.authParameters == authParameters && this.authHeaders == authHeaders
      ensures this.nextParameters == nextParameters
      ensures getArgsSchema == getSchemas.0 && getKwargsSchema == getSchemas.1
      ensures postArgsSchema == postSchemas.0 && postKwargsSchema == postSchemas.1
      ensures this.request == request && status.None? && head == map[] && body == "" && purgeAt.None?
    {
      this.authParameters := authParameters;
      this.authHeaders := authHeaders;
      this.nextParameters := nextParameters;
      getArgsSchema := getSchemas.0;
      getKwargsSchema := getSchemas.1;
      postArgsSchema := postSchemas.0;
      postKwargsSchema := postSchemas.1;
      this.request := request;
      status := None;
      head := map[];
      body := "";
      purgeAt := None;
    }

    /** `request_with_auth`: a copy of the request with the authentication
        parameters merged into its query and the authentication headers into
        its headers; being a function of the state, it leaves the request
        itself as it was. */
    function RequestWithAuth(): (r: HttpRequest)
      reads this
      ensures r.url.params.Keys == request.url.params.Keys + authParameters.Keys
      ensures forall k :: k in authParameters ==> r.url.params[k] == authParameters[k]
      ensures forall k :: k in request.url.params && k !in authParameters ==> r.url.params[k] == request.url.params[k]
      ensures r.headers.Keys == request.headers.Keys + authHeaders.Keys
      ensures forall k :: k in authHeaders ==> r.headers[k] == authHeaders[k]
      ensures forall k :: k in request.headers && k !in authHeaders ==> r.headers[k] == request.headers[k]
      ensures r.httpMethod == request.httpMethod && r.url.scheme == request.url.scheme && r.url.rest == request.url.rest
    {
      WithParams(request, authParameters).(headers := request.headers + authHeaders)
    }

    /** `request_without_auth`: a copy of the request with every
        authentication parameter and header removed. */
    function RequestWithoutAuth(): (r: HttpRequest)
      reads this
      ensures r.url.params.Keys == request.url.params.Keys - authParameters.Keys
      ensures forall k :: k in r.url.params ==> r.url.params[k] == request.url.params[k]
      ensures r.headers.Keys == request.headers.Keys - authHeaders.Keys
      ensures forall k :: k in r.headers ==> r.headers[k] == request.headers[k]
      ensures r.httpMethod == request.httpMethod && r.url.scheme == request.url.scheme && r.url.rest == request.url.rest
    {
      request.(url := request.url.(params := request.url.params - authParameters.Keys),
               headers := request.headers - authHeaders.Keys)
    }

    /** Removing authentication undoes adding it, for a request that did not
        carry any authentication of its own. */
    lemma AuthRoundTrip()
      requires request.url.params.Keys !! authParameters.Keys
      requires request.headers.Keys !! authHeaders.Keys
      ensures var r := RequestWithAuth();
        r.(url := r.url.(params := r.url.params - authParameters.Keys), headers := r.headers - authHeaders.Keys) == request
    {
      var r := RequestWithAuth();
      assert r.url.params - authParameters.Keys == request.url.params;
      assert r.headers - authHeaders.Keys == request.headers;
    }

    /** `create_next_request`: no continuation unless the response is a
        success and there are continuation parameters; otherwise a copy of
        the request with those merged into its query. */
    function CreateNextRequest(): (r: Option<HttpRequest>)
      reads this
      ensures r.None? <==> !Success(status) || |nextParameters| == 0
      ensures r.Some? ==> r.value == WithParams(request, nextParameters)
      ensures r.Some? ==> forall k :: k in nextParameters ==> k in r.value.url.params && r.value.url.params[k] == nextParameters[k]
    {
      if !Success(status) || |nextParameters| == 0 then None
      else Some(WithParams(request, nextParameters))
    }

    /** `set_error`: records `errorStatus`; after a connection error there
        are no headers and no body. */
    method SetError(errorStatus: int, connectionError: bool)
      modifies this
      ensures status == Some(errorStatus) && request == old(request) && purgeAt == old(purgeAt)
      ensures connectionError ==> head == map[] && body == ""
      ensures !connectionError ==> head == old(head) && body == old(body)
    {
      if connectionError {
        head := map[];
        body := "";
      }
      status := Some(errorStatus);
    }

    /** One attempt of `_send`: a response is stored as `_update_from_results`
        does, a failure through `set_error` with its status. */
    method Attempt(outcome: Outcome)
      modifies this
      ensures status == Some(OutcomeStatus(outcome)) && request == old(request) && purgeAt == old(purgeAt)
      ensures outcome.Response? ==> head == outcome.head && body == outcome.body
      ensures !outcome.Response? ==> head == map[] && body == ""
    {
      match outcome
      case Response(s, h, b) =>
        head := h;
        status := Some(s);
        body := b;
      case SslFailure => SetError(496, true);
      case TimeoutFailure => SetError(504, true);
      case ConnectionFailure => SetError(502, true);
      case DecodeFailure => SetError(600, true);
    }

    /** The retry loop of `_send`: it waits 0 and then each backoff delay in
        turn before an attempt, records the delay in the request, and stops
        after the first attempt whose status is not retried. `outcomes[i]`
        is what attempt i would end in; the waits are returned. */
    method Send(delays: seq<nat>, outcomes: seq<Outcome>) returns (waits: seq<nat>)
      requires |outcomes| == |delays| + 1
      modifies this
      ensures |waits| == Attempts(Statuses(outcomes))
      ensures waits == ([0] + delays)[..|waits|]
      ensures var last := outcomes[|waits| - 1];
        status == Some(OutcomeStatus(last)) &&
        (last.Response? ==> head == last.head && body == last.body) &&
        (!last.Response? ==> head == map[] && body == "")
      ensures request == old(request).(backoffDelay := Some(RecordedDelay(waits[|waits| - 1])))
      ensures purgeAt == old(purgeAt)
    {
      var schedule := [0] + delays;
      var original := request;
      waits := [];
      var i := 0;
      while true
        invariant 0 <= i < |schedule|
        invariant waits == schedule[..i]
        invariant forall j :: 0 <= j < i ==> OutcomeStatus(outcomes[j]) in RetryStatuses
        invariant purgeAt == old(purgeAt)
        decreases |schedule| - i
      {
        waits := waits + [schedule[i]];
        Attempt(outcomes[i]);
        request := original.(backoffDelay := Some(RecordedDelay(schedule[i])));
        if OutcomeStatus(outcomes[i]) !in RetryStatuses || i == |schedule| - 1 {
          AttemptsAt(Statuses(outcomes), i);
          assert waits == schedule[..i + 1];
          break;
        }
        i := i + 1;
      }
    }

    /** `validate_request` at time `now`: data past its purge time is
        refused, a request stored as JSON text is parsed with `parse`, the
        request must be a dict whose method is "get" or "post", and with
        `validateInput` its arguments are checked against the schema of that
        method. */
    function ValidateRequest(request: Json, validateInput: bool, now: int, parse: string -> Option<Json>): (r: Result<Json, Exception>)
      reads this
      ensures purgeAt.Some? && purgeAt.value <= now ==> r == Err(ValidationError)
      ensures r.Ok? ==> !(purgeAt.Some? && purgeAt.value <= now)
      ensures r.Ok? ==> r.value == request || (request.Str? && parse(request.s) == Some(r.value))
      ensures r.Ok? ==> r.value.Dict? && "method" in r.value.fields && r.value.fields["method"] in {Str("get"), Str("post")}
      ensures !(purgeAt.Some? && purgeAt.value <= now) && request.Str? && parse(request.s).None? ==> r == Err(ValueError)
      ensures !(purgeAt.Some? && purgeAt.value <= now) && !request.Str? ==> r == CheckRequest(request, validateInput)
    {
      if purgeAt.Some? && purgeAt.value <= now then Err(ValidationError)
      else if request.Str? then
        match parse(request.s)
        case None => Err(ValueError)
        case Some(parsed) => CheckRequest(parsed, validateInput)
      else CheckRequest(request, validateInput)
    }

    /** The checks of `validate_request` on a parsed request. */
    function CheckRequest(request: Json, validateInput: bool): (r: Result<Json, Exception>)
      reads this
      ensures !request.Dict? ==> r == Err(AssertionError)
      ensures request.Dict? && !("method" in request.fields && request.fields["method"] in {Str("get"), Str("post")}) ==>
        r == Err(AssertionError)
      ensures r.Ok? ==> r.value == request
      ensures !validateInput ==> (r.Ok? <==> request.Dict? && "method" in request.fields && request.fields["method"] in {Str("get"), Str("post")})
      ensures r.Err? ==> r.error in {AssertionError, TypeError, ValidationError}
    {
      if !request.Dict? then Err(AssertionError)
      else
        var httpMethod := if "method" in request.fields then request.fields["method"] else Null;
        if !Truthy(httpMethod) then Err(AssertionError)
        else if httpMethod != Str("get") && httpMethod != Str("post") then Err(AssertionError)
        else if !validateInput then Ok(request)
        else
          var args := if "args" in request.fields then request.fields["args"] else List([]);
          var kwargs := if "kwargs" in request.fields then request.fields["kwargs"] else Dict(map[]);
          var argCount := StarCount(args);
          if argCount.None? || !kwargs.Dict? then Err(TypeError)
          else
            var checked := ValidateHttpInput(httpMethod.s, argCount.value, |kwargs.fields|);
            if checked.Err? then Err(checked.error) else Ok(request)
    }

    /** `_validate_input`: the GET schemas apply to "get", the POST schemas
        to any other method. */
    function ValidateHttpInput(httpMethod: string, argCount: nat, kwargCount: nat): (r: Result<bool, Exception>)
      reads this
      ensures httpMethod == "get" ==> r == ValidateInput(getArgsSchema, getKwargsSchema, argCount, kwargCount)
      ensures httpMethod != "get" ==> r == ValidateInput(postArgsSchema, postKwargsSchema, argCount, kwargCount)
      ensures r.Err? ==> r.error == ValidationError
    {
      if httpMethod == "get" then ValidateInput(getArgsSchema, getKwargsSchema, argCount, kwargCount)
      else ValidateInput(postArgsSchema, postKwargsSchema, argCount, kwargCount)
    }
  }
}
