// ImageDownload of datagrowth/resources/http/files.py: an HttpResource that
// fetches one image. What is modelled: the url/prefix variables, the
// request that cancels itself on a foreign protocol, the guard in front of
// the retry loop, the file name the image is stored under, and the refusal
// of POST. The clock, the storage backend and PIL are not modelled: the
// timestamp and the URL's path come in as parameters.

module ImageDownloads {
  import opened Wrappers
  import opened Exceptions
  import opened Text
  import opened Json
  import opened InputSchemas
  import opened HttpResources

  /** The `variables` dict: the image URL and the file-name prefix. */
  datatype Variables = Variables(url: string, prefix: string)

  /** `variables(*args)`: the call's own arguments, or else the stored
      request's. Without arguments and without a stored request the lookup
      runs on `None`, an AttributeError; an empty list has no URL. */
  function GetVariables(args: seq<string>, requestArgs: Option<seq<string>>): (r: Result<Variables, Exception>)
    ensures |args| > 0 ==> r.Ok? && r.value.url == args[0]
    ensures |args| > 1 ==> r.value.prefix == args[1] + "."
    ensures |args| == 1 ==> r.value.prefix == ""
    ensures |args| == 0 && requestArgs.None? ==> r == Err(AttributeError)
    ensures |args| == 0 && requestArgs == Some([]) ==> r == Err(IndexError)
    ensures |args| == 0 && requestArgs.Some? && |requestArgs.value| > 0 ==>
              r.Ok? && r.value.url == requestArgs.value[0] &&
              r.value.prefix == (if |requestArgs.value| > 1 then requestArgs.value[1] + "." else "")
  {
    var used := if |args| > 0 then Some(args) else requestArgs;
    if used.None? then Err(AttributeError)
    else if |used.value| == 0 then Err(IndexError)
    else Ok(Variables(used.value[0], if |used.value| > 1 then used.value[1] + "." else ""))
  }

  /** The GET schema's verdict: one or two strings, the first starting
      with "http", and nothing more. */
  predicate ArgsAccepted(args: seq<string>)
  {
    1 <= |args| <= 2 && StartsWith(args[0], "http")
  }

  /** GET_SCHEMA as the shared input check sees it: rules for the
      positional arguments, no entry for keyword arguments. */
  function GetSchemas(args: seq<string>): (r: (Schema, Schema))
    ensures r.1 == Absent
    ensures r.0 == Rules(ArgsAccepted(args))
  {
    (Rules(ArgsAccepted(args)), Absent)
  }

  /** The request dict `_create_request` builds. */
  datatype ImageRequest = ImageRequest(
    args: seq<string>,
    kwargs: map<string, Json>,
    httpMethod: string,
    url: string,
    headers: map<string, string>,
    data: Option<Json>,
    cancel: bool)

  /** The position after the last `c` in `s`, 0 when there is none:
      Python's `s.rfind(c) + 1`. */
  function AfterLast(s: string, c: char): (r: nat)
    ensures r <= |s|
    ensures r > 0 ==> s[r - 1] == c
    ensures forall j :: r <= j < |s| ==> s[j] != c
  {
    if |s| == 0 then 0
    else if s[|s| - 1] == c then |s|
    else AfterLast(s[..|s| - 1], c)
  }

  /** The longest name the storage gets: 150 characters of name plus a
      dot and a four-character extension. */
  const MaxNameLength := 155
  const CutLength := 150

  /** The file name `_save_image` stores an image under: timestamp, a dot,
      the prefix and the last path segment; a name over 150 characters is
      cut to 150 and gets the extension again, and the whole is cut to 155.
      A path without "/" has no file name. */
  function ImageName(path: string, prefix: string, timestamp: string): (r: Result<string, Exception>)
    ensures r.Err? <==> '/' !in path
    ensures r.Err? ==> r.error == AssertionError
    ensures r.Ok? ==> |r.value| <= MaxNameLength
    ensures r.Ok? ==> var full := timestamp + "." + prefix + path[AfterLast(path, '/')..];
                      (|full| <= CutLength ==> r.value == full) &&
                      (|full| > CutLength ==> |r.value| >= CutLength && r.value[..CutLength] == full[..CutLength])
  {
    var namePosition := AfterLast(path, '/');
    var extensionPosition := AfterLast(path, '.');
    if namePosition < 1 then
      assert '/' !in path by {
        forall j | 0 <= j < |path| ensures path[j] != '/' { }
      }
      Err(AssertionError)
    else
      var full := timestamp + "." + prefix + path[namePosition..];
      var cut := if |full| > CutLength then full[..CutLength] + (if extensionPosition != 0 then "." + path[extensionPosition..] else "") else full;
      Ok(if |cut| > MaxNameLength then cut[..MaxNameLength] else cut)
  }

  /** A short name reaches the storage as built; a long one keeps its first
      150 characters and, when there is room, the extension after them. */
  lemma ShortNameKept(path: string, prefix: string, timestamp: string)
    requires '/' in path
    requires |timestamp + "." + prefix + path[AfterLast(path, '/')..]| <= CutLength
    ensures ImageName(path, prefix, timestamp) == Ok(timestamp + "." + prefix + path[AfterLast(path, '/')..])
  {
  }

  /** A long name with a short extension ends in that extension. */
  lemma LongNameKeepsExtension(path: string, prefix: string, timestamp: string)
    requires '/' in path
    requires |timestamp + "." + prefix + path[AfterLast(path, '/')..]| > CutLength
    requires AfterLast(path, '.') != 0 && |path| - AfterLast(path, '.') <= MaxNameLength - CutLength - 1
    ensures ImageName(path, prefix, timestamp).Ok?
    ensures var name := ImageName(path, prefix, timestamp).value;
            name == (timestamp + "." + prefix + path[AfterLast(path, '/')..])[..CutLength] + "." + path[AfterLast(path, '.')..]
  {
  }

  class ImageDownload {
    /** The HttpResource part: status, head, body and the retry loop. */
    const resource: HttpResource
    const timeout: int
    var request: Option<ImageRequest>

    /** `__init__`: the timeout keyword, 4 seconds by default. */
    constructor(resource: HttpResource, timeout: Option<int>)
      ensures this.resource == resource && request.None?
      ensures this.timeout == (if timeout.Some? then timeout.value else 4)
    {
      this.resource := resource;
      this.timeout := if timeout.Some? then timeout.value else 4;
      request := None;
    }

    /** The arguments of the stored request, if there is one. */
    function RequestArgs(): (r: Option<seq<string>>)
      reads this
      ensures r.Some? <==> request.Some?
      ensures r.Some? ==> r.value == request.value.args
    {
      if request.Some? then Some(request.value.args) else None
    }

    /** `_create_request`: input the schema refuses is an error, unless
        the URL does not even start with "http" (say x-raw-image://):
        then the resource records a 404 and the request is built with
        `cancel` set. The request is always a GET without data, checked
        for expiry only. */
    method CreateRequest(args: seq<string>, kwargs: map<string, Json>, now: int) returns (r: Result<ImageRequest, Exception>)
      modifies this, resource
      ensures var vars := GetVariables(args, old(RequestArgs()));
              vars.Err? ==> r == Err(vars.error) && unchanged(resource) && request == old(request)
      ensures var vars := GetVariables(args, old(RequestArgs()));
              var valid := ValidateInput(GetSchemas(args).0, GetSchemas(args).1, |args|, |kwargs|);
              vars.Ok? && valid.Err? && StartsWith(vars.value.url, "http") ==>
                r == Err(ValidationError) && unchanged(resource) && request == old(request)
      ensures var vars := GetVariables(args, old(RequestArgs()));
              var valid := ValidateInput(GetSchemas(args).0, GetSchemas(args).1, |args|, |kwargs|);
              vars.Ok? && valid.Err? && !StartsWith(vars.value.url, "http") ==>
                resource.status == Some(404) && resource.head == old(resource.head) && resource.body == old(resource.body)
      ensures var vars := GetVariables(args, old(RequestArgs()));
              var valid := ValidateInput(GetSchemas(args).0, GetSchemas(args).1, |args|, |kwargs|);
              vars.Ok? && valid.Ok? ==> unchanged(resource)
      ensures var vars := GetVariables(args, old(RequestArgs()));
              var valid := ValidateInput(GetSchemas(args).0, GetSchemas(args).1, |args|, |kwargs|);
              var expired := resource.purgeAt.Some? && resource.purgeAt.value <= now;
              vars.Ok? && (valid.Ok? || !StartsWith(vars.value.url, "http")) ==>
                (expired ==> r == Err(ValidationError)) &&
                (!expired ==> r == Ok(ImageRequest(args, kwargs, "get", vars.value.url, map[], None, valid.Err?)))
      ensures r.Ok? ==> request == Some(r.value) && r.value.httpMethod == "get" && r.value.data.None?
      ensures r.Err? ==> request == old(request)
      ensures r.Ok? && r.value.cancel ==> resource.status == Some(404)
    {
      var vars := GetVariables(args, RequestArgs());
      if vars.Err? {
        return Err(vars.error);
      }
      var schemas := GetSchemas(args);
      var valid := ValidateInput(schemas.0, schemas.1, |args|, |kwargs|);
      var cancel := false;
      if valid.Err? {
        if StartsWith(vars.value.url, "http") {
          return Err(valid.error);
        }
        resource.SetError(404, false);
        cancel := true;
      }
      if resource.purgeAt.Some? && resource.purgeAt.value <= now {
        return Err(ValidationError);
      }
      var built := ImageRequest(args, kwargs, "get", vars.value.url, map[], None, cancel);
      request := Some(built);
      r := Ok(built);
    }

    /** `_send`: a cancelled request is not sent at all; any other goes
        through the HttpResource retry loop. */
    method Send(delays: seq<nat>, outcomes: seq<Outcome>) returns (waits: seq<nat>)
      requires request.Some?
      requires |outcomes| == |delays| + 1
      modifies resource
      ensures request.value.cancel ==> waits == [] && unchanged(resource)
      ensures !request.value.cancel ==>
                |waits| == Attempts(Statuses(outcomes)) && waits == ([0] + delays)[..|waits|] &&
                resource.status == Some(OutcomeStatus(outcomes[|waits| - 1]))
    {
      if request.value.cancel {
        return [];
      }
      waits := resource.Send(delays, outcomes);
    }

    /** `post`: images are only downloaded over GET. */
    function Post(args: seq<string>, kwargs: map<string, Json>): (r: Result<ImageRequest, Exception>)
      ensures r == Err(NotImplementedError)
    {
      Err(NotImplementedError)
    }
  }
}
