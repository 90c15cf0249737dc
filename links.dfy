// The legacy HttpLink of input/http/core.py: a stored HTTP response that
// builds its own link from a parameter table, fetches it once and keeps it
// while it is a success. The parameter table is a class attribute in the
// source, shared by every link of the class; here it is an object that the
// links hold a reference to, so a change through one link is seen by all.
// The network, the database and the response headers' JSON text are not
// modelled: the stored and the fetched response come in as parameters.

module HttpLinks {
  import opened Wrappers
  import opened Exceptions
  import opened Text

  /** A parameter value: plain text, or a callable called for its text. */
  datatype ParamValue = Plain(text: string) | Callable(result: string)

  /** The text a value contributes to the query: a callable is called
      first. */
  function ValueText(v: ParamValue): string
  {
    match v
    case Plain(text) => text
    case Callable(result) => result
  }

  /** The "k=v" piece of each parameter, in iteration order. */
  function Pairs(params: seq<(string, ParamValue)>): (r: seq<string>)
    ensures |r| == |params|
    ensures forall i :: 0 <= i < |params| ==> r[i] == params[i].0 + "=" + ValueText(params[i].1)
  {
    seq(|params|, i requires 0 <= i < |params| => params[i].0 + "=" + ValueText(params[i].1))
  }

  /** The link `prepare_link` computes: the bare link without parameters,
      otherwise the link, "?" and the pairs joined by "&". */
  function LinkFor(link: string, params: seq<(string, ParamValue)>): string
  {
    if |params| == 0 then link else link + "?" + Join(Pairs(params), "&")
  }

  /** The pieces as the loop writes them, each followed by "&". */
  function Terminated(pieces: seq<string>): string
  {
    if |pieces| == 0 then "" else Terminated(pieces[..|pieces| - 1]) + pieces[|pieces| - 1] + "&"
  }

  /** Writing "&" after every piece is the join plus one "&" too many,
      which is why the loop strips the last character. */
  lemma {:induction false} TerminatedJoin(pieces: seq<string>)
    requires |pieces| > 0
    ensures Terminated(pieces) == Join(pieces, "&") + "&"
  {
    var init := pieces[..|pieces| - 1];
    if |init| == 0 {
      assert pieces == [pieces[0]];
    } else {
      TerminatedJoin(init);
      JoinSnoc(init, pieces[|pieces| - 1], "&");
      assert init + [pieces[|pieces| - 1]] == pieces;
    }
  }

  /** The query string gives its pairs back when split on "&", as long as
      no key or value holds an "&" of its own. */
  lemma QueryPairsRecoverable(link: string, params: seq<(string, ParamValue)>)
    requires |params| > 0
    requires forall i :: 0 <= i < |params| ==> '&' !in params[i].0 + "=" + ValueText(params[i].1)
    ensures LinkFor(link, params) == link + "?" + Join(Pairs(params), "&")
    ensures Split(Join(Pairs(params), "&"), '&') == Pairs(params)
  {
    SplitJoin(Pairs(params), '&');
  }

  /** `params[key] = value` on the table in iteration order: an existing
      key keeps its place, a new one comes last. */
  function SetParam(params: seq<(string, ParamValue)>, key: string, value: ParamValue): (r: seq<(string, ParamValue)>)
    ensures (key, value) in r
    ensures forall i :: 0 <= i < |params| && params[i].0 != key ==> i < |r| && r[i] == params[i]
    ensures |r| == |params| || (|r| == |params| + 1 && r[|params|] == (key, value) && forall i :: 0 <= i < |params| ==> params[i].0 != key)
  {
    if |params| == 0 then [(key, value)]
    else if params[0].0 == key then [(key, value)] + params[1..]
    else [params[0]] + SetParam(params[1..], key, value)
  }

  /** The class-level `_parameters` dict, shared by all links of a class. */
  class ParameterTable {
    var entries: seq<(string, ParamValue)>

    constructor(entries: seq<(string, ParamValue)>)
      ensures this.entries == entries
    {
      this.entries := entries;
    }
  }

  /** What `load` finds in the database for this link. */
  datatype Stored = Stored(head: string, body: string, status: int)

  /** How `get` returned: the response it already had, the one it loaded
      from the database, or one it fetched. */
  datatype GetPath = AlreadySuccessful | FromStorage | Fetched

  /** The 2xx class of section 15.3 of RFC 9110. */
  predicate IsSuccess(status: int)
  {
    200 <= status < 300
  }

  /** `handle_error` on a status: server errors from 500, client errors
      from 400, anything lower passes. */
  function StatusError(status: int): (r: Result<bool, Exception>)
    ensures r.Err? <==> status >= 400
    ensures r.Err? ==> r.error == (if status >= 500 then HttpError50X else HttpError40X)
    ensures r.Ok? ==> r.value
  {
    if status >= 500 then Err(HttpError50X)
    else if status >= 400 then Err(HttpError40X)
    else Ok(true)
  }

  /** A successful status never raises; a status below 400 that is not a
      success (0, 1xx or 3xx) does not raise either. */
  lemma SuccessPassesErrors(status: int)
    ensures IsSuccess(status) ==> StatusError(status) == Ok(true)
    ensures !IsSuccess(status) && StatusError(status).Ok? ==> status < 200 || 300 <= status < 400
  {
  }

  class HttpLink {
    const link: string
    const cache: bool
    const setup: bool
    const parameters: ParameterTable
    var identifier: string
    var authLink: string
    var head: string
    var body: string
    var status: int
    /** How often `save` was called. */
    var saves: nat

    constructor(link: string, cache: bool, setup: bool, parameters: ParameterTable)
      ensures this.link == link && this.cache == cache && this.setup == setup && this.parameters == parameters
      ensures identifier == "" && authLink == "" && head == "" && body == "" && status == 0 && saves == 0
    {
      this.link := link;
      this.cache := cache;
      this.setup := setup;
      this.parameters := parameters;
      identifier := "";
      authLink := "";
      head := "";
      body := "";
      status := 0;
      saves := 0;
    }

    predicate Success()
      reads this
    {
      IsSuccess(status)
    }

    /** `prepare_link`: the identifier becomes the link with the query
        string of the shared parameter table. */
    method PrepareLink()
      modifies this
      ensures identifier == LinkFor(link, parameters.entries)
      ensures authLink == old(authLink) && head == old(head) && body == old(body)
      ensures status == old(status) && saves == old(saves)
    {
      var params := parameters.entries;
      identifier := link;
      if |params| > 0 {
        var pieces := Pairs(params);
        identifier := identifier + "?";
        var i := 0;
        while i < |params|
          invariant 0 <= i <= |params|
          invariant identifier == link + "?" + Terminated(pieces[..i])
          invariant params == parameters.entries
          invariant authLink == old(authLink) && head == old(head) && body == old(body)
          invariant status == old(status) && saves == old(saves)
        {
          var value := ValueText(params[i].1);
          identifier := identifier + params[i].0 + "=" + value + "&";
          assert pieces[..i + 1][..i] == pieces[..i];
          i := i + 1;
        }
        assert pieces[..i] == pieces;
        TerminatedJoin(pieces);
        var full := identifier;
        identifier := identifier[..|identifier| - 1];
        assert full == (link + "?" + Join(pieces, "&")) + "&";
      }
    }

    /** `enable_auth`: the plain link is the authenticated one. */
    method EnableAuth()
      modifies this
      ensures authLink == identifier
      ensures identifier == old(identifier) && head == old(head) && body == old(body)
      ensures status == old(status) && saves == old(saves)
    {
      authLink := identifier;
    }

    /** `store_response`: a cached link, and any failed one, is saved. */
    method StoreResponse() returns (saved: bool)
      modifies this
      ensures saved <==> cache || !Success()
      ensures saves == old(saves) + (if saved then 1 else 0)
      ensures identifier == old(identifier) && authLink == old(authLink)
      ensures head == old(head) && body == old(body) && status == old(status)
    {
      saved := cache || !Success();
      if saved {
        saves := saves + 1;
      }
    }

    /** `handle_error` on the link's own status. */
    function HandleError(): (r: Result<bool, Exception>)
      reads this
      ensures r == StatusError(status)
      ensures Success() ==> r.Ok?
    {
      SuccessPassesErrors(status);
      StatusError(status)
    }

    /** `get`: a successful link is returned as it is unless a refresh is
        asked for; otherwise the response is cleared, the link prepared,
        the database tried, and only when that gives no success the
        response fetched, stored and checked for errors. */
    method Get(refresh: bool, stored: Option<Stored>, response: Stored) returns (r: Result<GetPath, Exception>)
      modifies this
      ensures old(Success()) && !refresh ==>
                r == Ok(AlreadySuccessful) && identifier == old(identifier) && authLink == old(authLink) &&
                head == old(head) && body == old(body) && status == old(status) && saves == old(saves)
      ensures !(old(Success()) && !refresh) && setup ==>
                identifier == LinkFor(link, parameters.entries) && authLink == identifier
      ensures !(old(Success()) && !refresh) && !setup ==>
                identifier == old(identifier) && authLink == old(authLink)
      ensures !(old(Success()) && !refresh) && stored.Some? && IsSuccess(stored.value.status) ==>
                r == Ok(FromStorage) && head == stored.value.head && body == stored.value.body &&
                status == stored.value.status && saves == old(saves)
      ensures !(old(Success()) && !refresh) && !(stored.Some? && IsSuccess(stored.value.status)) ==>
                head == response.head && body == response.body && status == response.status &&
                saves == old(saves) + (if cache || !IsSuccess(response.status) then 1 else 0) &&
                (r.Ok? <==> response.status < 400) && (r.Ok? ==> r.value == Fetched) &&
                (r.Err? ==> r.error == StatusError(response.status).error)
    {
      if Success() && !refresh {
        return Ok(AlreadySuccessful);
      }
      head, body, status := "", "", 0;
      if setup {
        PrepareLink();
        EnableAuth();
      }
      if stored.Some? {
        head, body, status := stored.value.head, stored.value.body, stored.value.status;
        if Success() {
          return Ok(FromStorage);
        }
      }
      head, body, status := response.head, response.body, response.status;
      var _ := StoreResponse();
      var checked := HandleError();
      if checked.Err? {
        return Err(checked.error);
      }
      r := Ok(Fetched);
    }
  }

  /** HttpQueryLink: a link whose query parameter comes from its
      configuration. */
  class HttpQueryLink {
    const base: HttpLink
    const queryParameter: string
    const query: string

    constructor(base: HttpLink, queryParameter: string, query: string)
      ensures this.base == base && this.queryParameter == queryParameter && this.query == query
    {
      this.base := base;
      this.queryParameter := queryParameter;
      this.query := query;
    }

    /** `prepare_link`: the configured query is written into the shared
        table, then the link is prepared as any other. */
    method PrepareLink()
      modifies base, base.parameters
      ensures base.parameters.entries == SetParam(old(base.parameters.entries), queryParameter, Plain(query))
      ensures base.identifier == LinkFor(base.link, base.parameters.entries)
      ensures base.authLink == old(base.authLink) && base.head == old(base.head) && base.body == old(base.body)
      ensures base.status == old(base.status) && base.saves == old(base.saves)
    {
      base.parameters.entries := SetParam(base.parameters.entries, queryParameter, Plain(query));
      base.PrepareLink();
    }
  }

  /** After a query link is prepared, its identifier carries the query
      pair, wherever the parameter stood in the table. */
  lemma QueryInLink(link: string, params: seq<(string, ParamValue)>, key: string, query: string)
    ensures var updated := SetParam(params, key, Plain(query));
            |updated| > 0 && key + "=" + query in Pairs(updated)
  {
    var updated := SetParam(params, key, Plain(query));
    var i :| 0 <= i < |updated| && updated[i] == (key, Plain(query));
    assert Pairs(updated)[i] == key + "=" + query;
  }
}
