// `loadItems` of WikiData in core/output/http/static/js/wikidata.js: the item
// store, the chunking of a work list into `wbgetentities` requests, and the
// handler that runs when one of those requests answers. Each `params` object
// the source threads through the calls is an entry of the `sessions` table
// here, addressed by its index; a request in flight remembers the index of
// the session that issued it. A response is one discrete event (`Complete`),
// so any order of completions can be reasoned about.

module WikiDataStore {
  import opened Wrappers
  import opened Text
  import opened WikiDataEntities
  import Iterators

  /** `max_get_entities`: the largest number of ids in one request. */
  const MaxGetEntities: nat := 50

  /** What `loadItems` keeps in an initialised `params` object. `root` is the
      session whose `finished` callback this one's `finished` ends up
      calling (itself for the caller's own params, the caller's params for
      the post-load rounds); `finished` counts the calls of a root's
      callback. */
  datatype Session = Session(
    root: nat,
    follow: seq<string>,
    preload: seq<string>,
    running: nat,
    postLoad: seq<string>,
    finished: nat)

  /** A `wbgetentities` call in flight, with what its response handler will
      need: the session, the depth left and `download_all_linked_items`. */
  datatype Request = Request(ids: seq<string>, session: nat, maxDepth: Option<int>, downloadAll: bool)

  /** `max_depth--` on a defined depth. */
  function Decrement(maxDepth: Option<int>): (r: Option<int>)
    ensures r.Some? <==> maxDepth.Some?
    ensures r.Some? ==> r.value < maxDepth.value
  {
    if maxDepth.Some? then Some(maxDepth.value - 1) else None
  }

  predicate NegativeDepth(maxDepth: Option<int>)
  {
    maxDepth.Some? && maxDepth.value < 0
  }

  // ---------------------------------------------------------------------
  // The work list

  predicate IsLoaded(items: map<string, Item>, q: string)
  {
    q in items && items[q].Loaded?
  }

  /** The ids of a work list a request is issued for: those whose item is
      not loaded yet (absent or a placeholder), in list order, repetitions
      kept. */
  function ToFetch(ql: seq<string>, items: map<string, Item>): (r: seq<string>)
    ensures forall k :: 0 <= k < |r| ==> !IsLoaded(items, r[k])
    ensures |r| <= |ql|
  {
    if ql == [] then []
    else (if IsLoaded(items, ql[0]) then [] else [ql[0]]) + ToFetch(ql[1..], items)
  }

  lemma {:induction false} ToFetchConcat(a: seq<string>, b: seq<string>, items: map<string, Item>)
    ensures ToFetch(a + b, items) == ToFetch(a, items) + ToFetch(b, items)
  {
    if a == [] {
      assert a + b == b;
    } else {
      assert (a + b)[1..] == a[1..] + b;
      ToFetchConcat(a[1..], b, items);
    }
  }

  /** Every id of the work list that is not loaded is fetched. */
  lemma {:induction false} ToFetchComplete(ql: seq<string>, items: map<string, Item>, q: string)
    requires q in ql && !IsLoaded(items, q)
    ensures q in ToFetch(ql, items)
  {
    if ql[0] != q {
      ToFetchComplete(ql[1..], items, q);
    }
  }

  /** The store after placeholders were created for `ids`: entries already
      present are kept, each missing id gets a placeholder. */
  function WithPlaceholders(items: map<string, Item>, ids: seq<string>): (r: map<string, Item>)
    ensures r.Keys == items.Keys + Members(ids)
    ensures forall q :: q in items ==> r[q] == items[q]
    ensures forall q :: q in r && q !in items ==> r[q] == Placeholder
  {
    map q | q in items.Keys + Members(ids) :: if q in items then items[q] else Placeholder
  }

  lemma WithPlaceholdersPush(items: map<string, Item>, ids: seq<string>, q: string)
    ensures var m := WithPlaceholders(items, ids);
      WithPlaceholders(items, ids + [q]) == if q in m then m else m[q := Placeholder]
  {
    MembersPush(ids, q);
  }

  /** The requests issued for a list of chunks, in order. */
  function Requests(chunks: seq<seq<string>>, session: nat, maxDepth: Option<int>, downloadAll: bool): (r: seq<Request>)
    ensures |r| == |chunks|
    ensures forall k :: 0 <= k < |r| ==> r[k] == Request(chunks[k], session, maxDepth, downloadAll)
  {
    seq(|chunks|, k requires 0 <= k < |chunks| => Request(chunks[k], session, maxDepth, downloadAll))
  }

  /** The number of requests in flight for a session: its `running`. */
  function Count(reqs: seq<Request>, s: nat): nat
  {
    if reqs == [] then 0 else (if reqs[0].session == s then 1 else 0) + Count(reqs[1..], s)
  }

  lemma {:induction false} CountConcat(a: seq<Request>, b: seq<Request>, s: nat)
    ensures Count(a + b, s) == Count(a, s) + Count(b, s)
  {
    if a == [] {
      assert a + b == b;
    } else {
      assert (a + b)[1..] == a[1..] + b;
      CountConcat(a[1..], b, s);
    }
  }

  lemma {:induction false} CountRequests(chunks: seq<seq<string>>, h: nat, maxDepth: Option<int>, downloadAll: bool, s: nat)
    ensures Count(Requests(chunks, h, maxDepth, downloadAll), s) == if s == h then |chunks| else 0
  {
    if chunks != [] {
      assert Requests(chunks, h, maxDepth, downloadAll)[1..] == Requests(chunks[1..], h, maxDepth, downloadAll);
      CountRequests(chunks[1..], h, maxDepth, downloadAll, s);
    }
  }

  /** A request in flight is counted for its session. */
  lemma {:induction false} CountPositive(reqs: seq<Request>, k: nat)
    requires k < |reqs|
    ensures Count(reqs, reqs[k].session) > 0
  {
    if k > 0 {
      assert reqs[1..][k - 1] == reqs[k];
      CountPositive(reqs[1..], k - 1);
    }
  }

  /** No request in flight is counted for a session without requests. */
  lemma {:induction false} CountZero(reqs: seq<Request>, s: nat, k: nat)
    requires Count(reqs, s) == 0 && k < |reqs|
    ensures reqs[k].session != s
  {
    if k > 0 {
      assert reqs[1..][k - 1] == reqs[k];
      CountZero(reqs[1..], s, k - 1);
    }
  }

  lemma CountRemove(reqs: seq<Request>, k: nat, s: nat)
    requires k < |reqs|
    ensures Count(reqs[..k] + reqs[k + 1..], s) == Count(reqs, s) - (if reqs[k].session == s then 1 else 0)
  {
    assert reqs == reqs[..k] + ([reqs[k]] + reqs[k + 1..]);
    CountConcat(reqs[..k], [reqs[k]] + reqs[k + 1..], s);
    CountConcat([reqs[k]], reqs[k + 1..], s);
    CountConcat(reqs[..k], reqs[k + 1..], s);
    assert Count([reqs[k]], s) == (if reqs[k].session == s then 1 else 0) by {
      assert [reqs[k]][1..] == [];
    }
  }

  /** One step of the inner chunking loop, on the collected ids and the
      store. */
  lemma TakeStep(ql: seq<string>, pos: nat, next: nat, items0: map<string, Item>, items: map<string, Item>, ids: seq<string>)
    requires pos <= next < |ql|
    requires ids == ToFetch(ql[pos..next], items0) && items == WithPlaceholders(items0, ToFetch(ql[..next], items0))
    ensures var q := ql[next];
      (IsLoaded(items, q) <==> IsLoaded(items0, q))
      && (if IsLoaded(items, q) then ids else ids + [q]) == ToFetch(ql[pos..next + 1], items0)
      && (if !IsLoaded(items, q) && q !in items then items[q := Placeholder] else items)
        == WithPlaceholders(items0, ToFetch(ql[..next + 1], items0))
  {
    var q := ql[next];
    ToFetchConcat(ql[pos..next], [q], items0);
    ToFetchConcat(ql[..next], [q], items0);
    assert ql[pos..next + 1] == ql[pos..next] + [q] && ql[..next + 1] == ql[..next] + [q];
    assert ToFetch([q], items0) == if IsLoaded(items0, q) then [] else [q] by {
      assert [q][1..] == [];
    }
    WithPlaceholdersPush(items0, ToFetch(ql[..next], items0), q);
    if IsLoaded(items0, q) {
      assert ToFetch(ql[..next], items0) + [] == ToFetch(ql[..next], items0);
    }
  }

  lemma RequestsSnoc(done: seq<seq<string>>, ids: seq<string>, h: nat, maxDepth: Option<int>, downloadAll: bool)
    ensures Requests(done + [ids], h, maxDepth, downloadAll) == Requests(done, h, maxDepth, downloadAll) + [Request(ids, h, maxDepth, downloadAll)]
  {
  }

  /** The end of the outer chunking loop: every batch has been issued and
      the whole work list has been through the store. */
  lemma ChunkFinish(ql: seq<string>, pos: nat, items0: map<string, Item>, done: seq<seq<string>>, all: seq<string>)
    requires pos == |ql|
    requires Iterators.Batches(all, MaxGetEntities) == done + Iterators.Batches(ToFetch(ql[pos..], items0), MaxGetEntities)
    ensures Iterators.Batches(all, MaxGetEntities) == done && ql[..pos] == ql
  {
    assert ql[pos..] == [];
    var empty: seq<string> := [];
    assert ToFetch(empty, items0) == [];
    assert Iterators.Batches(empty, MaxGetEntities) == [];
    assert done + [] == done;
  }

  /** One step of the outer chunking loop: the chunk just collected is the
      next batch. */
  lemma ChunkAdvance(ql: seq<string>, start: nat, pos: nat, ids: seq<string>, items0: map<string, Item>,
                     done: seq<seq<string>>, all: seq<string>)
    requires start <= pos <= |ql| && |ids| <= MaxGetEntities && (|ids| == MaxGetEntities || pos == |ql|)
    requires ids == ToFetch(ql[start..pos], items0)
    requires Iterators.Batches(all, MaxGetEntities) == done + Iterators.Batches(ToFetch(ql[start..], items0), MaxGetEntities)
    ensures Iterators.Batches(all, MaxGetEntities)
      == (if ids == [] then done else done + [ids]) + Iterators.Batches(ToFetch(ql[pos..], items0), MaxGetEntities)
  {
    var tail := ToFetch(ql[pos..], items0);
    assert ql[start..] == ql[start..pos] + ql[pos..];
    ToFetchConcat(ql[start..pos], ql[pos..], items0);
    if |ids| < MaxGetEntities { assert ql[pos..] == []; }
    ChunkStep(ids, tail);
    if ids != [] {
      assert done + ([ids] + Iterators.Batches(tail, MaxGetEntities)) == (done + [ids]) + Iterators.Batches(tail, MaxGetEntities);
    } else {
      assert [] + Iterators.Batches(tail, MaxGetEntities) == Iterators.Batches(tail, MaxGetEntities);
    }
  }

  /** Chunking: cutting the fetched ids into consecutive requests. */
  lemma ChunkStep(ids: seq<string>, tail: seq<string>)
    requires |ids| <= MaxGetEntities && (|ids| == MaxGetEntities || tail == [])
    ensures Iterators.Batches(ids + tail, MaxGetEntities)
      == (if ids == [] then [] else [ids]) + Iterators.Batches(tail, MaxGetEntities)
  {
    var s := ids + tail;
    if ids == [] {
      assert s == tail;
    } else if tail == [] {
      assert s == ids;
    } else {
      assert s[..MaxGetEntities] == ids && s[MaxGetEntities..] == tail;
    }
  }

  // ---------------------------------------------------------------------
  // The lists a response adds to

  /** The `$.inArray` guarded pushes: each candidate is appended unless it
      is excluded or already on the list. */
  function Extend(list: seq<string>, cands: seq<string>, exclude: set<string>): seq<string>
    decreases |cands|
  {
    if cands == [] then list
    else Extend(if cands[0] in exclude || cands[0] in list then list else list + [cands[0]], cands[1..], exclude)
  }

  /** What the guarded pushes achieve: the list keeps its entries and order,
      never gains a duplicate, and gains exactly the candidates that are
      neither excluded nor already present. */
  lemma {:induction false} ExtendProperties(list: seq<string>, cands: seq<string>, exclude: set<string>)
    requires NoDup(list)
    ensures var r := Extend(list, cands, exclude);
      NoDup(r) && |r| >= |list| && r[..|list|] == list
      && Members(r) == Members(list) + (Members(cands) - exclude)
      && forall k :: |list| <= k < |r| ==> r[k] !in exclude
    decreases |cands|
  {
    if cands != [] {
      var c := cands[0];
      var next := if c in exclude || c in list then list else list + [c];
      MembersPush(list, c);
      assert NoDup(next);
      ExtendProperties(next, cands[1..], exclude);
      var r := Extend(next, cands[1..], exclude);
      assert r[..|list|] == next[..|list|];
      assert cands == [c] + cands[1..];
      assert Members(cands) == {c} + Members(cands[1..]) by {
        forall y | y in Members(cands) ensures y in {c} + Members(cands[1..]) {
          var k :| 0 <= k < |cands| && cands[k] == y;
          if k > 0 { assert cands[1..][k - 1] == y; }
        }
        forall y | y in Members(cands[1..]) ensures y in Members(cands) {
          var k :| 0 <= k < |cands[1..]| && cands[1..][k] == y;
          assert cands[k + 1] == y;
        }
      }
      forall k | |list| <= k < |r| ensures r[k] !in exclude {
        if k >= |next| {
        } else {
          assert next == list + [c] && r[k] == next[k] && k == |list|;
        }
      }
    }
  }

  /** An id is on the extended list exactly when it was on the list or is
      a candidate that is not excluded. */
  lemma {:induction false} ExtendMembers(list: seq<string>, cands: seq<string>, exclude: set<string>, q: string)
    ensures q in Members(Extend(list, cands, exclude)) <==> q in Members(list) || (q in Members(cands) && q !in exclude)
    decreases |cands|
  {
    if cands != [] {
      var c := cands[0];
      var next := if c in exclude || c in list then list else list + [c];
      ExtendMembers(next, cands[1..], exclude, q);
      MembersPush(list, c);
      assert c in list ==> c in Members(list);
      assert q in Members(cands) <==> q == c || q in Members(cands[1..]) by {
        if q in Members(cands) {
          var k :| 0 <= k < |cands| && cands[k] == q;
          if k > 0 { assert cands[1..][k - 1] == q; }
        }
        if q in Members(cands[1..]) {
          var k :| 0 <= k < |cands[1..]| && cands[1..][k] == q;
          assert cands[k + 1] == q;
        }
      }
    }
  }

  /** The guarded-push loop. */
  method AppendNew(list: seq<string>, cands: seq<string>, exclude: set<string>) returns (r: seq<string>)
    ensures r == Extend(list, cands, exclude)
  {
    r := list;
    var i := 0;
    while i < |cands|
      invariant 0 <= i <= |cands|
      invariant Extend(r, cands[i..], exclude) == Extend(list, cands, exclude)
    {
      assert cands[i..][1..] == cands[i + 1..];
      var c := cands[i];
      if c !in exclude && c !in r {
        r := r + [c];
      }
      i := i + 1;
    }
  }

  /** The item targets of the claims of `props`, property by property, in
      claim order (the candidates of the follow and preload loops). */
  function LinkTargets(item: Item, props: seq<string>): seq<string>
  {
    if props == [] then []
    else LinkedItems(ClaimsForProperty(item, props[0]), map[], true) + LinkTargets(item, props[1..])
  }

  /** Every candidate is a linked item of one of the properties. */
  lemma {:induction false} LinkTargetsMembers(item: Item, props: seq<string>, q: string)
    requires q in LinkTargets(item, props)
    ensures exists i :: 0 <= i < |props| && q in LinkedItems(ClaimsForProperty(item, props[i]), map[], true)
  {
    if q !in LinkedItems(ClaimsForProperty(item, props[0]), map[], true) {
      LinkTargetsMembers(item, props[1..], q);
      var i :| 0 <= i < |props[1..]| && q in LinkedItems(ClaimsForProperty(item, props[1..][i]), map[], true);
      assert props[1..][i] == props[i + 1];
    }
  }

  /** Conversely, every linked item of every property is a candidate. */
  lemma {:induction false} LinkTargetsComplete(item: Item, props: seq<string>, i: nat, q: string)
    requires i < |props| && q in LinkedItems(ClaimsForProperty(item, props[i]), map[], true)
    ensures q in LinkTargets(item, props)
  {
    var head := LinkedItems(ClaimsForProperty(item, props[0]), map[], true);
    assert LinkTargets(item, props) == head + LinkTargets(item, props[1..]);
    if i > 0 {
      assert props[1..][i - 1] == props[i];
      LinkTargetsComplete(item, props[1..], i - 1, q);
    }
  }

  /** The qualifier candidates of a list of snaks: their item targets. */
  function SnakTargets(snaks: seq<Snak>): seq<string>
  {
    if snaks == [] then []
    else (match QualifierTargetId(snaks[0]) case Some(q) => [q] case None => []) + SnakTargets(snaks[1..])
  }

  /** For each qualifier group of a claim: its property key, then its item
      targets. */
  function QualifierGroupCandidates(groups: seq<QualifierGroup>): seq<string>
  {
    if groups == [] then []
    else [groups[0].prop] + SnakTargets(groups[0].snaks) + QualifierGroupCandidates(groups[1..])
  }

  function ClaimQualifierCandidates(claims: seq<Claim>): seq<string>
  {
    if claims == [] then []
    else QualifierGroupCandidates(claims[0].qualifiers) + ClaimQualifierCandidates(claims[1..])
  }

  /** The qualifier loop's candidates, over all claims of a record. */
  function QualifierCandidates(groups: seq<ClaimGroup>): seq<string>
  {
    if groups == [] then []
    else ClaimQualifierCandidates(groups[0].claims) + QualifierCandidates(groups[1..])
  }

  /** The post-load list after one loaded record: its claim keys, then its
      qualifier keys and targets, then the targets of the preloaded
      properties `pre` that are not in the store `known`. */
  function PostLoadAfter(post: seq<string>, e: Entity, pre: seq<string>, known: set<string>): seq<string>
  {
    var afterKeys := Extend(post, ClaimKeys(e), {});
    var afterQualifiers := Extend(afterKeys, QualifierCandidates(e.claims), {});
    Extend(afterQualifiers, LinkTargets(Loaded(e), pre), known)
  }

  /** The post-load list never gains a duplicate, keeps what it had, and
      gains every claim key and qualifier candidate of the record and every
      preload target not in the store. */
  lemma PostLoadAfterProperties(post: seq<string>, e: Entity, pre: seq<string>, known: set<string>)
    requires NoDup(post)
    ensures var r := PostLoadAfter(post, e, pre, known);
      NoDup(r) && |r| >= |post| && r[..|post|] == post
      && Members(r) == Members(post) + Members(ClaimKeys(e)) + Members(QualifierCandidates(e.claims))
        + (Members(LinkTargets(Loaded(e), pre)) - known)
  {
    var afterKeys := Extend(post, ClaimKeys(e), {});
    ExtendProperties(post, ClaimKeys(e), {});
    var afterQualifiers := Extend(afterKeys, QualifierCandidates(e.claims), {});
    ExtendProperties(afterKeys, QualifierCandidates(e.claims), {});
    ExtendProperties(afterQualifiers, LinkTargets(Loaded(e), pre), known);
    var r := PostLoadAfter(post, e, pre, known);
    assert r[..|post|] == afterQualifiers[..|afterKeys|][..|post|];
  }

  /** The work list `convertToStringArray(post_load_items, 'Q')` of a
      post-load round. */
  function PostLoadList(post: seq<string>): seq<string>
  {
    ConvertToStringArray(Collection(seq(|post|, k requires 0 <= k < |post| => Text(post[k]))), Some("Q"))
  }

  /** What the records of one response leave behind: the store, the
      session of the request and the next-round list `nql`. */
  datatype Absorbed = Absorbed(items: map<string, Item>, session: Session, nql: seq<string>)

  /** The handler's loop over the records of a response, one record after
      the other (`Absorb` on each): the record replaces its entry, its
      claim keys, qualifier candidates and preload targets join the
      post-load list, and its follow targets join `nql`; a target is left
      out when the store has it at that point. Only the post-load list of
      the session changes, and every record is in the store afterwards. */
  function AbsorbFold(items: map<string, Item>, s: Session, entities: seq<(string, Entity)>, downloadAll: bool): (r: Absorbed)
    ensures r.session == s.(postLoad := r.session.postLoad)
    ensures items.Keys <= r.items.Keys
    decreases |entities|
  {
    if entities == [] then Absorbed(items, s, [])
    else
      var n := |entities| - 1;
      var a := AbsorbFold(items, s, entities[..n], downloadAll);
      var e := entities[n].1;
      var items' := a.items[entities[n].0 := Loaded(e)];
      var pre := if downloadAll then ClaimKeys(e) else a.session.preload;
      Absorbed(items', a.session.(postLoad := PostLoadAfter(a.session.postLoad, e, pre, items'.Keys)),
               Extend(a.nql, LinkTargets(Loaded(e), a.session.follow), items'.Keys))
  }

  /** The keys of the records of a response. */
  function RecordKeys(entities: seq<(string, Entity)>): set<string>
  {
    set i | 0 <= i < |entities| :: entities[i].0
  }

  /** The store after the records of a response, one map update per
      record in order. */
  function LoadRecords(items: map<string, Item>, entities: seq<(string, Entity)>): (r: map<string, Item>)
    ensures items.Keys <= r.Keys
    decreases |entities|
  {
    if entities == [] then items
    else
      var n := |entities| - 1;
      LoadRecords(items, entities[..n])[entities[n].0 := Loaded(entities[n].1)]
  }

  /** The fold's store is that of the record-by-record updates. */
  lemma {:induction false} AbsorbFoldLoads(items: map<string, Item>, s: Session, entities: seq<(string, Entity)>, downloadAll: bool)
    ensures AbsorbFold(items, s, entities, downloadAll).items == LoadRecords(items, entities)
    decreases |entities|
  {
    if entities != [] {
      AbsorbFoldLoads(items, s, entities[..|entities| - 1], downloadAll);
      AbsorbFoldLast(items, s, entities, downloadAll);
    }
  }

  /** With distinct keys, every record ends up loaded under its key, the
      store keeps every key it had and gains only the records' keys, and an
      entry no record names is left as it was. */
  lemma {:induction false} LoadRecordsItems(items: map<string, Item>, entities: seq<(string, Entity)>)
    requires DistinctKeys(entities)
    ensures var r := LoadRecords(items, entities);
      (forall i :: 0 <= i < |entities| ==> entities[i].0 in r && r[entities[i].0] == Loaded(entities[i].1))
      && (forall q :: q in r && q !in items ==> exists i :: 0 <= i < |entities| && entities[i].0 == q)
      && (forall q :: q in items && (forall i :: 0 <= i < |entities| ==> entities[i].0 != q) ==> r[q] == items[q])
    decreases |entities|
  {
    if entities != [] {
      var n := |entities| - 1;
      var init := entities[..n];
      assert DistinctKeys(init);
      LoadRecordsItems(items, init);
      var r := LoadRecords(items, entities);
      forall i | 0 <= i < |entities| ensures entities[i].0 in r && r[entities[i].0] == Loaded(entities[i].1) {
        if i < n {
          assert init[i] == entities[i];
          assert entities[i].0 != entities[n].0;
        }
      }
      forall q | q in r && q !in items ensures exists i :: 0 <= i < |entities| && entities[i].0 == q {
        if q != entities[n].0 {
          var i :| 0 <= i < n && init[i].0 == q;
          assert entities[i].0 == q;
        }
      }
      forall q | q in items && (forall i :: 0 <= i < |entities| ==> entities[i].0 != q) ensures r[q] == items[q] {
        assert forall i :: 0 <= i < n ==> init[i].0 != q by {
          forall i | 0 <= i < n ensures init[i].0 != q { assert init[i] == entities[i]; }
        }
      }
    }
  }

  /** Neither list of a response gains a duplicate, and the post-load
      list keeps what it had. */
  lemma {:induction false} AbsorbFoldNoDup(items: map<string, Item>, s: Session, entities: seq<(string, Entity)>, downloadAll: bool)
    requires NoDup(s.postLoad)
    ensures var r := AbsorbFold(items, s, entities, downloadAll);
      NoDup(r.nql) && NoDup(r.session.postLoad)
      && |r.session.postLoad| >= |s.postLoad| && r.session.postLoad[..|s.postLoad|] == s.postLoad
    decreases |entities|
  {
    if entities != [] {
      var n := |entities| - 1;
      AbsorbFoldNoDup(items, s, entities[..n], downloadAll);
      var a := AbsorbFold(items, s, entities[..n], downloadAll);
      var e := entities[n].1;
      var known := a.items[entities[n].0 := Loaded(e)].Keys;
      var pre := if downloadAll then ClaimKeys(e) else s.preload;
      ExtendProperties(a.nql, LinkTargets(Loaded(e), s.follow), known);
      PostLoadAfterProperties(a.session.postLoad, e, pre, known);
      var r := AbsorbFold(items, s, entities, downloadAll);
      assert r.session.postLoad[..|s.postLoad|] == r.session.postLoad[..|a.session.postLoad|][..|s.postLoad|];
    }
  }

  /** Every entry of the next-round list is a follow target of one of the
      records, and the store did not have it before the response. */
  lemma {:induction false} AbsorbFoldFollows(items: map<string, Item>, s: Session, entities: seq<(string, Entity)>, downloadAll: bool, q: string)
    requires q in Members(AbsorbFold(items, s, entities, downloadAll).nql)
    ensures q !in items
    ensures exists i :: 0 <= i < |entities| && q in Members(LinkTargets(Loaded(entities[i].1), s.follow))
    decreases |entities|
  {
    var n := |entities| - 1;
    var init := entities[..n];
    var a := AbsorbFold(items, s, init, downloadAll);
    var e := entities[n].1;
    var targets := LinkTargets(Loaded(e), s.follow);
    var known := a.items[entities[n].0 := Loaded(e)].Keys;
    ExtendMembers(a.nql, targets, known, q);
    if q in Members(a.nql) {
      AbsorbFoldFollows(items, s, init, downloadAll, q);
      var i :| 0 <= i < n && q in Members(LinkTargets(Loaded(init[i].1), s.follow));
      assert init[i] == entities[i];
    }
  }

  /** The last record of a response, absorbed after the others. */
  lemma AbsorbFoldLast(items: map<string, Item>, s: Session, entities: seq<(string, Entity)>, downloadAll: bool)
    requires entities != []
    ensures var n := |entities| - 1;
      var a := AbsorbFold(items, s, entities[..n], downloadAll);
      var r := AbsorbFold(items, s, entities, downloadAll);
      r.items == a.items[entities[n].0 := Loaded(entities[n].1)]
      && r.nql == Extend(a.nql, LinkTargets(Loaded(entities[n].1), s.follow), r.items.Keys)
  {
  }

  /** Every follow target of a record that was neither in the store nor
      one of the records' own keys is on the next-round list. */
  lemma {:induction false} AbsorbFoldComplete(items: map<string, Item>, s: Session, entities: seq<(string, Entity)>, downloadAll: bool, i: nat, q: string)
    requires i < |entities| && q in Members(LinkTargets(Loaded(entities[i].1), s.follow))
    requires q !in items && q !in RecordKeys(entities)
    ensures q in Members(AbsorbFold(items, s, entities, downloadAll).nql)
    decreases |entities|
  {
    var n := |entities| - 1;
    var init := entities[..n];
    var a := AbsorbFold(items, s, init, downloadAll);
    var r := AbsorbFold(items, s, entities, downloadAll);
    var targets := LinkTargets(Loaded(entities[n].1), s.follow);
    AbsorbFoldLast(items, s, entities, downloadAll);
    ExtendMembers(a.nql, targets, r.items.Keys, q);
    RecordKeysLast(entities);
    if i < n {
      assert init[i] == entities[i];
      AbsorbFoldComplete(items, s, init, downloadAll, i, q);
      assert q in Members(a.nql);
    } else {
      AbsorbFoldKeys(items, s, entities, downloadAll);
      assert i == n;
      assert q in Members(targets);
      assert q in Members(Extend(a.nql, targets, r.items.Keys));
    }
    assert r.nql == Extend(a.nql, targets, r.items.Keys);
  }

  /** The keys of the records of a response, the last one split off. */
  lemma RecordKeysLast(entities: seq<(string, Entity)>)
    requires entities != []
    ensures RecordKeys(entities) == RecordKeys(entities[..|entities| - 1]) + {entities[|entities| - 1].0}
  {
    var n := |entities| - 1;
    forall t | t in RecordKeys(entities) ensures t in RecordKeys(entities[..n]) + {entities[n].0} {
      var j :| 0 <= j < |entities| && entities[j].0 == t;
      if j < n { assert entities[..n][j].0 == t; }
    }
    forall t | t in RecordKeys(entities[..n]) ensures t in RecordKeys(entities) {
      var j :| 0 <= j < n && entities[..n][j].0 == t;
      assert entities[j].0 == t;
    }
  }

  /** The store after a response holds what it held and the records, and
      nothing else. */
  lemma {:induction false} AbsorbFoldKeys(items: map<string, Item>, s: Session, entities: seq<(string, Entity)>, downloadAll: bool)
    ensures AbsorbFold(items, s, entities, downloadAll).items.Keys == items.Keys + RecordKeys(entities)
    decreases |entities|
  {
    if entities == [] {
      assert RecordKeys(entities) == {};
    } else {
      AbsorbFoldKeys(items, s, entities[..|entities| - 1], downloadAll);
      AbsorbFoldLast(items, s, entities, downloadAll);
      RecordKeysLast(entities);
    }
  }

  // ---------------------------------------------------------------------
  // The state a response leaves behind

  /** The fields of the store object: `self.items`, the sessions and the
      requests in flight. */
  datatype Store = Store(items: map<string, Item>, sessions: seq<Session>, inFlight: seq<Request>)

  /** The chunking loop on the work list `ql` for session `h`: the ids the
      store has not loaded get a placeholder and go out in batches of
      `MaxGetEntities`, each counted in the session's `running`. */
  function Enqueued(st: Store, ql: seq<string>, h: nat, maxDepth: Option<int>, downloadAll: bool): (r: Store)
    requires h < |st.sessions|
    ensures |r.sessions| == |st.sessions| && |r.inFlight| >= |st.inFlight| && r.inFlight[..|st.inFlight|] == st.inFlight
    ensures forall q :: q in st.items ==> q in r.items && r.items[q] == st.items[q]
    ensures forall t :: 0 <= t < |st.sessions| && t != h ==> r.sessions[t] == st.sessions[t]
    ensures r.sessions[h].running == st.sessions[h].running + (|r.inFlight| - |st.inFlight|)
  {
    var fetch := ToFetch(ql, st.items);
    var chunks := Iterators.Batches(fetch, MaxGetEntities);
    var issued := Requests(chunks, h, maxDepth, downloadAll);
    Store(WithPlaceholders(st.items, fetch),
          st.sessions[h := st.sessions[h].(running := st.sessions[h].running + |chunks|)],
          st.inFlight + issued)
  }

  /** `Enqueued` spelled out field by field. */
  lemma EnqueuedFields(st: Store, ql: seq<string>, h: nat, maxDepth: Option<int>, downloadAll: bool)
    requires h < |st.sessions|
    ensures var chunks := Iterators.Batches(ToFetch(ql, st.items), MaxGetEntities);
      Enqueued(st, ql, h, maxDepth, downloadAll)
        == Store(WithPlaceholders(st.items, ToFetch(ql, st.items)),
                 st.sessions[h := st.sessions[h].(running := st.sessions[h].running + |chunks|)],
                 st.inFlight + Requests(chunks, h, maxDepth, downloadAll))
  {
  }

  /** Every request the chunking loop issues belongs to session `h`,
      carries the depth and the `download_all_linked_items` flag it was
      given, and asks for 1 to `MaxGetEntities` ids, none of them loaded. */
  lemma EnqueuedIssues(st: Store, ql: seq<string>, h: nat, maxDepth: Option<int>, downloadAll: bool)
    requires h < |st.sessions|
    ensures var r := Enqueued(st, ql, h, maxDepth, downloadAll);
      forall q :: |st.inFlight| <= q < |r.inFlight| ==>
        r.inFlight[q].session == h && r.inFlight[q].maxDepth == maxDepth && r.inFlight[q].downloadAll == downloadAll
        && 0 < |r.inFlight[q].ids| <= MaxGetEntities
        && forall j :: 0 <= j < |r.inFlight[q].ids| ==> !IsLoaded(st.items, r.inFlight[q].ids[j])
  {
    var fetch := ToFetch(ql, st.items);
    var issued := Requests(Iterators.Batches(fetch, MaxGetEntities), h, maxDepth, downloadAll);
    EnqueuedFields(st, ql, h, maxDepth, downloadAll);
    IssuedRequests(fetch, h, maxDepth, downloadAll);
    var r := Enqueued(st, ql, h, maxDepth, downloadAll);
    assert r.inFlight == st.inFlight + issued;
    forall q | |st.inFlight| <= q < |r.inFlight|
      ensures r.inFlight[q].session == h && r.inFlight[q].maxDepth == maxDepth && r.inFlight[q].downloadAll == downloadAll
        && 0 < |r.inFlight[q].ids| <= MaxGetEntities
        && forall j :: 0 <= j < |r.inFlight[q].ids| ==> !IsLoaded(st.items, r.inFlight[q].ids[j])
    {
      assert r.inFlight[q] == issued[q - |st.inFlight|];
    }
  }

  /** The requests issued for a list of ids to fetch. */
  lemma IssuedRequests(fetch: seq<string>, h: nat, maxDepth: Option<int>, downloadAll: bool)
    ensures var issued := Requests(Iterators.Batches(fetch, MaxGetEntities), h, maxDepth, downloadAll);
      forall q :: 0 <= q < |issued| ==>
        issued[q].session == h && issued[q].maxDepth == maxDepth && issued[q].downloadAll == downloadAll
        && 0 < |issued[q].ids| <= MaxGetEntities
        && forall j :: 0 <= j < |issued[q].ids| ==> issued[q].ids[j] in fetch
  {
    var chunks := Iterators.Batches(fetch, MaxGetEntities);
    var issued := Requests(chunks, h, maxDepth, downloadAll);
    Iterators.BatchesSizes(fetch, MaxGetEntities);
    Iterators.BatchesConcat(fetch, MaxGetEntities);
    forall q | 0 <= q < |issued|
      ensures 0 < |issued[q].ids| <= MaxGetEntities && forall j :: 0 <= j < |issued[q].ids| ==> issued[q].ids[j] in fetch
    {
      BatchElements(chunks, q);
      assert issued[q].ids == chunks[q];
    }
  }

  /** An element of a batch is an element of the joined batches. */
  lemma {:induction false} BatchElements(chunks: seq<seq<string>>, k: nat)
    requires k < |chunks|
    ensures forall j :: 0 <= j < |chunks[k]| ==> chunks[k][j] in Iterators.Concat(chunks)
  {
    if k > 0 {
      BatchElements(chunks[1..], k - 1);
      assert chunks[1..][k - 1] == chunks[k];
    }
  }

  /** The `finished` callback of the chain of root `r` called once more. */
  function Finished(st: Store, r: nat): (t: Store)
    requires r < |st.sessions|
    ensures t.items == st.items && t.inFlight == st.inFlight && |t.sessions| == |st.sessions|
    ensures t.sessions[r].finished == st.sessions[r].finished + 1
    ensures forall u :: 0 <= u < |st.sessions| && u != r ==> t.sessions[u] == st.sessions[u]
  {
    st.(sessions := st.sessions[r := st.sessions[r].(finished := st.sessions[r].finished + 1)])
  }

  /** The response of request `k` with the records `entities`, up to the
      `params.running--`: the records are absorbed into the store and the
      session of the request, and a non-empty next-round list is loaded one
      level deeper unless the depth is exhausted. */
  function Received(st: Store, k: nat, entities: seq<(string, Entity)>): (r: Store)
    requires k < |st.inFlight| && st.inFlight[k].session < |st.sessions|
    ensures |r.sessions| == |st.sessions| && |r.inFlight| >= |st.inFlight| && r.inFlight[..|st.inFlight|] == st.inFlight
    ensures st.items.Keys <= r.items.Keys
  {
    var req := st.inFlight[k];
    var a := AbsorbFold(st.items, st.sessions[req.session], entities, req.downloadAll);
    var absorbed := st.(items := a.items, sessions := st.sessions[req.session := a.session]);
    if a.nql == [] || NegativeDepth(req.maxDepth) then absorbed
    else Enqueued(absorbed, a.nql, req.session, Decrement(req.maxDepth), false)
  }

  /** `Received` spelled out. */
  lemma ReceivedFields(st: Store, k: nat, entities: seq<(string, Entity)>)
    requires k < |st.inFlight| && st.inFlight[k].session < |st.sessions|
    ensures var req := st.inFlight[k];
      var a := AbsorbFold(st.items, st.sessions[req.session], entities, req.downloadAll);
      var absorbed := st.(items := a.items, sessions := st.sessions[req.session := a.session]);
      Received(st, k, entities)
        == if a.nql == [] || NegativeDepth(req.maxDepth) then absorbed
           else Enqueued(absorbed, a.nql, req.session, Decrement(req.maxDepth), false)
  {
  }

  /** The post-load round of session `h`: a new session of the same chain,
      with nothing to follow or preload, loads the post-load list at depth
      0; when it issues no request, the chain's `finished` is called. */
  function PostLoadRound(st: Store, h: nat): (r: Store)
    requires h < |st.sessions| && st.sessions[h].root < |st.sessions|
    ensures |r.sessions| == |st.sessions| + 1 && r.sessions[|st.sessions|].root == st.sessions[h].root
    ensures r.sessions[|st.sessions|].follow == [] && r.sessions[|st.sessions|].preload == []
    ensures |r.inFlight| >= |st.inFlight| && r.inFlight[..|st.inFlight|] == st.inFlight
    ensures r.inFlight == st.inFlight <==> r.sessions[st.sessions[h].root].finished == st.sessions[st.sessions[h].root].finished + 1
  {
    var n := |st.sessions|;
    var root := st.sessions[h].root;
    var round := Enqueued(st.(sessions := st.sessions + [Session(root, [], [], 0, [], 0)]),
                          PostLoadList(st.sessions[h].postLoad), n, Decrement(Some(0)), false);
    if round.inFlight == st.inFlight then Finished(round, root) else round
  }

  /** Request `k` is counted in the `running` of its session, whose root
      exists. */
  predicate Retirable(st: Store, k: nat)
  {
    k < |st.inFlight| && st.inFlight[k].session < |st.sessions|
    && st.sessions[st.inFlight[k].session].running > 0
    && st.sessions[st.inFlight[k].session].root < |st.sessions|
  }

  /** `PostLoadRound` spelled out. */
  lemma PostLoadRoundFields(st: Store, h: nat)
    requires h < |st.sessions| && st.sessions[h].root < |st.sessions|
    ensures var n := |st.sessions|;
      var root := st.sessions[h].root;
      var round := Enqueued(st.(sessions := st.sessions + [Session(root, [], [], 0, [], 0)]),
                            PostLoadList(st.sessions[h].postLoad), n, Decrement(Some(0)), false);
      PostLoadRound(st, h) == if round.inFlight == st.inFlight then Finished(round, root) else round
  {
  }

  /** The requests of a post-load round belong to the new session, ask
      for 1 to `MaxGetEntities` ids each, at depth -1 and without
      `download_all_linked_items`. */
  lemma PostLoadRoundIssues(st: Store, h: nat)
    requires h < |st.sessions| && st.sessions[h].root < |st.sessions|
    ensures var r := PostLoadRound(st, h);
      forall q :: |st.inFlight| <= q < |r.inFlight| ==>
        r.inFlight[q].session == |st.sessions| && r.inFlight[q].maxDepth == Some(-1) && !r.inFlight[q].downloadAll
        && 0 < |r.inFlight[q].ids| <= MaxGetEntities
  {
    var n := |st.sessions|;
    var grown := st.(sessions := st.sessions + [Session(st.sessions[h].root, [], [], 0, [], 0)]);
    PostLoadRoundFields(st, h);
    EnqueuedIssues(grown, PostLoadList(st.sessions[h].postLoad), n, Decrement(Some(0)), false);
  }

  /** A response to a post-load request (depth -1) issues no request of
      its own; a further post-load round can only come from its session's
      `running` count reaching 0 in `Retired`. */
  lemma PostLoadResponseIssuesNothing(st: Store, k: nat, entities: seq<(string, Entity)>)
    requires k < |st.inFlight| && st.inFlight[k].session < |st.sessions| && st.inFlight[k].maxDepth == Some(-1)
    ensures Received(st, k, entities).inFlight == st.inFlight
  {
    ReceivedFields(st, k, entities);
  }

  /** `params.running--` for the answered request `k`; once the session
      has nothing in flight, either its post-load round starts or, with an
      empty post-load list, the chain's `finished` is called. */
  function Retired(st: Store, k: nat): (r: Store)
    requires Retirable(st, k)
    ensures |r.inFlight| >= |st.inFlight| - 1 && r.inFlight[..|st.inFlight| - 1] == st.inFlight[..k] + st.inFlight[k + 1..]
    ensures r.items.Keys >= st.items.Keys
  {
    var h := st.inFlight[k].session;
    var down := st.(sessions := st.sessions[h := st.sessions[h].(running := st.sessions[h].running - 1)],
                    inFlight := st.inFlight[..k] + st.inFlight[k + 1..]);
    if down.sessions[h].running > 0 then down
    else if down.sessions[h].postLoad == [] then Finished(down, down.sessions[h].root)
    else PostLoadRound(down, h)
  }

  // ---------------------------------------------------------------------
  // The store

  predicate IsRoot(sessions: seq<Session>, r: nat)
  {
    r < |sessions| && sessions[r].root == r
  }

  /** The bookkeeping every step keeps: each session's `running` is the
      number of its requests in flight, each chain has one live session,
      the only one of the chain that may have requests in flight, and
      post-load lists are duplicate free. */
  ghost predicate TrackedState(sessions: seq<Session>, inFlight: seq<Request>, live: seq<nat>)
  {
    |live| == |sessions|
    && (forall q :: 0 <= q < |inFlight| ==> inFlight[q].session < |sessions|)
    && (forall s :: 0 <= s < |sessions| ==> sessions[s].running == Count(inFlight, s))
    && (forall s :: 0 <= s < |sessions| ==> IsRoot(sessions, sessions[s].root))
    && (forall r: nat :: IsRoot(sessions, r) ==> live[r] < |sessions| && sessions[live[r]].root == r)
    && (forall s :: 0 <= s < |sessions| ==> NoDup(sessions[s].postLoad))
    && (forall s :: 0 <= s < |sessions| && sessions[s].running > 0 ==> live[sessions[s].root] == s)
  }

  /** A chain's `finished` callback has been called at most once, and it
      has been called exactly when the live session of the chain has no
      request in flight. */
  predicate Settled(sessions: seq<Session>, live: seq<nat>, r: nat)
  {
    r < |sessions| && r < |live| && live[r] < |sessions|
    && sessions[r].finished <= 1 && (sessions[r].finished == 0 <==> sessions[live[r]].running > 0)
  }

  ghost predicate ValidState(sessions: seq<Session>, inFlight: seq<Request>, live: seq<nat>)
  {
    TrackedState(sessions, inFlight, live) && forall r: nat :: IsRoot(sessions, r) ==> Settled(sessions, live, r)
  }

  /** Issuing requests for the live session `h` keeps the bookkeeping, and
      leaves every other chain as settled as it was. */
  lemma IssueKeepsTracked(sessions: seq<Session>, inFlight: seq<Request>, live: seq<nat>, h: nat,
                          chunks: seq<seq<string>>, maxDepth: Option<int>, downloadAll: bool)
    requires TrackedState(sessions, inFlight, live) && h < |sessions| && live[sessions[h].root] == h
    ensures var s2 := sessions[h := sessions[h].(running := sessions[h].running + |chunks|)];
      var f2 := inFlight + Requests(chunks, h, maxDepth, downloadAll);
      TrackedState(s2, f2, live)
      && forall r: nat :: IsRoot(sessions, r) && r != sessions[h].root && Settled(sessions, live, r) ==> Settled(s2, live, r)
  {
    var s2 := sessions[h := sessions[h].(running := sessions[h].running + |chunks|)];
    var f2 := inFlight + Requests(chunks, h, maxDepth, downloadAll);
    forall s | 0 <= s < |s2| ensures s2[s].running == Count(f2, s) {
      CountConcat(inFlight, Requests(chunks, h, maxDepth, downloadAll), s);
      CountRequests(chunks, h, maxDepth, downloadAll, s);
    }
    forall r: nat | IsRoot(s2, r) ensures live[r] < |s2| && s2[live[r]].root == r {
      assert IsRoot(sessions, r);
    }
  }

  class WikiData {
    /** `self.items` */
    var items: map<string, Item>
    /** Every `params` object `loadItems` has initialised, by index. */
    var sessions: seq<Session>
    /** The requests whose response has not been handled yet. */
    var inFlight: seq<Request>
    /** For each root session, the session of its chain that is loading
        now (the caller's own, or the latest post-load round). */
    ghost var live: seq<nat>

    /** The store's fields as one value. */
    function State(): Store
      reads this
    {
      Store(items, sessions, inFlight)
    }

    ghost predicate Tracked()
      reads this
    {
      TrackedState(sessions, inFlight, live)
    }

    ghost predicate Valid()
      reads this
    {
      ValidState(sessions, inFlight, live)
    }

    constructor ()
      ensures Valid() && items == map[] && sessions == [] && inFlight == []
    {
      items, sessions, inFlight, live := map[], [], [], [];
    }

    /** The chunking loop of `loadItems`: the work list is consumed from
        the front; loaded ids are skipped, missing ones get a placeholder,
        and every `MaxGetEntities` collected ids (and the rest at the end)
        become one request, counted in the session's `running`. */
    method Enqueue(ql: seq<string>, h: nat, maxDepth: Option<int>, downloadAll: bool) returns (started: bool)
      requires Tracked() && h < |sessions| && live[sessions[h].root] == h
      modifies this
      ensures Tracked() && live == old(live)
      ensures State() == Enqueued(old(State()), ql, h, maxDepth, downloadAll)
      ensures forall r: nat :: IsRoot(sessions, r) && r != sessions[h].root && Settled(old(sessions), live, r) ==> Settled(sessions, live, r)
      ensures var chunks := Iterators.Batches(ToFetch(ql, old(items)), MaxGetEntities);
        inFlight == old(inFlight) + Requests(chunks, h, maxDepth, downloadAll)
        && sessions == old(sessions)[h := old(sessions)[h].(running := old(sessions)[h].running + |chunks|)]
      ensures items == WithPlaceholders(old(items), ToFetch(ql, old(items)))
      ensures started <==> ToFetch(ql, old(items)) != []
    {
      ghost var chunks := Iterators.Batches(ToFetch(ql, items), MaxGetEntities);
      IssueKeepsTracked(sessions, inFlight, live, h, chunks, maxDepth, downloadAll);
      started := Chunk(ql, h, maxDepth, downloadAll);
      BatchesNonEmpty(ToFetch(ql, old(items)));
    }

    /** The loop itself, on local copies of the store and the request
        list that are written back at the end. */
    method Chunk(ql: seq<string>, h: nat, maxDepth: Option<int>, downloadAll: bool) returns (started: bool)
      requires h < |sessions|
      modifies this
      ensures live == old(live)
      ensures State() == Enqueued(old(State()), ql, h, maxDepth, downloadAll)
      ensures var chunks := Iterators.Batches(ToFetch(ql, old(items)), MaxGetEntities);
        inFlight == old(inFlight) + Requests(chunks, h, maxDepth, downloadAll)
        && sessions == old(sessions)[h := old(sessions)[h].(running := old(sessions)[h].running + |chunks|)]
        && (started <==> chunks != [])
      ensures items == WithPlaceholders(old(items), ToFetch(ql, old(items)))
    {
      EnqueuedFields(State(), ql, h, maxDepth, downloadAll);
      var store, issued := ChunkList(ql, h, maxDepth, downloadAll, items);
      items, inFlight := store, inFlight + issued;
      sessions := sessions[h := sessions[h].(running := sessions[h].running + |issued|)];
      started := issued != [];
    }

    static method ChunkList(ql: seq<string>, h: nat, maxDepth: Option<int>, downloadAll: bool, items: map<string, Item>)
      returns (store: map<string, Item>, issued: seq<Request>)
      ensures issued == Requests(Iterators.Batches(ToFetch(ql, items), MaxGetEntities), h, maxDepth, downloadAll)
      ensures store == WithPlaceholders(items, ToFetch(ql, items))
    {
      store, issued := items, [];
      ghost var all := ToFetch(ql, items);
      ghost var done: seq<seq<string>> := [];
      var pos := 0;
      assert ql[0..] == ql;
      while pos < |ql|
        invariant 0 <= pos <= |ql|
        invariant Iterators.Batches(all, MaxGetEntities) == done + Iterators.Batches(ToFetch(ql[pos..], items), MaxGetEntities)
        invariant store == WithPlaceholders(items, ToFetch(ql[..pos], items))
        invariant issued == Requests(done, h, maxDepth, downloadAll)
        decreases |ql| - pos
      {
        var start := pos;
        var ids;
        ids, pos, store := TakeChunk(ql, pos, store, items);
        ChunkAdvance(ql, start, pos, ids, items, done, all);
        if ids != [] {
          RequestsSnoc(done, ids, h, maxDepth, downloadAll);
          issued := issued + [Request(ids, h, maxDepth, downloadAll)];
          done := done + [ids];
        }
      }
      ChunkFinish(ql, pos, items, done, all);
    }

    /** The inner loop of the chunking: ids are taken from position `pos`
        of the work list until `MaxGetEntities` are collected or the list
        is exhausted; a missing id gets a placeholder in the store. */
    static method TakeChunk(ql: seq<string>, pos: nat, store: map<string, Item>, ghost items0: map<string, Item>)
      returns (ids: seq<string>, next: nat, store': map<string, Item>)
      requires pos <= |ql| && store == WithPlaceholders(items0, ToFetch(ql[..pos], items0))
      ensures pos <= next <= |ql| && |ids| <= MaxGetEntities && (|ids| == MaxGetEntities || next == |ql|)
      ensures ids == ToFetch(ql[pos..next], items0)
      ensures store' == WithPlaceholders(items0, ToFetch(ql[..next], items0))
    {
      ids, next, store' := [], pos, store;
      while |ids| < MaxGetEntities && next < |ql|
        invariant pos <= next <= |ql| && |ids| <= MaxGetEntities
        invariant ids == ToFetch(ql[pos..next], items0)
        invariant store' == WithPlaceholders(items0, ToFetch(ql[..next], items0))
        decreases |ql| - next
      {
        var q := ql[next];
        TakeStep(ql, pos, next, items0, store', ids);
        next := next + 1;
        if !(q in store' && store'[q].Loaded?) {
          if q !in store' {
            store' := store'[q := Placeholder];
          }
          ids := ids + [q];
        }
      }
    }

    /** `loadItems` called again with an initialised `params` (the response
        handler's call for the next depth): a negative depth starts nothing,
        otherwise the depth is decremented and the list is enqueued. */
    method LoadMore(ql: seq<string>, h: nat, maxDepth: Option<int>)
      requires Valid() && h < |sessions| && sessions[h].running > 0
      modifies this
      ensures Valid() && live == old(live)
      ensures State() == if NegativeDepth(maxDepth) then old(State()) else Enqueued(old(State()), ql, h, Decrement(maxDepth), false)
      ensures NegativeDepth(maxDepth) ==> items == old(items) && inFlight == old(inFlight) && sessions == old(sessions)
      ensures !NegativeDepth(maxDepth) ==>
        var chunks := Iterators.Batches(ToFetch(ql, old(items)), MaxGetEntities);
        inFlight == old(inFlight) + Requests(chunks, h, Decrement(maxDepth), false)
        && sessions == old(sessions)[h := old(sessions)[h].(running := old(sessions)[h].running + |chunks|)]
        && items == WithPlaceholders(old(items), ToFetch(ql, old(items)))
      ensures old(items).Keys <= items.Keys && forall q :: q in old(items) ==> items[q] == old(items)[q]
      ensures |inFlight| >= |old(inFlight)| && inFlight[..|old(inFlight)|] == old(inFlight)
      ensures |sessions| == |old(sessions)|
    {
      if NegativeDepth(maxDepth) {
        return;
      }
      var started := Enqueue(ql, h, Decrement(maxDepth), false);
      assert Settled(sessions, live, sessions[h].root);
    }

    /** `loadItems(item_list, params, max_depth)` on a fresh `params`: the
        follow and preload lists are canonicalised as properties, the work
        list as items, and the list is enqueued in a new root session.
        Nothing happens for a negative depth; a call that starts no request
        calls `finished` at once. */
    method LoadItems(itemList: RawIds, follow: RawIds, preload: RawIds, preloadAllForRoot: bool, maxDepth: Option<int>)
      returns (session: Option<nat>)
      requires Valid()
      modifies this
      ensures Valid()
      ensures NegativeDepth(maxDepth) ==>
        session == None && items == old(items) && inFlight == old(inFlight) && sessions == old(sessions)
      ensures !NegativeDepth(maxDepth) ==>
        var n := |old(sessions)|;
        var fetch := ToFetch(ConvertToStringArray(itemList, Some("Q")), old(items));
        var chunks := Iterators.Batches(fetch, MaxGetEntities);
        session == Some(n) && |sessions| == n + 1 && sessions[..n] == old(sessions)
        && sessions[n] == Session(n, ConvertToStringArray(follow, Some("P")), ConvertToStringArray(preload, Some("P")),
                                  |chunks|, [], if chunks == [] then 1 else 0)
        && inFlight == old(inFlight) + Requests(chunks, n, Decrement(maxDepth), preloadAllForRoot)
        && items == WithPlaceholders(old(items), fetch)
    {
      if NegativeDepth(maxDepth) {
        return None;
      }
      var n := |sessions|;
      var ql := ConvertToStringArray(itemList, Some("Q"));
      var preloadIds := ConvertToStringArray(preload, Some("P"));
      var followIds := ConvertToStringArray(follow, Some("P"));
      AddRoot(Session(n, followIds, preloadIds, 0, [], 0));
      var started := Enqueue(ql, n, Decrement(maxDepth), preloadAllForRoot);
      if !started {
        Finish(n);
      } else {
        assert Settled(sessions, live, n);
      }
      session := Some(n);
      assert sessions[..n] == old(sessions);
    }

    /** A new root session, live in its own chain. */
    method AddRoot(s: Session)
      requires Valid() && s.root == |sessions| && s.running == 0 && s.finished == 0 && s.postLoad == []
      modifies this
      ensures Tracked() && sessions == old(sessions) + [s] && live == old(live) + [s.root]
      ensures items == old(items) && inFlight == old(inFlight)
      ensures forall r: nat :: IsRoot(sessions, r) && r != s.root ==> Settled(sessions, live, r)
    {
      var n := |sessions|;
      CountAbsent(inFlight, n);
      sessions := sessions + [s];
      live := live + [n];
      forall r: nat | IsRoot(sessions, r) && r != n ensures Settled(sessions, live, r) {
        assert IsRoot(old(sessions), r) && Settled(old(sessions), old(live), r);
      }
    }

    /** The `finished` callback of session `h`'s chain is called, once its
        live session has nothing in flight. */
    method Finish(h: nat)
      requires Tracked() && h < |sessions| && sessions[h].running == 0
      requires live[sessions[h].root] == h && sessions[sessions[h].root].finished == 0
      requires forall r: nat :: IsRoot(sessions, r) && r != sessions[h].root ==> Settled(sessions, live, r)
      modifies this
      ensures Valid()
      ensures old(sessions)[h].root < |old(sessions)| && State() == Finished(old(State()), old(sessions)[h].root)
      ensures var r := old(sessions)[h].root;
        sessions == old(sessions)[r := old(sessions)[r].(finished := old(sessions)[r].finished + 1)]
      ensures items == old(items) && inFlight == old(inFlight) && live == old(live)
    {
      var r := sessions[h].root;
      FinishKeepsValid(sessions, inFlight, live, h);
      sessions := sessions[r := sessions[r].(finished := sessions[r].finished + 1)];
    }

    /** One record of a response: it replaces the placeholder in the
        store, its claim keys and qualifier keys and targets join the
        post-load list of the session, the targets of the followed
        properties join the next-round list `nql`, and the targets of the
        preloaded properties (all properties of the record with
        `download_all_linked_items`) join the post-load list; targets
        already in the store are left out. Neither list gains a duplicate
        or loses an entry. */
    static method Absorb(items: map<string, Item>, s: Session, key: string, e: Entity, downloadAll: bool, nql: seq<string>)
      returns (items': map<string, Item>, s': Session, next: seq<string>)
      requires NoDup(s.postLoad) && NoDup(nql)
      ensures items' == items[key := Loaded(e)]
      ensures var pre := if downloadAll then ClaimKeys(e) else s.preload;
        s' == s.(postLoad := PostLoadAfter(s.postLoad, e, pre, items'.Keys))
      ensures next == Extend(nql, LinkTargets(Loaded(e), s.follow), items'.Keys)
      ensures NoDup(s'.postLoad) && |s'.postLoad| >= |s.postLoad| && s'.postLoad[..|s.postLoad|] == s.postLoad
      ensures NoDup(next) && |next| >= |nql| && next[..|nql|] == nql
    {
      items' := items[key := Loaded(e)];
      var post := AppendNew(s.postLoad, ClaimKeys(e), {});
      next := AppendNew(nql, LinkTargets(Loaded(e), s.follow), items'.Keys);
      post := AppendNew(post, QualifierCandidates(e.claims), {});
      var pre;
      if downloadAll {
        pre := PropertyList(e);
      } else {
        pre := s.preload;
      }
      post := AppendNew(post, LinkTargets(Loaded(e), pre), items'.Keys);
      ExtendProperties(nql, LinkTargets(Loaded(e), s.follow), items'.Keys);
      PostLoadAfterProperties(s.postLoad, e, pre, items'.Keys);
      s' := s.(postLoad := post);
    }

    /** The loop of the handler over the records of a response, on the
        store and the session of the request: every record ends up loaded
        under its key, no other entry changes, and only the post-load list
        of the session changes. */
    static method AbsorbRecords(items: map<string, Item>, s: Session, entities: seq<(string, Entity)>, downloadAll: bool)
      returns (items': map<string, Item>, s': Session, nql: seq<string>)
      requires NoDup(s.postLoad) && DistinctKeys(entities)
      ensures Absorbed(items', s', nql) == AbsorbFold(items, s, entities, downloadAll)
      ensures s' == s.(postLoad := s'.postLoad) && NoDup(s'.postLoad) && NoDup(nql)
      ensures forall i :: 0 <= i < |entities| ==> entities[i].0 in items' && items'[entities[i].0] == Loaded(entities[i].1)
      ensures forall q :: q in items ==> q in items'
      ensures forall q :: q in items' && q !in items ==> exists i :: 0 <= i < |entities| && entities[i].0 == q
      ensures forall q :: q in items && (forall i :: 0 <= i < |entities| ==> entities[i].0 != q) ==> items'[q] == items[q]
    {
      items', s', nql := items, s, [];
      var i := 0;
      while i < |entities|
        invariant 0 <= i <= |entities|
        invariant Absorbed(items', s', nql) == AbsorbFold(items, s, entities[..i], downloadAll)
        invariant NoDup(s'.postLoad) && NoDup(nql)
      {
        assert entities[..i + 1][..i] == entities[..i];
        items', s', nql := Absorb(items', s', entities[i].0, entities[i].1, downloadAll, nql);
        i := i + 1;
      }
      assert entities[..i] == entities;
      AbsorbFoldLoads(items, s, entities, downloadAll);
      LoadRecordsItems(items, entities);
    }

    /** The response handler of a request in flight, given the records of
        the response by key. After the records are absorbed, a non-empty
        next-round list is loaded one level deeper, the request stops
        counting, and when the session has nothing left in flight either a
        post-load round starts or the `finished` callback is called. */
    method Complete(k: nat, entities: seq<(string, Entity)>)
      requires Valid() && k < |inFlight|
      requires CanonicalKeys(entities) && DistinctKeys(entities)
      modifies this
      ensures Valid()
      ensures var mid := Received(old(State()), k, entities);
        Retirable(mid, k) && State() == Retired(mid, k)
      ensures forall i :: 0 <= i < |entities| ==> entities[i].0 in items && items[entities[i].0] == Loaded(entities[i].1)
      ensures old(items).Keys <= items.Keys
      ensures |inFlight| >= |old(inFlight)| - 1
      ensures inFlight[..|old(inFlight)| - 1] == old(inFlight)[..k] + old(inFlight)[k + 1..]
    {
      Receive(k, entities);
      ghost var mid, loaded := inFlight, items;
      Retire(k);
      RemoveFromExtended(old(inFlight), mid, k, inFlight);
      EntitiesKept(loaded, items, entities);
    }

    /** The response of request `k` absorbed, and a non-empty next-round
        list loaded one level deeper; the request is still in flight. */
    method Receive(k: nat, entities: seq<(string, Entity)>)
      requires Valid() && k < |inFlight| && DistinctKeys(entities)
      modifies this
      ensures Valid()
      ensures State() == Received(old(State()), k, entities)
      ensures forall i :: 0 <= i < |entities| ==> entities[i].0 in items && items[entities[i].0] == Loaded(entities[i].1)
      ensures old(items).Keys <= items.Keys
      ensures |inFlight| >= |old(inFlight)| && inFlight[..|old(inFlight)|] == old(inFlight)
    {
      var req := inFlight[k];
      CountPositive(inFlight, k);
      ghost var st0 := State();
      ReceivedFields(st0, k, entities);
      ghost var a := AbsorbFold(items, sessions[req.session], entities, req.downloadAll);
      ghost var absorbed := st0.(items := a.items, sessions := sessions[req.session := a.session]);
      var nql := AbsorbAll(req.session, entities, req.downloadAll);
      assert State() == absorbed;
      if nql != [] {
        LoadMore(nql, req.session, req.maxDepth);
        EntitiesKept(absorbed.items, items, entities);
      }
      assert State() == Received(st0, k, entities);
    }

    /** The records of a response absorbed into the store and the session
        `h` of the request. */
    method AbsorbAll(h: nat, entities: seq<(string, Entity)>, downloadAll: bool) returns (nql: seq<string>)
      requires Valid() && h < |sessions| && DistinctKeys(entities)
      modifies this
      ensures Valid() && inFlight == old(inFlight) && live == old(live)
      ensures var a := AbsorbFold(old(items), old(sessions)[h], entities, downloadAll);
        items == a.items && sessions == old(sessions)[h := a.session] && nql == a.nql
      ensures |sessions| == |old(sessions)| && sessions[h].running == old(sessions)[h].running
      ensures NoDup(nql) && old(items).Keys <= items.Keys
      ensures forall i :: 0 <= i < |entities| ==> entities[i].0 in items && items[entities[i].0] == Loaded(entities[i].1)
    {
      var items', s';
      items', s', nql := AbsorbRecords(items, sessions[h], entities, downloadAll);
      PostLoadKeepsValid(sessions, inFlight, live, h, s'.postLoad);
      items := items';
      sessions := sessions[h := s'];
    }

    /** `params.running--` for the answered request `k`, and what follows
        when the session then has nothing left in flight. */
    method Retire(k: nat)
      requires Valid() && k < |inFlight|
      modifies this
      ensures Valid()
      ensures Retirable(old(State()), k) && State() == Retired(old(State()), k)
      ensures old(items).Keys <= items.Keys && forall q :: q in old(items) ==> items[q] == old(items)[q]
      ensures |inFlight| >= |old(inFlight)| - 1
      ensures inFlight[..|old(inFlight)| - 1] == old(inFlight)[..k] + old(inFlight)[k + 1..]
    {
      var h := inFlight[k].session;
      RemoveKeepsTracked(sessions, inFlight, live, k);
      inFlight := inFlight[..k] + inFlight[k + 1..];
      sessions := sessions[h := sessions[h].(running := sessions[h].running - 1)];
      if sessions[h].running == 0 {
        if sessions[h].postLoad != [] {
          StartPostLoad(h);
        } else {
          Finish(h);
        }
      }
    }

    /** The post-load round: once a session has nothing in flight and its
        post-load list is not empty, the list is loaded in a new session of
        the same chain, at depth 0, without following or preloading. */
    method StartPostLoad(h: nat)
      requires Tracked() && h < |sessions| && sessions[h].running == 0 && sessions[h].postLoad != []
      requires live[sessions[h].root] == h && sessions[sessions[h].root].finished == 0
      requires forall r: nat :: IsRoot(sessions, r) && r != sessions[h].root ==> Settled(sessions, live, r)
      modifies this
      ensures Valid()
      ensures State() == PostLoadRound(old(State()), h)
      ensures old(items).Keys <= items.Keys && forall q :: q in old(items) ==> items[q] == old(items)[q]
      ensures |inFlight| >= |old(inFlight)| && inFlight[..|old(inFlight)|] == old(inFlight)
    {
      var r := sessions[h].root;
      var n := |sessions|;
      var ql := PostLoadList(sessions[h].postLoad);
      ghost var st0 := State();
      PostLoadRoundFields(st0, h);
      AddRound(Session(r, [], [], 0, [], 0), h);
      ghost var added := State();
      var started := Enqueue(ql, n, Decrement(Some(0)), false);
      EnqueuedFields(added, ql, n, Decrement(Some(0)), false);
      BatchesNonEmpty(ToFetch(ql, added.items));
      if !started {
        Finish(n);
      } else {
        assert Settled(sessions, live, r);
      }
    }

    /** A new session in the chain of `h`, which becomes the chain's live
        session. */
    method AddRound(s: Session, h: nat)
      requires Tracked() && h < |sessions| && sessions[h].running == 0 && live[sessions[h].root] == h
      requires s.root == sessions[h].root && s.running == 0 && s.finished == 0 && s.postLoad == []
      requires forall r: nat :: IsRoot(sessions, r) && r != s.root ==> Settled(sessions, live, r)
      modifies this
      ensures Tracked() && sessions == old(sessions) + [s] && live == old(live)[s.root := |old(sessions)|] + [|old(sessions)|]
      ensures items == old(items) && inFlight == old(inFlight)
      ensures State() == old(State()).(sessions := old(sessions) + [s])
      ensures forall r: nat :: IsRoot(sessions, r) && r != s.root ==> Settled(sessions, live, r)
    {
      var n := |sessions|;
      RoundKeepsTracked(sessions, inFlight, live, s, h);
      sessions := sessions + [s];
      live := live[s.root := n] + [n];
    }
  }

  /** Calling the `finished` callback of an idle live session's chain
      settles the chain and keeps the bookkeeping. */
  lemma FinishKeepsValid(sessions: seq<Session>, inFlight: seq<Request>, live: seq<nat>, h: nat)
    requires TrackedState(sessions, inFlight, live) && h < |sessions| && sessions[h].running == 0
    requires live[sessions[h].root] == h && sessions[sessions[h].root].finished == 0
    requires forall r: nat :: IsRoot(sessions, r) && r != sessions[h].root ==> Settled(sessions, live, r)
    ensures sessions[h].root < |sessions|
    ensures var r := sessions[h].root;
      ValidState(sessions[r := sessions[r].(finished := sessions[r].finished + 1)], inFlight, live)
  {
    var r := sessions[h].root;
    assert IsRoot(sessions, r);
    var s2 := sessions[r := sessions[r].(finished := sessions[r].finished + 1)];
    forall r2: nat | IsRoot(s2, r2) ensures Settled(s2, live, r2) {
      assert IsRoot(sessions, r2);
      if r2 != r { assert Settled(sessions, live, r2); }
    }
  }

  /** A new session in the chain of `h` keeps the bookkeeping when `h` has
      nothing in flight, and leaves every other chain settled. */
  lemma RoundKeepsTracked(sessions: seq<Session>, inFlight: seq<Request>, live: seq<nat>, s: Session, h: nat)
    requires TrackedState(sessions, inFlight, live) && h < |sessions| && sessions[h].running == 0 && live[sessions[h].root] == h
    requires s.root == sessions[h].root && s.running == 0 && s.finished == 0 && s.postLoad == []
    requires forall r: nat :: IsRoot(sessions, r) && r != s.root ==> Settled(sessions, live, r)
    ensures var n := |sessions|;
      var s2 := sessions + [s];
      var l2 := live[s.root := n] + [n];
      TrackedState(s2, inFlight, l2) && forall r: nat :: IsRoot(s2, r) && r != s.root ==> Settled(s2, l2, r)
  {
    var n := |sessions|;
    var s2 := sessions + [s];
    var l2 := live[s.root := n] + [n];
    CountAbsent(inFlight, n);
    forall t | 0 <= t < |s2| ensures s2[t].running == Count(inFlight, t) {
      if t < n { assert s2[t] == sessions[t]; }
    }
    forall t | 0 <= t < |s2| ensures IsRoot(s2, s2[t].root) {
      if t < n { assert IsRoot(sessions, sessions[t].root); }
    }
    forall r: nat | IsRoot(s2, r) ensures l2[r] < |s2| && s2[l2[r]].root == r {
      assert IsRoot(sessions, r);
    }
    forall r: nat | IsRoot(s2, r) && r != s.root ensures Settled(s2, l2, r) {
      assert IsRoot(sessions, r) && Settled(sessions, live, r);
    }
    forall t | 0 <= t < |s2| && s2[t].running > 0 ensures l2[s2[t].root] == t {
      assert t < n && sessions[t].running > 0;
    }
  }

  /** Removing an answered request and decrementing its session's
      `running` keeps the bookkeeping; every chain stays settled except the
      request's own when its session reaches zero. */
  lemma RemoveKeepsTracked(sessions: seq<Session>, inFlight: seq<Request>, live: seq<nat>, k: nat)
    requires ValidState(sessions, inFlight, live) && k < |inFlight|
    ensures var h := inFlight[k].session;
      h < |sessions| && sessions[h].running > 0 && live[sessions[h].root] == h
      && var s2 := sessions[h := sessions[h].(running := sessions[h].running - 1)];
      var f2 := inFlight[..k] + inFlight[k + 1..];
      TrackedState(s2, f2, live)
      && (forall r: nat :: IsRoot(s2, r) && r != sessions[h].root ==> Settled(s2, live, r))
      && (s2[h].running > 0 ==> Settled(s2, live, sessions[h].root))
      && (s2[h].running == 0 ==> s2[sessions[h].root].finished == 0)
  {
    var h := inFlight[k].session;
    CountPositive(inFlight, k);
    var s2 := sessions[h := sessions[h].(running := sessions[h].running - 1)];
    var f2 := inFlight[..k] + inFlight[k + 1..];
    forall s | 0 <= s < |s2| ensures s2[s].running == Count(f2, s) {
      CountRemove(inFlight, k, s);
    }
    forall q | 0 <= q < |f2| ensures f2[q].session < |s2| {
      if q < k { assert f2[q] == inFlight[q]; } else { assert f2[q] == inFlight[q + 1]; }
    }
    forall r: nat | IsRoot(s2, r) ensures live[r] < |s2| && s2[live[r]].root == r {
      assert IsRoot(sessions, r);
    }
    forall r: nat | IsRoot(s2, r) && r != sessions[h].root ensures Settled(s2, live, r) {
      assert IsRoot(sessions, r) && Settled(sessions, live, r);
    }
    assert IsRoot(sessions, sessions[h].root) && Settled(sessions, live, sessions[h].root);
  }

  /** The records of a response stay in a store that only grows. */
  lemma EntitiesKept(a: map<string, Item>, b: map<string, Item>, entities: seq<(string, Entity)>)
    requires forall i :: 0 <= i < |entities| ==> entities[i].0 in a && a[entities[i].0] == Loaded(entities[i].1)
    requires a.Keys <= b.Keys && forall q :: q in a ==> b[q] == a[q]
    ensures forall i :: 0 <= i < |entities| ==> entities[i].0 in b && b[entities[i].0] == Loaded(entities[i].1)
  {
  }

  lemma RemoveFromExtended(a: seq<Request>, b: seq<Request>, k: nat, c: seq<Request>)
    requires k < |a| <= |b| && b[..|a|] == a
    requires |c| >= |b| - 1 && c[..|b| - 1] == b[..k] + b[k + 1..]
    ensures |c| >= |a| - 1 && c[..|a| - 1] == a[..k] + a[k + 1..]
  {
    assert c[..|a| - 1] == c[..|b| - 1][..|a| - 1];
    assert b[..k] == a[..k];
    assert (b[..k] + b[k + 1..])[..|a| - 1] == a[..k] + a[k + 1..];
  }

  /** Changing a post-load list to another duplicate-free list keeps the
      store valid. */
  lemma PostLoadKeepsValid(sessions: seq<Session>, inFlight: seq<Request>, live: seq<nat>, h: nat, post: seq<string>)
    requires ValidState(sessions, inFlight, live) && h < |sessions| && NoDup(post)
    ensures ValidState(sessions[h := sessions[h].(postLoad := post)], inFlight, live)
  {
    var s2 := sessions[h := sessions[h].(postLoad := post)];
    forall r: nat | IsRoot(s2, r) ensures Settled(s2, live, r) && live[r] < |s2| && s2[live[r]].root == r {
      assert IsRoot(sessions, r) && Settled(sessions, live, r);
    }
    forall t | 0 <= t < |s2| ensures IsRoot(s2, s2[t].root) {
      assert IsRoot(sessions, sessions[t].root);
    }
  }

  lemma {:induction false} CountAbsent(reqs: seq<Request>, n: nat)
    requires forall q :: 0 <= q < |reqs| ==> reqs[q].session < n
    ensures Count(reqs, n) == 0
  {
    if reqs != [] {
      assert reqs[0].session < n;
      CountAbsent(reqs[1..], n);
    }
  }

  lemma {:induction false} CountWitness(reqs: seq<Request>, s: nat) returns (q: nat)
    requires Count(reqs, s) > 0
    ensures q < |reqs| && reqs[q].session == s
  {
    if reqs[0].session == s {
      q := 0;
    } else {
      var q1 := CountWitness(reqs[1..], s);
      q := q1 + 1;
    }
  }

  /** A chain's `finished` callback has been called (and then exactly once)
      if and only if none of the chain's requests is still in flight. */
  lemma FinishedExactlyWhenIdle(sessions: seq<Session>, inFlight: seq<Request>, live: seq<nat>, r: nat)
    requires ValidState(sessions, inFlight, live) && IsRoot(sessions, r)
    ensures sessions[r].finished <= 1
    ensures sessions[r].finished == 1 <==> forall q :: 0 <= q < |inFlight| ==> sessions[inFlight[q].session].root != r
  {
    assert Settled(sessions, live, r);
    if sessions[r].finished == 1 {
      forall q | 0 <= q < |inFlight| ensures sessions[inFlight[q].session].root != r {
        var s := inFlight[q].session;
        CountPositive(inFlight, q);
        assert sessions[live[sessions[s].root]].running > 0;
      }
    } else {
      var q := CountWitness(inFlight, live[r]);
      assert sessions[inFlight[q].session].root == r;
    }
  }

  lemma BatchesNonEmpty(s: seq<string>)
    ensures Iterators.Batches(s, MaxGetEntities) == [] <==> s == []
  {
  }
}
