// `followChain` of WikiDataItem in core/output/http/static/js/wikidata.js: a
// depth-first search, over the claims of the given properties, for the
// longest chain of items without repetition. The options object `o` the
// source threads through the recursion is the ChainSearch object here.

module WikiDataChain {
  import opened Wrappers
  import opened Text
  import opened WikiDataEntities

  type Id = Option<string>

  function Elements(s: seq<Id>): set<Id>
  {
    set k | 0 <= k < |s| :: s[k]
  }

  /** Every identifier the search can push: the ids of the loaded items of the
      store, and undefined for a placeholder. */
  function StoreIds(store: map<string, Item>): set<Id>
  {
    (set q | q in store && store[q].Loaded? :: Some(store[q].raw.id)) + {None}
  }

  lemma StoreIdsContain(store: map<string, Item>, q: string)
    requires q in store
    ensures IdOf(store[q]) in StoreIds(store)
  {
  }

  lemma ShrinkingFrontier(u: set<Id>, h: set<Id>, id: Id)
    requires id !in h
    ensures |(u + {id}) - h| == |u - (h + {id})| + 1
  {
    assert (u + {id}) - h == (u - (h + {id})) + {id};
  }

  lemma ElementsPush(s: seq<Id>, x: Id)
    requires NoDup(s) && x !in Elements(s)
    ensures Elements(s + [x]) == Elements(s) + {x} && NoDup(s + [x])
  {
    var t := s + [x];
    forall y | y in Elements(t) ensures y in Elements(s) + {x} {
      var k :| 0 <= k < |t| && t[k] == y;
      if k < |s| { assert s[k] == y; }
    }
    forall y | y in Elements(s) ensures y in Elements(t) {
      var k :| 0 <= k < |s| && s[k] == y;
      assert t[k] == y;
    }
    assert t[|s|] == x;
  }

  /** `$.extend(true, [], s)`: jQuery's deep extend skips undefined entries,
      so the copy ends at the last defined id and a trailing placeholder's
      undefined id is lost. */
  function Copy(s: seq<Id>): seq<Id>
    decreases |s|
  {
    if s != [] && s[|s| - 1] == None then Copy(s[..|s| - 1]) else s
  }

  /** The copy is the longest prefix of the path that does not end in an
      undefined id: everything after it is undefined. */
  lemma {:induction false} CopyShape(s: seq<Id>)
    ensures |Copy(s)| <= |s| && Copy(s) == s[..|Copy(s)|]
    ensures Copy(s) == [] || Copy(s)[|Copy(s)| - 1].Some?
    ensures forall k :: |Copy(s)| <= k < |s| ==> s[k] == None
    decreases |s|
  {
    if s != [] && s[|s| - 1] == None {
      var init := s[..|s| - 1];
      CopyShape(init);
      assert init[..|Copy(init)|] == s[..|Copy(init)|];
    }
  }

  /** The bookkeeping the search keeps between calls: the path repeats no
      id and `hadthat` holds exactly its ids; `longest` repeats no id, holds
      no undefined id, and is at least as long as the copy of the path. */
  predicate Bookkeeping(hadthat: set<Id>, current: seq<Id>, longest: seq<Id>)
  {
    NoDup(current) && hadthat == Elements(current)
    && NoDup(longest) && |longest| >= |Copy(current)|
    && forall k :: 0 <= k < |longest| ==> longest[k].Some?
  }

  /** `hadthat[id] = 1; current.push(id)` and the copy taken when the path
      is longer than `longest` keep the bookkeeping, and `longest` does not
      shrink, as long as the ids already on the path are defined. */
  lemma PushBookkeeping(hadthat: set<Id>, current: seq<Id>, longest: seq<Id>, id: Id)
    requires Bookkeeping(hadthat, current, longest) && id !in hadthat
    requires forall k :: 0 <= k < |current| ==> current[k].Some?
    ensures var c := current + [id];
      var l := if |c| > |longest| then Copy(c) else longest;
      Bookkeeping(hadthat + {id}, c, l) && |l| >= |longest|
  {
    var c := current + [id];
    ElementsPush(current, id);
    CopyPush(current, id);
    if |c| > |longest| {
      CopyShape(c);
      var l := Copy(c);
      forall i, j | 0 <= i < j < |l| ensures l[i] != l[j] {
        assert l[i] == c[i] && l[j] == c[j];
      }
    }
  }

  /** Popping the path keeps the bookkeeping. */
  lemma PopBookkeeping(hadthat: set<Id>, current: seq<Id>, longest: seq<Id>)
    requires Bookkeeping(hadthat, current, longest) && |current| > 0
    ensures Bookkeeping(hadthat - {current[|current| - 1]}, current[..|current| - 1], longest)
  {
    var c := current;
    CopyPop(c);
    ElementsPush(c[..|c| - 1], c[|c| - 1]);
    assert c[..|c| - 1] + [c[|c| - 1]] == c;
  }

  /** A path whose ids are all defined is copied whole; one more undefined id
      at its end is dropped again. */
  lemma CopyPush(s: seq<Id>, x: Id)
    requires forall k :: 0 <= k < |s| ==> s[k].Some?
    ensures Copy(s) == s
    ensures Copy(s + [x]) == if x.Some? then s + [x] else s
  {
    assert (s + [x])[..|s|] == s;
  }

  /** Popping the path never lengthens its copy. */
  lemma CopyPop(s: seq<Id>)
    requires |s| > 0
    ensures |Copy(s[..|s| - 1])| <= |Copy(s)|
  {
    CopyShape(s[..|s| - 1]);
  }

  /** A placeholder has no claims, so nothing is linked from it. */
  lemma PlaceholderTargets(store: map<string, Item>, p: string)
    ensures Targets(store, Placeholder, p) == []
  {
  }

  /** A target getClaimItemsForProperty returns (store-filtered) is in the
      store under its own, already canonical, spelling. */
  lemma LinkedTargetCanonical(item: Item, p: string, store: map<string, Item>, q: string)
    requires q in LinkedItems(ClaimsForProperty(item, p), store, false)
    ensures q in store && UnifiedId(q, None) == q
  {
    var claims := ClaimsForProperty(item, p);
    LinkedItemsMembers(claims, store, false, q);
    var k :| 0 <= k < |claims| && ClaimTargetItemId(claims[k]) == Some(q);
    ItemIdCanonical(claims[k].mainsnak.value.datavalue.value.value.value.numericId.value);
  }

  predicate CanonicalStoreKeys(store: map<string, Item>, items: seq<string>)
  {
    forall q :: q in items ==> q in store && UnifiedId(q, None) == q
  }

  lemma LinkedTargetsCanonical(item: Item, p: string, store: map<string, Item>, items: seq<string>)
    requires items == LinkedItems(ClaimsForProperty(item, p), store, false)
    ensures CanonicalStoreKeys(store, items)
  {
    forall q | q in items ensures q in store && UnifiedId(q, None) == q {
      LinkedTargetCanonical(item, p, store, q);
    }
  }

  /** `getItem(q)` */
  function GetItem(store: map<string, Item>, q: string): Option<Item>
  {
    var key := UnifiedId(q, None);
    if key in store then Some(store[key]) else None
  }

  // ------------------------------------------------- what the search visits

  /** The stored targets `getClaimItemsForProperty(p)` returns for an item. */
  function Targets(store: map<string, Item>, item: Item, p: string): seq<string>
  {
    LinkedItems(ClaimsForProperty(item, p), store, false)
  }

  /** The targets of `items` the inner loop expands, in order: each target
      is expanded unless it is on the path, was tried before the loop, or
      has already been expanded by the loop. */
  function Untried(items: seq<string>, current: seq<Id>, tried: set<string>): seq<string>
    decreases |items|
  {
    if items == [] then []
    else
      var f := Untried(items[..|items| - 1], current, tried);
      var q := items[|items| - 1];
      if Some(q) in current || q in tried || q in f then f else f + [q]
  }

  /** The targets both loops expand from one item, property by property;
      `tried_item` is shared between the properties. */
  function ExpandedTargets(links: (Item, string) -> seq<string>, node: Item, ps: seq<string>, current: seq<Id>): seq<string>
    decreases |ps|
  {
    if ps == [] then []
    else
      var f := ExpandedTargets(links, node, ps[..|ps| - 1], current);
      f + Untried(links(node, ps[|ps| - 1]), current, Members(f))
  }

  lemma UntriedNext(items: seq<string>, j: nat, current: seq<Id>, tried: set<string>, newly: seq<string>)
    requires j < |items| && newly == Untried(items[..j], current, tried)
    ensures Untried(items[..j + 1], current, tried) ==
      if Some(items[j]) in current || items[j] in tried + Members(newly) then newly else newly + [items[j]]
  {
    assert items[..j + 1][..j] == items[..j];
    assert items[j] in Members(newly) <==> items[j] in newly;
  }

  lemma ExpandedNext(links: (Item, string) -> seq<string>, node: Item, ps: seq<string>, i: nat, current: seq<Id>, tried: seq<string>)
    requires i < |ps| && tried == ExpandedTargets(links, node, ps[..i], current)
    ensures ExpandedTargets(links, node, ps[..i + 1], current) == tried + Untried(links(node, ps[i]), current, Members(tried))
  {
    assert ps[..i + 1][..i] == ps[..i];
  }

  /** The inner loop expands exactly the targets not on the path and not
      tried before, each once. */
  lemma {:induction false} UntriedMembers(items: seq<string>, current: seq<Id>, tried: set<string>, q: string)
    ensures q in Untried(items, current, tried) <==> q in items && Some(q) !in current && q !in tried
    ensures NoDup(Untried(items, current, tried))
    decreases |items|
  {
    if items != [] {
      var init, x := items[..|items| - 1], items[|items| - 1];
      assert items == init + [x];
      var f := Untried(init, current, tried);
      UntriedMembers(init, current, tried, q);
      UntriedMembers(init, current, tried, x);
      if !(Some(x) in current || x in tried || x in f) {
        assert x !in Members(f);
        NoDupConcat(f, [x]);
      }
    }
  }

  /** Both loops together expand exactly the targets, over all properties,
      that are not on the path, each once. */
  lemma {:induction false} ExpandedTargetsMembers(links: (Item, string) -> seq<string>, node: Item, ps: seq<string>, current: seq<Id>, q: string)
    ensures q in ExpandedTargets(links, node, ps, current) <==>
      (exists i :: 0 <= i < |ps| && q in links(node, ps[i])) && Some(q) !in current
    ensures NoDup(ExpandedTargets(links, node, ps, current))
    decreases |ps|
  {
    if ps != [] {
      var init, p := ps[..|ps| - 1], ps[|ps| - 1];
      var f := ExpandedTargets(links, node, init, current);
      var u := Untried(links(node, p), current, Members(f));
      ExpandedTargetsMembers(links, node, init, current, q);
      UntriedMembers(links(node, p), current, Members(f), q);
      assert q in f <==> q in Members(f);
      if exists i :: 0 <= i < |init| && q in links(node, init[i]) {
        var i :| 0 <= i < |init| && q in links(node, init[i]);
        assert q in links(node, ps[i]);
      }
      if exists i :: 0 <= i < |ps| && q in links(node, ps[i]) {
        var i :| 0 <= i < |ps| && q in links(node, ps[i]);
        if i < |init| { assert q in links(node, init[i]); }
      }
      forall k | 0 <= k < |u| ensures u[k] !in Members(f) {
        UntriedMembers(links(node, p), current, Members(f), u[k]);
      }
      NoDupConcat(f, u);
    }
  }

  // ---------------------------------------------------------- claim chains

  /** `links` gives, for an item and a property, the targets
      getClaimItemsForProperty returns. */
  ghost predicate ClaimLinks(links: (Item, string) -> seq<string>, store: map<string, Item>)
  {
    forall a: Item, p: string {:trigger Targets(store, a, p)} :: links(a, p) == Targets(store, a, p)
  }

  /** `b` is the stored item a claim of `a`, for one of `props`, points at. */
  ghost predicate Linked(links: (Item, string) -> seq<string>, store: map<string, Item>, props: seq<string>, a: Item, b: Item)
  {
    exists i, q :: 0 <= i < |props| && q in links(a, props[i]) && q in store && store[q] == b
  }

  /** Each item of `c` after the first is linked from the one before it. */
  ghost predicate Chain(links: (Item, string) -> seq<string>, store: map<string, Item>, props: seq<string>, c: seq<Item>)
  {
    forall j, k {:trigger Linked(links, store, props, c[j], c[k])} ::
      0 <= j && k == j + 1 && k < |c| ==> Linked(links, store, props, c[j], c[k])
  }

  /** The ids `getID()` gives for a sequence of items. */
  function Ids(c: seq<Item>): (r: seq<Id>)
  {
    seq(|c|, k requires 0 <= k < |c| => IdOf(c[k]))
  }

  /** `c` is a chain of claims from `start` that repeats no id and meets no
      id of `current`: a way the search could extend the path `current`. */
  ghost predicate Extends(links: (Item, string) -> seq<string>, store: map<string, Item>, props: seq<string>, current: seq<Id>, start: Item, c: seq<Item>)
  {
    |c| > 0 && c[0] == start && Chain(links, store, props, c) && NoDup(Ids(c))
    && forall k :: 0 <= k < |c| ==> IdOf(c[k]) !in Elements(current)
  }

  /** No extension of `current` by a chain from `start` has a copy (the
      snapshot `longest` would take of it) longer than `bound`. */
  ghost predicate Covers(links: (Item, string) -> seq<string>, store: map<string, Item>, props: seq<string>, current: seq<Id>, bound: int, start: Item)
  {
    forall c :: Extends(links, store, props, current, start, c) ==> |Copy(current + Ids(c))| <= bound
  }

  /** Each loaded item is stored under its own id. */
  predicate KeyConsistent(store: map<string, Item>)
  {
    forall q :: q in store && store[q].Loaded? ==> store[q].raw.id == q
  }

  /** The start item, if its id is a key of the store, names a loaded entry
      there (as when the start item is itself taken from the store). */
  predicate StartStored(store: map<string, Item>, start: Item)
  {
    start.Loaded? && start.raw.id in store ==> store[start.raw.id].Loaded?
  }

  /** After the first `j` targets, `newly` lists those taken and `triedItem`
      is the tried set. */
  ghost predicate Booked(items: seq<string>, j: nat, current: seq<Id>, tried: set<string>, newly: seq<string>, triedItem: set<string>)
    requires j <= |items|
  {
    newly == Untried(items[..j], current, tried) && triedItem == tried + Members(newly)
  }

  /** After the first `i` properties, `tried` lists the targets expanded
      and `triedItem` is the tried set. */
  ghost predicate Expanded(links: (Item, string) -> seq<string>, node: Item, ps: seq<string>, i: nat, current: seq<Id>,
                           tried: seq<string>, triedItem: set<string>)
    requires i <= |ps|
  {
    tried == ExpandedTargets(links, node, ps[..i], current) && triedItem == Members(tried)
  }

  /** One step of the outer loop of `followChain`. */
  lemma ExpandedStep(links: (Item, string) -> seq<string>, node: Item, ps: seq<string>, i: nat, current: seq<Id>,
                     tried: seq<string>, triedItem: set<string>, more: seq<string>, triedItem': set<string>)
    requires i < |ps| && Expanded(links, node, ps, i, current, tried, triedItem)
    requires more == Untried(links(node, ps[i]), current, triedItem)
    requires triedItem' == triedItem + Members(more)
    ensures Expanded(links, node, ps, i + 1, current, tried + more, triedItem')
  {
    MembersAppend(tried, more);
    ExpandedNext(links, node, ps, i, current, tried);
  }

  /** One step of the inner loop of `followChain`: the target `items[j]`
      is taken exactly when it is neither on the path nor tried yet. */
  lemma UntriedStep(items: seq<string>, j: nat, current: seq<Id>, tried: set<string>, newly: seq<string>, triedItem: set<string>)
    returns (newly': seq<string>, tried': set<string>)
    requires j < |items| && Booked(items, j, current, tried, newly, triedItem)
    ensures Booked(items, j + 1, current, tried, newly', tried')
    ensures tried' == if Some(items[j]) !in current && items[j] !in triedItem then triedItem + {items[j]} else triedItem
  {
    var q := items[j];
    UntriedNext(items, j, current, tried, newly);
    if Some(q) !in current && q !in triedItem {
      MembersPush(newly, q);
      newly', tried' := newly + [q], triedItem + {q};
    } else {
      newly', tried' := newly, triedItem;
    }
  }

  lemma ChainPush(links: (Item, string) -> seq<string>, store: map<string, Item>, props: seq<string>, c: seq<Item>, x: Item)
    requires Chain(links, store, props, c) && (c == [] || Linked(links, store, props, c[|c| - 1], x))
    ensures Chain(links, store, props, c + [x])
  {
    var d := c + [x];
    forall k | 0 < k < |d| ensures Linked(links, store, props, d[k - 1], d[k]) {
      if k < |c| {
        assert Linked(links, store, props, c[k - 1], c[k]);
      }
    }
  }

  lemma ChainPrefix(links: (Item, string) -> seq<string>, store: map<string, Item>, props: seq<string>, c: seq<Item>)
    requires Chain(links, store, props, c) && |c| > 0
    ensures Chain(links, store, props, c[..|c| - 1])
  {
    var d := c[..|c| - 1];
    forall k | 0 < k < |d| ensures Linked(links, store, props, d[k - 1], d[k]) {
      assert Linked(links, store, props, c[k - 1], c[k]);
    }
  }

  lemma ChainTake(links: (Item, string) -> seq<string>, store: map<string, Item>, props: seq<string>, c: seq<Item>, n: nat)
    requires Chain(links, store, props, c) && n <= |c|
    ensures Chain(links, store, props, c[..n])
  {
    var d := c[..n];
    forall k | 0 < k < |d| ensures Linked(links, store, props, d[k - 1], d[k]) {
      assert Linked(links, store, props, c[k - 1], c[k]);
    }
  }

  /** An item something is linked from is loaded. */
  lemma LinkedFromLoaded(links: (Item, string) -> seq<string>, store: map<string, Item>, props: seq<string>, a: Item, b: Item)
    requires ClaimLinks(links, store) && Linked(links, store, props, a, b)
    ensures a.Loaded?
  {
    var i, q :| 0 <= i < |props| && q in links(a, props[i]) && q in store && store[q] == b;
    PlaceholderTargets(store, props[i]);
  }

  /** Every item of a chain that `x` may be pushed onto is loaded, so its
      ids are all defined: a placeholder can only end a path. */
  lemma ChainDefined(links: (Item, string) -> seq<string>, store: map<string, Item>, props: seq<string>, c: seq<Item>, x: Item)
    requires ClaimLinks(links, store) && Chain(links, store, props, c)
    requires c == [] || Linked(links, store, props, c[|c| - 1], x)
    ensures forall k :: 0 <= k < |c| ==> Ids(c)[k].Some?
  {
    forall k | 0 <= k < |c| ensures c[k].Loaded? {
      if k + 1 < |c| {
        assert Linked(links, store, props, c[k], c[k + 1]);
        LinkedFromLoaded(links, store, props, c[k], c[k + 1]);
      } else {
        LinkedFromLoaded(links, store, props, c[k], x);
      }
    }
  }

  /** Pushing an item linked from the end of the path keeps the path a chain
      with ids `current + [id]`; its copy is the ids of a prefix of it, which
      is a chain again. */
  lemma PushChain(links: (Item, string) -> seq<string>, store: map<string, Item>, props: seq<string>,
                  path: seq<Item>, current: seq<Id>, node: Item)
    requires ClaimLinks(links, store) && Chain(links, store, props, path) && Ids(path) == current
    requires path == [] || Linked(links, store, props, path[|path| - 1], node)
    ensures forall k :: 0 <= k < |current| ==> current[k].Some?
    ensures Ids(path + [node]) == current + [IdOf(node)] && Chain(links, store, props, path + [node])
    ensures |Copy(current + [IdOf(node)])| <= |path + [node]|
    ensures Ids((path + [node])[..|Copy(current + [IdOf(node)])|]) == Copy(current + [IdOf(node)])
    ensures Chain(links, store, props, (path + [node])[..|Copy(current + [IdOf(node)])|])
  {
    var p, c := path + [node], current + [IdOf(node)];
    ChainDefined(links, store, props, path, node);
    ChainPush(links, store, props, path, node);
    assert Ids(p) == c;
    CopyShape(c);
    ChainTake(links, store, props, p, |Copy(c)|);
    assert Ids(p[..|Copy(c)|]) == Ids(p)[..|Copy(c)|];
  }

  lemma ElementsAppend(s: seq<Id>, x: Id)
    ensures Elements(s + [x]) == Elements(s) + {x}
  {
    var t := s + [x];
    forall y | y in Elements(t) ensures y in Elements(s) + {x} {
      var k :| 0 <= k < |t| && t[k] == y;
      if k < |s| { assert s[k] == y; }
    }
    forall y | y in Elements(s) ensures y in Elements(t) {
      var k :| 0 <= k < |s| && s[k] == y;
      assert t[k] == y;
    }
    assert t[|s|] == x;
  }

  /** The rest of an extension of `current` from `node` extends the path
      with `node` pushed. */
  lemma ExtendsTail(links: (Item, string) -> seq<string>, store: map<string, Item>, props: seq<string>, current: seq<Id>, node: Item, c: seq<Item>)
    requires Extends(links, store, props, current, node, c) && |c| > 1
    ensures Extends(links, store, props, current + [IdOf(node)], c[1], c[1..])
  {
    var d := c[1..];
    assert Ids(d) == Ids(c)[1..];
    forall k | 0 < k < |d| ensures Linked(links, store, props, d[k - 1], d[k]) {
      assert Linked(links, store, props, c[k], c[k + 1]);
    }
    ElementsAppend(current, IdOf(node));
    forall k | 0 <= k < |d| ensures IdOf(d[k]) !in Elements(current + [IdOf(node)]) {
      assert Ids(c)[k + 1] != Ids(c)[0];
    }
  }

  lemma CoversGrow(links: (Item, string) -> seq<string>, store: map<string, Item>, props: seq<string>, current: seq<Id>, b0: int, b1: int, start: Item)
    requires Covers(links, store, props, current, b0, start) && b0 <= b1
    ensures Covers(links, store, props, current, b1, start)
  {
  }

  /** No chain extends the path from an item whose id is already on it. */
  lemma CoversOnPath(links: (Item, string) -> seq<string>, store: map<string, Item>, props: seq<string>, current: seq<Id>, bound: int, start: Item)
    requires IdOf(start) in Elements(current)
    ensures Covers(links, store, props, current, bound, start)
  {
    forall c | |c| > 0 && c[0] == start ensures !Extends(links, store, props, current, start, c) {
      assert IdOf(c[0]) in Elements(current);
    }
  }

  /** The step of the search's optimality: once every target of `node` has
      been searched with `node` on the path, no chain from `node` is longer. */
  lemma CoversStep(links: (Item, string) -> seq<string>, store: map<string, Item>, props: seq<string>, current: seq<Id>, bound: int, node: Item)
    requires IdOf(node) !in Elements(current) && |Copy(current + [IdOf(node)])| <= bound
    requires forall i, q :: 0 <= i < |props| && q in links(node, props[i]) && q in store ==>
      Covers(links, store, props, current + [IdOf(node)], bound, store[q])
    ensures Covers(links, store, props, current, bound, node)
  {
    forall c | Extends(links, store, props, current, node, c) ensures |Copy(current + Ids(c))| <= bound {
      assert Ids(c) == [IdOf(node)] + Ids(c[1..]);
      assert current + Ids(c) == (current + [IdOf(node)]) + Ids(c[1..]);
      if |c| > 1 {
        assert Linked(links, store, props, c[0], c[1]);
        var i, q :| 0 <= i < |props| && q in links(node, props[i]) && q in store && store[q] == c[1];
        ExtendsTail(links, store, props, current, node, c);
        assert Covers(links, store, props, current + [IdOf(node)], bound, store[q]);
      }
    }
  }

  /** With each loaded item stored under its own id, a target whose key is
      an id on the path is a loaded entry, so its id is on the path: the
      `$.inArray` test skips only targets that could not extend the path. */
  lemma SkippedOnPath(links: (Item, string) -> seq<string>, store: map<string, Item>, props: seq<string>, path: seq<Item>, q: string)
    requires KeyConsistent(store) && Chain(links, store, props, path) && |path| > 0 && StartStored(store, path[0])
    requires q in store && Some(q) in Ids(path)
    ensures IdOf(store[q]) in Elements(Ids(path))
  {
    var k :| 0 <= k < |path| && Ids(path)[k] == Some(q);
    assert path[k].Loaded? && path[k].raw.id == q;
    if k > 0 {
      assert Linked(links, store, props, path[k - 1], path[k]);
      var i, q2 :| 0 <= i < |props| && q2 in links(path[k - 1], props[i]) && q2 in store && store[q2] == path[k];
      assert q2 == q;
    }
    assert Ids(path)[k] == IdOf(store[q]);
  }

  class ChainSearch {
    /** `o.hadthat`: the ids on the current path. */
    var hadthat: set<Id>
    /** `o.current`: the path from the start item to the item being expanded. */
    var current: seq<Id>
    /** `o.longest`: the copy of the longest path seen so far. */
    var longest: seq<Id>
    /** `o.props`, canonicalised on the first call. */
    var props: seq<string>
    /** Whether `o.hadthat` has been set, i.e. the search has started. */
    var initialized: bool
    /** `o.props` as the caller passed it. */
    const rawProps: RawIds
    /** The items whose ids `current` lists. */
    ghost var path: seq<Item>
    /** The items whose ids `longest` lists. */
    ghost var best: seq<Item>
    /** The targets `getClaimItemsForProperty` gives, per item and property. */
    ghost var links: (Item, string) -> seq<string>

    /** The path bookkeeping the search keeps between calls: `longest` is
        at least as long as the copy of the path, and holds no undefined id. */
    predicate Consistent()
      reads this
    {
      Bookkeeping(hadthat, current, longest)
    }

    /** The paths are chains of claims through `store`. */
    ghost predicate Tracks(store: map<string, Item>)
      reads this
    {
      ClaimLinks(links, store) && Ids(path) == current && Ids(best) == longest
      && Chain(links, store, props, path) && Chain(links, store, props, best)
    }

    /** The longest chain found so far starts where the path starts. */
    ghost predicate StartsPath()
      reads this
    {
      |best| > 0 && |path| > 0 && best[0] == path[0]
    }

    /** `node` may be pushed: it is linked from the end of the path. */
    ghost predicate Attached(store: map<string, Item>, node: Item)
      reads this
    {
      path == [] || Linked(links, store, props, path[|path| - 1], node)
    }

    /** Every key of `keys` is stored, and no extension of the path from
        its item is longer than `longest`. */
    ghost predicate CoveredKeys(store: map<string, Item>, keys: set<string>)
      reads this
    {
      forall q :: q in keys ==> q in store && Covers(links, store, props, current, |longest|, store[q])
    }

    constructor (rawProps: RawIds)
      ensures this.rawProps == rawProps && !initialized
      ensures hadthat == {} && current == [] && longest == []
    {
      this.rawProps := rawProps;
      initialized := false;
      hadthat, current, longest, props := {}, [], [], [];
      path, best := [], [];
      links := (a: Item, p: string) => [];
    }

    /** `item.followChain(o)`: the first call initialises the search state
        from the options, then the item is expanded. For a fresh search the
        result is the longest path: a chain of claims from this item (when
        it is loaded) that repeats no id and holds no undefined id, and, when
        each loaded item is stored under its own id, no such chain has a
        longer copy. */
    method FollowChain(store: map<string, Item>, node: Item)
      returns (result: Option<seq<Id>>, ghost tried: seq<string>)
      requires !initialized || (Consistent() && Tracks(store) && Attached(store, node))
      modifies this
      ensures initialized && Consistent() && Tracks(store)
      ensures props == (if old(initialized) then old(props) else ConvertToStringArray(rawProps, Some("P")))
      ensures !old(initialized) ==> (result.Some? && result.value == longest
        && (node.Loaded? ==> |best| > 0 && best[0] == node) && NoDup(longest)
        && (forall k :: 0 <= k < |longest| ==> longest[k].Some?)
        && hadthat == {} && current == [] && path == []
        && tried == ExpandedTargets(links, node, props, [IdOf(node)]))
      ensures !old(initialized) && KeyConsistent(store) && StartStored(store, node)
        ==> Covers(links, store, props, [], |longest|, node)
    {
      if !initialized {
        hadthat, longest, current := {}, [], [];
        path, best := [], [];
        links := (a: Item, p: string) => Targets(store, a, p);
        props := ConvertToStringArray(rawProps, Some("P"));
        initialized := true;
        assert current + [IdOf(node)] == [IdOf(node)];
      }
      result, tried := Expand(store, node);
    }

    /** The body of `followChain` once the search state exists. On return the
        path and the set of ids on it are restored; `longest` either is
        unchanged or has been replaced by the copy of a longer path, which
        starts where the current path starts (at this item when the path was
        empty and the item is loaded); it is at least as long as the copy of
        the path with this item pushed. `tried` lists, in order, the targets
        this call recursed into. When each loaded item is stored under its
        own id, no chain from this item extends the path to a copy longer
        than `longest`. */
    method Expand(store: map<string, Item>, node: Item)
      returns (result: Option<seq<Id>>, ghost tried: seq<string>)
      requires initialized && Consistent() && Tracks(store) && Attached(store, node)
      modifies this
      ensures initialized && Consistent() && Tracks(store) && props == old(props) && links == old(links)
      ensures hadthat == old(hadthat) && current == old(current) && path == old(path)
      ensures |longest| >= |old(longest)| && (old(StartsPath()) ==> StartsPath())
      ensures old(path) == [] && old(best) == [] && node.Loaded? ==> |best| > 0 && best[0] == node
      ensures IdOf(node) !in old(hadthat) ==> |longest| >= |Copy(old(current) + [IdOf(node)])|
      ensures result == (if IdOf(node) in old(hadthat) || current != [] then None else Some(longest))
      ensures tried == (if IdOf(node) in old(hadthat) then []
        else ExpandedTargets(links, node, props, old(current) + [IdOf(node)]))
      ensures KeyConsistent(store) && StartStored(store, (old(path) + [node])[0])
        ==> Covers(links, store, props, old(current), |longest|, node)
      decreases |(StoreIds(store) + {IdOf(node)}) - hadthat|, 6
    {
      if IdOf(node) in hadthat {
        CoversOnPath(links, store, props, current, |longest|, node);
        return None, [];
      }
      tried := Descend(store, node);
      if |current| == 0 {
        result := Some(longest);
      } else {
        result := None;
      }
    }

    /** The body of `followChain` for an item not on the path: push it,
        search its claims, pop it. */
    method Descend(store: map<string, Item>, node: Item) returns (ghost tried: seq<string>)
      requires initialized && Consistent() && Tracks(store) && Attached(store, node) && IdOf(node) !in hadthat
      modifies this
      ensures initialized && Consistent() && Tracks(store) && props == old(props) && links == old(links)
      ensures hadthat == old(hadthat) && current == old(current) && path == old(path)
      ensures |longest| >= |old(longest)| && (old(StartsPath()) ==> StartsPath())
      ensures old(path) == [] && old(best) == [] && node.Loaded? ==> |best| > 0 && best[0] == node
      ensures |longest| >= |Copy(old(current) + [IdOf(node)])|
      ensures tried == ExpandedTargets(links, node, props, old(current) + [IdOf(node)])
      ensures KeyConsistent(store) && StartStored(store, (old(path) + [node])[0])
        ==> Covers(links, store, props, old(current), |longest|, node)
      decreases |(StoreIds(store) + {IdOf(node)}) - hadthat|, 5
    {
      var id := IdOf(node);
      ghost var start := current;
      ShrinkingFrontier(StoreIds(store), hadthat, id);
      Enter(store, node);
      tried := TryProperties(store, node);
      ghost var inner := current;
      Leave(store);
      assert current == start && inner == start + [id];
      if KeyConsistent(store) && StartStored(store, (path + [node])[0]) {
        CoversStep(links, store, props, current, |longest|, node);
      }
    }

    /** Pushing an item on the path: `hadthat[id] = 1`, `current.push(id)`, and
        the copy of the path becomes `longest` when the path is longer. The
        copy is never shorter than the old `longest`. */
    method Enter(ghost store: map<string, Item>, node: Item)
      requires initialized && Consistent() && Tracks(store) && Attached(store, node)
      requires IdOf(node) !in hadthat
      modifies this
      ensures initialized && Consistent() && Tracks(store) && props == old(props) && links == old(links)
      ensures hadthat == old(hadthat) + {IdOf(node)} && current == old(current) + [IdOf(node)]
      ensures path == old(path) + [node]
      ensures (longest, best) == if |current| > |old(longest)| then (Copy(current), path[..|Copy(current)|]) else (old(longest), old(best))
      ensures |longest| >= |old(longest)| && |longest| >= |Copy(current)|
      ensures old(path) == [] && old(best) == [] && node.Loaded? ==> StartsPath() && path[0] == node
    {
      var id := IdOf(node);
      var c := current + [id];
      var l := if |c| > |longest| then Copy(c) else longest;
      ghost var p := path + [node];
      ghost var b := if |c| > |longest| then p[..|Copy(c)|] else best;
      PushChain(links, store, props, path, current, node);
      PushBookkeeping(hadthat, current, longest, id);
      if path == [] && best == [] && node.Loaded? {
        CopyPush([], id);
      }
      hadthat, current, longest := hadthat + {id}, c, l;
      path, best := p, b;
    }

    /** Popping the item again: `delete hadthat[id]`, `current.pop()`. */
    method Leave(ghost store: map<string, Item>)
      requires initialized && Consistent() && Tracks(store) && |current| > 0
      modifies this
      ensures initialized && Consistent() && Tracks(store) && links == old(links)
      ensures props == old(props) && longest == old(longest) && best == old(best)
      ensures current == old(current)[..|old(current)| - 1]
      ensures path == old(path)[..|old(path)| - 1]
      ensures hadthat == old(hadthat) - {old(current)[|old(current)| - 1]}
    {
      ghost var c := current;
      PopBookkeeping(hadthat, current, longest);
      ghost var shorter := path[..|path| - 1];
      ChainPrefix(links, store, props, path);
      assert Ids(shorter) == c[..|c| - 1];
      hadthat := hadthat - {current[|current| - 1]};
      current := current[..|current| - 1];
      path := shorter;
    }

    /** The outer `$.each` of `followChain` over `o.props`: it expands
        exactly ExpandedTargets, and afterwards every target of every
        property is either on the path or has been searched. */
    method TryProperties(store: map<string, Item>, node: Item) returns (ghost tried: seq<string>)
      requires initialized && Consistent() && Tracks(store) && |path| > 0 && path[|path| - 1] == node
      modifies this
      ensures initialized && Consistent() && Tracks(store) && props == old(props) && links == old(links)
      ensures hadthat == old(hadthat) && current == old(current) && path == old(path)
      ensures |longest| >= |old(longest)| && (old(StartsPath()) ==> StartsPath())
      ensures tried == ExpandedTargets(links, node, props, current)
      ensures KeyConsistent(store) && StartStored(store, path[0]) ==>
        forall i, q :: 0 <= i < |props| && q in links(node, props[i]) && q in store ==>
          Covers(links, store, props, current, |longest|, store[q])
      decreases |StoreIds(store) - hadthat| + 1, 4
    {
      ghost var opt := KeyConsistent(store) && StartStored(store, path[0]);
      ghost var rooted := StartsPath();
      ghost var cur, lk := current, links;
      tried := [];
      var triedItem: set<string> := {};
      var i := 0;
      while i < |props|
        invariant 0 <= i <= |props| && initialized && props == old(props) && links == old(links)
        invariant hadthat == old(hadthat) && current == old(current) && path == old(path)
        invariant Consistent() && Tracks(store)
        invariant |longest| >= |old(longest)| && (rooted ==> StartsPath())
        invariant Expanded(lk, node, props, i, cur, tried, triedItem)
        invariant opt ==> CoveredKeys(store, triedItem)
      {
        triedItem, tried := TryProperty(store, node, i, cur, tried, triedItem);
        i := i + 1;
      }
      assert props[..i] == props;
      if opt {
        CoveredTargets(store, node, triedItem);
      }
    }

    /** Once every target of every property is tried or on the path, and
        the tried ones are covered, every target is covered. */
    lemma CoveredTargets(store: map<string, Item>, node: Item, triedItem: set<string>)
      requires Consistent() && Tracks(store) && |path| > 0 && path[|path| - 1] == node
      requires KeyConsistent(store) && StartStored(store, path[0]) && CoveredKeys(store, triedItem)
      requires triedItem == Members(ExpandedTargets(links, node, props, current))
      ensures forall i, q :: 0 <= i < |props| && q in links(node, props[i]) && q in store ==>
        Covers(links, store, props, current, |longest|, store[q])
    {
      forall i, q | 0 <= i < |props| && q in links(node, props[i]) && q in store
        ensures Covers(links, store, props, current, |longest|, store[q])
      {
        ExpandedTargetsMembers(links, node, props, current, q);
        if Some(q) in current {
          SkippedOnPath(links, store, props, path, q);
          CoversOnPath(links, store, props, current, |longest|, store[q]);
        }
      }
    }

    /** One pass of the outer `$.each`: the claim targets of `props[i]`
        are tried, sharing `tried_item` with the earlier properties. */
    method TryProperty(store: map<string, Item>, node: Item, i: nat, ghost cur: seq<Id>, ghost tried: seq<string>, triedItem: set<string>)
      returns (triedItem': set<string>, ghost tried': seq<string>)
      requires initialized && Consistent() && Tracks(store) && |path| > 0 && path[|path| - 1] == node
      requires i < |props| && cur == current && Expanded(links, node, props, i, cur, tried, triedItem)
      requires KeyConsistent(store) && StartStored(store, path[0]) ==> CoveredKeys(store, triedItem)
      modifies this
      ensures initialized && Consistent() && Tracks(store) && props == old(props) && links == old(links)
      ensures hadthat == old(hadthat) && current == old(current) && path == old(path)
      ensures |longest| >= |old(longest)| && (old(StartsPath()) ==> StartsPath())
      ensures Expanded(links, node, props, i + 1, cur, tried', triedItem')
      ensures KeyConsistent(store) && StartStored(store, path[0]) ==> CoveredKeys(store, triedItem')
      decreases |StoreIds(store) - hadthat| + 1, 3
    {
      var items := ClaimItemsForProperty(node, props[i], store, false);
      LinkedTargetsCanonical(node, props[i], store, items);
      assert items == Targets(store, node, props[i]);
      ghost var more;
      triedItem', more := TryTargets(store, node, items, triedItem, i);
      ExpandedStep(links, node, props, i, cur, tried, triedItem, more, triedItem');
      tried' := tried + more;
    }

    /** The inner `$.each` of `followChain` over the linked items of one
        property: each target not on the path and not yet tried is marked
        tried and expanded; these are exactly the Untried targets. */
    method TryTargets(store: map<string, Item>, node: Item, items: seq<string>, triedBefore: set<string>, ghost pi: nat)
      returns (triedItem: set<string>, ghost newly: seq<string>)
      requires initialized && Consistent() && Tracks(store) && |path| > 0 && path[|path| - 1] == node
      requires pi < |props| && items == links(node, props[pi])
      requires CanonicalStoreKeys(store, items)
      requires KeyConsistent(store) && StartStored(store, path[0]) ==> CoveredKeys(store, triedBefore)
      modifies this
      ensures initialized && Consistent() && Tracks(store) && props == old(props) && links == old(links)
      ensures hadthat == old(hadthat) && current == old(current) && path == old(path)
      ensures |longest| >= |old(longest)| && (old(StartsPath()) ==> StartsPath())
      ensures newly == Untried(items, current, triedBefore)
      ensures triedItem == triedBefore + Members(newly)
      ensures KeyConsistent(store) && StartStored(store, path[0]) ==> CoveredKeys(store, triedItem)
      decreases |StoreIds(store) - hadthat| + 1, 2
    {
      ghost var opt := KeyConsistent(store) && StartStored(store, path[0]);
      ghost var cur := current;
      ghost var rooted := StartsPath();
      triedItem, newly := triedBefore, [];
      var j := 0;
      while j < |items|
        invariant 0 <= j <= |items| && initialized && props == old(props) && links == old(links)
        invariant hadthat == old(hadthat) && current == old(current) && path == old(path)
        invariant Consistent() && Tracks(store)
        invariant |longest| >= |old(longest)| && (rooted ==> StartsPath())
        invariant Booked(items, j, cur, triedBefore, newly, triedItem)
        invariant opt ==> CoveredKeys(store, triedItem)
      {
        triedItem, newly := TryTarget(store, node, items, j, cur, triedBefore, triedItem, newly, pi);
        j := j + 1;
      }
      assert items[..j] == items;
    }

    /** One pass of the inner `$.each`: `items[j]` is skipped when it is on
        the path or already tried, and otherwise marked tried and visited. */
    method TryTarget(store: map<string, Item>, node: Item, items: seq<string>, j: nat, ghost cur: seq<Id>,
                     ghost triedBefore: set<string>, triedItem: set<string>, ghost newly: seq<string>, ghost pi: nat)
      returns (triedItem': set<string>, ghost newly': seq<string>)
      requires initialized && Consistent() && Tracks(store) && |path| > 0 && path[|path| - 1] == node
      requires pi < |props| && items == links(node, props[pi]) && CanonicalStoreKeys(store, items)
      requires j < |items| && cur == current
      requires Booked(items, j, cur, triedBefore, newly, triedItem)
      requires KeyConsistent(store) && StartStored(store, path[0]) ==> CoveredKeys(store, triedItem)
      modifies this
      ensures initialized && Consistent() && Tracks(store) && props == old(props) && links == old(links)
      ensures hadthat == old(hadthat) && current == old(current) && path == old(path)
      ensures |longest| >= |old(longest)| && (old(StartsPath()) ==> StartsPath())
      ensures Booked(items, j + 1, cur, triedBefore, newly', triedItem')
      ensures KeyConsistent(store) && StartStored(store, path[0]) ==> CoveredKeys(store, triedItem')
      decreases |StoreIds(store) - hadthat| + 1, 1
    {
      var q := items[j];
      ghost var tried';
      newly', tried' := UntriedStep(items, j, cur, triedBefore, newly, triedItem);
      triedItem' := triedItem;
      if Some(q) !in current && q !in triedItem {
        triedItem' := triedItem + {q};
        Visit(store, node, q, pi, triedItem);
      }
    }

    /** One target of the inner `$.each`: it is expanded as a child of
        `node`, and the keys covered before stay covered, now with `q`. */
    method Visit(store: map<string, Item>, node: Item, q: string, ghost pi: nat, ghost triedBefore: set<string>)
      requires initialized && Consistent() && Tracks(store) && |path| > 0 && path[|path| - 1] == node
      requires pi < |props| && q in links(node, props[pi]) && q in store && UnifiedId(q, None) == q
      requires Some(q) !in current
      requires KeyConsistent(store) && StartStored(store, path[0]) ==> CoveredKeys(store, triedBefore)
      modifies this
      ensures initialized && Consistent() && Tracks(store) && props == old(props) && links == old(links)
      ensures hadthat == old(hadthat) && current == old(current) && path == old(path)
      ensures |longest| >= |old(longest)| && (old(StartsPath()) ==> StartsPath())
      ensures KeyConsistent(store) && StartStored(store, path[0]) ==> CoveredKeys(store, triedBefore + {q})
      decreases |StoreIds(store) - hadthat| + 1, 0
    {
      ghost var opt := KeyConsistent(store) && StartStored(store, path[0]);
      var child := store[q];
      assert GetItem(store, q) == Some(child);
      assert Linked(links, store, props, node, child);
      StoreIdsContain(store, q);
      assert StoreIds(store) + {IdOf(child)} == StoreIds(store);
      ghost var bound := |longest|;
      var _, _ := Expand(store, child);
      if opt {
        forall q' | q' in triedBefore + {q} ensures q' in store && Covers(links, store, props, current, |longest|, store[q']) {
          if q' != q {
            CoversGrow(links, store, props, current, bound, |longest|, store[q']);
          }
        }
      }
    }
  }

  lemma MembersAppend(a: seq<string>, b: seq<string>)
    ensures Members(a + b) == Members(a) + Members(b)
  {
    var t := a + b;
    forall y | y in Members(t) ensures y in Members(a) + Members(b) {
      var k :| 0 <= k < |t| && t[k] == y;
      if k < |a| { assert a[k] == y; } else { assert b[k - |a|] == y; }
    }
    forall y | y in Members(a) + Members(b) ensures y in Members(t) {
      if y in Members(a) { var k :| 0 <= k < |a| && a[k] == y; assert t[k] == y; }
      else { var k :| 0 <= k < |b| && b[k] == y; assert t[|a| + k] == y; }
    }
  }
}
