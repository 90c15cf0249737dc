// `getItemBatch` of WikiData in core/output/http/static/js/wikidata.js, the
// planning half: which identifiers are queued, how they are cut into request
// groups, and how the last, short group is topped up from the others before
// the requests go out.

module WikiDataBatch {
  import opened Wrappers
  import opened Text
  import opened WikiDataEntities
  import Iterators

  /** The store key `getItemBatch` uses for an entry of its list: numbers get
      'Q' in front, strings are used as given (not canonicalised). */
  function BatchKey(v: RawValue): string
  {
    match v
    case Text(s) => s
    case Number(n) => "Q" + IntToString(n)
  }

  /** The entries that are not in the store yet, in list order, duplicates
      kept (the `$.inArray(q, ids)` test compares a string with the groups,
      which are arrays, and so never matches). */
  function Queued(list: seq<RawValue>, store: map<string, Item>): (r: seq<string>)
    ensures forall k :: 0 <= k < |r| ==> r[k] !in store
    ensures |r| <= |list|
  {
    if list == [] then []
    else
      var rest := Queued(list[..|list| - 1], store);
      var q := BatchKey(list[|list| - 1]);
      if q in store then rest else rest + [q]
  }

  lemma QueuedStep(list: seq<RawValue>, i: nat, store: map<string, Item>)
    requires i < |list|
    ensures var q := BatchKey(list[i]);
      Queued(list[..i + 1], store) == if q in store then Queued(list[..i], store) else Queued(list[..i], store) + [q]
  {
    assert list[..i + 1][..i] == list[..i];
  }

  function Flatten(groups: seq<seq<string>>): seq<string>
  {
    if groups == [] then [] else Flatten(groups[..|groups| - 1]) + groups[|groups| - 1]
  }

  /** The strings of all groups together, as a multiset. */
  function Bag(groups: seq<seq<string>>): multiset<string>
  {
    if groups == [] then multiset{} else Bag(groups[..|groups| - 1]) + multiset(groups[|groups| - 1])
  }

  lemma {:induction false} BagOfFlatten(groups: seq<seq<string>>)
    ensures multiset(Flatten(groups)) == Bag(groups)
  {
    if groups != [] { BagOfFlatten(groups[..|groups| - 1]); }
  }

  lemma {:induction false} BagPrefix(groups: seq<seq<string>>, i: nat)
    requires i < |groups|
    ensures multiset(groups[i]) <= Bag(groups)
  {
    var n := |groups|;
    if i < n - 1 { BagPrefix(groups[..n - 1], i); assert groups[..n - 1][i] == groups[i]; }
  }

  lemma {:induction false} BagUpdate(groups: seq<seq<string>>, i: nat, x: seq<string>)
    requires i < |groups|
    ensures Bag(groups[i := x]) == Bag(groups) - multiset(groups[i]) + multiset(x)
  {
    var n := |groups|;
    if i == n - 1 {
      assert groups[i := x][..n - 1] == groups[..n - 1];
    } else {
      assert groups[i := x][..n - 1] == groups[..n - 1][i := x];
      BagUpdate(groups[..n - 1], i, x);
      BagPrefix(groups[..n - 1], i);
      assert groups[..n - 1][i] == groups[i];
    }
  }

  lemma FlattenAppendToLast(groups: seq<seq<string>>, q: string)
    requires |groups| > 0
    ensures var n := |groups|; Flatten(groups[n - 1 := groups[n - 1] + [q]]) == Flatten(groups) + [q]
  {
    var n := |groups|;
    assert groups[n - 1 := groups[n - 1] + [q]][..n - 1] == groups[..n - 1];
  }

  /** The request size for a list: 50 for lists over 100 entries, else 25. */
  function MaxPerBatch(listLength: nat): nat
  {
    if listLength > 100 then 50 else 25
  }

  /** One step of that loop: `q` goes to the end of the last group, or to a
      new group when the last one already holds `max` entries. */
  method AddToLast(ids: seq<seq<string>>, q: string, max: nat) returns (r: seq<seq<string>>)
    requires |ids| >= 1 && max > 0
    requires forall g :: 0 <= g < |ids| - 1 ==> |ids[g]| == max
    requires |ids[|ids| - 1]| <= max
    ensures |r| >= 1 && Flatten(r) == Flatten(ids) + [q]
    ensures forall g :: 0 <= g < |r| - 1 ==> |r[g]| == max
    ensures 0 < |r[|r| - 1]| <= max
  {
    r := ids;
    if |r[|r| - 1]| >= max {
      assert Flatten(r + [[]]) == Flatten(r);
      r := r + [[]];
    }
    var last := |r| - 1;
    FlattenAppendToLast(r, q);
    r := r[last := r[last] + [q]];
  }

  /** The first loop of `getItemBatch`: every entry not in the store is
      appended to the last group, opening a new group when the last one is
      full. The groups hold exactly the queued entries in order, every group
      but the last is full, and the last is not empty unless nothing was
      queued. `loading` is `loading_count`. */
  method PlanBatches(list: seq<RawValue>, store: map<string, Item>)
    returns (ids: seq<seq<string>>, loading: nat)
    ensures |ids| >= 1 && Flatten(ids) == Queued(list, store) && loading == |Queued(list, store)|
    ensures forall g :: 0 <= g < |ids| - 1 ==> |ids[g]| == MaxPerBatch(|list|)
    ensures 0 < |ids[|ids| - 1]| <= MaxPerBatch(|list|) || ids == [[]]
  {
    var max := MaxPerBatch(|list|);
    ids, loading := [[]], 0;
    var i := 0;
    while i < |list|
      invariant 0 <= i <= |list| && |ids| >= 1
      invariant Flatten(ids) == Queued(list[..i], store) && loading == |Flatten(ids)|
      invariant forall g :: 0 <= g < |ids| - 1 ==> |ids[g]| == max
      invariant 0 < |ids[|ids| - 1]| <= max || ids == [[]]
    {
      var q := BatchKey(list[i]);
      QueuedStep(list, i, store);
      if q !in store {
        ids := AddToLast(ids, q, max);
        loading := loading + 1;
      }
      i := i + 1;
    }
    assert list[..i] == list;
  }

  /** Moving the last string of group `i` to the end of group `last` keeps
      the strings of all groups. */
  lemma BagMove(groups: seq<seq<string>>, i: nat, last: nat)
    requires i < last < |groups| && |groups[i]| > 0
    ensures var e := groups[i][|groups[i]| - 1];
      Bag(groups[i := groups[i][..|groups[i]| - 1]][last := groups[last] + [e]]) == Bag(groups)
  {
    var e := groups[i][|groups[i]| - 1];
    var shorter := groups[i][..|groups[i]| - 1];
    assert groups[i] == shorter + [e];
    var r1 := groups[i := shorter];
    BagUpdate(groups, i, shorter);
    BagUpdate(r1, last, r1[last] + [e]);
    BagPrefix(groups, i);
    BagPrefix(r1, last);
    assert multiset(groups[i]) == multiset(shorter) + multiset{e};
    assert Bag(r1) + multiset{e} == Bag(groups);
  }

  /** One round of the balancing loop: the last entry of each of the first
      `last` groups, in group order, is moved to the end of the last group. */
  method MoveRound(groups: seq<seq<string>>, last: nat) returns (r: seq<seq<string>>)
    requires last == |groups| - 1
    requires forall g :: 0 <= g < last ==> |groups[g]| > 0
    ensures |r| == |groups| && Bag(r) == Bag(groups)
    ensures forall g :: 0 <= g < last ==> r[g] == groups[g][..|groups[g]| - 1]
    ensures |r[last]| == |groups[last]| + last && r[last][..|groups[last]|] == groups[last]
  {
    r := groups;
    var i := 0;
    while i < last
      invariant 0 <= i <= last && |r| == |groups| && Bag(r) == Bag(groups)
      invariant forall g :: 0 <= g < i ==> r[g] == groups[g][..|groups[g]| - 1]
      invariant forall g :: i <= g < last ==> r[g] == groups[g]
      invariant |r[last]| == |groups[last]| + i && r[last][..|groups[last]|] == groups[last]
    {
      ghost var r0 := r;
      var e := r[i][|r[i]| - 1];
      BagMove(r, i, last);
      r := r[i := r[i][..|r[i]| - 1]];
      assert (r[last] + [e])[..|groups[last]|] == r[last][..|groups[last]|];
      r := r[last := r[last] + [e]];
      forall g | 0 <= g < i + 1 ensures r[g] == groups[g][..|groups[g]| - 1] {
        if g < i { assert r[g] == r0[g]; }
      }
      forall g | i + 1 <= g < last ensures r[g] == groups[g] {
        assert r[g] == r0[g];
      }
      i := i + 1;
    }
  }

  /** The sizes of the first and the last group once the balancing loop
      stops, starting from a last group of `lastLen` ids and `last` other
      groups of `first` ids each, with requests of at most `max` ids: a round
      runs while the last group plus one id from every other group still fits
      both bounds, and moves one id from each other group to the last. */
  function Balanced(lastLen: nat, last: nat, first: nat, max: nat): (r: (nat, nat))
    ensures r.0 <= first && lastLen <= r.1
    ensures 0 < last ==> r.1 + last > max || r.1 + last > r.0
    decreases first
  {
    if 0 < last && lastLen + last <= max && lastLen + last <= first then Balanced(lastLen + last, last, first - 1, max)
    else (first, lastLen)
  }

  /** What the balancing loop keeps of the planned `groups` in `r`: nothing
      lost or duplicated, the other groups prefixes of the planned ones and
      all of one non-zero size within the request size, and the last group
      within the request size and starting with the planned last group. */
  ghost predicate Balancing(groups: seq<seq<string>>, r: seq<seq<string>>, max: nat)
  {
    var last := |groups| - 1;
    |r| == |groups| > 1 && Bag(r) == Bag(groups) && |r[0]| > 0 &&
    (forall g :: 0 <= g < last ==> |r[g]| == |r[0]| <= max && |r[g]| <= |groups[g]| && r[g] == groups[g][..|r[g]|]) &&
    0 < |groups[last]| <= |r[last]| <= max && r[last][..|groups[last]|] == groups[last]
  }

  /** One round of the balancing loop, run while its condition holds,
      keeps what the loop keeps: the other groups lose one id each and the
      last gains one per other group. */
  method BalanceRound(groups: seq<seq<string>>, r: seq<seq<string>>, max: nat) returns (r': seq<seq<string>>)
    requires Balancing(groups, r, max)
    requires |r[|r| - 1]| + (|r| - 1) <= max && |r[|r| - 1]| + (|r| - 1) <= |r[0]|
    ensures Balancing(groups, r', max)
    ensures |r'[0]| == |r[0]| - 1 && |r'[|r| - 1]| == |r[|r| - 1]| + (|r| - 1)
  {
    var last := |r| - 1;
    r' := MoveRound(r, last);
    forall g | 0 <= g < last ensures |r'[g]| == |r'[0]| <= max && |r'[g]| <= |groups[g]| && r'[g] == groups[g][..|r'[g]|] {
      assert r'[g] == r[g][..|r[g]| - 1];
    }
    assert r'[last][..|groups[last]|] == r[last][..|groups[last]|];
  }

  /** The balancing loop of `getItemBatch`: while the last group plus the
      number of other groups still fits both the request size and the size
      of the first group, one entry is moved from the end of every other
      group to the last group. Nothing is lost or duplicated, the other groups
      keep equal sizes and are prefixes of what they were, and the last group
      stays within the request size and only gains entries at its end. */
  method Rebalance(groups: seq<seq<string>>, max: nat) returns (r: seq<seq<string>>)
    requires |groups| > 1
    requires forall g :: 0 <= g < |groups| - 1 ==> |groups[g]| == max
    requires 0 < |groups[|groups| - 1]| <= max
    ensures |r| == |groups| && Bag(r) == Bag(groups)
    ensures forall g :: 0 <= g < |r| - 1 ==> |r[g]| == |r[0]| <= |groups[g]| && r[g] == groups[g][..|r[g]|]
    ensures |groups[|groups| - 1]| <= |r[|r| - 1]| <= max
    ensures r[|r| - 1][..|groups[|groups| - 1]|] == groups[|groups| - 1]
    ensures |r[0]| > 0
    ensures var last := |r| - 1; |r[last]| + last > max || |r[last]| + last > |r[0]|
    ensures var last := |groups| - 1; (|r[0]|, |r[last]|) == Balanced(|groups[last]|, last, max, max)
  {
    r := groups;
    var last := |r| - 1;
    assert r[last][..|groups[last]|] == groups[last];
    while |r[last]| + last <= max && |r[last]| + last <= |r[0]|
      invariant Balancing(groups, r, max)
      invariant Balanced(|groups[last]|, last, max, max) == Balanced(|r[last]|, last, |r[0]|, max)
      decreases |r[0]|
    {
      r := BalanceRound(groups, r, max);
    }
  }

  /** Full groups before a last one: the ids number `max` per full group
      plus those of the last. */
  lemma {:induction false} FlattenLength(ids: seq<seq<string>>, max: nat)
    requires |ids| >= 1
    requires forall g :: 0 <= g < |ids| - 1 ==> |ids[g]| == max
    ensures |Flatten(ids)| == (|ids| - 1) * max + |ids[|ids| - 1]|
  {
    var n := |ids|;
    if n > 1 {
      var init := ids[..n - 1];
      FlattenLength(init, max);
      assert |init[n - 2]| == max;
      assert (n - 2) * max + max == (n - 1) * max;
    }
  }

  /** `m` groups, all full but a last one of `l` ids, are ceil(n / max)
      groups for their n ids, and the last holds what the others leave. */
  lemma GroupCount(n: nat, m: nat, l: nat, max: nat)
    requires m >= 1 && 0 < l <= max && n == (m - 1) * max + l
    ensures (n + max - 1) / max == m && n - (m - 1) * max == l
  {
    assert (m - 1) * max + max == max * m;
    Iterators.DivUnique(n + max - 1, max, m, l - 1);
  }

  /** The planned groups once balanced: ceil(n / max) groups for the n
      planned ids, each holding between one and `max` ids, together exactly
      those ids. A single group is the ids in order; with more, every group
      but the last has the same size and the two sizes are what the
      balancing loop leaves of full groups and a last group of the remaining
      ids. */
  method BalancePlan(ids: seq<seq<string>>, max: nat, ghost queued: seq<string>) returns (groups: seq<seq<string>>)
    requires |ids| >= 1 && Flatten(ids) == queued && queued != []
    requires forall g :: 0 <= g < |ids| - 1 ==> |ids[g]| == max
    requires 0 < |ids[|ids| - 1]| <= max
    ensures Bag(groups) == multiset(queued)
    ensures forall g :: 0 <= g < |groups| ==> 0 < |groups[g]| <= max
    ensures |groups| == (|queued| + max - 1) / max
    ensures |groups| == 1 ==> groups[0] == queued
    ensures |groups| > 1 ==> var last := |groups| - 1;
      (forall g :: 0 <= g < last ==> |groups[g]| == |groups[0]|) &&
      (|groups[0]|, |groups[last]|) == Balanced(|queued| - last * max, last, max, max)
  {
    BagOfFlatten(ids);
    var m := |ids|;
    FlattenLength(ids, max);
    GroupCount(|queued|, m, |ids[m - 1]|, max);
    if m > 1 {
      groups := Rebalance(ids, max);
    } else {
      assert Flatten(ids) == Flatten([]) + ids[0];
      groups := ids;
    }
  }

  /** The requests `getItemBatch` sends: none when nothing is queued, and
      otherwise the planned groups, balanced. */
  method SendPlan(list: seq<RawValue>, store: map<string, Item>) returns (groups: seq<seq<string>>, loading: nat)
    ensures loading == |Queued(list, store)| && Bag(groups) == multiset(Queued(list, store))
    ensures Queued(list, store) == [] <==> groups == []
    ensures forall g :: 0 <= g < |groups| ==> 0 < |groups[g]| <= MaxPerBatch(|list|)
    ensures var n := |Queued(list, store)|; var max := MaxPerBatch(|list|);
      n > 0 ==> |groups| == (n + max - 1) / max
    ensures |groups| == 1 ==> groups[0] == Queued(list, store)
    ensures |groups| > 1 ==> var last := |groups| - 1; var max := MaxPerBatch(|list|);
      (forall g :: 0 <= g < last ==> |groups[g]| == |groups[0]|) &&
      (|groups[0]|, |groups[last]|) == Balanced(|Queued(list, store)| - last * max, last, max, max)
  {
    var ids;
    ids, loading := PlanBatches(list, store);
    if |ids[0]| == 0 {
      assert ids == [[]] && Flatten(ids) == [];
      return [], loading;
    }
    assert Flatten(ids) != [] by { FlattenLength(ids, MaxPerBatch(|list|)); }
    groups := BalancePlan(ids, MaxPerBatch(|list|), Queued(list, store));
  }

  /** 120 ids to load, none stored, give three requests of 50, 50 and 20
      before balancing and of 40 each after it. */
  lemma BalanceExample()
    ensures (120 + MaxPerBatch(120) - 1) / MaxPerBatch(120) == 3
    ensures Balanced(120 - 2 * MaxPerBatch(120), 2, MaxPerBatch(120), MaxPerBatch(120)) == (40, 40)
  {
    assert Balanced(38, 2, 41, 50) == (40, 40);
    assert Balanced(30, 2, 45, 50) == Balanced(38, 2, 41, 50);
    assert Balanced(20, 2, 50, 50) == Balanced(30, 2, 45, 50);
  }

  /** The store after each record of a response is put under its key, in
      order. */
  function Stored(items: map<string, Item>, entities: seq<(string, Entity)>): map<string, Item>
  {
    if entities == [] then items
    else
      var last := entities[|entities| - 1];
      Stored(items, entities[..|entities| - 1])[last.0 := Loaded(last.1)]
  }

  /** The keys of the store are the old ones and the records'. */
  lemma {:induction false} StoredKeys(items: map<string, Item>, entities: seq<(string, Entity)>)
    ensures Stored(items, entities).Keys == items.Keys + set i | 0 <= i < |entities| :: entities[i].0
  {
    if entities != [] {
      var n := |entities|;
      var init := entities[..n - 1];
      StoredKeys(items, init);
      var all := set i | 0 <= i < n :: entities[i].0;
      var earlier := set i | 0 <= i < n - 1 :: init[i].0;
      assert all == earlier + {entities[n - 1].0} by {
        forall x | x in all ensures x in earlier + {entities[n - 1].0} {
          var i :| 0 <= i < n && entities[i].0 == x;
          if i < n - 1 { assert init[i].0 == x; }
        }
      }
    }
  }

  /** With distinct keys, every record is found under its key. */
  lemma {:induction false} StoredFinds(items: map<string, Item>, entities: seq<(string, Entity)>)
    requires DistinctKeys(entities)
    ensures forall i :: 0 <= i < |entities| ==> entities[i].0 in Stored(items, entities) && Stored(items, entities)[entities[i].0] == Loaded(entities[i].1)
  {
    if entities != [] {
      var n := |entities|;
      var init := entities[..n - 1];
      var last := entities[n - 1];
      assert DistinctKeys(init);
      StoredFinds(items, init);
      forall i | 0 <= i < n - 1 ensures entities[i].0 in Stored(items, entities) && Stored(items, entities)[entities[i].0] == Loaded(entities[i].1) {
        assert init[i] == entities[i] && entities[i].0 != last.0;
      }
    }
  }

  /** Every entry whose key no record has stays as it was. */
  lemma {:induction false} StoredKeeps(items: map<string, Item>, entities: seq<(string, Entity)>)
    ensures forall q :: q in items && (forall i :: 0 <= i < |entities| ==> entities[i].0 != q) ==> q in Stored(items, entities) && Stored(items, entities)[q] == items[q]
  {
    if entities != [] {
      var n := |entities|;
      var init := entities[..n - 1];
      StoredKeeps(items, init);
      forall q | q in items && (forall i :: 0 <= i < n ==> entities[i].0 != q) ensures q in Stored(items, entities) && Stored(items, entities)[q] == items[q] {
        assert q != entities[n - 1].0;
        forall i | 0 <= i < n - 1 ensures init[i].0 != q { assert init[i] == entities[i]; }
      }
    }
  }

  /** `getItemBatch` as a whole, on the fields of WikiData it touches
      (`items`, `loaded_count`, `loading_count`), the `running` counter of
      its closure, the id groups of the requests it sends, and the number
      of times the caller's callback has been called. */
  class ItemBatch {
    var items: map<string, Item>
    var loadedCount: nat
    var loadingCount: nat
    var running: nat
    var requests: seq<seq<string>>
    var callbacks: nat

    constructor (items: map<string, Item>)
      ensures this.items == items && loadedCount == 0 && loadingCount == 0
      ensures running == 0 && requests == [] && callbacks == 0
    {
      this.items := items;
      loadedCount, loadingCount, running, requests, callbacks := 0, 0, 0, [], 0;
    }

    /** Planning and sending: with nothing to load the callback is called at
        once and no request goes out; otherwise one request per group of
        `SendPlan` goes out. */
    method GetItemBatch(list: seq<RawValue>)
      modifies this
      ensures items == old(items) && loadedCount == 0 && loadingCount == |Queued(list, old(items))|
      ensures Bag(requests) == multiset(Queued(list, old(items)))
      ensures Queued(list, old(items)) == [] ==> requests == [] && running == 0 && callbacks == old(callbacks) + 1
      ensures Queued(list, old(items)) != [] ==>
        running == |requests| > 0 && callbacks == old(callbacks)
        && forall g :: 0 <= g < |requests| ==> 0 < |requests[g]| <= MaxPerBatch(|list|)
    {
      var groups, loading := SendPlan(list, items);
      loadedCount, loadingCount := 0, loading;
      requests, running := groups, |groups|;
      if groups == [] {
        callbacks := callbacks + 1;
      }
    }

    /** The handler of one response: every record is stored under its key,
        `loaded_count` grows by the number of records, `running` drops by
        one, and the callback is called when it reaches zero. */
    method Respond(entities: seq<(string, Entity)>)
      requires running > 0 && CanonicalKeys(entities) && DistinctKeys(entities)
      modifies this
      ensures running == old(running) - 1 && callbacks == old(callbacks) + (if running == 0 then 1 else 0)
      ensures loadedCount == old(loadedCount) + |entities|
      ensures items.Keys == old(items).Keys + set i | 0 <= i < |entities| :: entities[i].0
      ensures forall i :: 0 <= i < |entities| ==> items[entities[i].0] == Loaded(entities[i].1)
      ensures forall q :: q in old(items) && (forall i :: 0 <= i < |entities| ==> entities[i].0 != q) ==> items[q] == old(items)[q]
      ensures requests == old(requests) && loadingCount == old(loadingCount)
    {
      var k := 0;
      while k < |entities|
        invariant 0 <= k <= |entities| && running == old(running) && callbacks == old(callbacks)
        invariant requests == old(requests) && loadingCount == old(loadingCount)
        invariant loadedCount == old(loadedCount) + k
        invariant items == Stored(old(items), entities[..k])
      {
        assert entities[..k + 1][..k] == entities[..k];
        var q := UnifiedId(entities[k].0, None);
        items := items[q := Loaded(entities[k].1)];
        loadedCount := loadedCount + 1;
        k := k + 1;
      }
      assert entities[..k] == entities;
      StoredKeys(old(items), entities);
      StoredFinds(old(items), entities);
      StoredKeeps(old(items), entities);
      running := running - 1;
      if running == 0 {
        callbacks := callbacks + 1;
      }
    }
  }
}
