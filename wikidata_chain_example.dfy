// Worked instances of `followChain`. In the first, two items point at each
// other through P1: the search from Q1 must stop at the cycle and report the
// two items once each. In the second, Q1 points through P1 at the placeholder
// Q2 and then at Q3: the copy of the path through the placeholder drops its
// undefined id, so the path through Q3 is the longer one.

module WikiDataChainExample {
  import opened Wrappers
  import opened Text
  import opened WikiDataEntities
  import opened WikiDataChain

  /** A claim whose main snak names the item Q`n`. */
  function ItemClaim(n: nat): Claim
  {
    Claim(Some(Snak(Some(DataValue(Some(Value(Some("item"), Some(n))))))), [])
  }

  function Q1(): Item
  {
    Loaded(Entity("Q1", [ClaimGroup("P1", [ItemClaim(2)])]))
  }

  function Q2(): Item
  {
    Loaded(Entity("Q2", [ClaimGroup("P1", [ItemClaim(1)])]))
  }

  function CycleStore(): map<string, Item>
  {
    map["Q1" := Q1(), "Q2" := Q2()]
  }

  lemma CanonicalP1()
    ensures UnifiedId("P1", Some("P")) == "P1" && UnifiedId("P1", None) == "P1"
  {
    assert RemoveWhitespace("P1") == "P1";
    assert Upper("P1") == "P1";
    assert !IsDigit('P');
  }

  /** Each item's only P1 claim leads to the other one. */
  lemma CycleTargets()
    ensures Targets(CycleStore(), Q1(), "P1") == ["Q2"]
    ensures Targets(CycleStore(), Q2(), "P1") == ["Q1"]
  {
    CanonicalP1();
    assert NatToString(1) == "1" && NatToString(2) == "2";
    assert "Q" + "1" == "Q1" && "Q" + "2" == "Q2";
    assert ConvertToStringArray(Single(Text("P1")), Some("P")) == ["P1"];
    assert ClaimsForProperty(Q1(), "P1") == [ItemClaim(2)];
    assert ClaimsForProperty(Q2(), "P1") == [ItemClaim(1)];
    assert ClaimTargetItemId(ItemClaim(2)) == Some("Q2");
    assert ClaimTargetItemId(ItemClaim(1)) == Some("Q1");
  }

  /** A repetition-free sequence has as many distinct elements as items. */
  lemma {:induction false} NoDupElements(s: seq<Id>)
    requires NoDup(s)
    ensures |Elements(s)| == |s|
    decreases |s|
  {
    if s != [] {
      var init, x := s[..|s| - 1], s[|s| - 1];
      assert forall i, j :: 0 <= i < j < |init| ==> init[i] == s[i] && init[j] == s[j];
      NoDupElements(init);
      assert forall k :: 0 <= k < |init| ==> init[k] == s[k] != x;
      ElementsPush(init, x);
      assert init + [x] == s;
    }
  }

  /** A repetition-free sequence drawn from two values has at most two
      elements. */
  lemma NoDupOfTwo(s: seq<Id>, x: Id, y: Id)
    requires NoDup(s) && forall k :: 0 <= k < |s| ==> s[k] == x || s[k] == y
    ensures |s| <= 2
  {
    NoDupElements(s);
    forall v | v in Elements(s) ensures v in {x, y} {
      var k :| 0 <= k < |s| && s[k] == v;
    }
    WithinPair(Elements(s), x, y);
  }

  lemma WithinPair(e: set<Id>, x: Id, y: Id)
    requires e <= {x, y}
    ensures |e| <= 2
  {
    assert {x, y} == e + ({x, y} - e);
  }

  lemma CycleLinks(links: (Item, string) -> seq<string>)
    requires ClaimLinks(links, CycleStore())
    ensures links(Q1(), "P1") == ["Q2"] && links(Q2(), "P1") == ["Q1"]
  {
    CycleTargets();
  }

  /** The chain Q1, Q2 is one the search may build from Q1. */
  lemma CycleChain(links: (Item, string) -> seq<string>)
    requires ClaimLinks(links, CycleStore())
    ensures Extends(links, CycleStore(), ["P1"], [], Q1(), [Q1(), Q2()])
  {
    CycleLinks(links);
    var c := [Q1(), Q2()];
    var props := ["P1"];
    assert "Q2" in links(c[0], props[0]) && CycleStore()["Q2"] == c[1];
    assert Linked(links, CycleStore(), props, c[0], c[1]);
    assert |Ids(c)| == 2 && Ids(c)[0] == Some("Q1") && Ids(c)[1] == Some("Q2");
  }

  /** A chain from Q1 only meets the two stored items. */
  lemma ChainWithinCycle(links: (Item, string) -> seq<string>, c: seq<Item>)
    requires |c| > 0 && c[0] == Q1() && Chain(links, CycleStore(), ["P1"], c)
    ensures forall k :: 0 <= k < |c| ==> IdOf(c[k]) == Some("Q1") || IdOf(c[k]) == Some("Q2")
  {
    forall k | 0 <= k < |c| ensures c[k] == Q1() || c[k] == Q2() {
      if k > 0 {
        assert Linked(links, CycleStore(), ["P1"], c[k - 1], c[k]);
      }
    }
  }

  /** `followChain({props: 'P1'})` on Q1 returns the chain Q1, Q2. */
  method CycleSearch() returns (r: Option<seq<Id>>)
    ensures r == Some([Some("Q1"), Some("Q2")])
  {
    var search := new ChainSearch(Single(Text("P1")));
    ghost var tried;
    r, tried := search.FollowChain(CycleStore(), Q1());
    CanonicalP1();
    assert search.props == ["P1"];
    CycleChain(search.links);
    ChainWithinCycle(search.links, search.best);
    assert KeyConsistent(CycleStore()) && StartStored(CycleStore(), Q1());
    CopyPush([Some("Q1")], Some("Q2"));
    assert [] + Ids([Q1(), Q2()]) == [Some("Q1")] + [Some("Q2")];
    assert 2 <= |search.longest|;
    NoDupOfTwo(search.longest, Some("Q1"), Some("Q2"));
    assert search.longest[0] == Some("Q1") && search.longest[1] != search.longest[0];
    assert search.longest == [Some("Q1"), Some("Q2")];
  }

  // ------------------------------------------- a placeholder among the targets

  /** Q1 with P1 claims to Q2 and then to Q3. */
  function Head(): Item
  {
    Loaded(Entity("Q1", [ClaimGroup("P1", [ItemClaim(2), ItemClaim(3)])]))
  }

  /** Q3, loaded and without claims. */
  function Leaf(): Item
  {
    Loaded(Entity("Q3", []))
  }

  /** Q2 is requested but not loaded yet. */
  function PlaceholderStore(): map<string, Item>
  {
    map["Q1" := Head(), "Q2" := Placeholder, "Q3" := Leaf()]
  }

  /** Q1 links to Q2 and Q3; neither links anywhere. */
  lemma PlaceholderTargetsOf(links: (Item, string) -> seq<string>)
    requires ClaimLinks(links, PlaceholderStore())
    ensures links(Head(), "P1") == ["Q2", "Q3"]
    ensures links(Leaf(), "P1") == [] && links(Placeholder, "P1") == []
  {
    var store := PlaceholderStore();
    CanonicalP1();
    assert NatToString(2) == "2" && NatToString(3) == "3";
    assert "Q" + "2" == "Q2" && "Q" + "3" == "Q3";
    assert ClaimsForProperty(Head(), "P1") == [ItemClaim(2), ItemClaim(3)];
    assert ClaimTargetItemId(ItemClaim(2)) == Some("Q2");
    assert ClaimTargetItemId(ItemClaim(3)) == Some("Q3");
    assert [ItemClaim(2), ItemClaim(3)][1..] == [ItemClaim(3)];
    assert Targets(store, Head(), "P1") == ["Q2", "Q3"];
    assert Targets(store, Leaf(), "P1") == [];
    PlaceholderTargets(store, "P1");
  }

  /** In that store only Q1 links anywhere, so a repetition-free chain from
      Q1 has at most two items, the second being Q2 or Q3. */
  lemma PlaceholderChains(links: (Item, string) -> seq<string>, c: seq<Item>)
    requires ClaimLinks(links, PlaceholderStore())
    requires |c| > 0 && c[0] == Head() && Chain(links, PlaceholderStore(), ["P1"], c) && NoDup(Ids(c))
    ensures |c| <= 2 && (|c| == 2 ==> c[1] == Placeholder || c[1] == Leaf())
  {
    var store, props := PlaceholderStore(), ["P1"];
    PlaceholderTargetsOf(links);
    forall k | 0 < k < |c| ensures c[k] == Head() || c[k] == Placeholder || c[k] == Leaf() {
      assert Linked(links, store, props, c[k - 1], c[k]);
    }
    forall j | 0 <= j < |c| - 1 ensures c[j] == Head() {
      assert Linked(links, store, props, c[j], c[j + 1]);
    }
    NoDupOfTwo(Ids(c), Some("Q1"), IdOf(c[|c| - 1]));
    if |c| == 2 {
      assert Linked(links, store, props, c[0], c[1]);
    }
  }

  /** The chain Q1, Q3 is one the search may build from Q1. */
  lemma LeafChain(links: (Item, string) -> seq<string>)
    requires ClaimLinks(links, PlaceholderStore())
    ensures Extends(links, PlaceholderStore(), ["P1"], [], Head(), [Head(), Leaf()])
  {
    PlaceholderTargetsOf(links);
    var c, props := [Head(), Leaf()], ["P1"];
    assert "Q3" in links(c[0], props[0]) && PlaceholderStore()["Q3"] == c[1];
    assert Linked(links, PlaceholderStore(), props, c[0], c[1]);
    assert |Ids(c)| == 2 && Ids(c)[0] == Some("Q1") && Ids(c)[1] == Some("Q3");
  }

  /** `followChain({props: 'P1'})` on Q1 returns Q1, Q3: the path through
      the placeholder Q2 is copied without its undefined id. */
  method PlaceholderSearch() returns (r: Option<seq<Id>>)
    ensures r == Some([Some("Q1"), Some("Q3")])
  {
    var search := new ChainSearch(Single(Text("P1")));
    ghost var tried;
    r, tried := search.FollowChain(PlaceholderStore(), Head());
    CanonicalP1();
    assert search.props == ["P1"];
    LeafChain(search.links);
    assert KeyConsistent(PlaceholderStore()) && StartStored(PlaceholderStore(), Head());
    CopyPush([Some("Q1")], Some("Q3"));
    assert [] + Ids([Head(), Leaf()]) == [Some("Q1")] + [Some("Q3")];
    assert 2 <= |search.longest|;
    PlaceholderChains(search.links, search.best);
    assert search.longest[1] == IdOf(search.best[1]) && search.longest[1].Some?;
    assert search.longest == [Some("Q1"), Some("Q3")];
  }
}
