// ResourceSeedingProcessor of datagrowth/processors/input/seeding.py: seeds
// flow through phases; each phase fills a buffer, and the buffer is flushed
// into the batch the next phase works on, either wholesale or merged into
// the existing batch on a key. Modelled: phase skipping, the buffer flush,
// the phase configurations and the constructor's choice of phases. The
// resource iterators and the `__call__` loop driving them are not.

module SeedingProcessors {
  import opened Wrappers
  import opened Exceptions
  import opened Json

  /** A seed: a JSON object. */
  type Content = map<string, Json>

  // ------------------------------------------------------------ phase skipping

  /** A non-empty set has an element. */
  lemma HasElement(s: set<int>)
    requires s != {}
    ensures exists x :: x in s
  {
    if forall x :: x !in s {
      assert false;
    }
  }

  /** The largest index in a non-empty set. */
  ghost function SetMax(s: set<int>): (m: int)
    requires s != {}
    ensures m in s && forall x :: x in s ==> x <= m
    decreases |s|
  {
    HasElement(s);
    var x :| x in s;
    var others := s - {x};
    assert forall y :: y in s ==> y == x || y in others;
    if others == {} then x
    else
      var rest := SetMax(others);
      if x > rest then x else rest
  }

  /** `should_skip_phase`: a phase is skipped while a later phase still
      has content to give. */
  ghost function ShouldSkipPhase(contents: set<int>, phaseIndex: int): (r: bool)
    ensures contents == {} ==> !r
  {
    contents != {} && phaseIndex < SetMax(contents)
  }

  /** Skipping means exactly that some phase with content comes later. */
  lemma SkipWhenLaterContent(contents: set<int>, phaseIndex: int)
    ensures ShouldSkipPhase(contents, phaseIndex) <==> exists j :: j in contents && phaseIndex < j
  {
    if contents != {} {
      var m := SetMax(contents);
      if !ShouldSkipPhase(contents, phaseIndex) {
        assert forall j :: j in contents ==> j <= m <= phaseIndex;
      }
    }
  }

  // --------------------------------------------------------- merging on a key

  /** The value an item has for the merge key: missing is a KeyError, and
      a list or dict cannot be a dictionary key (TypeError). */
  function MergeKey(item: Content, mergeOn: string): (r: Result<Json, Exception>)
    ensures mergeOn !in item ==> r == Err(KeyError)
    ensures mergeOn in item && !Hashable(item[mergeOn]) ==> r == Err(TypeError)
    ensures mergeOn in item && Hashable(item[mergeOn]) ==> r == Ok(item[mergeOn])
  {
    if mergeOn !in item then Err(KeyError)
    else if !Hashable(item[mergeOn]) then Err(TypeError)
    else Ok(item[mergeOn])
  }

  /** The dict comprehension over the buffer: each buffer item under its
      merge key, a later item replacing an earlier one with the same key. */
  function BufferIndex(buffer: seq<Content>, mergeOn: string): (r: Result<map<Json, Content>, Exception>)
    ensures r.Ok? <==> forall j :: 0 <= j < |buffer| ==> MergeKey(buffer[j], mergeOn).Ok?
  {
    if |buffer| == 0 then Ok(map[])
    else
      var previous := BufferIndex(buffer[..|buffer| - 1], mergeOn);
      var last := buffer[|buffer| - 1];
      if previous.Err? then Err(previous.error)
      else
        var key := MergeKey(last, mergeOn);
        if key.Err? then Err(key.error)
        else
          assert forall j :: 0 <= j < |buffer| - 1 ==> buffer[..|buffer| - 1][j] == buffer[j];
          Ok(previous.value[key.value := last])
  }

  /** Buffer item `j` is the last one with merge key `key`. */
  predicate LastWithKey(buffer: seq<Content>, mergeOn: string, j: int, key: Json)
  {
    0 <= j < |buffer| && MergeKey(buffer[j], mergeOn) == Ok(key) &&
    forall l :: j < l < |buffer| ==> MergeKey(buffer[l], mergeOn) != Ok(key)
  }

  /** The index holds every buffer item's key. */
  lemma {:induction false} IndexHasEveryKey(buffer: seq<Content>, mergeOn: string)
    requires BufferIndex(buffer, mergeOn).Ok?
    ensures forall j :: 0 <= j < |buffer| ==> MergeKey(buffer[j], mergeOn).value in BufferIndex(buffer, mergeOn).value
  {
    if |buffer| > 0 {
      var init := buffer[..|buffer| - 1];
      assert forall j :: 0 <= j < |init| ==> init[j] == buffer[j];
      IndexHasEveryKey(init, mergeOn);
    }
  }

  /** Under each key the index holds the last buffer item with that key:
      a later item replaces an earlier one. */
  lemma {:induction false} IndexLastWins(buffer: seq<Content>, mergeOn: string, key: Json)
    requires BufferIndex(buffer, mergeOn).Ok? && key in BufferIndex(buffer, mergeOn).value
    ensures exists j :: LastWithKey(buffer, mergeOn, j, key) && BufferIndex(buffer, mergeOn).value[key] == buffer[j]
  {
    var init := buffer[..|buffer| - 1];
    var last := buffer[|buffer| - 1];
    assert forall j :: 0 <= j < |init| ==> init[j] == buffer[j];
    var previous := BufferIndex(init, mergeOn).value;
    var lastKey := MergeKey(last, mergeOn).value;
    var index := BufferIndex(buffer, mergeOn).value;
    assert index == previous[lastKey := last];
    if key == lastKey {
      assert LastWithKey(buffer, mergeOn, |buffer| - 1, key);
    } else {
      IndexLastWins(init, mergeOn, key);
      var j :| LastWithKey(init, mergeOn, j, key) && previous[key] == init[j];
      assert LastWithKey(buffer, mergeOn, j, key);
    }
  }

  /** `content.update(buffer.get(content[merge_on], {}))` on one batch
      item. */
  function MergedItem(item: Content, index: map<Json, Content>, mergeOn: string): (r: Result<Content, Exception>)
    ensures MergeKey(item, mergeOn).Err? ==> r == Err(MergeKey(item, mergeOn).error)
    ensures MergeKey(item, mergeOn).Ok? ==> r.Ok?
  {
    var key := MergeKey(item, mergeOn);
    if key.Err? then Err(key.error)
    else if key.value in index then Ok(item + index[key.value])
    else Ok(item)
  }

  /** A batch item whose key no buffer item has is kept as it is; one that
      matches gets the matching buffer item's fields on top of its own. */
  lemma MergedItemMeaning(item: Content, index: map<Json, Content>, mergeOn: string)
    requires MergeKey(item, mergeOn).Ok?
    ensures var key := item[mergeOn];
            (key !in index ==> MergedItem(item, index, mergeOn) == Ok(item)) &&
            (key in index ==> MergedItem(item, index, mergeOn).value.Keys == item.Keys + index[key].Keys &&
                              forall f :: f in index[key] ==> MergedItem(item, index, mergeOn).value[f] == index[key][f])
  {
  }

  // ------------------------------------------------------ phase configurations

  /** The three configurations a phase is split into. */
  datatype PhaseConfigs = PhaseConfigs(phase: map<string, Json>, retrieve: Json, contribute: Json)

  /** `create_phase_configurations`: the phase dict gets its position as
      "index", and its retrieve and contribute data become configurations
      of their own (an empty dict when absent). */
  function CreatePhaseConfigurations(phases: seq<map<string, Json>>): (r: seq<PhaseConfigs>)
    ensures |r| == |phases|
    ensures forall i :: 0 <= i < |phases| ==>
              r[i].phase.Keys == phases[i].Keys - {"retrieve_data", "contribute_data"} + {"index"} &&
              r[i].phase["index"] == Int(i) &&
              (forall k :: k in phases[i] && k !in {"index", "retrieve_data", "contribute_data"} ==> r[i].phase[k] == phases[i][k]) &&
              r[i].retrieve == (if "retrieve_data" in phases[i] then phases[i]["retrieve_data"] else Dict(map[])) &&
              r[i].contribute == (if "contribute_data" in phases[i] then phases[i]["contribute_data"] else Dict(map[]))
  {
    seq(|phases|, i requires 0 <= i < |phases| =>
      var phase := phases[i]["index" := Int(i)];
      PhaseConfigs(
        phase - {"retrieve_data", "contribute_data"},
        if "retrieve_data" in phases[i] then phases[i]["retrieve_data"] else Dict(map[]),
        if "contribute_data" in phases[i] then phases[i]["contribute_data"] else Dict(map[])))
  }

  /** The phases a new processor runs: all of them, provided the first is
      the initial phase, when no initial seeds are given; otherwise only
      those marked to run after initialisation. The collection needs an
      identifier and there must be phases at all. */
  function SelectPhases(phases: seq<map<string, Json>>, initial: seq<Content>, identifier: Json): (r: Result<seq<map<string, Json>>, Exception>)
    ensures |phases| == 0 || !Truthy(identifier) ==> r == Err(AssertionError)
    ensures |phases| > 0 && Truthy(identifier) && |initial| == 0 ==>
              ("strategy" !in phases[0] ==> r == Err(KeyError)) &&
              ("strategy" in phases[0] && phases[0]["strategy"] != Str("initial") ==> r == Err(AssertionError)) &&
              ("strategy" in phases[0] && phases[0]["strategy"] == Str("initial") ==> r == Ok(phases))
    ensures |phases| > 0 && Truthy(identifier) && |initial| > 0 ==>
              r.Ok? && (forall p :: p in r.value <==> p in phases && IsPostInitialization(p))
  {
    if |phases| == 0 || !Truthy(identifier) then Err(AssertionError)
    else if |initial| == 0 then
      if "strategy" !in phases[0] then Err(KeyError)
      else if phases[0]["strategy"] != Str("initial") then Err(AssertionError)
      else Ok(phases)
    else Ok(PostInitialization(phases))
  }

  predicate IsPostInitialization(phase: map<string, Json>)
  {
    "is_post_initialization" in phase && Truthy(phase["is_post_initialization"])
  }

  /** The list comprehension keeping post-initialisation phases, in order. */
  function PostInitialization(phases: seq<map<string, Json>>): (r: seq<map<string, Json>>)
    ensures forall p :: p in r <==> p in phases && IsPostInitialization(p)
    ensures |r| <= |phases|
  {
    if |phases| == 0 then []
    else (if IsPostInitialization(phases[0]) then [phases[0]] else []) + PostInitialization(phases[1..])
  }

  // ------------------------------------------------------------ the processor

  /** The strategies that replace the batch with the buffer. */
  const ReplacingStrategies := {"initial", "replace", "back_fill"}

  class ResourceSeedingProcessor {
    var buffer: seq<Content>
    var batch: seq<Content>
    /** The indices of the phases that still have a content iterator. */
    var contents: set<int>

    /** The seeds state the constructor leaves: the initial seeds (or
        none) as the batch. */
    constructor(initial: seq<Content>)
      ensures batch == initial && buffer == [] && contents == {}
    {
      batch := initial;
      buffer := [];
      contents := {};
    }

    /** `flush_buffer`: an empty buffer is an error unless forced; the
        replacing strategies copy the buffer into the batch, "merge"
        updates each batch item in place from the buffer item with the same
        merge key, and the buffer is emptied afterwards. A failing merge
        leaves the items before the failing one updated and the buffer as
        it was. */
    method FlushBuffer(strategy: string, mergeOn: string, force: bool) returns (r: Result<bool, Exception>)
      modifies this
      ensures contents == old(contents)
      ensures |old(buffer)| == 0 && !force ==> r == Err(ValueError) && batch == old(batch) && buffer == old(buffer)
      ensures !(|old(buffer)| == 0 && !force) && strategy in ReplacingStrategies ==>
                r == Ok(true) && batch == old(buffer) && buffer == []
      ensures !(|old(buffer)| == 0 && !force) && strategy !in ReplacingStrategies && strategy != "merge" ==>
                r == Ok(true) && batch == old(batch) && buffer == []
      ensures !(|old(buffer)| == 0 && !force) && strategy == "merge" && BufferIndex(old(buffer), mergeOn).Err? ==>
                r == Err(BufferIndex(old(buffer), mergeOn).error) && batch == old(batch) && buffer == old(buffer)
      ensures !(|old(buffer)| == 0 && !force) && strategy == "merge" && BufferIndex(old(buffer), mergeOn).Ok? ==>
                var index := BufferIndex(old(buffer), mergeOn).value;
                |batch| == |old(batch)| &&
                (r.Ok? ==> buffer == [] && forall i :: 0 <= i < |batch| ==> MergedItem(old(batch)[i], index, mergeOn) == Ok(batch[i])) &&
                (r.Err? ==> (buffer == old(buffer) &&
                   exists e :: 0 <= e < |batch| && MergedItem(old(batch)[e], index, mergeOn) == Err(r.error) &&
                     (forall i :: 0 <= i < e ==> MergedItem(old(batch)[i], index, mergeOn) == Ok(batch[i])) &&
                     (forall i :: e <= i < |batch| ==> batch[i] == old(batch)[i])))
    {
      if |buffer| == 0 && !force {
        return Err(ValueError);
      }
      if strategy in ReplacingStrategies {
        batch := buffer;
      } else if strategy == "merge" {
        var index := BufferIndex(buffer, mergeOn);
        if index.Err? {
          return Err(index.error);
        }
        var i := 0;
        while i < |batch|
          invariant 0 <= i <= |batch| == |old(batch)|
          invariant forall j :: 0 <= j < i ==> MergedItem(old(batch)[j], index.value, mergeOn) == Ok(batch[j])
          invariant forall j :: i <= j < |batch| ==> batch[j] == old(batch)[j]
          invariant buffer == old(buffer) && contents == old(contents)
        {
          var merged := MergedItem(batch[i], index.value, mergeOn);
          if merged.Err? {
            return Err(merged.error);
          }
          batch := batch[i := merged.value];
          i := i + 1;
        }
      }
      buffer := [];
      r := Ok(true);
    }
  }
}
