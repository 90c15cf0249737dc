// ExtractProcessor of datagrowth/processors/input/extraction.py: an
// objective (a dict of JSON paths) is split into the path of the nodes to
// extract ("@"), paths evaluated once against the whole document ("#name")
// and paths evaluated against every node; extraction from JSON then yields
// one record per node. The HTML/XML extraction, which evaluates Python
// expressions from the objective, is not modelled.

module ExtractProcessors {
  import opened Wrappers
  import opened Exceptions
  import opened Text
  import opened Json
  import opened DataUtils

  /** The context entries an objective dict holds: "#name" keys, without
      their "#", among the keys in `done`. */
  function ContextPart(fields: map<string, Json>, done: set<string>): (r: map<string, Json>)
    ensures forall name :: name in r <==> "#" + name in done && "#" + name in fields
    ensures forall name :: name in r ==> r[name] == fields["#" + name]
  {
    map name | name in Tails(done) && "#" + name in done && "#" + name in fields :: fields["#" + name]
  }

  /** The keys of `done` without their first character. */
  function Tails(done: set<string>): (r: set<string>)
    ensures forall name :: "#" + name in done ==> name in r
  {
    var r := set k | k in done && |k| > 0 :: k[1..];
    forall name | "#" + name in done ensures name in r {
      assert ("#" + name)[1..] == name;
    }
    r
  }

  /** `key.startswith("#")`: the key names a context entry. */
  predicate IsContextKey(k: string)
  {
    |k| > 0 && k[0] == '#'
  }

  /** A key that is neither "@" nor "#"-prefixed names an output field. */
  predicate IsObjectiveKey(k: string)
  {
    k != "@" && !IsContextKey(k)
  }

  /** The plain objective entries among the keys in `done`. */
  function ObjectivePart(fields: map<string, Json>, done: set<string>): (r: map<string, Json>)
    ensures forall k :: k in r <==> k in done && k in fields && IsObjectiveKey(k)
    ensures forall k :: k in r ==> r[k] == fields[k]
  {
    map k | k in done && k in fields && IsObjectiveKey(k) :: fields[k]
  }

  /** The path a value of the objective stands for: None is no path at all,
      a string is a path, and anything else has no `startswith`. */
  function ObjectivePath(objective: Json): (r: Result<Option<string>, Exception>)
    ensures objective.Null? ==> r == Ok(None)
    ensures objective.Str? ==> r == Ok(Some(objective.s))
    ensures !objective.Null? && !objective.Str? ==> r == Err(AttributeError)
  {
    match objective
    case Null => Ok(None)
    case Str(s) => Ok(Some(s))
    case _ => Err(AttributeError)
  }

  /** `reach(objective, data)` for a value of the objective. */
  function ReachObjective(objective: Json, data: Json): (r: Result<Json, Exception>)
    ensures ObjectivePath(objective).Err? ==> r == Err(AttributeError)
    ensures ObjectivePath(objective).Ok? ==> r == ReachSpec(ObjectivePath(objective).value, data, Null, NoFactory)
  {
    var path := ObjectivePath(objective);
    if path.Err? then Err(path.error) else ReachSpec(path.value, data, Null, NoFactory)
  }

  /** Every path of `paths` (taken in the order of `keys`) reached in
      `data`; the first failure ends it. */
  function ReachEach(keys: seq<string>, paths: map<string, Json>, data: Json): (r: Result<map<string, Json>, Exception>)
    requires forall k :: k in keys ==> k in paths
    ensures r.Ok? ==> (forall k :: k in r.value <==> k in keys)
    ensures r.Ok? ==> forall k :: k in keys ==> ReachObjective(paths[k], data) == Ok(r.value[k])
    ensures r.Err? <==> exists k :: k in keys && ReachObjective(paths[k], data).Err?
    ensures r.Err? ==> exists k :: k in keys && ReachObjective(paths[k], data) == Err(r.error)
  {
    if |keys| == 0 then Ok(map[])
    else
      var first := ReachObjective(paths[keys[0]], data);
      if first.Err? then Err(first.error)
      else
        var rest := ReachEach(keys[1..], paths, data);
        if rest.Err? then
          var k :| k in keys[1..] && ReachObjective(paths[k], data) == Err(rest.error);
          Err(rest.error)
        else
          assert forall k :: k in keys <==> k == keys[0] || k in keys[1..];
          Ok(rest.value[keys[0] := first.value])
  }

  /** The nodes extraction runs over: the values of a dict (in key order),
      the items of a list, the characters of a string; nothing at all is an
      error of its own, and other values cannot be iterated. */
  function Nodes(found: Json): (r: Result<seq<Json>, Exception>)
    ensures found.Null? ==> r == Err(NoContent)
    ensures found.List? ==> r == Ok(found.items)
    ensures found.Dict? ==> r.Ok? && |r.value| == |found.fields| &&
                            forall v :: v in r.value <==> v in found.fields.Values
    ensures found.Str? ==> r.Ok? && |r.value| == |found.s| && forall i :: 0 <= i < |found.s| ==> r.value[i] == Str([found.s[i]])
    ensures found.Bool? || found.Int? ==> r == Err(TypeError)
  {
    match found
    case Null => Err(NoContent)
    case List(items) => Ok(items)
    case Dict(fields) =>
      var keys := SortedElements(fields.Keys);
      var values := seq(|keys|, i requires 0 <= i < |keys| => fields[keys[i]]);
      forall v | v in fields.Values ensures v in values {
        var k :| k in fields && fields[k] == v;
        var i :| 0 <= i < |keys| && keys[i] == k;
        assert values[i] == v;
      }
      Ok(values)
    case Str(s) => Ok(seq(|s|, i requires 0 <= i < |s| => Str([s[i]])))
    case _ => Err(TypeError)
  }

  /** The record one node gives: the context values with the objective's
      paths (taken in key order) reached in the node on top. */
  function RecordOf(context: map<string, Json>, objective: map<string, Json>, node: Json): Result<map<string, Json>, Exception>
  {
    var fields := ReachEach(KeyOrder(objective.Keys), objective, node);
    if fields.Err? then Err(fields.error) else Ok(context + fields.value)
  }

  /** A record holds the context's and the objective's keys; an objective
      field is its path reached in the node, and a context value stays
      unless the objective has a field of the same name. */
  lemma RecordContents(context: map<string, Json>, objective: map<string, Json>, node: Json)
    requires RecordOf(context, objective, node).Ok?
    ensures RecordOf(context, objective, node).value.Keys == context.Keys + objective.Keys
    ensures forall k :: k in objective ==> ReachObjective(objective[k], node) == Ok(RecordOf(context, objective, node).value[k])
    ensures forall k :: k in context && k !in objective ==> RecordOf(context, objective, node).value[k] == context[k]
  {
    var keys := KeyOrder(objective.Keys);
    var fields := ReachEach(keys, objective, node);
    var record := context + fields.value;
    assert RecordOf(context, objective, node) == Ok(record);
    assert fields.value.Keys == objective.Keys by {
      forall k | k in fields.value ensures k in objective { assert k in keys; }
      forall k | k in objective ensures k in fields.value { assert k in keys; }
    }
    forall k | k in objective ensures ReachObjective(objective[k], node) == Ok(record[k]) {
      assert k in keys && record[k] == fields.value[k];
    }
  }

  /** A record fails exactly when one of the objective's paths fails on
      the node. */
  lemma RecordFails(context: map<string, Json>, objective: map<string, Json>, node: Json)
    ensures RecordOf(context, objective, node).Err? <==> exists k :: k in objective && ReachObjective(objective[k], node).Err?
  {
  }

  /** The results in order, or the first failure among them. */
  function Sequenced<T>(outs: seq<Result<T, Exception>>): (r: Result<seq<T>, Exception>)
    ensures r.Ok? ==> |r.value| == |outs| && forall i :: 0 <= i < |outs| ==> outs[i] == Ok(r.value[i])
    ensures r.Err? <==> exists i :: 0 <= i < |outs| && outs[i].Err?
    ensures r.Err? ==> exists i :: 0 <= i < |outs| && outs[i] == Err(r.error) && forall j :: 0 <= j < i ==> outs[j].Ok?
  {
    if |outs| == 0 then Ok([])
    else if outs[0].Err? then Err(outs[0].error)
    else
      var rest := Sequenced(outs[1..]);
      if rest.Err? then
        var i :| 0 <= i < |outs[1..]| && outs[1..][i] == Err(rest.error) && forall j :: 0 <= j < i ==> outs[1..][j].Ok?;
        assert outs[i + 1] == Err(rest.error) && forall j :: 0 < j < i + 1 ==> outs[j] == outs[1..][j - 1];
        Err(rest.error)
      else
        var all := [outs[0].value] + rest.value;
        assert forall i :: 0 < i < |outs| ==> all[i] == rest.value[i - 1] && outs[i] == outs[1..][i - 1];
        Ok(all)
  }

  /** One record per node, in the order of the nodes; the first failing
      node ends it. */
  function Records(context: map<string, Json>, objective: map<string, Json>, nodes: seq<Json>): (r: Result<seq<map<string, Json>>, Exception>)
    ensures r.Ok? ==> |r.value| == |nodes| && forall i :: 0 <= i < |nodes| ==> RecordOf(context, objective, nodes[i]) == Ok(r.value[i])
    ensures r.Err? <==> exists i :: 0 <= i < |nodes| && RecordOf(context, objective, nodes[i]).Err?
    ensures r.Err? ==> exists i :: 0 <= i < |nodes| && RecordOf(context, objective, nodes[i]) == Err(r.error)
                                   && forall j :: 0 <= j < i ==> RecordOf(context, objective, nodes[j]).Ok?
  {
    var outs := seq(|nodes|, i requires 0 <= i < |nodes| => RecordOf(context, objective, nodes[i]));
    var r := Sequenced(outs);
    if r.Ok? then r
    else
      var i :| 0 <= i < |outs| && outs[i] == Err(r.error) && forall j :: 0 <= j < i ==> outs[j].Ok?;
      assert RecordOf(context, objective, nodes[i]) == Err(r.error);
      assert forall j :: 0 <= j < i ==> RecordOf(context, objective, nodes[j]).Ok? by {
        forall j | 0 <= j < i ensures RecordOf(context, objective, nodes[j]).Ok? {
          assert outs[j] == RecordOf(context, objective, nodes[j]);
        }
      }
      r
  }

  /** The handler `extract` dispatches to: the content type with "/"
      turned into "_" names a method of the processor. */
  datatype Extracted = Items(records: seq<map<string, Json>>) | Soup(handler: string)

  /** The records of an extraction from JSON as the result of `extract`. */
  function AsItems(r: Result<seq<map<string, Json>>, Exception>): (e: Result<Extracted, Exception>)
    ensures r.Ok? ==> e == Ok(Items(r.value))
    ensures r.Err? ==> e == Err(r.error)
  {
    if r.Ok? then Ok(Items(r.value)) else Err(r.error)
  }

  /** The content types the processor has a method for. */
  const JsonHandler := "application_json"
  const SoupHandlers := {"text_html", "text_xml"}

  class ExtractProcessor {
    /** The objective in the processor's configuration. */
    const configObjective: Json
    var at: Json
    var context: map<string, Json>
    var objective: map<string, Json>

    constructor(configObjective: Json)
      ensures this.configObjective == configObjective
      ensures at == Null && context == map[] && objective == map[]
    {
      this.configObjective := configObjective;
      at := Null;
      context := map[];
      objective := map[];
    }

    /** `load_objective`: every key of the objective goes to exactly one
        place, in whatever order the dict yields them; afterwards
        something must have been loaded, and plain objective keys need a
        truthy "@". */
    method LoadObjective(given: Json) returns (r: Result<bool, Exception>)
      modifies this
      ensures !given.Dict? ==> r == Err(AssertionError) && at == old(at) && context == old(context) && objective == old(objective)
      ensures given.Dict? ==>
                at == (if "@" in given.fields then given.fields["@"] else old(at)) &&
                context == old(context) + ContextPart(given.fields, given.fields.Keys) &&
                objective == old(objective) + ObjectivePart(given.fields, given.fields.Keys)
      ensures given.Dict? ==> (r.Ok? <==> (|objective| > 0 || |context| > 0) && (|objective| > 0 ==> Truthy(at)))
      ensures r.Err? ==> r.error == AssertionError
      ensures r.Ok? ==> r.value
    {
      if !given.Dict? {
        return Err(AssertionError);
      }
      var state := LoadAll(given.fields, Loaded(at, context, objective));
      at, context, objective := state.at, state.context, state.objective;
      if |objective| == 0 && |context| == 0 {
        return Err(AssertionError);
      }
      if |objective| > 0 && !Truthy(at) {
        return Err(AssertionError);
      }
      r := Ok(true);
    }

    /** `extract`: no objective in the configuration is an error, no
        content type gives nothing, and otherwise the content type picks
        the handler. */
    function Extract(contentType: Option<string>, data: Json): (r: Result<Extracted, Exception>)
      reads this
      ensures !Truthy(configObjective) ==> r == Err(AssertionError)
      ensures Truthy(configObjective) && contentType.None? ==> r == Ok(Items([]))
      ensures Truthy(configObjective) && contentType.Some? ==>
                var name := ReplaceChar(contentType.value, '/', '_');
                (name == JsonHandler ==> r == AsItems(ApplicationJson(data))) &&
                (name in SoupHandlers ==> r == Ok(Soup(name))) &&
                (name != JsonHandler && name !in SoupHandlers ==> r == Err(TypeError))
    {
      if !Truthy(configObjective) then Err(AssertionError)
      else if contentType.None? then Ok(Items([]))
      else
        var name := ReplaceChar(contentType.value, '/', '_');
        if name == JsonHandler then AsItems(ApplicationJson(data))
        else if name in SoupHandlers then Ok(Soup(name))
        else Err(TypeError)
    }

    /** The context paths reached in the whole document, in key order. */
    function SharedContext(data: Json): (r: Result<map<string, Json>, Exception>)
      reads this
      ensures r.Ok? ==> r.value.Keys == context.Keys
      ensures r.Ok? ==> forall k :: k in context ==> ReachObjective(context[k], data) == Ok(r.value[k])
      ensures r.Err? <==> exists k :: k in context && ReachObjective(context[k], data).Err?
    {
      ReachEach(KeyOrder(context.Keys), context, data)
    }

    /** `application_json`: the context is reached in the whole document,
        the nodes at "@", and every node gives a record of the context
        values and the objective's paths reached in that node. */
    function ApplicationJson(data: Json): (r: Result<seq<map<string, Json>>, Exception>)
      reads this
      ensures SharedContext(data).Err? ==> r.Err?
      ensures (SharedContext(data).Ok? && ReachObjective(at, data) == Ok(Null)) ==> r == Err(NoContent)
      ensures r.Ok? ==> SharedContext(data).Ok? && ReachObjective(at, data).Ok? && Nodes(ReachObjective(at, data).value).Ok?
      ensures r.Ok? ==> var nodes := Nodes(ReachObjective(at, data).value).value;
                        |r.value| == |nodes| &&
                        forall i :: 0 <= i < |nodes| ==> RecordOf(SharedContext(data).value, objective, nodes[i]) == Ok(r.value[i])
    {
      var shared := SharedContext(data);
      if shared.Err? then Err(shared.error)
      else
        var found := ReachObjective(at, data);
        if found.Err? then Err(found.error)
        else
          var nodes := Nodes(found.value);
          if nodes.Err? then Err(nodes.error)
          else Records(shared.value, objective, nodes.value)
    }
  }

  /** What loading has produced so far. */
  datatype Loaded = Loaded(at: Json, context: map<string, Json>, objective: map<string, Json>)

  /** One iteration of `load_objective`'s loop. */
  function LoadKey(state: Loaded, k: string, value: Json): Loaded
  {
    if k == "@" then state.(at := value)
    else if IsContextKey(k) then state.(context := state.context[k[1..] := value])
    else state.(objective := state.objective[k := value])
  }

  /** The state once the keys in `done` have been loaded into `start`. */
  function LoadedAfter(fields: map<string, Json>, done: set<string>, start: Loaded): Loaded
  {
    Loaded(if "@" in done && "@" in fields then fields["@"] else start.at,
           start.context + ContextPart(fields, done),
           start.objective + ObjectivePart(fields, done))
  }

  /** The loop of `load_objective`: the keys are taken in whatever order
      the dict yields them, and every order gives the same state. */
  method LoadAll(fields: map<string, Json>, start: Loaded) returns (state: Loaded)
    ensures state == LoadedAfter(fields, fields.Keys, start)
  {
    state := start;
    var rest := fields.Keys;
    ghost var done: set<string> := {};
    LoadedNothing(fields, start);
    while rest != {}
      invariant rest + done == fields.Keys && rest !! done
      invariant state == LoadedAfter(fields, done, start)
      decreases |rest|
    {
      var k :| k in rest;
      LoadStep(fields, done, start, k);
      state := LoadKey(state, k, fields[k]);
      rest := rest - {k};
      done := done + {k};
    }
  }

  /** Before the loop nothing has been loaded. */
  lemma LoadedNothing(fields: map<string, Json>, start: Loaded)
    ensures LoadedAfter(fields, {}, start) == start
  {
    assert ContextPart(fields, {}) == map[];
    assert ObjectivePart(fields, {}) == map[];
    assert start.context + map[] == start.context;
    assert start.objective + map[] == start.objective;
  }

  /** Loading one more key is one iteration of the loop, whichever key it
      is: the result does not depend on the order of the keys. */
  lemma LoadStep(fields: map<string, Json>, done: set<string>, start: Loaded, k: string)
    requires k in fields && k !in done
    ensures LoadedAfter(fields, done + {k}, start) == LoadKey(LoadedAfter(fields, done, start), k, fields[k])
  {
    var before := LoadedAfter(fields, done, start);
    var after := LoadedAfter(fields, done + {k}, start);
    if IsContextKey(k) {
      ContextStep(fields, done, k);
      OtherKeyStep(fields, done, k);
      MergeUpdate(start.context, ContextPart(fields, done), k[1..], fields[k]);
      assert after.at == before.at;
      assert after.context == before.context[k[1..] := fields[k]];
      assert after.objective == before.objective;
    } else if k == "@" {
      NonKeyStep(fields, done, k);
      assert after.context == before.context;
      assert after.objective == before.objective;
    } else {
      NonKeyStep(fields, done, k);
      MergeUpdate(start.objective, ObjectivePart(fields, done), k, fields[k]);
      assert after.at == before.at;
      assert after.context == before.context;
      assert after.objective == before.objective[k := fields[k]];
    }
  }

  lemma MergeUpdate<K, V>(m: map<K, V>, y: map<K, V>, key: K, value: V)
    ensures (m + y)[key := value] == m + y[key := value]
  {
  }

  /** Adding a "#name" key adds one context entry. */
  lemma ContextStep(fields: map<string, Json>, done: set<string>, k: string)
    requires k in fields && IsContextKey(k)
    ensures |k| > 0 && ContextPart(fields, done + {k}) == ContextPart(fields, done)[k[1..] := fields[k]]
  {
    var name := k[1..];
    assert k == "#" + name;
    var a := ContextPart(fields, done + {k});
    var b := ContextPart(fields, done)[name := fields[k]];
    forall n ensures n in a <==> n in b {
      HashPrefixed(n);
    }
    assert a == b;
  }

  /** Adding a "#"-prefixed key leaves the objective part as it is. */
  lemma OtherKeyStep(fields: map<string, Json>, done: set<string>, k: string)
    requires k in fields && IsContextKey(k)
    ensures ObjectivePart(fields, done + {k}) == ObjectivePart(fields, done)
  {
  }

  /** Adding a key that is not "#"-prefixed leaves the context part as it
      is and, unless it is "@", adds one objective entry. */
  lemma NonKeyStep(fields: map<string, Json>, done: set<string>, k: string)
    requires k in fields && !IsContextKey(k)
    ensures ContextPart(fields, done + {k}) == ContextPart(fields, done)
    ensures ObjectivePart(fields, done + {k}) == (if k == "@" then ObjectivePart(fields, done) else ObjectivePart(fields, done)[k := fields[k]])
  {
    forall name ensures "#" + name != k {
      HashPrefixed(name);
    }
  }

  lemma HashPrefixed(name: string)
    ensures IsContextKey("#" + name) && ("#" + name)[1..] == name
  {
  }

  /** Every key of an objective lands somewhere: it is "@", a field of the
      objective, or a context entry under its name without the "#". */
  lemma SplitCoversKeys(fields: map<string, Json>)
    ensures forall k :: k in fields ==>
              k == "@" || k in ObjectivePart(fields, fields.Keys) ||
              (IsContextKey(k) && k[1..] in ContextPart(fields, fields.Keys))
  {
    forall k | k in fields && k != "@" && IsContextKey(k)
      ensures k[1..] in ContextPart(fields, fields.Keys)
    {
      assert "#" + k[1..] == k;
    }
  }
}
