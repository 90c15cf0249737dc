// datagrowth/utils/data.py: `reach`, the path navigation every extractor and
// document template relies on, `override_dict` (also core/utils/helpers.py)
// and `is_json_mimetype`.

module DataUtils {
  import opened Wrappers
  import opened Exceptions
  import opened Text
  import opened Json

  // ------------------------------------------------------------------ reach

  /** Looking one path part up in a value: a part of digits is an index
      (lists, and strings, which Python indexes by character), any other part
      a key (objects). None stands for the IndexError, KeyError or TypeError
      the lookup raises, which `reach` catches. */
  function Step(data: Json, part: string): (r: Option<Json>)
    ensures r.Some? && IsDigits(part) ==> data.List? || data.Str?
    ensures r.Some? && !IsDigits(part) ==> data.Dict? && part in data.fields && r.value == data.fields[part]
  {
    if IsDigits(part) then
      var n := DigitsValue(part);
      match data
      case List(items) => if n < |items| then Some(items[n]) else None
      case Str(s) => if n < |s| then Some(Str([s[n]])) else None
      case _ => None
    else
      match data
      case Dict(fields) => if part in fields then Some(fields[part]) else None
      case _ => None
  }

  /** The value the parts lead to from `data`, None when a lookup fails. */
  function Walk(data: Json, parts: seq<string>): Option<Json>
    decreases |parts|
  {
    if parts == [] then Some(data)
    else
      match Step(data, parts[0])
      case None => None
      case Some(next) => Walk(next, parts[1..])
  }

  /** Walking a path in two pieces is walking the first and then the second
      from where the first ended. */
  lemma {:induction false} WalkConcat(data: Json, a: seq<string>, b: seq<string>)
    ensures Walk(data, a + b) == match Walk(data, a) case None => None case Some(x) => Walk(x, b)
    decreases |a|
  {
    if a != [] {
      assert (a + b)[1..] == a[1..] + b && (a + b)[0] == a[0];
      match Step(data, a[0])
      case None =>
      case Some(next) => WalkConcat(next, a[1..], b);
    } else {
      assert a + b == b;
    }
  }

  /** The last resort of `reach` as written: the whole remainder of the path
      as one key. `path in root` is a key test for objects but a membership
      test for lists, so a list root whose elements include the key itself
      has the key used as index or subscript, which raises. */
  function FallbackAsWritten(root: Json, path: string, defaultValue: Json): Result<Json, Exception>
  {
    if IsDigits(path) then
      var n := DigitsValue(path);
      match root
      case List(items) =>
        if ListContains(items, Int(n)) then (if n < |items| then Ok(items[n]) else Err(IndexError))
        else Ok(defaultValue)
      case _ => Ok(defaultValue)
    else
      match root
      case Dict(fields) => Ok(if path in fields then fields[path] else defaultValue)
      case List(items) => if ListContains(items, Str(path)) then Err(TypeError) else Ok(defaultValue)
      case _ => Ok(defaultValue)
  }

  /** On a list holding the number 5, `reach("$.5", ...)` raises IndexError
      instead of returning the default. */
  lemma FallbackAsWrittenRaises()
    ensures FallbackAsWritten(List([Int(5)]), "5", Null) == Err(IndexError)
    ensures FallbackAsWritten(List([Str("a")]), "a", Null) == Err(TypeError)
  {
    assert DigitsValue("5") == 5 by { assert "5"[..0] == ""; }
    assert PyEquals(List([Int(5)]).items[0], Int(5));
    assert PyEquals(List([Str("a")]).items[0], Str("a"));
  }

  /** The last resort as intended: an existing key or index gives its value,
      anything else the default. It never raises. */
  function Fallback(root: Json, path: string, defaultValue: Json): (r: Json)
    ensures root.Dict? && !IsDigits(path) && path in root.fields ==> r == root.fields[path]
    ensures root.List? && IsDigits(path) && DigitsValue(path) < |root.items| ==> r == root.items[DigitsValue(path)]
    ensures r != defaultValue ==> (root.Dict? && path in root.fields) || (root.List? && IsDigits(path))
  {
    if IsDigits(path) then
      match root
      case List(items) => if DigitsValue(path) < |items| then items[DigitsValue(path)] else defaultValue
      case _ => defaultValue
    else
      match root
      case Dict(fields) => if path in fields then fields[path] else defaultValue
      case _ => defaultValue
  }

  /** The two agree wherever the one as written does not raise, and always
      on objects. */
  lemma FallbackAgrees(root: Json, path: string, defaultValue: Json)
    ensures FallbackAsWritten(root, path, defaultValue).Ok? ==>
      FallbackAsWritten(root, path, defaultValue).value == Fallback(root, path, defaultValue)
      || (root.List? && IsDigits(path) && !ListContains(root.items, Int(DigitsValue(path))))
    ensures root.Dict? ==> FallbackAsWritten(root, path, defaultValue) == Ok(Fallback(root, path, defaultValue))
  {
  }

  /** A well-formed path: "$" followed by a dot and at least one character. */
  predicate ValidPath(p: string)
  {
    StartsWith(p, "$.") && |p| >= 3
  }

  /** The `default_factory` argument of `reach`: none, a callable with the
      value it produces, or something that cannot be called, truthy or not. */
  datatype Factory = NoFactory | Callable(produces: Json) | NotCallable(truthy: bool)

  /** What `reach(path, data, default, default_factory)` returns or raises,
      with the intended last resort (`Fallback`) in place of the one as
      written. */
  function ReachSpec(path: Option<string>, data: Json, default: Json, factory: Factory): (r: Result<Json, Exception>)
    ensures path == None || path == Some("$") ==> r == Ok(data)
    ensures path.Some? && path.value != "$" && !ValidPath(path.value) ==> r == Err(ValueError)
    ensures path.Some? && ValidPath(path.value) && !data.Dict? && !data.List? ==> r == Err(TypeError)
    ensures path.Some? && ValidPath(path.value) && (data.Dict? || data.List?) && default != Null && !factory.NoFactory? ==> r == Err(ValueError)
    ensures path.Some? && ValidPath(path.value) && (data.Dict? || data.List?) && default == Null && factory == NotCallable(true) ==> r == Err(TypeError)
    ensures path.Some? && ValidPath(path.value) && (data.Dict? || data.List?) && (default == Null || factory.NoFactory?) && factory != NotCallable(true) ==>
              r == match Walk(data, Split(path.value[2..], '.'))
                   case Some(v) => Ok(v)
                   case None => if factory.NotCallable? then Err(TypeError) else Ok(Fallback(data, path.value[2..], if factory.Callable? then factory.produces else default))
    ensures r.Err? ==> r.error in {ValueError, TypeError}
  {
    match path
    case None => Ok(data)
    case Some(p) =>
      if p == "$" then Ok(data)
      else if !ValidPath(p) then Err(ValueError)
      else if !data.Dict? && !data.List? then Err(TypeError)
      else if default != Null && !factory.NoFactory? then Err(ValueError)
      else if factory == NotCallable(true) then Err(TypeError)
      else
        match Walk(data, Split(p[2..], '.'))
        case Some(v) => Ok(v)
        case None =>
          if factory.NotCallable? then Err(TypeError)
          else Ok(Fallback(data, p[2..], if factory.Callable? then factory.produces else default))
  }

  /** `reach`: the loop walks the parts of the path, stopping at the first
      lookup that fails. */
  method Reach(path: Option<string>, data: Json, default: Json, factory: Factory) returns (r: Result<Json, Exception>)
    ensures r == ReachSpec(path, data, default, factory)
  {
    if path == Some("$") || path == None {
      return Ok(data);
    }
    var p := path.value;
    if !ValidPath(p) {
      return Err(ValueError);
    }
    if !data.Dict? && !data.List? {
      return Err(TypeError);
    }
    if default != Null && !factory.NoFactory? {
      return Err(ValueError);
    }
    if factory == NotCallable(true) {
      return Err(TypeError);
    }
    var parts := Split(p[2..], '.');
    var current, i, failed := data, 0, false;
    while i < |parts| && !failed
      invariant 0 <= i <= |parts|
      invariant !failed ==> Walk(data, parts) == Walk(current, parts[i..])
      invariant failed ==> Walk(data, parts) == None
      decreases |parts| - i
    {
      assert parts[i..][1..] == parts[i + 1..];
      var next := Step(current, parts[i]);
      if next.None? {
        failed := true;
      } else {
        current := next.value;
      }
      i := i + 1;
    }
    if !failed {
      assert parts[i..] == [];
      return Ok(current);
    }
    if factory.NotCallable? {
      return Err(TypeError);
    }
    var defaultValue := if factory.Callable? then factory.produces else default;
    r := Ok(Fallback(data, p[2..], defaultValue));
  }

  lemma SplitSingle(k: string, c: char)
    requires c !in k
    ensures Split(k, c) == [k]
  {
  }

  /** `reach("$.key", obj)` for a key without dots that is not a number is
      the key's value, or the default when the key is absent. */
  lemma ReachKey(fields: map<string, Json>, key: string, default: Json)
    requires |key| > 0 && '.' !in key && !IsDigits(key)
    ensures ReachSpec(Some("$." + key), Dict(fields), default, NoFactory)
      == Ok(if key in fields then fields[key] else default)
  {
    var p := "$." + key;
    assert p[2..] == key;
    assert StartsWith(p, "$.");
    SplitSingle(key, '.');
    assert [key][1..] == [];
    assert Walk(Dict(fields), [key]) == Step(Dict(fields), key);
    assert ValidPath(p);
    assert Split(p[2..], '.') == [key];
  }

  /** `reach("$.n", list)` for an index in range is that element. */
  lemma ReachIndex(items: seq<Json>, n: nat, default: Json)
    requires n < |items|
    ensures ReachSpec(Some("$." + NatToString(n)), List(items), default, NoFactory) == Ok(items[n])
  {
    var key := NatToString(n);
    var p := "$." + key;
    assert p[2..] == key;
    assert StartsWith(p, "$.");
    NatToStringRoundTrip(n);
    assert forall k :: 0 <= k < |key| ==> IsDigit(key[k]);
    SplitSingle(key, '.');
    assert [key][1..] == [];
    assert Walk(List(items), [key]) == Step(List(items), key);
    assert ValidPath(p);
    assert Split(p[2..], '.') == [key];
  }

  /** A dotted key that the walk cannot follow is looked up as one key: the
      `"$.dotted.key"` case. */
  lemma ReachDottedKey(fields: map<string, Json>, key: string, default: Json)
    requires |key| > 0 && !IsDigits(key) && key in fields
    requires Walk(Dict(fields), Split(key, '.')) == None
    ensures ReachSpec(Some("$." + key), Dict(fields), default, NoFactory) == Ok(fields[key])
  {
    var p := "$." + key;
    assert p[2..] == key;
    assert StartsWith(p, "$.");
  }

  /** Following a path of several parts is following one part after the
      other: `reach("$.a.b", d)` is `b` looked up in what `$.a` gives. */
  lemma ReachNested(data: Json, a: string, b: string, default: Json)
    requires |a| > 0 && |b| > 0 && '.' !in a && '.' !in b
    requires data.Dict? || data.List?
    requires Step(data, a).Some? && Step(Step(data, a).value, b).Some?
    ensures ReachSpec(Some("$." + a + "." + b), data, default, NoFactory) == Ok(Step(Step(data, a).value, b).value)
  {
    var p := "$." + a + "." + b;
    assert p[2..] == a + "." + b;
    assert StartsWith(p, "$.");
    var rest := a + "." + b;
    assert rest[|a|] == '.' && '.' !in rest[..|a|] by { assert rest[..|a|] == a; }
    assert IndexOf(rest, '.') == |a| by {
      IndexOfFirst(rest, '.', |a|);
    }
    assert rest[..|a|] == a && rest[|a| + 1..] == b;
    SplitSingle(b, '.');
    assert Split(rest, '.') == [a, b];
    WalkConcat(data, [a], [b]);
    assert [a] + [b] == [a, b];
  }

  lemma IndexOfFirst(s: string, c: char, i: nat)
    requires i < |s| && s[i] == c && c !in s[..i]
    ensures IndexOf(s, c) == i
  {
  }

  // ---------------------------------------------------------- override_dict

  /** `override_dict(parent, child)`: a new object with the keys of both,
      the child's value winning; anything but two objects fails the
      assertions. */
  function OverrideDict(parent: Json, child: Json): (r: Result<Json, Exception>)
    ensures r.Err? <==> !parent.Dict? || !child.Dict?
    ensures r.Err? ==> r.error == AssertionError
    ensures r.Ok? ==> (r.value.Dict?
      && r.value.fields.Keys == parent.fields.Keys + child.fields.Keys
      && (forall k :: k in child.fields ==> r.value.fields[k] == child.fields[k])
      && (forall k :: k in parent.fields && k !in child.fields ==> r.value.fields[k] == parent.fields[k]))
  {
    if !parent.Dict? || !child.Dict? then Err(AssertionError)
    else Ok(Dict(parent.fields + child.fields))
  }

  /** Overriding twice with the same child changes nothing more, and an
      empty child gives back the parent. */
  lemma OverrideDictIdempotent(parent: Json, child: Json)
    requires parent.Dict? && child.Dict?
    ensures OverrideDict(OverrideDict(parent, child).value, child) == OverrideDict(parent, child)
    ensures OverrideDict(parent, Dict(map[])) == Ok(parent)
  {
    var once := OverrideDict(parent, child).value;
    assert once.fields + child.fields == once.fields;
    assert parent.fields + map[] == parent.fields;
  }

  /** Overriding with `b` then with `c` is overriding once with `b`
      overridden by `c`. */
  lemma OverrideDictCompose(a: Json, b: Json, c: Json)
    requires a.Dict? && b.Dict? && c.Dict?
    ensures OverrideDict(OverrideDict(a, b).value, c) == OverrideDict(a, OverrideDict(b, c).value)
  {
    assert (a.fields + b.fields) + c.fields == a.fields + (b.fields + c.fields);
  }

  // ------------------------------------------------------- is_json_mimetype

  /** `re.match("application/(.*)json", mimetype)` succeeds: the type starts
      with "application/" and "json" follows after a stretch without line
      breaks. */
  predicate IsJsonMimetype(mimetype: string)
  {
    StartsWith(mimetype, "application/")
    && exists i: nat :: 12 <= i <= |mimetype| && OccursAt(mimetype, "json", i) && '\n' !in mimetype[12..i]
  }

  /** A left-to-right scan for "json" from position `i`, giving up at a line
      break: how the regular expression engine finds the match. */
  function ScanJson(s: string, i: nat): bool
    requires i <= |s|
    decreases |s| - i
  {
    if OccursAt(s, "json", i) then true
    else if i == |s| || s[i] == '\n' then false
    else ScanJson(s, i + 1)
  }

  lemma {:induction false} ScanJsonFinds(s: string, i: nat)
    requires 12 <= i <= |s| && '\n' !in s[12..i]
    ensures ScanJson(s, i) <==> exists j: nat :: i <= j <= |s| && OccursAt(s, "json", j) && '\n' !in s[12..j]
    decreases |s| - i
  {
    if OccursAt(s, "json", i) {
    } else if i == |s| {
    } else if s[i] == '\n' {
      forall j: nat | i < j && OccursAt(s, "json", j) ensures '\n' in s[12..j] {
        assert s[12..j][i - 12] == '\n';
      }
    } else {
      assert s[12..i + 1] == s[12..i] + [s[i]];
      ScanJsonFinds(s, i + 1);
      forall j: nat | i < j <= |s| && '\n' !in s[12..j] ensures '\n' !in s[12..i + 1] {
        assert s[12..i + 1] == s[12..j][..i + 1 - 12];
      }
    }
  }

  /** `is_json_mimetype`: the scan agrees with the pattern. */
  method JsonMimetype(mimetype: string) returns (r: bool)
    ensures r <==> IsJsonMimetype(mimetype)
  {
    if !StartsWith(mimetype, "application/") {
      return false;
    }
    ScanJsonFinds(mimetype, 12);
    r := ScanJson(mimetype, 12);
  }

  /** The vendor JSON types are JSON, HTML and PDF are not. */
  lemma JsonMimetypeExamples()
    ensures IsJsonMimetype("application/json")
    ensures IsJsonMimetype("application/vnd.api+json")
    ensures !IsJsonMimetype("text/html")
    ensures !IsJsonMimetype("application/pdf")
  {
    assert OccursAt("application/json", "json", 12);
    assert OccursAt("application/vnd.api+json", "json", 20);
    assert "application/vnd.api+json"[12..20] == "vnd.api+";
    assert !StartsWith("text/html", "application/");
    var pdf := "application/pdf";
    forall i: nat | 12 <= i ensures !OccursAt(pdf, "json", i) {
    }
  }
}
