// DocumentBase and CollectionBase of datagrowth/datatypes/documents/db/:
// a document is a JSON object of properties with an identity and a
// reference; a collection holds documents, sets their identity and
// reference from a property when they are cleaned, groups them on a key and
// renders templates against their content. The database, the task
// invalidation of pipelines and the random split of a collection are not
// modelled.

module Documents {
  import opened Wrappers
  import opened Exceptions
  import opened Text
  import opened Json
  import opened DataUtils

  // ---------------------------------------------------------------- content

  /** A property whose key starts with an underscore is private. */
  predicate IsPrivateKey(k: string)
  {
    |k| > 0 && k[0] == '_'
  }

  /** `content`: the public properties, with the document's id under
      "_id". */
  function ContentOf(properties: map<string, Json>, id: Json): (r: map<string, Json>)
    ensures "_id" in r && r["_id"] == id
    ensures forall k :: k in r ==> k == "_id" || (k in properties && !IsPrivateKey(k) && r[k] == properties[k])
    ensures forall k :: k in properties && !IsPrivateKey(k) ==> k in r && r[k] == properties[k]
  {
    (map k | k in properties && !IsPrivateKey(k) :: properties[k])["_id" := id]
  }

  // ------------------------------------------------------ output templates

  /** The character that marks a path in a template, by default. */
  const DefaultReplacement := "$"

  /** `output_from_content` for one template value: a falsy value is given
      back as it is; a string that starts with the replacement marker is a
      path, read from the content with the marker taken for "$"; a list of
      several values becomes the list of their outputs and a list of one
      the one-element list of its output; a dict keeps its keys with every
      value rendered; a string that starts with a backslash loses that
      backslash; anything else passes through. Only reading a path can
      fail. */
  function OutputValue(content: Json, frm: Json, rpl: string): (r: Result<Json, Exception>)
    ensures !Truthy(frm) ==> r == Ok(frm)
    ensures r.Err? ==> r.error in {ValueError, TypeError}
    ensures r.Ok? && Truthy(frm) && frm.List? ==> r.value.List? && (|frm.items| == 1 ==> |r.value.items| == 1) && (|frm.items| > 1 ==> |r.value.items| == |frm.items|)
    ensures r.Ok? && frm.Dict? ==> r.value.Dict? && r.value.fields.Keys == frm.fields.Keys
    decreases frm, 1
  {
    if !Truthy(frm) then Ok(frm)
    else
      match frm
      case Str(s) =>
        if StartsWith(s, rpl) then ReachSpec(Some("$" + s[|rpl|..]), content, Null, NoFactory)
        else if StartsWith(s, "\\") then Ok(Str(s[1..]))
        else Ok(frm)
      case List(items) =>
        if |items| > 1 then
          var outs := OutputEach(content, items, rpl, frm);
          if outs.Err? then Err(outs.error) else Ok(List(outs.value))
        else
          var out := OutputValue(content, items[0], rpl);
          if out.Err? then out else Ok(List([out.value]))
      case Dict(fields) =>
        var keys := KeyOrder(fields.Keys);
        var outs := OutputFields(content, fields, keys, rpl);
        if outs.Err? then Err(outs.error) else Ok(Dict(outs.value))
      case _ => Ok(frm)
  }

  /** The outputs of several template values, one after the other; the
      first that fails is the error. */
  function OutputEach(content: Json, args: seq<Json>, rpl: string, ghost parent: Json): (r: Result<seq<Json>, Exception>)
    requires forall i :: 0 <= i < |args| ==> args[i] < parent
    ensures r.Ok? <==> forall i :: 0 <= i < |args| ==> OutputValue(content, args[i], rpl).Ok?
    ensures r.Ok? ==> |r.value| == |args| && forall i :: 0 <= i < |args| ==> r.value[i] == OutputValue(content, args[i], rpl).value
    ensures r.Err? ==> r.error in {ValueError, TypeError}
    decreases parent, 0, |args|
  {
    if |args| == 0 then Ok([])
    else
      var head := OutputValue(content, args[0], rpl);
      if head.Err? then Err(head.error)
      else
        var tail := OutputEach(content, args[1..], rpl, parent);
        if tail.Err? then Err(tail.error) else Ok([head.value] + tail.value)
  }

  /** The rendered values of a dict, key by key in `keys`. */
  function OutputFields(content: Json, fields: map<string, Json>, keys: seq<string>, rpl: string): (r: Result<map<string, Json>, Exception>)
    requires forall k :: k in keys ==> k in fields
    ensures r.Ok? <==> forall k :: k in keys ==> OutputValue(content, fields[k], rpl).Ok?
    ensures r.Ok? ==> (forall k :: k in r.value <==> k in keys) &&
                      forall k :: k in r.value ==> r.value[k] == OutputValue(content, fields[k], rpl).value
    ensures r.Err? ==> r.error in {ValueError, TypeError}
    decreases Dict(fields), 0, |keys|
  {
    if |keys| == 0 then Ok(map[])
    else
      var head := OutputValue(content, fields[keys[0]], rpl);
      if head.Err? then Err(head.error)
      else
        var tail := OutputFields(content, fields, keys[1..], rpl);
        if tail.Err? then Err(tail.error) else Ok(tail.value[keys[0] := head.value])
  }

  /** `output_from_content(content, *args, replacement_character=rpl)`: a
      backslash cannot be the marker, there must be a template, and several
      templates give the list of their outputs. */
  function OutputFrom(content: Json, args: seq<Json>, rpl: string): (r: Result<Json, Exception>)
    ensures rpl == "\\" ==> r == Err(AssertionError)
    ensures rpl != "\\" && |args| == 0 ==> r == Err(IndexError)
    ensures rpl != "\\" && |args| == 1 ==> r == OutputValue(content, args[0], rpl)
    ensures rpl != "\\" && |args| > 1 ==>
              (r.Ok? <==> forall i :: 0 <= i < |args| ==> OutputValue(content, args[i], rpl).Ok?) &&
              (r.Ok? ==> r.value.List? && |r.value.items| == |args| &&
                         forall i :: 0 <= i < |args| ==> r.value.items[i] == OutputValue(content, args[i], rpl).value)
  {
    if rpl == "\\" then Err(AssertionError)
    else if |args| == 0 then Err(IndexError)
    else if |args| > 1 then
      var outs := OutputEach(content, args, rpl, List(args));
      if outs.Err? then Err(outs.error) else Ok(List(outs.value))
    else OutputValue(content, args[0], rpl)
  }

  /** A template without markers: no string in it starts with the
      replacement marker or with a backslash. */
  predicate Unmarked(v: Json, rpl: string)
  {
    match v
    case Str(s) => |s| == 0 || (!StartsWith(s, rpl) && !StartsWith(s, "\\"))
    case List(items) => forall i :: 0 <= i < |items| ==> Unmarked(items[i], rpl)
    case Dict(fields) => forall k :: k in fields ==> Unmarked(fields[k], rpl)
    case _ => true
  }

  /** A list whose templates render as themselves renders as itself. */
  lemma FixedList(content: Json, items: seq<Json>, rpl: string)
    requires |items| > 0
    requires forall i :: 0 <= i < |items| ==> OutputValue(content, items[i], rpl) == Ok(items[i])
    ensures OutputValue(content, List(items), rpl) == Ok(List(items))
  {
    if |items| > 1 {
      var outs := OutputEach(content, items, rpl, List(items));
      assert outs.value == items;
    } else {
      assert [items[0]] == items;
    }
  }

  /** The values of a dict that render as themselves, rendered key by key,
      give the dict restricted to those keys. */
  lemma {:induction false} FixedFields(content: Json, fields: map<string, Json>, keys: seq<string>, rpl: string)
    requires forall k :: k in keys ==> k in fields
    requires forall k :: k in fields ==> OutputValue(content, fields[k], rpl) == Ok(fields[k])
    ensures OutputFields(content, fields, keys, rpl) == Ok(map k | k in keys :: fields[k])
  {
    if |keys| > 0 {
      FixedFields(content, fields, keys[1..], rpl);
      RestrictPush(fields, keys);
    }
  }

  lemma RestrictPush(fields: map<string, Json>, keys: seq<string>)
    requires |keys| > 0 && forall k :: k in keys ==> k in fields
    ensures (map k | k in keys[1..] :: fields[k])[keys[0] := fields[keys[0]]] == map k | k in keys :: fields[k]
  {
    assert forall k :: k in keys <==> k == keys[0] || k in keys[1..];
  }

  /** A dict whose values render as themselves renders as itself. */
  lemma FixedDict(content: Json, fields: map<string, Json>, rpl: string)
    requires |fields| > 0
    requires forall k :: k in fields ==> OutputValue(content, fields[k], rpl) == Ok(fields[k])
    ensures OutputValue(content, Dict(fields), rpl) == Ok(Dict(fields))
  {
    var keys := KeyOrder(fields.Keys);
    FixedFields(content, fields, keys, rpl);
    AllKeys(fields, keys);
    OutputDict(content, fields, rpl);
  }

  lemma AllKeys(fields: map<string, Json>, keys: seq<string>)
    requires forall k :: k in keys <==> k in fields
    ensures (map k | k in keys :: fields[k]) == fields
  {
  }

  /** A non-empty dict renders as its fields rendered in key order. */
  lemma OutputDict(content: Json, fields: map<string, Json>, rpl: string)
    requires |fields| > 0
    ensures var outs := OutputFields(content, fields, KeyOrder(fields.Keys), rpl);
            OutputValue(content, Dict(fields), rpl) == if outs.Err? then Err(outs.error) else Ok(Dict(outs.value))
  {
  }

  /** A template without markers renders as itself, whatever the content:
      only the markers make output differ from its template. */
  lemma {:induction false} UnmarkedUnchanged(content: Json, v: Json, rpl: string)
    requires Unmarked(v, rpl)
    ensures OutputValue(content, v, rpl) == Ok(v)
    decreases v
  {
    if Truthy(v) {
      match v
      case List(items) =>
        forall i | 0 <= i < |items| ensures OutputValue(content, items[i], rpl) == Ok(items[i]) {
          UnmarkedUnchanged(content, items[i], rpl);
        }
        FixedList(content, items, rpl);
      case Dict(fields) =>
        forall k | k in fields ensures OutputValue(content, fields[k], rpl) == Ok(fields[k]) {
          UnmarkedUnchanged(content, fields[k], rpl);
        }
        FixedDict(content, fields, rpl);
      case _ =>
    }
  }

  /** A "$.key" template on a document's content reads that property (the
      "$._id" template reads the id). */
  lemma PathReadsProperty(properties: map<string, Json>, id: Json, key: string)
    requires |key| > 0 && '.' !in key && !IsDigits(key)
    ensures var content := ContentOf(properties, id);
            OutputFrom(Dict(content), [Str("$." + key)], DefaultReplacement)
              == Ok(if key in content then content[key] else Null)
  {
    var content := ContentOf(properties, id);
    var s := "$." + key;
    assert StartsWith(s, "$");
    assert "$" + s[1..] == s;
    ReachKey(content, key, Null);
  }

  // ---------------------------------------------------------- identity

  /** The `max_length` of the identity field. */
  const IdentityMaxLength := 255

  /** `clean`'s integrity check: a string identity longer than the field
      allows is cut to the field's length; any other identity stays. */
  function TruncateIdentity(identity: Json): (r: Json)
    ensures r.Str? <==> identity.Str?
    ensures !identity.Str? ==> r == identity
    ensures r.Str? ==> |r.s| == if |identity.s| > IdentityMaxLength then IdentityMaxLength else |identity.s|
    ensures r.Str? ==> r.s == identity.s[..|r.s|]
  {
    if identity.Str? && |identity.s| > IdentityMaxLength then Str(identity.s[..IdentityMaxLength]) else identity
  }

  /** Cleaning twice cuts nothing more. */
  lemma TruncateIdempotent(identity: Json)
    ensures TruncateIdentity(TruncateIdentity(identity)) == TruncateIdentity(identity)
  {
  }

  /** What `reach("$." + name, properties)` gives, the way `influence`
      calls it: without a default, which is None. */
  function Reached(name: string, properties: map<string, Json>): (r: Json)
    requires |name| > 0
    ensures '.' !in name && !IsDigits(name) ==> r == if name in properties then properties[name] else Null
  {
    ReachSucceeds(name, properties);
    ReachSpec(Some("$." + name), Dict(properties), Null, NoFactory).value
  }

  /** Reading a property path never raises: the path is well formed and
      the properties are an object. */
  lemma ReachSucceeds(name: string, properties: map<string, Json>)
    requires |name| > 0
    ensures ReachSpec(Some("$." + name), Dict(properties), Null, NoFactory).Ok?
    ensures '.' !in name && !IsDigits(name) ==>
              ReachSpec(Some("$." + name), Dict(properties), Null, NoFactory).value == if name in properties then properties[name] else Null
  {
    assert ValidPath("$." + name) by { assert ("$." + name)[..2] == "$."; }
    if '.' !in name && !IsDigits(name) {
      ReachKey(properties, name, Null);
    }
  }

  // ---------------------------------------------------------- split

  /** The assertions at the top of `split`: the three shares add up to one
      and the train and validation shares are positive. */
  function SplitShares(train: real, validate: real, test: real): (r: Result<bool, Exception>)
    ensures r.Ok? ==> r.value
    ensures r.Err? ==> r.error == AssertionError
    ensures r.Ok? <==> train + validate + test == 1.0 && train > 0.0 && validate > 0.0
  {
    if train + validate + test != 1.0 then Err(AssertionError)
    else if train <= 0.0 then Err(AssertionError)
    else if validate <= 0.0 then Err(AssertionError)
    else Ok(true)
  }

  /** Accepted shares leave room for the others: train and validation are
      each below the whole unless the test share is negative, and the
      defaults 0.8, 0.1 and 0.1 are accepted, as is a split without a test
      set. */
  lemma SplitSharesBounds(train: real, validate: real, test: real)
    requires SplitShares(train, validate, test).Ok?
    ensures test >= 0.0 ==> train < 1.0 && validate < 1.0
    ensures test < 1.0
    ensures SplitShares(0.8, 0.1, 0.1).Ok? && SplitShares(0.9, 0.1, 0.0).Ok?
  {
  }

  // -------------------------------------------------------- collections

  /** `Collection.output` for one template over the documents' contents, in
      document order: a falsy template once per document, a list of several
      templates rendered template by template and zipped per document, a
      list of one wrapped per document, anything else rendered by each
      document. What it gives per document is what that document's own
      output gives. */
  function CollectionValue(contents: seq<Json>, frm: Json): (r: Result<seq<Json>, Exception>)
    ensures r.Ok? <==> forall i :: 0 <= i < |contents| ==> OutputValue(contents[i], frm, DefaultReplacement).Ok?
    ensures r.Ok? ==> |r.value| == |contents| &&
                      forall i :: 0 <= i < |contents| ==> r.value[i] == OutputValue(contents[i], frm, DefaultReplacement).value
    decreases frm, 1
  {
    if !Truthy(frm) then Ok(seq(|contents|, _ => frm))
    else if frm.List? then
      var items := frm.items;
      if |items| > 1 then
        var outs := CollectionEach(contents, items, frm);
        if outs.Err? then Err(outs.error)
        else
          var zipped := seq(|contents|, i requires 0 <= i < |contents| => List(seq(|items|, j requires 0 <= j < |items| => outs.value[j][i])));
          ZippedAgrees(contents, items, outs.value, zipped);
          Ok(zipped)
      else
        var outs := CollectionValue(contents, items[0]);
        if outs.Err? then outs
        else Ok(seq(|contents|, i requires 0 <= i < |contents| => List([outs.value[i]])))
    else PerDocument(contents, frm)
  }

  /** The outputs of several templates over all documents, template by
      template. */
  function CollectionEach(contents: seq<Json>, args: seq<Json>, ghost parent: Json): (r: Result<seq<seq<Json>>, Exception>)
    requires forall j :: 0 <= j < |args| ==> args[j] < parent
    ensures r.Ok? <==> forall j, i :: 0 <= j < |args| && 0 <= i < |contents| ==> OutputValue(contents[i], args[j], DefaultReplacement).Ok?
    ensures r.Ok? ==> |r.value| == |args| &&
                      forall j :: 0 <= j < |args| ==> (|r.value[j]| == |contents| &&
                        forall i :: 0 <= i < |contents| ==> r.value[j][i] == OutputValue(contents[i], args[j], DefaultReplacement).value)
    decreases parent, 0, |args|
  {
    if |args| == 0 then Ok([])
    else
      var head := CollectionValue(contents, args[0]);
      if head.Err? then Err(head.error)
      else
        var tail := CollectionEach(contents, args[1..], parent);
        if tail.Err? then Err(tail.error) else Ok([head.value] + tail.value)
  }

  /** Zipping the per-template outputs gives, for each document, the list
      that document renders for the whole list of templates. */
  lemma ZippedAgrees(contents: seq<Json>, items: seq<Json>, outs: seq<seq<Json>>, zipped: seq<Json>)
    requires |items| > 1 && |outs| == |items| && |zipped| == |contents|
    requires forall j :: 0 <= j < |items| ==> (|outs[j]| == |contents| &&
               forall i :: 0 <= i < |contents| ==> (OutputValue(contents[i], items[j], DefaultReplacement).Ok? &&
                 outs[j][i] == OutputValue(contents[i], items[j], DefaultReplacement).value))
    requires forall i :: 0 <= i < |contents| ==> zipped[i] == List(seq(|items|, j requires 0 <= j < |items| => outs[j][i]))
    ensures forall i :: 0 <= i < |contents| ==>
              OutputValue(contents[i], List(items), DefaultReplacement).Ok? &&
              zipped[i] == OutputValue(contents[i], List(items), DefaultReplacement).value
  {
    forall i | 0 <= i < |contents|
      ensures OutputValue(contents[i], List(items), DefaultReplacement).Ok?
      ensures zipped[i] == OutputValue(contents[i], List(items), DefaultReplacement).value
    {
      var each := OutputEach(contents[i], items, DefaultReplacement, List(items));
      assert each.Ok?;
      assert each.value == seq(|items|, j requires 0 <= j < |items| => outs[j][i]);
    }
  }

  /** Every document renders the template itself, in document order. */
  function PerDocument(contents: seq<Json>, frm: Json): (r: Result<seq<Json>, Exception>)
    ensures r.Ok? <==> forall i :: 0 <= i < |contents| ==> OutputValue(contents[i], frm, DefaultReplacement).Ok?
    ensures r.Ok? ==> |r.value| == |contents| &&
                      forall i :: 0 <= i < |contents| ==> r.value[i] == OutputValue(contents[i], frm, DefaultReplacement).value
  {
    if |contents| == 0 then Ok([])
    else
      var head := OutputValue(contents[0], frm, DefaultReplacement);
      if head.Err? then Err(head.error)
      else
        var tail := PerDocument(contents[1..], frm);
        if tail.Err? then Err(tail.error) else Ok([head.value] + tail.value)
  }

  /** `Collection.output(*args)`: several templates give one list per
      template. */
  function CollectionOutput(contents: seq<Json>, args: seq<Json>): (r: Result<Json, Exception>)
    ensures |args| == 0 ==> r == Err(IndexError)
    ensures |args| == 1 ==> (r.Ok? <==> CollectionValue(contents, args[0]).Ok?) &&
                            (r.Ok? ==> r.value == List(CollectionValue(contents, args[0]).value))
    ensures |args| > 1 ==> (r.Ok? <==> CollectionEach(contents, args, List(args)).Ok?) &&
                           (r.Ok? ==> r.value.List? && |r.value.items| == |args| &&
                                      forall j :: 0 <= j < |args| ==> r.value.items[j] == List(CollectionEach(contents, args, List(args)).value[j]))
    ensures |args| > 1 && r.Ok? ==>
              forall j :: 0 <= j < |args| ==> (r.value.items[j].List? && |r.value.items[j].items| == |contents| &&
                forall i :: 0 <= i < |contents| ==> r.value.items[j].items[i] == OutputValue(contents[i], args[j], DefaultReplacement).value)
  {
    if |args| == 0 then Err(IndexError)
    else if |args| > 1 then
      var outs := CollectionEach(contents, args, List(args));
      if outs.Err? then Err(outs.error)
      else Ok(List(seq(|args|, j requires 0 <= j < |args| => List(outs.value[j]))))
    else
      var outs := CollectionValue(contents, args[0]);
      if outs.Err? then Err(outs.error) else Ok(List(outs.value))
  }

  // ------------------------------------------------------------ classes

  class Document {
    var properties: map<string, Json>
    var identity: Json
    var reference: Json
    /** The database id; Null until the document is saved. */
    const id: Json
    const collection: Option<Collection>

    constructor(properties: map<string, Json>, id: Json, collection: Option<Collection>)
      ensures this.properties == properties && this.id == id && this.collection == collection
      ensures identity == Null && reference == Null
    {
      this.properties := properties;
      this.id := id;
      this.collection := collection;
      identity := Null;
      reference := Null;
    }

    function Content(): (r: map<string, Json>)
      reads this
      ensures r == ContentOf(properties, id)
    {
      ContentOf(properties, id)
    }

    /** `output(*args)`: the templates rendered against the content. */
    function Output(args: seq<Json>): (r: Result<Json, Exception>)
      reads this
      ensures r == OutputFrom(Dict(ContentOf(properties, id)), args, DefaultReplacement)
    {
      OutputFrom(Dict(Content()), args, DefaultReplacement)
    }

    /** `clean`: the collection influences the document first, then an
        overlong identity is cut. */
    method Clean()
      modifies this
      ensures properties == old(properties)
      ensures var influenced :=
                if collection.Some? && collection.value.identifier != "" then Reached(collection.value.identifier, properties)
                else old(identity);
              identity == TruncateIdentity(influenced)
      ensures reference == if collection.Some? && collection.value.referee != "" then Reached(collection.value.referee, properties)
                           else old(reference)
    {
      if collection.Some? {
        collection.value.Influence(this);
      }
      identity := TruncateIdentity(identity);
    }

    /** `update(data)`: the new data overwrites the properties key by key,
        the document is cleaned and its content returned. */
    method Update(data: map<string, Json>) returns (content: map<string, Json>)
      modifies this
      ensures properties == old(properties) + data
      ensures forall k :: k in data ==> k in properties && properties[k] == data[k]
      ensures forall k :: k in old(properties) && k !in data ==> properties[k] == old(properties)[k]
      ensures var influenced :=
                if collection.Some? && collection.value.identifier != "" then Reached(collection.value.identifier, properties)
                else old(identity);
              identity == TruncateIdentity(influenced)
      ensures content == ContentOf(properties, id)
    {
      properties := properties + data;
      Clean();
      content := Content();
    }
  }

  /** `Document.build(data, collection)`: a new, cleaned document. */
  method Build(data: map<string, Json>, collection: Option<Collection>) returns (d: Document)
    ensures fresh(d) && d.properties == data && d.collection == collection && d.id == Null
    ensures d.identity == if collection.Some? && collection.value.identifier != "" then TruncateIdentity(Reached(collection.value.identifier, data)) else Null
    ensures d.reference == if collection.Some? && collection.value.referee != "" then Reached(collection.value.referee, data) else Null
  {
    d := new Document(data, Null, collection);
    d.Clean();
  }

  /** The grouping `group_by(key)` builds, document by document: a document
      without the key fails the assertion, and a list or dict value cannot
      be a dictionary key. */
  function Grouped(docs: seq<Document>, key: string): (r: Result<map<Json, seq<Document>>, Exception>)
    reads docs
    ensures r.Err? ==> r.error in {AssertionError, TypeError}
  {
    if |docs| == 0 then Ok(map[])
    else
      var prev := Grouped(docs[..|docs| - 1], key);
      var d := docs[|docs| - 1];
      if prev.Err? then prev
      else if key !in d.properties then Err(AssertionError)
      else
        var value := d.properties[key];
        if !Hashable(value) then Err(TypeError)
        else Ok(prev.value[value := (if value in prev.value then prev.value[value] else []) + [d]])
  }

  /** A document that can be grouped: it has the key, with a value that
      can be a dictionary key. */
  predicate Groupable(d: Document, key: string)
    reads d
  {
    key in d.properties && Hashable(d.properties[key])
  }

  /** Grouping succeeds exactly when every document can be grouped. */
  lemma {:induction false} GroupedSucceeds(docs: seq<Document>, key: string)
    ensures Grouped(docs, key).Ok? <==> forall i :: 0 <= i < |docs| ==> Groupable(docs[i], key)
  {
    if |docs| > 0 {
      var init := docs[..|docs| - 1];
      GroupedSucceeds(init, key);
      assert forall i :: 0 <= i < |init| ==> init[i] == docs[i];
    }
  }

  /** A successful grouping puts every document in the group of its own
      value. */
  lemma {:induction false} GroupedPlacesEach(docs: seq<Document>, key: string)
    requires Grouped(docs, key).Ok?
    ensures var r := Grouped(docs, key).value;
            forall i :: 0 <= i < |docs| ==> Groupable(docs[i], key) && docs[i].properties[key] in r && docs[i] in r[docs[i].properties[key]]
  {
    if |docs| > 0 {
      var init := docs[..|docs| - 1];
      GroupedPlacesEach(init, key);
      assert forall i :: 0 <= i < |init| ==> init[i] == docs[i];
    }
  }

  /** A successful grouping puts a document in no group but its own. */
  lemma {:induction false} GroupedOnlyOwn(docs: seq<Document>, key: string)
    requires Grouped(docs, key).Ok?
    ensures var r := Grouped(docs, key).value;
            forall v, d :: v in r && d in r[v] ==> d in docs && Groupable(d, key) && d.properties[key] == v
  {
    if |docs| > 0 {
      var init := docs[..|docs| - 1];
      GroupedOnlyOwn(init, key);
      assert forall d :: d in init ==> d in docs;
    }
  }

  /** Once a document fails, the grouping fails with its error whatever
      documents follow. */
  lemma {:induction false} GroupedFailureStays(docs: seq<Document>, n: nat, key: string)
    requires n <= |docs| && Grouped(docs[..n], key).Err?
    ensures Grouped(docs, key) == Grouped(docs[..n], key)
    decreases |docs| - n
  {
    if n < |docs| {
      assert docs[..n + 1][..n] == docs[..n];
      GroupedFailureStays(docs, n + 1, key);
    } else {
      assert docs[..n] == docs;
    }
  }

  class Collection {
    /** The property that gives a document its identity; "" (or None in
        the database) when there is none. */
    const identifier: string
    /** The property that gives a document its reference; "" when none. */
    const referee: string
    /** The documents of the collection, in id order. */
    var documents: seq<Document>

    constructor(identifier: string, referee: string, documents: seq<Document>)
      ensures this.identifier == identifier && this.referee == referee && this.documents == documents
    {
      this.identifier := identifier;
      this.referee := referee;
      this.documents := documents;
    }

    /** `influence(document)`: the identity and the reference come from the
        document's properties, each only when the collection names a
        property for it. */
    method Influence(document: Document)
      modifies document
      ensures document.properties == old(document.properties)
      ensures document.identity == if identifier != "" then Reached(identifier, document.properties) else old(document.identity)
      ensures document.reference == if referee != "" then Reached(referee, document.properties) else old(document.reference)
    {
      if identifier != "" {
        document.identity := Reached(identifier, document.properties);
      }
      if referee != "" {
        document.reference := Reached(referee, document.properties);
      }
    }

    /** The content of every document, in order. */
    function Contents(): (r: seq<Json>)
      reads this, documents
      ensures |r| == |documents| && forall i :: 0 <= i < |documents| ==> r[i] == Dict(ContentOf(documents[i].properties, documents[i].id))
    {
      seq(|documents|, i reads this, documents requires 0 <= i < |documents| => Dict(documents[i].Content()))
    }

    /** `output(*args)` over the documents' contents. */
    function Output(args: seq<Json>): (r: Result<Json, Exception>)
      reads this, documents
      ensures r == CollectionOutput(Contents(), args)
    {
      CollectionOutput(Contents(), args)
    }

    /** `group_by(key)`: the loop over the documents filling the groups. */
    method GroupBy(key: string) returns (r: Result<map<Json, seq<Document>>, Exception>)
      ensures r == Grouped(documents, key)
    {
      var grouped: map<Json, seq<Document>> := map[];
      var i := 0;
      while i < |documents|
        invariant 0 <= i <= |documents|
        invariant Grouped(documents[..i], key) == Ok(grouped)
      {
        var d := documents[i];
        assert documents[..i + 1][..i] == documents[..i] && documents[..i + 1][i] == d;
        if key !in d.properties {
          GroupedFailureStays(documents, i + 1, key);
          return Err(AssertionError);
        }
        var value := d.properties[key];
        if !Hashable(value) {
          GroupedFailureStays(documents, i + 1, key);
          return Err(TypeError);
        }
        assert Grouped(documents[..i + 1], key) ==
               Ok(grouped[value := (if value in grouped then grouped[value] else []) + [d]]);
        if value !in grouped {
          assert [] + [d] == [d];
          grouped := grouped[value := [d]];
        } else {
          grouped := grouped[value := grouped[value] + [d]];
        }
        i := i + 1;
      }
      assert documents[..i] == documents;
      r := Ok(grouped);
    }
  }
}
