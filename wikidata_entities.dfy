// The value side of the Wikidata client in core/output/http/static/js/wikidata.js:
// identifiers as the client canonicalises them, the raw entity records the
// wbgetentities API returns (only the parts the client reads), the items of
// the local store, and the claim accessors of WikiDataItem.

module WikiDataEntities {
  import opened Wrappers
  import opened Text

  // ------------------------------------------------------------ identifiers

  /** A value a caller may pass where the client expects an identifier:
      JavaScript strings and numbers. */
  datatype RawValue = Text(s: string) | Number(n: int)

  /** What `convertToStringArray` accepts: `undefined`, an array or object
      (its values, in order), or a single scalar. */
  datatype RawIds = Undefined | Collection(values: seq<RawValue>) | Single(value: RawValue)

  /** The characters JavaScript's `\s` matches. */
  predicate IsJsWhitespace(c: char)
  {
    c == ' ' || c == '\t' || c == '\n' || c == '\r' || c as int == 11 || c as int == 12
    || c as int == 0xA0 || c as int == 0x1680 || (0x2000 <= c as int <= 0x200A)
    || c as int == 0x2028 || c as int == 0x2029 || c as int == 0x202F
    || c as int == 0x205F || c as int == 0x3000 || c as int == 0xFEFF
  }

  predicate NoWhitespace(s: string)
  {
    forall i :: 0 <= i < |s| ==> !IsJsWhitespace(s[i])
  }

  predicate NoLower(s: string)
  {
    forall i :: 0 <= i < |s| ==> !IsLower(s[i])
  }

  /** `s.replace(/\s/g, '')` */
  function RemoveWhitespace(s: string): (r: string)
    ensures NoWhitespace(r) && |r| <= |s|
    ensures NoWhitespace(s) ==> r == s
  {
    if s == [] then []
    else if IsJsWhitespace(s[0]) then RemoveWhitespace(s[1..])
    else [s[0]] + RemoveWhitespace(s[1..])
  }

  /** `String(v)` */
  function Stringify(v: RawValue): string
  {
    match v
    case Text(s) => s
    case Number(n) => IntToString(n)
  }

  /** `getUnifiedID(name, type)`: whitespace removed, upper-cased, and a bare
      number prefixed with the upper-cased type letter when a type is given. */
  function UnifiedId(name: string, typ: Option<string>): (r: string)
  {
    var ret := Upper(RemoveWhitespace(name));
    if IsDigits(ret) && typ.Some? then Upper(typ.value) + ret else ret
  }

  lemma UpperKeepsWhitespaceFree(s: string)
    requires NoWhitespace(s)
    ensures NoWhitespace(Upper(s)) && NoLower(Upper(s))
  {
  }

  lemma UpperFixesUpper(s: string)
    requires NoLower(s)
    ensures Upper(s) == s
  {
  }

  lemma UpperKeepsDigits(s: string)
    ensures AllDigits(Upper(s)) <==> AllDigits(s)
  {
    if AllDigits(Upper(s)) {
      forall i | 0 <= i < |s| ensures IsDigit(s[i]) { assert IsDigit(Upper(s)[i]); }
    }
  }

  /** A type letter the client uses ('Q', 'P'): canonicalising with it is stable. */
  predicate StableType(typ: Option<string>)
  {
    typ.None? || (NoWhitespace(typ.value) && !IsDigits(typ.value))
  }

  /** The canonical form is stable: canonicalising a canonical identifier again
      with the same type changes nothing, so the store never holds two spellings
      of one identifier that differ only in case, spacing or prefix. */
  lemma UnifiedIdIdempotent(name: string, typ: Option<string>)
    requires StableType(typ)
    ensures UnifiedId(UnifiedId(name, typ), typ) == UnifiedId(name, typ)
  {
    var ret := Upper(RemoveWhitespace(name));
    UpperKeepsWhitespaceFree(RemoveWhitespace(name));
    var r := UnifiedId(name, typ);
    if IsDigits(ret) && typ.Some? {
      var t := Upper(typ.value);
      UpperKeepsWhitespaceFree(typ.value);
      UpperKeepsDigits(typ.value);
      assert r == t + ret;
      assert NoWhitespace(r) && NoLower(r) by {
        forall i | 0 <= i < |r| ensures !IsJsWhitespace(r[i]) && !IsLower(r[i]) {
          if i < |t| { assert r[i] == t[i]; } else { assert r[i] == ret[i - |t|]; }
        }
      }
      UpperFixesUpper(r);
      if |t| > 0 {
        assert !AllDigits(t);
        var k :| 0 <= k < |t| && !IsDigit(t[k]);
        assert r[k] == t[k];
        assert !IsDigits(r);
      } else {
        assert r == ret;
      }
    } else {
      assert r == ret;
      UpperFixesUpper(ret);
    }
  }

  /** What the canonical form is: no whitespace and no lower-case letter is
      left (as long as the type letter has no whitespace), and the type
      letter, upper-cased, is put in front exactly when the cleaned name is a
      bare number and a type is given. */
  lemma UnifiedIdShape(name: string, typ: Option<string>)
    requires typ.None? || NoWhitespace(typ.value)
    ensures var r := UnifiedId(name, typ);
      NoWhitespace(r) && NoLower(r) &&
      |r| == |RemoveWhitespace(name)| + (if IsDigits(RemoveWhitespace(name)) && typ.Some? then |typ.value| else 0)
    ensures var ret := Upper(RemoveWhitespace(name));
      IsDigits(ret) && typ.Some? ==> UnifiedId(name, typ) == Upper(typ.value) + ret
  {
    var ret := Upper(RemoveWhitespace(name));
    UpperKeepsWhitespaceFree(RemoveWhitespace(name));
    UpperKeepsDigits(RemoveWhitespace(name));
    var r := UnifiedId(name, typ);
    if IsDigits(ret) && typ.Some? {
      var t := Upper(typ.value);
      UpperKeepsWhitespaceFree(typ.value);
      assert r == t + ret;
      forall i | 0 <= i < |r| ensures !IsJsWhitespace(r[i]) && !IsLower(r[i]) {
        if i < |t| { assert r[i] == t[i]; } else { assert r[i] == ret[i - |t|]; }
      }
    }
  }

  /** Identifiers of the form 'Q' + digits, as claim targets are spelled,
      are already canonical. */
  lemma ItemIdCanonical(n: nat)
    ensures UnifiedId("Q" + NatToString(n), None) == "Q" + NatToString(n)
  {
    var s := "Q" + NatToString(n);
    assert NoWhitespace(s) && NoLower(s) by {
      forall i | 0 <= i < |s| ensures !IsJsWhitespace(s[i]) && !IsLower(s[i]) {
        if i > 0 { assert s[i] == NatToString(n)[i - 1]; }
      }
    }
    UpperFixesUpper(s);
  }

  /** `convertToStringArray(o, type)`: one canonical identifier per value, in
      order, without removing duplicates. */
  function ConvertToStringArray(o: RawIds, typ: Option<string>): (r: seq<string>)
    ensures o.Undefined? ==> r == []
    ensures o.Single? ==> r == [UnifiedId(Stringify(o.value), typ)]
    ensures o.Collection? ==> (|r| == |o.values|
      && forall i :: 0 <= i < |r| ==> r[i] == UnifiedId(Stringify(o.values[i]), typ))
  {
    match o
    case Undefined => []
    case Single(v) => [UnifiedId(Stringify(v), typ)]
    case Collection(vs) => seq(|vs|, i requires 0 <= i < |vs| => UnifiedId(Stringify(vs[i]), typ))
  }

  /** Converting an already converted list again gives it back unchanged. */
  lemma ConvertToStringArrayIdempotent(o: RawIds, typ: Option<string>)
    requires StableType(typ)
    ensures var r := ConvertToStringArray(o, typ);
      ConvertToStringArray(Collection(seq(|r|, i requires 0 <= i < |r| => Text(r[i]))), typ) == r
  {
    var r := ConvertToStringArray(o, typ);
    var again := ConvertToStringArray(Collection(seq(|r|, i requires 0 <= i < |r| => Text(r[i]))), typ);
    forall i | 0 <= i < |r| ensures again[i] == r[i] {
      match o
      case Single(v) => UnifiedIdIdempotent(Stringify(v), typ);
      case Collection(vs) => UnifiedIdIdempotent(Stringify(vs[i]), typ);
    }
  }

  // ------------------------------------------------------------- raw entities

  /** The `value` object of a data value; only the two members the client
      reads. A string or time value has neither. */
  datatype Value = Value(entityType: Option<string>, numericId: Option<nat>)
  datatype DataValue = DataValue(value: Option<Value>)
  datatype Snak = Snak(datavalue: Option<DataValue>)
  datatype QualifierGroup = QualifierGroup(prop: string, snaks: seq<Snak>)
  datatype Claim = Claim(mainsnak: Option<Snak>, qualifiers: seq<QualifierGroup>)
  datatype ClaimGroup = ClaimGroup(prop: string, claims: seq<Claim>)

  /** An entity record: its id and its claims object (property key to claims,
      in the object's key order; a missing `claims` is the empty list). */
  datatype Entity = Entity(id: string, claims: seq<ClaimGroup>)

  /** A WikiDataItem: a placeholder while its record is being fetched, or the
      loaded record. */
  datatype Item = Placeholder | Loaded(raw: Entity)

  /** `getID()`: the record's id, undefined for a placeholder. */
  function IdOf(item: Item): Option<string>
  {
    if item.Loaded? then Some(item.raw.id) else None
  }

  /** A JavaScript object's own keys are distinct. */
  predicate WellFormedEntity(e: Entity)
  {
    forall i, j :: 0 <= i < j < |e.claims| ==> e.claims[i].prop != e.claims[j].prop
  }

  /** `claims[key]` on the claims object. */
  function LookupClaims(groups: seq<ClaimGroup>, key: string): (r: Option<seq<Claim>>)
    ensures r.Some? <==> exists i :: 0 <= i < |groups| && groups[i].prop == key
    ensures r.Some? ==> exists i :: 0 <= i < |groups| && groups[i].prop == key && groups[i].claims == r.value
  {
    if groups == [] then None
    else if groups[0].prop == key then Some(groups[0].claims)
    else
      var r := LookupClaims(groups[1..], key);
      if r.Some? then
        var i :| 0 <= i < |groups[1..]| && groups[1..][i].prop == key && groups[1..][i].claims == r.value;
        assert groups[i + 1].prop == key;
        r
      else r
  }

  /** `getClaimsForProperty(p)`: the claims under the canonical property key,
      none for a placeholder or a property the record lacks. */
  function ClaimsForProperty(item: Item, p: string): (r: seq<Claim>)
    ensures item.Placeholder? ==> r == []
    ensures item.Loaded? ==> var key := UnifiedId(UnifiedId(p, Some("P")), None);
      (exists i :: 0 <= i < |item.raw.claims| && item.raw.claims[i].prop == key && item.raw.claims[i].claims == r)
      || (r == [] && forall i :: 0 <= i < |item.raw.claims| ==> item.raw.claims[i].prop != key)
  {
    var key := UnifiedId(ConvertToStringArray(Single(Text(p)), Some("P"))[0], None);
    if item.Placeholder? then []
    else
      match LookupClaims(item.raw.claims, key)
      case Some(cs) => cs
      case None => []
  }

  /** `getClaimTargetItemID(claim)`: 'Q' + numeric id when the main snak's
      value is an item, undefined otherwise. */
  function ClaimTargetItemId(c: Claim): (r: Option<string>)
    ensures r.Some? <==> (c.mainsnak.Some? && c.mainsnak.value.datavalue.Some?
      && c.mainsnak.value.datavalue.value.value.Some?
      && c.mainsnak.value.datavalue.value.value.value.entityType == Some("item")
      && c.mainsnak.value.datavalue.value.value.value.numericId.Some?)
    ensures r.Some? ==> r.value == "Q" + NatToString(c.mainsnak.value.datavalue.value.value.value.numericId.value)
  {
    if c.mainsnak.None? then None
    else if c.mainsnak.value.datavalue.None? then None
    else if c.mainsnak.value.datavalue.value.value.None? then None
    else
      var v := c.mainsnak.value.datavalue.value.value.value;
      if v.entityType != Some("item") then None
      else if v.numericId.None? then None
      else Some("Q" + NatToString(v.numericId.value))
  }

  /** A qualifier snak's target as the loader reads it: 'Q' + numeric id
      whenever the value has a numeric id, whatever its entity type. */
  function QualifierTargetId(s: Snak): (r: Option<string>)
    ensures r.Some? <==> (s.datavalue.Some? && s.datavalue.value.value.Some?
      && s.datavalue.value.value.value.numericId.Some?)
    ensures r.Some? ==> r.value == "Q" + NatToString(s.datavalue.value.value.value.numericId.value)
  {
    if s.datavalue.None? || s.datavalue.value.value.None? then None
    else
      var v := s.datavalue.value.value.value;
      if v.numericId.None? then None else Some("Q" + NatToString(v.numericId.value))
  }

  /** The item identifiers `getClaimItemsForProperty` returns for a list of
      claims: the item targets, in claim order, keeping only targets present
      in the store unless `returnAll`. */
  function LinkedItems(claims: seq<Claim>, store: map<string, Item>, returnAll: bool): seq<string>
  {
    if claims == [] then []
    else
      var t := ClaimTargetItemId(claims[0]);
      var rest := LinkedItems(claims[1..], store, returnAll);
      if t.Some? && (returnAll || t.value in store) then [t.value] + rest else rest
  }

  /** What the linked items are: exactly the item targets of the claims that
      pass the store filter. */
  lemma {:induction false} LinkedItemsMembers(claims: seq<Claim>, store: map<string, Item>, returnAll: bool, q: string)
    ensures q in LinkedItems(claims, store, returnAll) <==>
      (returnAll || q in store) && exists i :: 0 <= i < |claims| && ClaimTargetItemId(claims[i]) == Some(q)
  {
    if claims != [] {
      LinkedItemsMembers(claims[1..], store, returnAll, q);
      if exists i :: 0 <= i < |claims[1..]| && ClaimTargetItemId(claims[1..][i]) == Some(q) {
        var i :| 0 <= i < |claims[1..]| && ClaimTargetItemId(claims[1..][i]) == Some(q);
        assert ClaimTargetItemId(claims[i + 1]) == Some(q);
      }
      if exists i :: 0 <= i < |claims| && ClaimTargetItemId(claims[i]) == Some(q) {
        var i :| 0 <= i < |claims| && ClaimTargetItemId(claims[i]) == Some(q);
        if i > 0 { assert ClaimTargetItemId(claims[1..][i - 1]) == Some(q); }
      }
    }
  }

  lemma {:induction false} LinkedItemsAppend(claims: seq<Claim>, c: Claim, store: map<string, Item>, returnAll: bool)
    ensures LinkedItems(claims + [c], store, returnAll) == LinkedItems(claims, store, returnAll)
      + (var t := ClaimTargetItemId(c); if t.Some? && (returnAll || t.value in store) then [t.value] else [])
  {
    if claims != [] {
      assert (claims + [c])[1..] == claims[1..] + [c];
      LinkedItemsAppend(claims[1..], c, store, returnAll);
    }
  }

  /** `getClaimItemsForProperty(p, return_all)` */
  method ClaimItemsForProperty(item: Item, p: string, store: map<string, Item>, returnAll: bool)
    returns (r: seq<string>)
    ensures r == LinkedItems(ClaimsForProperty(item, p), store, returnAll)
    ensures forall k :: 0 <= k < |r| ==> (returnAll || r[k] in store)
  {
    var claims := ClaimsForProperty(item, p);
    r := [];
    var i := 0;
    while i < |claims|
      invariant 0 <= i <= |claims|
      invariant r == LinkedItems(claims[..i], store, returnAll)
    {
      LinkedItemsAppend(claims[..i], claims[i], store, returnAll);
      assert claims[..i + 1] == claims[..i] + [claims[i]];
      var q := ClaimTargetItemId(claims[i]);
      if q.Some? && (returnAll || q.value in store) {
        r := r + [q.value];
      }
      i := i + 1;
    }
    assert claims[..i] == claims;
    forall k | 0 <= k < |r| ensures returnAll || r[k] in store {
      LinkedItemsMembers(claims, store, returnAll, r[k]);
    }
  }

  /** The keys of the record's claims object, in order. */
  function ClaimKeys(e: Entity): (r: seq<string>)
    ensures |r| == |e.claims| && forall i :: 0 <= i < |r| ==> r[i] == e.claims[i].prop
  {
    seq(|e.claims|, i requires 0 <= i < |e.claims| => e.claims[i].prop)
  }

  /** `getPropertyList()` of a loaded item. */
  method PropertyList(e: Entity) returns (r: seq<string>)
    ensures r == ClaimKeys(e)
  {
    r := [];
    var i := 0;
    while i < |e.claims|
      invariant 0 <= i <= |e.claims|
      invariant r == ClaimKeys(e)[..i]
    {
      r := r + [e.claims[i].prop];
      i := i + 1;
    }
  }

  /** The records of a `wbgetentities` response, by key: every key is
      already canonical (the handlers look the record up again under the
      canonical key) and no key repeats. */
  predicate CanonicalKeys(entities: seq<(string, Entity)>)
  {
    forall i :: 0 <= i < |entities| ==> UnifiedId(entities[i].0, None) == entities[i].0
  }

  predicate DistinctKeys(entities: seq<(string, Entity)>)
  {
    forall i, j :: 0 <= i < j < |entities| ==> entities[i].0 != entities[j].0
  }

}
