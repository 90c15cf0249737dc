// datagrowth/datatypes/storage.py: the content URL view name of a stored
// DataStorage instance and DataStorageFactory, which builds instances from
// defaults overridden by keyword arguments. Django's URL reversal and the model
// constructor are not part of this model: `Url` gives the view name and the
// arguments it is reversed with, and `Build` the initialisation keywords.

module Storage {
  import opened Wrappers
  import opened Exceptions
  import opened Text
  import opened Json
  import opened DataUtils

  /** `DATAGROWTH_API_VERSION` without an override in the Django settings. */
  const DefaultApiVersion: nat := 1

  /** Django's camel-case pattern matches an upper-case letter that follows a
      lower-case letter, or that is followed by a character that is neither
      upper-case nor the end; a space goes in front of each match. */
  predicate NeedsSpace(s: string, i: nat)
    requires i < |s|
  {
    IsUpper(s[i]) && ((i > 0 && IsLower(s[i - 1])) || (i + 1 < |s| && !IsUpper(s[i + 1])))
  }

  /** The first `n` characters of `s` with those spaces put in. */
  function Spaced(s: string, n: nat): string
    requires n <= |s|
  {
    if n == 0 then "" else Spaced(s, n - 1) + (if NeedsSpace(s, n - 1) then " " else "") + [s[n - 1]]
  }

  /** A Python class name: no whitespace in it. */
  predicate NoSpaces(s: string)
  {
    forall i :: 0 <= i < |s| ==> !IsSpace(s[i])
  }

  /** `camel_case_to_spaces(name)`: spaces put in, stripped, lower-cased. */
  function CamelCaseToSpaces(name: string): string
    requires NoSpaces(name)
  {
    Lower(LStrip(Spaced(name, |name|)))
  }

  lemma WithoutStep(a: string, gap: string, x: char)
    requires (gap == "" || gap == " ") && x != ' '
    ensures Without(a + gap + [x], ' ') == Without(a, ' ') + [x]
  {
    WithoutConcat(a + gap, [x], ' ');
    WithoutConcat(a, gap, ' ');
    WithoutSingle(' ', ' ');
    WithoutSingle(x, ' ');
  }

  lemma {:induction false} WithoutSpaced(s: string, n: nat)
    requires n <= |s| && ' ' !in s
    ensures Without(Spaced(s, n), ' ') == s[..n]
  {
    if n > 0 {
      WithoutSpaced(s, n - 1);
      var gap: string := if NeedsSpace(s, n - 1) then " " else "";
      WithoutStep(Spaced(s, n - 1), gap, s[n - 1]);
      assert s[..n] == s[..n - 1] + [s[n - 1]];
    }
  }

  /** The only blanks in the spaced name are the spaces put in. */
  lemma {:induction false} SpacedBlanks(s: string, n: nat)
    requires n <= |s| && NoSpaces(s)
    ensures forall i :: 0 <= i < |Spaced(s, n)| && IsSpace(Spaced(s, n)[i]) ==> Spaced(s, n)[i] == ' '
  {
    if n > 0 {
      SpacedBlanks(s, n - 1);
      var gap: string := if NeedsSpace(s, n - 1) then " " else "";
      var t := Spaced(s, n);
      assert t == Spaced(s, n - 1) + gap + [s[n - 1]];
      assert t[|t| - 1] == s[n - 1] && !IsSpace(s[n - 1]);
      forall i | 0 <= i < |t| && IsSpace(t[i]) ensures t[i] == ' ' {
        if i < |Spaced(s, n - 1)| {
          assert t[i] == Spaced(s, n - 1)[i];
        }
      }
    }
  }

  lemma {:induction false} WithoutLStrip(t: string)
    requires forall i :: 0 <= i < |t| && IsSpace(t[i]) ==> t[i] == ' '
    ensures Without(LStrip(t), ' ') == Without(t, ' ')
    decreases |t|
  {
    if |t| > 0 && IsSpace(t[0]) {
      assert forall i :: 0 <= i < |t[1..]| ==> t[1..][i] == t[i + 1];
      WithoutLStrip(t[1..]);
      WithoutConcat([t[0]], t[1..], ' ');
      assert [t[0]] + t[1..] == t;
      WithoutSingle(t[0], ' ');
    }
  }

  lemma {:induction false} WithoutLower(t: string)
    ensures Without(Lower(t), ' ') == Lower(Without(t, ' '))
  {
    if t != [] {
      var init := t[..|t| - 1];
      assert Lower(t)[..|t| - 1] == Lower(init);
      WithoutLower(init);
      var last := t[|t| - 1];
      assert LowerChar(last) == ' ' <==> last == ' ';
      var w := Without(init, ' ');
      if last == ' ' {
        assert Without(t, ' ') == w;
      } else {
        assert Without(t, ' ') == w + [last];
        assert Lower(w + [last]) == Lower(w) + [LowerChar(last)];
      }
    }
  }

  /** Taking the spaces out of `camel_case_to_spaces(name)` gives the name
      lower-cased: the function only adds spaces and changes case. */
  lemma CamelCaseRoundTrip(name: string)
    requires NoSpaces(name)
    ensures Without(CamelCaseToSpaces(name), ' ') == Lower(name)
  {
    var t := Spaced(name, |name|);
    SpacedBlanks(name, |name|);
    WithoutLStrip(t);
    WithoutLower(LStrip(t));
    assert ' ' !in name by { assert IsSpace(' '); }
    WithoutSpaced(name, |name|);
    assert name[..|name|] == name;
  }

  /** The view the content URL is reversed from:
      `v{API}:{app label with "-" for "_"}:{model name}-content`. */
  function ViewName(apiVersion: nat, appLabel: string, className: string): (r: string)
    requires NoSpaces(className)
    ensures StartsWith(r, "v" + NatToString(apiVersion) + ":")
  {
    var appName := ReplaceChar(appLabel, '_', '-');
    var modelName := ReplaceChar(CamelCaseToSpaces(className), ' ', '-');
    assert ("v" + NatToString(apiVersion) + ":" + appName + ":" + modelName + "-content")[..|"v" + NatToString(apiVersion) + ":"|]
      == "v" + NatToString(apiVersion) + ":";
    "v" + NatToString(apiVersion) + ":" + appName + ":" + modelName + "-content"
  }

  /** The parts of the view name: the app part holds no "_" and the model
      part no blank. */
  lemma ViewNameParts(apiVersion: nat, appLabel: string, className: string)
    requires NoSpaces(className)
    ensures var appName := ReplaceChar(appLabel, '_', '-');
      var modelName := ReplaceChar(CamelCaseToSpaces(className), ' ', '-');
      ViewName(apiVersion, appLabel, className) == "v" + NatToString(apiVersion) + ":" + appName + ":" + modelName + "-content"
      && '_' !in appName && ' ' !in modelName
  {
  }

  /** `url`: an unsaved instance (no id, or id 0) has none; otherwise the
      content view of its app and model, reversed with the id. */
  function Url(id: Option<int>, apiVersion: nat, appLabel: string, className: string): (r: Result<(string, int), Exception>)
    requires NoSpaces(className)
    ensures r.Err? <==> id == None || id == Some(0)
    ensures r.Err? ==> r.error == ValueError
    ensures r.Ok? ==> r.value == (ViewName(apiVersion, appLabel, className), id.value)
  {
    match id
    case None => Err(ValueError)
    case Some(n) => if n == 0 then Err(ValueError) else Ok((ViewName(apiVersion, appLabel, className), n))
  }

  /** `DataStorageFactory`: the defaults given at construction. */
  class DataStorageFactory {
    var defaults: map<string, Json>

    constructor (defaults: map<string, Json>)
      ensures this.defaults == defaults
    {
      this.defaults := defaults;
    }

    /** `build(model, **kwargs)`: a copy of the defaults updated with the
        keyword arguments, which win; the defaults themselves stay as they
        are (the method changes nothing). */
    method Build(kwargs: map<string, Json>) returns (initialization: map<string, Json>)
      ensures OverrideDict(Dict(defaults), Dict(kwargs)) == Ok(Dict(initialization))
    {
      initialization := defaults;
      initialization := initialization + kwargs;
    }
  }
}
