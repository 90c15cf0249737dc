// DatasetBase of datagrowth/datatypes/datasets/db/dataset.py: how a dataset
// names itself, which keyword arguments of a growth or harvest run it lets
// through, the signature it derives from its input and the task definitions
// it hands to its versions. The database, the Celery pipelines and the
// configuration objects themselves are not modelled: a configuration is the
// dict of items it was made from.

module Datasets {
  import opened Wrappers
  import opened Exceptions
  import opened Text
  import opened Json
  import opened SeedingProcessors

  // ------------------------------------------------------------------ name

  /** The class name with every "Dataset" taken out; "Dataset" itself when
      nothing is left. */
  function BaseName(className: string): (r: string)
    ensures |r| > 0
  {
    var stripped := ReplaceAll(className, "Dataset", "");
    if stripped == "" then "Dataset" else stripped
  }

  /** What one character of the base name becomes: a capital is lower-cased
      and, unless it comes first, preceded by an underscore. */
  function SnakePiece(c: char, index: nat): (r: string)
    ensures |r| > 0 && !IsUpper(r[|r| - 1])
  {
    if IsUpper(c) then (if index == 0 then [LowerChar(c)] else "_" + [LowerChar(c)])
    else [c]
  }

  /** The base name in snake case, character by character. */
  function SnakeCase(s: string): (r: string)
  {
    if |s| == 0 then "" else SnakeCase(s[..|s| - 1]) + SnakePiece(s[|s| - 1], |s| - 1)
  }

  /** `get_name`: NAME when it is set, else the base name in snake case. */
  function DatasetName(name: Option<string>, className: string): (r: string)
  {
    if name.Some? && name.value != "" then name.value else SnakeCase(BaseName(className))
  }

  /** `get_name`'s loop over the characters of the base name. */
  method GetName(name: Option<string>, className: string) returns (r: string)
    ensures r == DatasetName(name, className)
  {
    if name.Some? && name.value != "" {
      return name.value;
    }
    var base := BaseName(className);
    r := "";
    var i := 0;
    while i < |base|
      invariant 0 <= i <= |base|
      invariant r == SnakeCase(base[..i])
    {
      var c := base[i];
      assert base[..i + 1][..i] == base[..i];
      if IsUpper(c) {
        if i != 0 {
          r := r + "_" + [LowerChar(c)];
        } else {
          r := r + [LowerChar(c)];
        }
      } else {
        r := r + [c];
      }
      i := i + 1;
    }
    assert base[..i] == base;
  }

  /** A derived name has no capitals left. */
  lemma {:induction false} SnakeCaseLower(s: string)
    ensures forall i :: 0 <= i < |SnakeCase(s)| ==> !IsUpper(SnakeCase(s)[i])
  {
    if |s| > 0 {
      SnakeCaseLower(s[..|s| - 1]);
      var piece := SnakePiece(s[|s| - 1], |s| - 1);
      assert forall i :: 0 <= i < |piece| ==> !IsUpper(piece[i]) by {
        if IsUpper(s[|s| - 1]) && |s| - 1 != 0 {
          assert piece == ['_', LowerChar(s[|s| - 1])];
        }
      }
    }
  }

  /** A piece without its underscore is the lower-cased character. */
  lemma PieceSeparators(c: char, index: nat)
    ensures Without(SnakePiece(c, index), '_') == Without([LowerChar(c)], '_')
  {
    if IsUpper(c) && index != 0 {
      WithoutConcat("_", [LowerChar(c)], '_');
      WithoutSingle('_', '_');
    } else if !IsUpper(c) {
      assert LowerChar(c) == c;
    }
  }

  lemma LowerSnoc(init: string, c: char)
    ensures Lower(init + [c]) == Lower(init) + [LowerChar(c)]
  {
  }

  /** The separators are all the derivation adds: without its underscores
      the name is the lower-cased base name without its underscores. */
  lemma {:induction false} SnakeCaseSeparators(s: string)
    ensures Without(SnakeCase(s), '_') == Without(Lower(s), '_')
  {
    if |s| > 0 {
      var init, c := s[..|s| - 1], s[|s| - 1];
      var piece := SnakePiece(c, |s| - 1);
      assert SnakeCase(s) == SnakeCase(init) + piece;
      assert s == init + [c];
      LowerSnoc(init, c);
      var lower := Lower(init);
      assert Lower(s) == lower + [LowerChar(c)];
      SnakeCaseSeparators(init);
      WithoutConcat(SnakeCase(init), piece, '_');
      PieceSeparators(c, |s| - 1);
      WithoutConcat(lower, [LowerChar(c)], '_');
    }
  }

  /** A name that is one capitalised word is only lower-cased. */
  lemma {:induction false} SnakeCaseOneWord(s: string)
    requires forall i :: 1 <= i < |s| ==> !IsUpper(s[i])
    ensures SnakeCase(s) == Lower(s)
  {
    if |s| > 0 {
      var init, c := s[..|s| - 1], s[|s| - 1];
      SnakeCaseOneWord(init);
      assert s == init + [c];
      LowerSnoc(init, c);
      if |s| > 1 {
        assert !IsUpper(c) && LowerChar(c) == c;
      }
    }
  }

  /** The base names of the two datasets of the test models. */
  lemma BaseNameExamples()
    ensures BaseName("Dataset") == "Dataset"
    ensures BaseName("DatasetMock") == "Mock"
  {
    assert "Dataset"[..7] == "Dataset" && "Dataset"[7..] == "";
    assert ReplaceAll("Dataset", "Dataset", "") == "";
    assert "DatasetMock"[..7] == "Dataset" && "DatasetMock"[7..] == "Mock";
    assert ReplaceAll("DatasetMock", "Dataset", "") == "Mock";
  }

  lemma SnakeCaseDataset()
    ensures SnakeCase("Dataset") == "dataset"
  {
    var s := "Dataset";
    assert !IsUpper(s[1]) && !IsUpper(s[2]) && !IsUpper(s[3]) && !IsUpper(s[4]) && !IsUpper(s[5]) && !IsUpper(s[6]);
    SnakeCaseOneWord(s);
    var l := Lower(s);
    assert l[0] == 'd' && l[1] == 'a' && l[2] == 't' && l[3] == 'a' && l[4] == 's' && l[5] == 'e' && l[6] == 't';
  }

  lemma SnakeCaseMock()
    ensures SnakeCase("Mock") == "mock"
  {
    var s := "Mock";
    assert !IsUpper(s[1]) && !IsUpper(s[2]) && !IsUpper(s[3]);
    SnakeCaseOneWord(s);
    var l := Lower(s);
    assert l[0] == 'm' && l[1] == 'o' && l[2] == 'c' && l[3] == 'k';
  }

  /** The two datasets of the test models, "Dataset" and "DatasetMock", and
      a dataset with a NAME of its own. */
  lemma NameExamples()
    ensures DatasetName(None, "Dataset") == "dataset"
    ensures DatasetName(None, "DatasetMock") == "mock"
    ensures DatasetName(Some("dataset_real"), "Dataset") == "dataset_real"
  {
    BaseNameExamples();
    SnakeCaseDataset();
    SnakeCaseMock();
  }

  /** `get_namespace`: the app label with dashes for underscores. */
  function Namespace(appLabel: string): (r: string)
    ensures |r| == |appLabel| && '_' !in r
    ensures forall i :: 0 <= i < |appLabel| ==> r[i] == if appLabel[i] == '_' then '-' else appLabel[i]
  {
    ReplaceChar(appLabel, '_', '-')
  }

  // ------------------------------------------------------- configuration keys

  /** The keys a configuration opens to input: its "$" keys, without the
      "$". */
  function ConfigKeys(config: map<string, Json>): (r: set<string>)
    ensures forall x :: x in r <==> "$" + x in config
  {
    var r := set k | k in config && |k| > 0 && k[0] == '$' :: k[1..];
    assert forall x :: "$" + x in config ==> ("$" + x)[1..] == x;
    assert forall k :: k in config && |k| > 0 && k[0] == '$' ==> k == "$" + k[1..];
    r
  }

  /** All keys the configurations open to input. */
  function WhitelistKeys(configs: seq<map<string, Json>>): (r: set<string>)
  {
    if |configs| == 0 then {} else WhitelistKeys(configs[..|configs| - 1]) + ConfigKeys(configs[|configs| - 1])
  }

  /** A key is open exactly when some configuration has it with a "$". */
  lemma {:induction false} WhitelistMeaning(configs: seq<map<string, Json>>, x: string)
    ensures x in WhitelistKeys(configs) <==> exists i :: 0 <= i < |configs| && "$" + x in configs[i]
  {
    if |configs| > 0 {
      var init := configs[..|configs| - 1];
      WhitelistMeaning(init, x);
      assert forall i :: 0 <= i < |init| ==> init[i] == configs[i];
      if "$" + x in configs[|configs| - 1] {
        assert x in ConfigKeys(configs[|configs| - 1]);
      }
    }
  }

  /** The loop that collects the open keys, one configuration at a time. */
  method CollectKeys(configs: seq<map<string, Json>>) returns (keys: set<string>)
    ensures keys == WhitelistKeys(configs)
  {
    keys := {};
    var i := 0;
    while i < |configs|
      invariant 0 <= i <= |configs|
      invariant keys == WhitelistKeys(configs[..i])
    {
      assert configs[..i + 1][..i] == configs[..i];
      keys := keys + ConfigKeys(configs[i]);
      i := i + 1;
    }
    assert configs[..i] == configs;
  }

  /** The keyword arguments whose key, "$" stripped from both ends, is an
      open key; their values untouched. */
  function Filtered<V>(kwargs: map<string, V>, keys: set<string>): (r: map<string, V>)
    ensures forall k :: k in r <==> k in kwargs && StripChar(k, '$') in keys
    ensures forall k :: k in r ==> r[k] == kwargs[k]
  {
    map k | k in kwargs && StripChar(k, '$') in keys :: kwargs[k]
  }

  /** Filtering what was filtered with the same keys changes nothing. */
  lemma FilteredIdempotent<V>(kwargs: map<string, V>, keys: set<string>)
    ensures Filtered(Filtered(kwargs, keys), keys) == Filtered(kwargs, keys)
  {
  }

  /** The items of a configuration made from a JSON value: a dict's own. */
  function ConfigItems(j: Json): (r: map<string, Json>)
    ensures j.Dict? ==> r == j.fields
    ensures !j.Dict? ==> r == map[]
  {
    if j.Dict? then j.fields else map[]
  }

  /** `get_seeding_configurations`: each phase's phase, retrieve and
      contribute configuration, phase after phase. The single seeding
      factory insists on seeding phases. */
  function SeedingConfigurations(phases: seq<map<string, Json>>): (r: Result<seq<map<string, Json>>, Exception>)
    ensures |phases| == 0 <==> r == Err(AssertionError)
    ensures r.Ok? ==> |r.value| == 3 * |phases|
  {
    if |phases| == 0 then Err(AssertionError)
    else Ok(FlattenConfigs(CreatePhaseConfigurations(phases)))
  }

  function FlattenConfigs(configs: seq<PhaseConfigs>): (r: seq<map<string, Json>>)
    ensures |r| == 3 * |configs|
    ensures forall i :: 0 <= i < |configs| ==>
              r[3 * i] == configs[i].phase && r[3 * i + 1] == ConfigItems(configs[i].retrieve) &&
              r[3 * i + 2] == ConfigItems(configs[i].contribute)
  {
    if |configs| == 0 then []
    else [configs[0].phase, ConfigItems(configs[0].retrieve), ConfigItems(configs[0].contribute)] + FlattenConfigs(configs[1..])
  }

  /** `filter_growth_configuration`: the open keys of the seeding
      configurations and of CONFIG. */
  method FilterGrowthConfiguration<V>(phases: seq<map<string, Json>>, config: map<string, Json>, kwargs: map<string, V>)
    returns (r: Result<map<string, V>, Exception>)
    ensures |phases| == 0 ==> r == Err(AssertionError)
    ensures |phases| > 0 ==> r == Ok(Filtered(kwargs, WhitelistKeys(SeedingConfigurations(phases).value + [config])))
  {
    var seeding := SeedingConfigurations(phases);
    if seeding.Err? {
      return Err(seeding.error);
    }
    var keys := CollectKeys(seeding.value + [config]);
    r := Ok(Filtered(kwargs, keys));
  }

  /** `filter_harvest_configuration`: the open keys of the harvest phases'
      defaults and of CONFIG. */
  method FilterHarvestConfiguration<V>(harvestDefaults: seq<map<string, Json>>, config: map<string, Json>, kwargs: map<string, V>)
    returns (r: map<string, V>)
    ensures r == Filtered(kwargs, WhitelistKeys(harvestDefaults + [config]))
  {
    var keys := CollectKeys(harvestDefaults + [config]);
    r := Filtered(kwargs, keys);
  }

  /** A keyword argument gets through exactly when CONFIG or a phase
      configuration names it with a "$", whatever "$" it carries itself. */
  lemma HarvestFilterMeaning<V>(harvestDefaults: seq<map<string, Json>>, config: map<string, Json>, kwargs: map<string, V>, k: string)
    requires k in kwargs
    ensures var configs := harvestDefaults + [config];
            k in Filtered(kwargs, WhitelistKeys(configs)) <==>
              "$" + StripChar(k, '$') in config ||
              exists i :: 0 <= i < |harvestDefaults| && "$" + StripChar(k, '$') in harvestDefaults[i]
  {
    var configs := harvestDefaults + [config];
    WhitelistMeaning(configs, StripChar(k, '$'));
    assert configs[|harvestDefaults|] == config;
    assert forall i :: 0 <= i < |harvestDefaults| ==> configs[i] == harvestDefaults[i];
  }

  // ---------------------------------------------------------------- signature

  /** The "key=value" text of every filtered argument, in key order. */
  function KeywordPieces(growth: map<string, string>): (r: seq<string>)
    ensures forall i :: 0 <= i < |r| ==> |r[i]| > 0
  {
    var keys := KeyOrder(growth.Keys);
    seq(|keys|, i requires 0 <= i < |keys| => keys[i] + "=" + growth[keys[i]])
  }

  /** One piece per argument: every piece is some argument's "key=value",
      and every argument has its piece. */
  lemma KeywordPiecesMeaning(growth: map<string, string>)
    ensures |KeywordPieces(growth)| == |growth|
    ensures forall k :: k in growth ==> k + "=" + growth[k] in KeywordPieces(growth)
    ensures forall x :: x in KeywordPieces(growth) ==> exists k :: k in growth && x == k + "=" + growth[k]
  {
    var keys := KeyOrder(growth.Keys);
    KeyOrderDistinct(growth.Keys);
    var r := KeywordPieces(growth);
    assert |growth.Keys| == |growth|;
    forall k | k in growth ensures k + "=" + growth[k] in r {
      var i :| 0 <= i < |keys| && keys[i] == k;
      assert r[i] == k + "=" + growth[k];
    }
    forall x | x in r ensures exists k :: k in growth && x == k + "=" + growth[k] {
      var i :| 0 <= i < |r| && r[i] == x;
      assert keys[i] in growth;
    }
  }

  /** The non-empty strings of a list, in order: `filter(bool, ...)`. */
  function NonEmpty(s: seq<string>): (r: seq<string>)
    ensures forall i :: 0 <= i < |r| ==> |r[i]| > 0
    ensures forall x :: x in r <==> x in s && |x| > 0
  {
    if |s| == 0 then [] else (if |s[0]| > 0 then [s[0]] else []) + NonEmpty(s[1..])
  }

  lemma {:induction false} NonEmptyMultiset(s: seq<string>)
    ensures forall x :: multiset(NonEmpty(s))[x] == if x == "" then 0 else multiset(s)[x]
  {
    if |s| > 0 {
      NonEmptyMultiset(s[1..]);
      assert s == [s[0]] + s[1..];
    }
  }

  /** The signature of a growth run: the positional arguments and the
      "key=value" pieces of the filtered keyword arguments, empty ones
      dropped, sorted and joined with "&". */
  function Signature(args: seq<string>, growth: map<string, string>): (r: string)
  {
    Join(Sort(NonEmpty(args + KeywordPieces(growth))), "&")
  }

  /** The signature does not depend on the order of the positional
      arguments. */
  lemma SignatureOrderInsensitive(a: seq<string>, b: seq<string>, growth: map<string, string>)
    requires multiset(a) == multiset(b)
    ensures Signature(a, growth) == Signature(b, growth)
  {
    var pieces := KeywordPieces(growth);
    NonEmptyMultiset(a + pieces);
    NonEmptyMultiset(b + pieces);
    assert multiset(a + pieces) == multiset(b + pieces);
    assert multiset(NonEmpty(a + pieces)) == multiset(NonEmpty(b + pieces));
    SortPermutationInvariant(NonEmpty(a + pieces), NonEmpty(b + pieces));
  }

  /** Split on "&", a signature gives back its sorted pieces when none of
      them holds an "&". */
  lemma SignatureSplits(args: seq<string>, growth: map<string, string>)
    requires var pieces := NonEmpty(args + KeywordPieces(growth));
             |pieces| > 0 && forall i :: 0 <= i < |pieces| ==> '&' !in pieces[i]
    ensures Split(Signature(args, growth), '&') == Sort(NonEmpty(args + KeywordPieces(growth)))
    ensures Sorted(Split(Signature(args, growth), '&'))
  {
    var pieces := NonEmpty(args + KeywordPieces(growth));
    var sorted := Sort(pieces);
    assert |sorted| == |pieces| by { assert |multiset(sorted)| == |multiset(pieces)|; }
    forall i | 0 <= i < |sorted| ensures '&' !in sorted[i] {
      assert sorted[i] in multiset(pieces);
    }
    SplitJoin(sorted, '&');
  }

  /** `get_signature_from_input(*args, **kwargs)`. */
  method GetSignatureFromInput(phases: seq<map<string, Json>>, config: map<string, Json>, args: seq<string>, kwargs: map<string, string>)
    returns (r: Result<string, Exception>)
    ensures |phases| == 0 ==> r == Err(AssertionError)
    ensures |phases| > 0 ==> r == Ok(Signature(args, Filtered(kwargs, WhitelistKeys(SeedingConfigurations(phases).value + [config]))))
  {
    var growth := FilterGrowthConfiguration(phases, config, kwargs);
    if growth.Err? {
      return Err(growth.error);
    }
    r := Ok(Signature(args, growth.value));
  }

  // ------------------------------------------------------------ tasks

  /** `get_task_definitions`: the task definitions per kind of object. */
  function TaskDefinitions(documentTasks: Json, collectionTasks: Json, versionTasks: Json): (r: map<string, Json>)
    ensures r.Keys == {"document", "collection", "datasetversion"}
    ensures r["document"] == documentTasks && r["collection"] == collectionTasks && r["datasetversion"] == versionTasks
  {
    map["document" := documentTasks, "collection" := collectionTasks, "datasetversion" := versionTasks]
  }
}
