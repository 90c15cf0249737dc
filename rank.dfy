// sources/processors/wikipedia/rank.py: the hook arguments and the ranking
// hooks of the Wikipedia rank processor. A page's revisions are
// (timestamp, userid) records and a Wikidata claim is a (property, value)
// record; the base class hook that hands over the individual is not part of
// this model, the individual itself is its first argument.

module WikipediaRank {
  import opened Wrappers
  import opened Json

  /** What the hooks read from a page: its revisions and categories, each
      present or absent. */
  datatype Revision = Revision(timestamp: int, userid: int)
  datatype Page = Page(revisions: Option<seq<Revision>>, categories: Option<seq<string>>)
  datatype Claim = Claim(property: string, value: Json)
  datatype Wikidata = Wikidata(claims: Option<seq<Claim>>)

  const NumberOfDeathsProperty := "P1120"
  const SexProperty := "P21"
  const WomenItem := "Q6581072"
  /** Revisions at most this many seconds apart share a cluster. */
  const ClusterGap := 60

  /** `get_hook_arguments`: the individual and its "wikidata" value, which
      becomes an empty dict when absent, None or a string. */
  function GetHookArguments(individual: map<string, Json>): (r: seq<Json>)
    ensures |r| == 2 && r[0] == Dict(individual)
    ensures "wikidata" in individual && !individual["wikidata"].Null? && !individual["wikidata"].Str?
      ==> r[1] == individual["wikidata"]
    ensures "wikidata" !in individual || individual["wikidata"].Null? || individual["wikidata"].Str?
      ==> r[1] == Dict(map[])
  {
    var wikidata := if "wikidata" in individual then individual["wikidata"] else Dict(map[]);
    [Dict(individual), if wikidata.Null? || wikidata.Str? then Dict(map[]) else wikidata]
  }

  function Revisions(page: Page): seq<Revision>
  {
    if page.revisions.Some? then page.revisions.value else []
  }

  function Claims(wikidata: Wikidata): seq<Claim>
  {
    if wikidata.claims.Some? then wikidata.claims.value else []
  }

  /** `revision_count`: the number of revisions, 0 without any. */
  function RevisionCount(page: Page, wikidata: Wikidata): (r: nat)
    ensures page.revisions.None? ==> r == 0
    ensures page.revisions.Some? ==> r == |page.revisions.value|
  {
    |Revisions(page)|
  }

  /** `category_count`: the number of categories, 0 without any. */
  function CategoryCount(page: Page, wikidata: Wikidata): (r: nat)
    ensures page.categories.None? ==> r == 0
    ensures page.categories.Some? ==> r == |page.categories.value|
  {
    if page.categories.Some? then |page.categories.value| else 0
  }

  /** The value of the first claim of `property`, if any. */
  function FirstValue(claims: seq<Claim>, property: string): (r: Option<Json>)
    ensures r.None? <==> forall k :: 0 <= k < |claims| ==> claims[k].property != property
    ensures r.Some? ==> exists k :: (0 <= k < |claims| && claims[k].property == property && claims[k].value == r.value
      && forall m :: 0 <= m < k ==> claims[m].property != property)
  {
    if claims == [] then None
    else if claims[0].property == property then Some(claims[0].value)
    else
      var r := FirstValue(claims[1..], property);
      assert forall k :: 1 <= k < |claims| ==> claims[k] == claims[1..][k - 1];
      if r.Some? then
        var k :| 0 <= k < |claims[1..]| && claims[1..][k].property == property && claims[1..][k].value == r.value
          && forall m :: 0 <= m < k ==> claims[1..][m].property != property;
        assert claims[k + 1].property == property && claims[k + 1].value == r.value;
        r
      else r
  }

  /** `number_of_deaths`: the value of the first "number of deaths" claim,
      else 0. */
  function NumberOfDeaths(page: Page, wikidata: Wikidata): (r: Json)
    ensures (forall k :: 0 <= k < |Claims(wikidata)| ==> Claims(wikidata)[k].property != NumberOfDeathsProperty) ==> r == Int(0)
    ensures (exists k :: 0 <= k < |Claims(wikidata)| && Claims(wikidata)[k].property == NumberOfDeathsProperty)
      ==> exists k :: (0 <= k < |Claims(wikidata)| && Claims(wikidata)[k].property == NumberOfDeathsProperty && Claims(wikidata)[k].value == r
            && forall j :: 0 <= j < k ==> Claims(wikidata)[j].property != NumberOfDeathsProperty)
  {
    var v := FirstValue(Claims(wikidata), NumberOfDeathsProperty);
    if v.Some? then v.value else Int(0)
  }

  /** `women`: some claim says the sex is "female". */
  function Women(page: Page, wikidata: Wikidata): (r: bool)
    ensures r <==> exists k :: 0 <= k < |Claims(wikidata)| && Claims(wikidata)[k] == Claim(SexProperty, Str(WomenItem))
  {
    exists k :: 0 <= k < |Claims(wikidata)| && Claims(wikidata)[k].property == SexProperty && Claims(wikidata)[k].value == Str(WomenItem)
  }

  // ----------------------------------------------------------- breaking news

  function Flatten(runs: seq<seq<Revision>>): seq<Revision>
  {
    if runs == [] then [] else Flatten(runs[..|runs| - 1]) + runs[|runs| - 1]
  }

  function LastRun(runs: seq<seq<Revision>>): seq<Revision>
    requires |runs| > 0
  {
    runs[|runs| - 1]
  }

  predicate NonEmptyRuns(runs: seq<seq<Revision>>)
  {
    forall k :: 0 <= k < |runs| ==> |runs[k]| > 0
  }

  /** Inside a run, each revision is at most a minute after the one before. */
  ghost predicate CloseInside(runs: seq<seq<Revision>>)
  {
    forall k, i, j :: 0 <= k < |runs| && 0 <= i && j == i + 1 && j < |runs[k]| ==> runs[k][j].timestamp - runs[k][i].timestamp <= ClusterGap
  }

  /** A run starts more than a minute after the previous run ends. */
  ghost predicate ApartBetween(runs: seq<seq<Revision>>)
    requires NonEmptyRuns(runs)
  {
    forall j, k :: 0 <= j && k == j + 1 && k < |runs| ==> runs[k][0].timestamp - runs[j][|runs[j]| - 1].timestamp > ClusterGap
  }

  /** `runs` cuts `revs` into maximal runs of revisions at most a minute
      apart: in order, none empty, close inside, a gap of more than a
      minute between one run and the next. */
  ghost predicate IsRunPartition(revs: seq<Revision>, runs: seq<seq<Revision>>)
  {
    Flatten(runs) == revs && NonEmptyRuns(runs) && CloseInside(runs) && ApartBetween(runs)
  }

  /** The runs of a non-empty revision list, grown revision by revision. */
  function Runs(revs: seq<Revision>): (runs: seq<seq<Revision>>)
    requires |revs| > 0
    ensures |runs| > 0 && |LastRun(runs)| > 0 && LastRun(runs)[|LastRun(runs)| - 1] == revs[|revs| - 1]
  {
    if |revs| == 1 then [revs]
    else
      var init := Runs(revs[..|revs| - 1]);
      var r := revs[|revs| - 1];
      if r.timestamp - revs[|revs| - 2].timestamp > ClusterGap then init + [[r]]
      else init[..|init| - 1] + [LastRun(init) + [r]]
  }

  lemma FlattenPush(runs: seq<seq<Revision>>, run: seq<Revision>)
    ensures Flatten(runs + [run]) == Flatten(runs) + run
  {
    assert (runs + [run])[..|runs|] == runs;
  }

  /** A revision more than a minute after the last one opens a new run. */
  lemma PartitionOpen(revs: seq<Revision>, runs: seq<seq<Revision>>, r: Revision)
    requires IsRunPartition(revs, runs) && |runs| > 0 && |revs| > 0
    requires LastRun(runs)[|LastRun(runs)| - 1] == revs[|revs| - 1]
    requires r.timestamp - revs[|revs| - 1].timestamp > ClusterGap
    ensures IsRunPartition(revs + [r], runs + [[r]])
  {
    FlattenPush(runs, [r]);
    var t := runs + [[r]];
    assert forall k :: 0 <= k < |runs| ==> t[k] == runs[k];
  }

  lemma JoinInside(runs: seq<seq<Revision>>, r: Revision)
    requires CloseInside(runs) && |runs| > 0 && |LastRun(runs)| > 0
    requires r.timestamp - LastRun(runs)[|LastRun(runs)| - 1].timestamp <= ClusterGap
    ensures CloseInside(runs[..|runs| - 1] + [LastRun(runs) + [r]])
  {
    var t: seq<seq<Revision>> := runs[..|runs| - 1] + [LastRun(runs) + [r]];
    forall k: nat, i: nat, j: nat | k < |t| && j == i + 1 && j < |t[k]| ensures t[k][j].timestamp - t[k][i].timestamp <= ClusterGap {
      if k < |runs| - 1 {
        assert t[k] == runs[k];
      } else if j < |LastRun(runs)| {
        assert t[k][j] == runs[k][j] && t[k][i] == runs[k][i];
      }
    }
  }

  lemma JoinApart(runs: seq<seq<Revision>>, r: Revision)
    requires NonEmptyRuns(runs) && ApartBetween(runs) && |runs| > 0
    ensures NonEmptyRuns(runs[..|runs| - 1] + [LastRun(runs) + [r]])
    ensures ApartBetween(runs[..|runs| - 1] + [LastRun(runs) + [r]])
  {
    var t: seq<seq<Revision>> := runs[..|runs| - 1] + [LastRun(runs) + [r]];
    assert forall k :: 0 <= k < |runs| - 1 ==> t[k] == runs[k];
    assert t[|runs| - 1][0] == runs[|runs| - 1][0];
  }

  /** A revision at most a minute after the last one joins the last run. */
  lemma PartitionJoin(revs: seq<Revision>, runs: seq<seq<Revision>>, r: Revision)
    requires IsRunPartition(revs, runs) && |runs| > 0 && |revs| > 0
    requires LastRun(runs)[|LastRun(runs)| - 1] == revs[|revs| - 1]
    requires r.timestamp - revs[|revs| - 1].timestamp <= ClusterGap
    ensures IsRunPartition(revs + [r], runs[..|runs| - 1] + [LastRun(runs) + [r]])
  {
    var front := runs[..|runs| - 1];
    assert runs == front + [LastRun(runs)];
    FlattenPush(front, LastRun(runs));
    FlattenPush(front, LastRun(runs) + [r]);
    JoinInside(runs, r);
    JoinApart(runs, r);
  }

  lemma PartitionSingle(revs: seq<Revision>)
    requires |revs| == 1
    ensures IsRunPartition(revs, Runs(revs))
  {
    assert Flatten([revs]) == Flatten([]) + revs;
  }

  lemma SnocInit(revs: seq<Revision>)
    requires |revs| > 0
    ensures revs == revs[..|revs| - 1] + [revs[|revs| - 1]]
  {
  }

  lemma StepOpen(revs: seq<Revision>)
    requires |revs| > 1 && IsRunPartition(revs[..|revs| - 1], Runs(revs[..|revs| - 1]))
    requires revs[|revs| - 1].timestamp - revs[|revs| - 2].timestamp > ClusterGap
    ensures IsRunPartition(revs, Runs(revs))
  {
    var prev := revs[..|revs| - 1];
    SnocInit(revs);
    PartitionOpen(prev, Runs(prev), revs[|revs| - 1]);
  }

  lemma StepJoin(revs: seq<Revision>)
    requires |revs| > 1 && IsRunPartition(revs[..|revs| - 1], Runs(revs[..|revs| - 1]))
    requires revs[|revs| - 1].timestamp - revs[|revs| - 2].timestamp <= ClusterGap
    ensures IsRunPartition(revs, Runs(revs))
  {
    var prev := revs[..|revs| - 1];
    SnocInit(revs);
    PartitionJoin(prev, Runs(prev), revs[|revs| - 1]);
  }

  /** The runs are the partition into maximal runs. */
  lemma {:induction false} RunsPartition(revs: seq<Revision>)
    requires |revs| > 0
    ensures IsRunPartition(revs, Runs(revs))
  {
    if |revs| == 1 {
      PartitionSingle(revs);
    } else {
      RunsPartition(revs[..|revs| - 1]);
      if revs[|revs| - 1].timestamp - revs[|revs| - 2].timestamp > ClusterGap {
        StepOpen(revs);
      } else {
        StepJoin(revs);
      }
    }
  }

  /** The runs of more than one revision, in order. */
  function Longer(runs: seq<seq<Revision>>): seq<seq<Revision>>
  {
    if runs == [] then [] else Longer(runs[..|runs| - 1]) + if |LastRun(runs)| > 1 then [LastRun(runs)] else []
  }

  lemma LongerPush(runs: seq<seq<Revision>>, run: seq<Revision>)
    ensures Longer(runs + [run]) == Longer(runs) + if |run| > 1 then [run] else []
  {
    assert (runs + [run])[..|runs|] == runs;
  }

  /** The clusters the loop keeps: every run of more than one revision that
      a later gap closed, so never the trailing run. */
  function Kept(runs: seq<seq<Revision>>): seq<seq<Revision>>
    requires |runs| > 0
  {
    Longer(runs[..|runs| - 1])
  }

  /** The runs of more than one revision are exactly those kept. */
  lemma {:induction false} LongerMembers(runs: seq<seq<Revision>>)
    ensures forall c :: c in Longer(runs) <==> exists k :: 0 <= k < |runs| && runs[k] == c && |c| > 1
  {
    if runs != [] {
      var front := runs[..|runs| - 1];
      LongerMembers(front);
      assert runs == front + [LastRun(runs)];
      assert forall k :: 0 <= k < |front| ==> runs[k] == front[k];
    }
  }

  /** One more revision, as the loop of `breaking_news` sees it: a gap
      closes the current run, otherwise the revision joins it. */
  lemma ClusterStep(revs: seq<Revision>, i: nat)
    requires 1 <= i < |revs|
    ensures revs[i].timestamp - revs[i - 1].timestamp > ClusterGap ==>
      Kept(Runs(revs[..i + 1])) == Longer(Runs(revs[..i])) && LastRun(Runs(revs[..i + 1])) == [revs[i]]
    ensures revs[i].timestamp - revs[i - 1].timestamp <= ClusterGap ==>
      Kept(Runs(revs[..i + 1])) == Kept(Runs(revs[..i])) && LastRun(Runs(revs[..i + 1])) == LastRun(Runs(revs[..i])) + [revs[i]]
  {
    assert revs[..i + 1][..i] == revs[..i];
    var runs := Runs(revs[..i]);
    if revs[i].timestamp - revs[i - 1].timestamp > ClusterGap {
      assert (runs + [[revs[i]]])[..|runs|] == runs;
    } else {
      assert (runs[..|runs| - 1] + [LastRun(runs) + [revs[i]]])[..|runs| - 1] == runs[..|runs| - 1];
    }
  }

  /** The loop of `breaking_news` that builds the clusters. */
  method ClusterRevisions(revs: seq<Revision>) returns (clusters: seq<seq<Revision>>)
    requires |revs| > 0
    ensures clusters == Kept(Runs(revs))
  {
    clusters := [];
    var current := [revs[0]];
    var i := 1;
    assert revs[..1] == [revs[0]];
    while i < |revs|
      invariant 1 <= i <= |revs|
      invariant clusters == Kept(Runs(revs[..i]))
      invariant current == LastRun(Runs(revs[..i]))
      invariant current[|current| - 1] == revs[i - 1]
    {
      var revision := revs[i];
      ClusterStep(revs, i);
      if revision.timestamp - current[|current| - 1].timestamp > ClusterGap {
        LongerPush(Runs(revs[..i])[..|Runs(revs[..i])| - 1], current);
        assert Runs(revs[..i])[..|Runs(revs[..i])| - 1] + [current] == Runs(revs[..i]);
        if |current| > 1 {
          clusters := clusters + [current];
        }
        current := [revision];
      } else {
        current := current + [revision];
      }
      i := i + 1;
    }
    assert revs[..i] == revs;
  }

  function UserIds(cluster: seq<Revision>): set<int>
  {
    set k | 0 <= k < |cluster| :: cluster[k].userid
  }

  /** A cluster of breaking news: five revisions or more, by three editors
      or more. */
  predicate Breaking(cluster: seq<Revision>)
  {
    |cluster| >= 5 && |UserIds(cluster)| >= 3
  }

  /** `breaking_news`: true when some kept cluster is breaking news; the
      source returns None in every other case, `false` here, including a
      page without revisions. */
  method BreakingNews(page: Page, wikidata: Wikidata) returns (news: bool)
    ensures Revisions(page) == [] ==> !news
    ensures Revisions(page) != [] ==> (news <==> exists c :: c in Kept(Runs(Revisions(page))) && Breaking(c))
  {
    var revisions := Revisions(page);
    if |revisions| == 0 {
      return false;
    }
    var clusters := ClusterRevisions(revisions);
    news := false;
    var k := 0;
    while k < |clusters|
      invariant 0 <= k <= |clusters|
      invariant forall m :: 0 <= m < k ==> !Breaking(clusters[m])
    {
      if |clusters[k]| >= 5 && |UserIds(clusters[k])| >= 3 {
        assert clusters[k] in clusters && Breaking(clusters[k]);
        return true;
      }
      k := k + 1;
    }
  }

  /** A page is breaking news exactly when one of its maximal runs, other
      than the trailing one, is a breaking cluster. */
  lemma BreakingNewsRuns(revs: seq<Revision>)
    requires |revs| > 0
    ensures (exists c :: c in Kept(Runs(revs)) && Breaking(c))
      <==> exists k :: 0 <= k < |Runs(revs)| - 1 && Breaking(Runs(revs)[k])
  {
    var runs := Runs(revs);
    var front := runs[..|runs| - 1];
    LongerMembers(front);
    if exists k :: 0 <= k < |runs| - 1 && Breaking(runs[k]) {
      var k :| 0 <= k < |runs| - 1 && Breaking(runs[k]);
      assert front[k] == runs[k];
    }
  }
}
