// datagrowth/resources/http/tasks.py: the tasks that fetch HTTP resources and
// report which of them succeeded. `send` sorts the resources one call yields
// into successes and errors, `send_serie` makes one such call per pair of
// arguments, and `send_mass` may first concatenate the positional arguments
// into groups. The resources a call yields (`send_iterator`, which does the
// network traffic) are a function parameter here.

module HttpTasks {
  import opened Wrappers
  import opened Exceptions
  import opened Text

  /** What `send` reads from a yielded resource. */
  datatype Link = Link(id: nat, success: bool)

  type Args = seq<string>
  type Kwargs = map<string, string>

  // ------------------------------------------------------------------ send

  /** The ids of the successful resources, in order. */
  function SuccessIds(links: seq<Link>): (r: seq<nat>)
    ensures |r| <= |links|
  {
    if links == [] then []
    else SuccessIds(links[..|links| - 1]) + if links[|links| - 1].success then [links[|links| - 1].id] else []
  }

  /** The ids of the failed resources, in order. */
  function ErrorIds(links: seq<Link>): (r: seq<nat>)
    ensures |r| <= |links|
  {
    if links == [] then []
    else ErrorIds(links[..|links| - 1]) + if links[|links| - 1].success then [] else [links[|links| - 1].id]
  }

  /** `send`: every yielded resource lands in exactly one of the two lists,
      successes and errors each in the order they were yielded. */
  method Send(links: seq<Link>) returns (success: seq<nat>, errors: seq<nat>)
    ensures success == SuccessIds(links) && errors == ErrorIds(links)
  {
    success := [];
    errors := [];
    for i := 0 to |links|
      invariant success == SuccessIds(links[..i]) && errors == ErrorIds(links[..i])
    {
      assert links[..i + 1][..i] == links[..i];
      if links[i].success {
        success := success + [links[i].id];
      } else {
        errors := errors + [links[i].id];
      }
    }
    assert links[..|links|] == links;
  }

  /** The two lists partition the yielded ids. */
  lemma {:induction false} SendPartition(links: seq<Link>)
    ensures |SuccessIds(links)| + |ErrorIds(links)| == |links|
    ensures multiset(SuccessIds(links)) + multiset(ErrorIds(links)) == multiset(seq(|links|, k requires 0 <= k < |links| => links[k].id))
  {
    if links != [] {
      var init := links[..|links| - 1];
      SendPartition(init);
      assert seq(|links|, k requires 0 <= k < |links| => links[k].id)
          == seq(|init|, k requires 0 <= k < |init| => init[k].id) + [links[|links| - 1].id];
    }
  }

  /** A resource is listed as a success exactly when it succeeded. */
  lemma {:induction false} SuccessIdsMembers(links: seq<Link>, id: nat)
    ensures id in SuccessIds(links) <==> exists k :: 0 <= k < |links| && links[k].success && links[k].id == id
  {
    if links != [] {
      var init := links[..|links| - 1];
      SuccessIdsMembers(init, id);
      if exists k :: 0 <= k < |init| && init[k].success && init[k].id == id {
        var k :| 0 <= k < |init| && init[k].success && init[k].id == id;
        assert links[k] == init[k];
      }
      if exists k :: 0 <= k < |links| && links[k].success && links[k].id == id {
        var k :| 0 <= k < |links| && links[k].success && links[k].id == id;
        if k < |init| {
          assert init[k] == links[k];
        }
      }
    }
  }

  lemma {:induction false} SuccessIdsConcat(a: seq<Link>, b: seq<Link>)
    ensures SuccessIds(a + b) == SuccessIds(a) + SuccessIds(b)
    ensures ErrorIds(a + b) == ErrorIds(a) + ErrorIds(b)
    decreases |b|
  {
    if b == [] {
      assert a + b == a;
    } else {
      var init := b[..|b| - 1];
      assert (a + b)[..|a + b| - 1] == a + init;
      SuccessIdsConcat(a, init);
    }
  }

  // ------------------------------------------------------------ send_serie

  /** The resources of the first `n` calls, one after the other. */
  function SerieLinks(argsList: seq<Args>, kwargsList: seq<Kwargs>, fetch: (Args, Kwargs) -> seq<Link>, n: nat): seq<Link>
    requires n <= |argsList| && n <= |kwargsList|
  {
    if n == 0 then [] else SerieLinks(argsList, kwargsList, fetch, n - 1) + fetch(argsList[n - 1], kwargsList[n - 1])
  }

  /** `send_serie`: one `send` per pair of arguments and keyword arguments,
      as far as both lists go, the results concatenated in call order. */
  method SendSerie(argsList: seq<Args>, kwargsList: seq<Kwargs>, fetch: (Args, Kwargs) -> seq<Link>)
    returns (success: seq<nat>, errors: seq<nat>)
    ensures var n := if |argsList| < |kwargsList| then |argsList| else |kwargsList|;
      success == SuccessIds(SerieLinks(argsList, kwargsList, fetch, n))
      && errors == ErrorIds(SerieLinks(argsList, kwargsList, fetch, n))
  {
    var n := if |argsList| < |kwargsList| then |argsList| else |kwargsList|;
    success := [];
    errors := [];
    for i := 0 to n
      invariant success == SuccessIds(SerieLinks(argsList, kwargsList, fetch, i))
      invariant errors == ErrorIds(SerieLinks(argsList, kwargsList, fetch, i))
    {
      var links := fetch(argsList[i], kwargsList[i]);
      var scc, err := Send(links);
      SuccessIdsConcat(SerieLinks(argsList, kwargsList, fetch, i), links);
      success := success + scc;
      errors := errors + err;
    }
  }

  /** A serie over lists of different lengths makes the calls of the
      shorter one: the surplus is dropped. */
  lemma {:induction false} SerieLinksPrefix(argsList: seq<Args>, kwargsList: seq<Kwargs>, extra: seq<Args>, fetch: (Args, Kwargs) -> seq<Link>, n: nat)
    requires n <= |argsList| && n <= |kwargsList|
    ensures SerieLinks(argsList + extra, kwargsList, fetch, n) == SerieLinks(argsList, kwargsList, fetch, n)
  {
    if n > 0 {
      SerieLinksPrefix(argsList, kwargsList, extra, fetch, n - 1);
      assert (argsList + extra)[n - 1] == argsList[n - 1];
    }
  }

  // ------------------------------------------------------------- send_mass

  function Min(a: int, b: int): int
  {
    if a < b then a else b
  }

  /** `args_list[index*size:index*size+size]`, clamped like a Python
      slice. */
  function Slice(argsList: seq<Args>, size: nat, index: nat): (r: seq<Args>)
    ensures |r| <= size
  {
    argsList[Min(index * size, |argsList|)..Min(index * size + size, |argsList|)]
  }

  /** One group: every argument list joined by the symbol, and those joined
      by the symbol again. */
  function JoinedGroup(slice: seq<Args>, symbol: string): string
  {
    Join(seq(|slice|, k requires 0 <= k < |slice| => Join(slice[k], symbol)), symbol)
  }

  /** The arguments `send_mass` hands on when it makes `count` groups. */
  function Groups(argsList: seq<Args>, size: nat, symbol: string, count: nat): (r: seq<Args>)
    ensures |r| == count
    ensures forall i :: 0 <= i < count ==> r[i] == [JoinedGroup(Slice(argsList, size, i), symbol)]
  {
    seq(count, i requires 0 <= i < count => [JoinedGroup(Slice(argsList, size, i), symbol)])
  }

  /** The concatenation loop of `send_mass`, for a given number of groups. */
  method ConcatArguments(argsList: seq<Args>, kwargsList: seq<Kwargs>, size: nat, symbol: string, count: nat)
    returns (prcArgs: seq<Args>, prcKwargs: seq<Kwargs>)
    requires |kwargsList| > 0
    ensures prcArgs == Groups(argsList, size, symbol, count)
    ensures prcKwargs == seq(count, _ => kwargsList[0])
  {
    prcArgs := [];
    prcKwargs := [];
    for index := 0 to count
      invariant |prcArgs| == index && |prcKwargs| == index
      invariant forall i :: 0 <= i < index ==> prcArgs[i] == [JoinedGroup(Slice(argsList, size, i), symbol)]
      invariant forall i :: 0 <= i < index ==> prcKwargs[i] == kwargsList[0]
    {
      var argsSlice := argsList[Min(index * size, |argsList|)..Min(index * size + size, |argsList|)];
      var joinedSlice: seq<string> := [];
      for k := 0 to |argsSlice|
        invariant joinedSlice == seq(k, j requires 0 <= j < k => Join(argsSlice[j], symbol))
      {
        joinedSlice := joinedSlice + [Join(argsSlice[k], symbol)];
      }
      prcArgs := prcArgs + [[Join(joinedSlice, symbol)]];
      prcKwargs := prcKwargs + [kwargsList[0]];
    }
  }

  /** The number of groups `send_mass` makes: `int(len(args_list) / size) + 1`. */
  function GroupCountAsWritten(n: nat, size: nat): (r: nat)
    requires size > 0
  {
    n / size + 1
  }

  /** The number of groups that covers the arguments with no group left
      empty: the ceiling of `n / size`. */
  function GroupCount(n: nat, size: nat): (r: nat)
    requires size > 0
  {
    if n % size == 0 then n / size else n / size + 1
  }

  lemma {:induction false} MulMonotone(a: nat, b: nat, size: nat)
    requires a <= b
    ensures a * size <= b * size
    decreases b - a
  {
    if a < b {
      MulMonotone(a, b - 1, size);
      assert b * size == (b - 1) * size + size;
    }
  }

  /** The corrected count covers the arguments, and every group it makes
      starts before their end. */
  lemma GroupCountBounds(n: nat, size: nat)
    requires size > 0
    ensures n <= GroupCount(n, size) * size
    ensures forall i: nat :: i < GroupCount(n, size) ==> i * size < n
  {
    var q := n / size;
    var m := n % size;
    assert n == q * size + m;
    assert (q + 1) * size == q * size + size;
    forall i: nat | i < GroupCount(n, size)
      ensures i * size < n
    {
      if m == 0 {
        MulMonotone(i, q - 1, size);
        assert (q - 1) * size == q * size - size;
      } else {
        MulMonotone(i, q, size);
      }
    }
  }

  /** The arguments of the first `count` groups, one after the other. */
  function Covered(argsList: seq<Args>, size: nat, count: nat): seq<Args>
  {
    if count == 0 then [] else Covered(argsList, size, count - 1) + Slice(argsList, size, count - 1)
  }

  lemma {:induction false} CoveredPrefix(argsList: seq<Args>, size: nat, count: nat)
    ensures Covered(argsList, size, count) == argsList[..Min(count * size, |argsList|)]
  {
    if count > 0 {
      CoveredPrefix(argsList, size, count - 1);
      var lo := Min((count - 1) * size, |argsList|);
      var hi := Min(count * size, |argsList|);
      assert (count - 1) * size + size == count * size;
      assert argsList[..hi] == argsList[..lo] + argsList[lo..hi];
    }
  }

  /** With the corrected count the groups take every argument list exactly
      once, in order, and none of them is empty. */
  lemma GroupsPartition(argsList: seq<Args>, size: nat)
    requires size > 0
    ensures Covered(argsList, size, GroupCount(|argsList|, size)) == argsList
    ensures forall i :: 0 <= i < GroupCount(|argsList|, size) ==> Slice(argsList, size, i) != []
  {
    var count := GroupCount(|argsList|, size);
    GroupCountBounds(|argsList|, size);
    CoveredPrefix(argsList, size, count);
    assert argsList[..|argsList|] == argsList;
  }

  /** As written, the count is one too many exactly when the arguments
      divide evenly into groups. */
  lemma GroupCountDiscrepancy(n: nat, size: nat)
    requires size > 0
    ensures GroupCountAsWritten(n, size) == GroupCount(n, size) <==> n % size != 0
    ensures n % size == 0 ==> GroupCountAsWritten(n, size) == GroupCount(n, size) + 1
  {
  }

  /** As written, the last group of evenly dividing arguments takes no
      argument at all: it becomes one request with an empty argument. */
  lemma AsWrittenEmptyGroup(argsList: seq<Args>, size: nat, symbol: string)
    requires size > 0 && |argsList| % size == 0
    ensures var r := Groups(argsList, size, symbol, GroupCountAsWritten(|argsList|, size));
      r[|r| - 1] == [""]
  {
    var n := |argsList|;
    assert n == (n / size) * size;
    assert Slice(argsList, size, n / size) == [];
  }

  /** Three argument lists in groups of three: two groups as written, the
      second of them empty. */
  lemma AsWrittenExample()
    ensures Groups([["1"], ["2"], ["3"]], 3, "|", GroupCountAsWritten(3, 3)) == [["1|2|3"], [""]]
  {
    var argsList: seq<Args> := [["1"], ["2"], ["3"]];
    assert Slice(argsList, 3, 0) == argsList;
    assert Slice(argsList, 3, 1) == [];
    var joined := seq(3, k requires 0 <= k < 3 => Join(argsList[k], "|"));
    assert joined == ["1", "2", "3"];
    assert joined[1..][1..] == ["3"];
    assert Join(joined[1..], "|") == "2|3";
    assert Join(joined, "|") == "1|2|3";
    assert JoinedGroup(Slice(argsList, 3, 0), "|") == "1|2|3";
    assert JoinedGroup(Slice(argsList, 3, 1), "|") == "";
  }

  /** `send_mass`: both lists have to be non-empty. With a group size the
      positional arguments are concatenated into groups, each with the first
      keyword arguments; without one both lists pass through. The result is
      what `send_serie` then gets. This uses the corrected group count. */
  method SendMass(argsList: seq<Args>, kwargsList: seq<Kwargs>, size: nat, symbol: string)
    returns (r: Result<(seq<Args>, seq<Kwargs>), Exception>)
    ensures r.Err? <==> argsList == [] || kwargsList == []
    ensures r.Err? ==> r.error == AssertionError
    ensures r.Ok? && size == 0 ==> r.value == (argsList, kwargsList)
    ensures r.Ok? && size > 0 ==> (r.value.0 == Groups(argsList, size, symbol, GroupCount(|argsList|, size))
                                   && r.value.1 == seq(GroupCount(|argsList|, size), _ => kwargsList[0]))
  {
    if argsList == [] || kwargsList == [] {
      return Err(AssertionError);
    }
    if size == 0 {
      return Ok((argsList, kwargsList));
    }
    var prcArgs, prcKwargs := ConcatArguments(argsList, kwargsList, size, symbol, GroupCount(|argsList|, size));
    r := Ok((prcArgs, prcKwargs));
  }

  /** `send_mass` as written, with `int(len(args_list) / size) + 1` groups. */
  method SendMassAsWritten(argsList: seq<Args>, kwargsList: seq<Kwargs>, size: nat, symbol: string)
    returns (r: Result<(seq<Args>, seq<Kwargs>), Exception>)
    ensures r.Err? <==> argsList == [] || kwargsList == []
    ensures r.Err? ==> r.error == AssertionError
    ensures r.Ok? && size == 0 ==> r.value == (argsList, kwargsList)
    ensures r.Ok? && size > 0 ==> (r.value.0 == Groups(argsList, size, symbol, GroupCountAsWritten(|argsList|, size))
                                   && r.value.1 == seq(GroupCountAsWritten(|argsList|, size), _ => kwargsList[0]))
  {
    if argsList == [] || kwargsList == [] {
      return Err(AssertionError);
    }
    if size == 0 {
      return Ok((argsList, kwargsList));
    }
    var prcArgs, prcKwargs := ConcatArguments(argsList, kwargsList, size, symbol, GroupCountAsWritten(|argsList|, size));
    r := Ok((prcArgs, prcKwargs));
  }
}
