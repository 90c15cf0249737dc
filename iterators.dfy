// `ibatch` of datagrowth/utils/iterators.py: an iterable cut into lists of a
// constant size, with an optional progress bar that counts the batches. The
// generator is modelled as the method that runs it to exhaustion and returns
// every batch it yields, in order.

module Iterators {
  import opened Wrappers
  import opened Exceptions

  /** The batches `ibatch` yields for a positive batch size: consecutive
      slices of `size` elements, the last one shorter when the size does not
      divide the length. */
  function Batches<T>(s: seq<T>, size: nat): seq<seq<T>>
    requires size > 0
    decreases |s|
  {
    if s == [] then []
    else if |s| <= size then [s]
    else [s[..size]] + Batches(s[size..], size)
  }

  function Concat<T>(ss: seq<seq<T>>): seq<T>
  {
    if ss == [] then [] else ss[0] + Concat(ss[1..])
  }

  /** Joining the batches back together gives the input, in order. */
  lemma {:induction false} BatchesConcat<T>(s: seq<T>, size: nat)
    requires size > 0
    ensures Concat(Batches(s, size)) == s
    decreases |s|
  {
    if s != [] && |s| > size {
      BatchesConcat(s[size..], size);
      assert [s[..size]] + Batches(s[size..], size) == Batches(s, size);
      assert s[..size] + s[size..] == s;
    }
  }

  /** Every batch but the last holds exactly `size` elements, and no batch is
      empty or larger than `size`. */
  lemma {:induction false} BatchesSizes<T>(s: seq<T>, size: nat)
    requires size > 0
    ensures var b := Batches(s, size);
      (forall k :: 0 <= k < |b| ==> 0 < |b[k]| <= size)
      && (forall k :: 0 <= k < |b| - 1 ==> |b[k]| == size)
    decreases |s|
  {
    if s != [] && |s| > size {
      BatchesSizes(s[size..], size);
      var b := Batches(s, size);
      assert b == [s[..size]] + Batches(s[size..], size);
      forall k | 0 < k < |b| ensures b[k] == Batches(s[size..], size)[k - 1] { }
    }
  }

  /** Division by a positive number is determined by quotient and rest. */
  lemma DivUnique(a: int, b: int, q: int, r: int)
    requires b > 0 && a == b * q + r && 0 <= r < b
    ensures a / b == q
  {
    var d := q - a / b;
    assert b * d == a % b - r;
    assert d >= 1 ==> b * d >= b;
    assert d <= -1 ==> b * d <= -b;
  }

  /** The batches cover the input with fewer than `size` elements to spare. */
  lemma {:induction false} BatchesBounds<T>(s: seq<T>, size: nat)
    requires size > 0
    ensures var c := |Batches(s, size)|;
      (s == [] ==> c == 0) && (s != [] ==> (c - 1) * size < |s| <= c * size)
    decreases |s|
  {
    if s != [] && |s| > size {
      BatchesBounds(s[size..], size);
      var c := |Batches(s[size..], size)|;
      assert |Batches(s, size)| == c + 1;
      assert (c + 1 - 1) * size == (c - 1) * size + size;
      assert (c + 1) * size == c * size + size;
    }
  }

  /** There are ceil(n / size) batches. */
  lemma BatchesCount<T>(s: seq<T>, size: nat)
    requires size > 0
    ensures |Batches(s, size)| == (|s| + size - 1) / size
  {
    BatchesBounds(s, size);
    var c := |Batches(s, size)|;
    if s == [] {
      DivUnique(size - 1, size, 0, size - 1);
    } else {
      DivUnique(|s| + size - 1, size, c, |s| + size - 1 - size * c);
    }
  }

  /** Python's `//` and `%` (floor division) for a non-zero divisor. */
  function FloorDiv(a: int, b: int): (q: int)
    requires b != 0
    ensures b * q <= a < b * q + b || b * q + b < a <= b * q
  {
    if b > 0 then a / b else (-a) / (-b)
  }

  /** The remainder takes the divisor's sign and completes the division. */
  function FloorMod(a: int, b: int): (m: int)
    requires b != 0
    ensures a == b * FloorDiv(a, b) + m
    ensures b > 0 ==> 0 <= m < b
    ensures b < 0 ==> b < m <= 0
  {
    a - b * FloorDiv(a, b)
  }

  /** A tqdm progress bar: its total (none when sized without a total), how
      often it was advanced and whether it was closed. */
  datatype ProgressBar = ProgressBar(total: Option<int>, updates: nat, closed: bool)

  /** The progress bar `ibatch` sets up before the first batch: none unless
      asked for; without a (truthy) total an open-ended bar; with one a bar
      of floor(total / size) batches plus one when there is a remainder. */
  function InitialBar(batchSize: int, progressBar: bool, total: Option<int>): (r: Result<Option<ProgressBar>, Exception>)
    ensures r.Err? <==> progressBar && total.Some? && total.value != 0 && batchSize == 0
    ensures r.Ok? && r.value.Some? ==> r.value.value.updates == 0 && !r.value.value.closed
    ensures r.Ok? ==> (r.value.Some? <==> progressBar)
  {
    if !progressBar then Ok(None)
    else if total.None? || total.value == 0 then Ok(Some(ProgressBar(None, 0, false)))
    else if batchSize == 0 then Err(ZeroDivisionError)
    else
      var batches := FloorDiv(total.value, batchSize);
      var batches := if FloorMod(total.value, batchSize) != 0 then batches + 1 else batches;
      Ok(Some(ProgressBar(Some(batches), 0, false)))
  }

  /** With a positive batch size and the length of the input as total, the
      bar is sized to exactly the number of batches yielded. */
  lemma BarMatchesBatches<T>(s: seq<T>, batchSize: nat)
    requires batchSize > 0 && |s| > 0
    ensures InitialBar(batchSize, true, Some(|s|)) == Ok(Some(ProgressBar(Some(|Batches(s, batchSize)|), 0, false)))
  {
    BatchesCount(s, batchSize);
    CeilingDiv(|s|, batchSize);
  }

  /** Floor division plus one for a remainder is the ceiling (n + b - 1) / b. */
  lemma CeilingDiv(n: nat, b: nat)
    requires b > 0
    ensures FloorDiv(n, b) + (if FloorMod(n, b) != 0 then 1 else 0) == (n + b - 1) / b
  {
    var q, m := n / b, n % b;
    assert FloorDiv(n, b) == q && FloorMod(n, b) == m;
    if m == 0 {
      DivUnique(n + b - 1, b, q, b - 1);
    } else {
      assert n + b - 1 == b * (q + 1) + (m - 1);
      DivUnique(n + b - 1, b, q + 1, m - 1);
    }
  }

  /** `ibatch` run to exhaustion: the batches it yields and the final state
      of its progress bar. A negative size makes `islice` raise ValueError
      before anything is yielded; a zero size yields nothing. */
  method IBatch<T>(items: seq<T>, batchSize: int, progressBar: bool, total: Option<int>)
    returns (r: Result<seq<seq<T>>, Exception>, bar: Option<ProgressBar>)
    ensures batchSize < 0 ==> r == Err(ValueError) || (r == Err(ZeroDivisionError) && InitialBar(batchSize, progressBar, total).Err?)
    ensures InitialBar(batchSize, progressBar, total).Err? ==> r == Err(ZeroDivisionError) && bar.None?
    ensures InitialBar(batchSize, progressBar, total).Ok? && batchSize == 0 ==> r == Ok([])
    ensures InitialBar(batchSize, progressBar, total).Ok? && batchSize > 0 ==> r == Ok(Batches(items, batchSize))
    ensures r.Ok? ==> bar.Some? == progressBar
    ensures r.Ok? && bar.Some? ==> (bar.value.closed && bar.value.updates == |r.value|
      && bar.value.total == InitialBar(batchSize, progressBar, total).value.value.total)
  {
    var init := InitialBar(batchSize, progressBar, total);
    if init.Err? {
      return Err(ZeroDivisionError), None;
    }
    bar := init.value;
    if batchSize < 0 {
      return Err(ValueError), bar;
    }
    var out: seq<seq<T>> := [];
    if batchSize == 0 {
      if bar.Some? { bar := Some(bar.value.(closed := true)); }
      return Ok(out), bar;
    }
    var i := 0;
    while i < |items|
      invariant 0 <= i <= |items|
      invariant out + Batches(items[i..], batchSize) == Batches(items, batchSize)
      invariant bar.Some? == progressBar && (bar.Some? ==> bar.value == init.value.value.(updates := |out|))
      decreases |items| - i
    {
      var j := if i + batchSize <= |items| then i + batchSize else |items|;
      var batch := items[i..j];
      assert Batches(items[i..], batchSize) == [batch] + Batches(items[j..], batchSize) by {
        if |items[i..]| <= batchSize { assert items[j..] == [] && batch == items[i..]; }
        else { assert items[i..][batchSize..] == items[j..] && items[i..][..batchSize] == batch; }
      }
      out := out + [batch];
      if bar.Some? { bar := Some(bar.value.(updates := bar.value.updates + 1)); }
      i := j;
    }
    assert items[i..] == [] && out + Batches(items[i..], batchSize) == out;
    if bar.Some? { bar := Some(bar.value.(closed := true)); }
    r := Ok(out);
  }
}
