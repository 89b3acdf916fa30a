/** src/utils.js: `sortByKey`, which sorts an array in place by one key with
    a three-way comparator, and the masking of long tokens in the command
    line that `executeSyncCmd` logs. */
module Utils {
  import opened Text

  // ---------------------------------------------------------------------
  // sortByKey

  /** The comparator: -1, 1 or 0 as `x < y`, `x > y` or neither. */
  function Compare(x: int, y: int): (c: int)
    ensures c in {-1, 0, 1}
    ensures c < 0 <==> x < y
    ensures c > 0 <==> x > y
    ensures c == 0 <==> x == y
  {
    if x < y then -1 else if x > y then 1 else 0
  }

  /** Non-decreasing key order. */
  predicate SortedByKey<T>(s: seq<T>, key: T -> int) {
    forall p, q :: 0 <= p < q < |s| ==> key(s[p]) <= key(s[q])
  }

  /** The elements whose key is `k`, in their order in `s`. */
  function Filter<T>(s: seq<T>, key: T -> int, k: int): (f: seq<T>)
    ensures |f| <= |s|
    ensures forall i :: 0 <= i < |f| ==> key(f[i]) == k && f[i] in s
    decreases |s|
  {
    if |s| == 0 then []
    else if key(s[0]) == k then [s[0]] + Filter(s[1..], key, k)
    else Filter(s[1..], key, k)
  }

  /** Filtering distributes over concatenation. */
  lemma {:induction false} FilterAppend<T>(a: seq<T>, b: seq<T>, key: T -> int, k: int)
    ensures Filter(a + b, key, k) == Filter(a, key, k) + Filter(b, key, k)
    decreases |a|
  {
    if |a| == 0 {
      assert a + b == b;
    } else {
      assert (a + b)[0] == a[0];
      assert (a + b)[1..] == a[1..] + b;
      FilterAppend(a[1..], b, key, k);
    }
  }

  /** Swapping two neighbours with different keys keeps every key's
      subsequence: it is the only step of the sort, so the sort is stable. */
  lemma SwapKeepsFilters<T>(s: seq<T>, j: int, key: T -> int)
    requires 0 < j < |s| && key(s[j - 1]) != key(s[j])
    ensures forall k :: Filter(s[j - 1 := s[j]][j := s[j - 1]], key, k) == Filter(s, key, k)
  {
    var t := s[j - 1 := s[j]][j := s[j - 1]];
    var pre, post := s[..j - 1], s[j + 1..];
    assert s == pre + ([s[j - 1]] + [s[j]]) + post;
    assert t == pre + ([s[j]] + [s[j - 1]]) + post;
    forall k ensures Filter(t, key, k) == Filter(s, key, k) {
      FilterAppend(pre + ([s[j - 1]] + [s[j]]), post, key, k);
      FilterAppend(pre, [s[j - 1]] + [s[j]], key, k);
      FilterAppend([s[j - 1]], [s[j]], key, k);
      FilterAppend(pre + ([s[j]] + [s[j - 1]]), post, key, k);
      FilterAppend(pre, [s[j]] + [s[j - 1]], key, k);
      FilterAppend([s[j]], [s[j - 1]], key, k);
    }
  }

  /** Every key keeps its subsequence: what a stable reordering leaves alone. */
  ghost predicate SameKeyOrder<T>(s: seq<T>, t: seq<T>, key: T -> int) {
    forall k :: Filter(s, key, k) == Filter(t, key, k)
  }

  /** A swap of neighbours with different keys, as one step from `orig`:
      the permutation and every key's subsequence carry over. */
  lemma SwapStep<T>(before: seq<T>, after: seq<T>, orig: seq<T>, j: int, key: T -> int)
    requires 0 < j < |before| && key(before[j - 1]) != key(before[j])
    requires after == before[j - 1 := before[j]][j := before[j - 1]]
    requires multiset(before) == multiset(orig) && SameKeyOrder(before, orig, key)
    ensures multiset(after) == multiset(orig) && SameKeyOrder(after, orig, key)
  {
    SwapKeepsFilters(before, j, key);
  }

  /** The first `i + 1` keys are in order, except possibly at the hole `j`,
      whose element may still be smaller than those before it. */
  predicate SortedExceptAt<T>(s: seq<T>, i: int, j: int, key: T -> int)
    requires 0 <= i < |s|
  {
    forall p, q :: 0 <= p < q <= i && q != j ==> key(s[p]) <= key(s[q])
  }

  /** Swapping the element at the hole with a strictly greater left
      neighbour moves the hole one place to the left. */
  lemma SiftStep<T>(before: seq<T>, after: seq<T>, i: int, j: int, key: T -> int)
    requires 0 < j <= i < |before| && key(before[j - 1]) > key(before[j])
    requires after == before[j - 1 := before[j]][j := before[j - 1]]
    requires SortedExceptAt(before, i, j, key)
    ensures SortedExceptAt(after, i, j - 1, key)
  {
  }

  /** One pass of the sort: the element at `i` moves left past the strictly
      greater keys before it, so `a[..i + 1]` becomes sorted. */
  method SiftLeft<T>(a: array<T>, i: int, key: T -> int)
    requires 0 <= i < a.Length
    requires forall p, q :: 0 <= p < q < i ==> key(a[p]) <= key(a[q])
    modifies a
    ensures forall p, q :: 0 <= p < q <= i ==> key(a[p]) <= key(a[q])
    ensures multiset(a[..]) == multiset(old(a[..]))
    ensures SameKeyOrder(a[..], old(a[..]), key)
  {
    var j := i;
    while j > 0 && Compare(key(a[j - 1]), key(a[j])) > 0
      invariant 0 <= j <= i
      invariant SortedExceptAt(a[..], i, j, key)
      invariant multiset(a[..]) == multiset(old(a[..]))
      invariant SameKeyOrder(a[..], old(a[..]), key)
    {
      ghost var before := a[..];
      a[j - 1], a[j] := a[j], a[j - 1];
      SwapStep(before, a[..], old(a[..]), j, key);
      SiftStep(before, a[..], i, j, key);
      j := j - 1;
    }
  }

  /** `sortByKey`: `array.sort` with the three-way comparator on `key`
      reorders the caller's array in place and returns that same array. The
      built-in sort is stable; this one moves an element left past strictly
      greater neighbours only. */
  method SortByKey<T>(a: array<T>, key: T -> int) returns (r: array<T>)
    modifies a
    ensures r == a
    ensures SortedByKey(a[..], key)
    ensures multiset(a[..]) == multiset(old(a[..]))
    ensures SameKeyOrder(a[..], old(a[..]), key)
  {
    var i := 0;
    while i < a.Length
      invariant 0 <= i <= a.Length
      invariant forall p, q :: 0 <= p < q < i ==> key(a[p]) <= key(a[q])
      invariant multiset(a[..]) == multiset(old(a[..]))
      invariant SameKeyOrder(a[..], old(a[..]), key)
    {
      SiftLeft(a, i, key);
      i := i + 1;
    }
    r := a;
  }

  /** There is one stable sorted order: two sorted sequences with the same
      subsequence for every key are equal. So the sort above leaves the array
      exactly as the built-in stable sort does. */
  lemma {:induction false} StableSortUnique<T>(s: seq<T>, t: seq<T>, key: T -> int)
    requires SortedByKey(s, key) && SortedByKey(t, key)
    requires SameKeyOrder(s, t, key)
    ensures s == t
    decreases |s| + |t|
  {
    if |s| > 0 {
      assert Filter(s, key, key(s[0])) == [s[0]] + Filter(s[1..], key, key(s[0]));
    }
    if |t| > 0 {
      assert Filter(t, key, key(t[0])) == [t[0]] + Filter(t[1..], key, key(t[0]));
    }
    if |s| == 0 || |t| == 0 {
    } else {
      var a, b := key(s[0]), key(t[0]);
      var fa := Filter(t, key, a);
      assert Filter(s, key, a)[0] == s[0];
      assert fa[0] in t;
      var i :| 0 <= i < |t| && t[i] == fa[0];
      assert b <= a;
      var fb := Filter(s, key, b);
      assert Filter(t, key, b)[0] == t[0];
      assert fb[0] in s;
      var i' :| 0 <= i' < |s| && s[i'] == fb[0];
      assert a <= b;
      assert s[0] == t[0];
      forall k ensures Filter(s[1..], key, k) == Filter(t[1..], key, k) {
        assert Filter(s, key, k) == Filter(t, key, k);
        if k == a {
          assert Filter(s, key, k) == [s[0]] + Filter(s[1..], key, k);
          assert Filter(t, key, k) == [t[0]] + Filter(t[1..], key, k);
          assert Filter(s[1..], key, k) == Filter(s, key, k)[1..];
          assert Filter(t[1..], key, k) == Filter(t, key, k)[1..];
        } else {
          assert Filter(s, key, k) == Filter(s[1..], key, k);
          assert Filter(t, key, k) == Filter(t[1..], key, k);
        }
      }
      StableSortUnique(s[1..], t[1..], key);
      assert s == [s[0]] + s[1..];
      assert t == [t[0]] + t[1..];
    }
  }

  // ---------------------------------------------------------------------
  // Token masking in the command log

  /** The length from which the logged command line masks a run of letters
      and digits. */
  const TokenMinLength := 200
  const TokenMark := "**TOKEN**"

  /** The maximal run of ASCII letters and digits at the start of `s`. */
  function AlnumRun(s: string): (run: string)
    ensures |run| <= |s| && run == s[..|run|]
    ensures forall k :: 0 <= k < |run| ==> IsAlnum(run[k])
    ensures |run| < |s| ==> !IsAlnum(s[|run|])
    decreases |s|
  {
    if |s| == 0 || !IsAlnum(s[0]) then "" else [s[0]] + AlnumRun(s[1..])
  }

  /** No 200 consecutive ASCII letters and digits: the run starting at any
      position is shorter. */
  predicate NoLongRun(s: string) {
    forall i :: 0 <= i < |s| ==> |AlnumRun(s[i..])| < TokenMinLength
  }

  /** A run that stops before the end of `x`, or at a non-alphanumeric start
      of `y`, is not lengthened by appending `y`. */
  lemma {:induction false} AlnumRunAppend(x: string, y: string)
    requires |AlnumRun(x)| < |x| || |y| == 0 || !IsAlnum(y[0])
    ensures AlnumRun(x + y) == AlnumRun(x)
    decreases |x|
  {
    if |x| == 0 {
      assert x + y == y;
    } else if IsAlnum(x[0]) {
      assert (x + y)[0] == x[0];
      assert (x + y)[1..] == x[1..] + y;
      AlnumRunAppend(x[1..], y);
    } else {
      assert (x + y)[0] == x[0];
    }
  }

  /** `.replace(/[0-9a-zA-Z]{200,}(==)?/g, "**TOKEN**")`, scanning left to
      right: a maximal run of 200 or more letters and digits, with a "=="
      right after it, becomes the mark; a shorter run cannot match from any
      of its positions and is copied. Every character of the result comes
      from the input or from the mark. */
  function Mask(s: string): (r: string)
    ensures forall c :: c in r ==> c in s || c in TokenMark
    ensures |s| > 0 && !IsAlnum(s[0]) ==> |r| > 0 && r[0] == s[0]
    decreases |s|
  {
    if |s| == 0 then ""
    else if !IsAlnum(s[0]) then [s[0]] + Mask(s[1..])
    else
      var run := AlnumRun(s);
      var rest := s[|run|..];
      if |run| >= TokenMinLength then
        var after := if StartsWith(rest, "==") then rest[2..] else rest;
        TokenMark + Mask(after)
      else run + Mask(rest)
  }

  /** `params.toString().replace(/,/g, " ")`, then the masking: the text
      the log line shows for the parameters, which holds no comma and no run
      of the token length. */
  function MaskedParams(params: seq<string>): (r: string)
    ensures ',' !in r
    ensures NoLongRun(r)
  {
    MaskLeavesNoLongRun(ReplaceCommas(Join(params, ',')));
    Mask(ReplaceCommas(Join(params, ',')))
  }

  function ReplaceCommas(s: string): (r: string)
    ensures |r| == |s| && ',' !in r
    ensures forall k :: 0 <= k < |s| && s[k] != ',' ==> r[k] == s[k]
  {
    seq(|s|, k requires 0 <= k < |s| => if s[k] == ',' then ' ' else s[k])
  }

  /** A suffix of a string without long runs has none. */
  lemma NoLongRunSuffix(s: string, n: nat)
    requires NoLongRun(s) && n <= |s|
    ensures NoLongRun(s[n..])
  {
    forall i | 0 <= i < |s[n..]| ensures |AlnumRun(s[n..][i..])| < TokenMinLength {
      assert s[n..][i..] == s[n + i..];
    }
  }

  /** Runs do not join across a non-alphanumeric character at the seam. */
  lemma NoLongRunAppend(a: string, b: string)
    requires NoLongRun(a) && NoLongRun(b)
    requires (|a| > 0 && !IsAlnum(a[|a| - 1])) || |b| == 0 || !IsAlnum(b[0])
    ensures NoLongRun(a + b)
  {
    var s := a + b;
    forall i | 0 <= i < |s| ensures |AlnumRun(s[i..])| < TokenMinLength {
      if i < |a| {
        assert s[i..] == a[i..] + b;
        if |a| > 0 && !IsAlnum(a[|a| - 1]) {
          var x := a[i..];
          assert x[|x| - 1] == a[|a| - 1];
          if |AlnumRun(x)| == |x| {
            assert AlnumRun(x)[|x| - 1] == x[|x| - 1];
          }
        }
        AlnumRunAppend(a[i..], b);
      } else {
        assert s[i..] == b[i - |a|..];
      }
    }
  }

  /** No run of 200 or more letters and digits survives the masking. */
  lemma {:induction false} MaskLeavesNoLongRun(s: string)
    ensures NoLongRun(Mask(s))
    decreases |s|
  {
    if |s| == 0 {
    } else if !IsAlnum(s[0]) {
      MaskLeavesNoLongRun(s[1..]);
      NoLongRunAppend([s[0]], Mask(s[1..]));
    } else {
      var run := AlnumRun(s);
      var rest := s[|run|..];
      if |run| >= TokenMinLength {
        var after := if StartsWith(rest, "==") then rest[2..] else rest;
        MaskLeavesNoLongRun(after);
        assert TokenMark[|TokenMark| - 1] == '*';
        NoLongRunAppend(TokenMark, Mask(after));
      } else {
        MaskLeavesNoLongRun(rest);
        NoLongRunAppend(run, Mask(rest));
      }
    }
  }

  /** The masking copies a leading character that is not a letter or digit. */
  lemma MaskOfSeparator(s: string)
    requires |s| > 0 && !IsAlnum(s[0])
    ensures Mask(s) == [s[0]] + Mask(s[1..])
  {
  }

  /** The masking copies a leading run shorter than the token length. */
  lemma MaskOfShortRun(s: string)
    requires |s| > 0 && IsAlnum(s[0]) && |AlnumRun(s)| < TokenMinLength
    ensures Mask(s) == AlnumRun(s) + Mask(s[|AlnumRun(s)|..])
  {
  }

  /** The masking replaces a leading run of the token length or more, and a
      "==" right after it, by the mark, and goes on after them. */
  lemma MaskOfLongRun(s: string)
    requires |s| > 0 && IsAlnum(s[0]) && |AlnumRun(s)| >= TokenMinLength
    ensures var rest := s[|AlnumRun(s)|..];
      Mask(s) == TokenMark + Mask(if StartsWith(rest, "==") then rest[2..] else rest)
  {
  }

  /** On a text without long runs the masking changes nothing. */
  lemma {:induction false} MaskKeepsShortRuns(s: string)
    requires NoLongRun(s)
    ensures Mask(s) == s
    decreases |s|, 1
  {
    if |s| == 0 {
    } else if !IsAlnum(s[0]) {
      KeepsAfterSeparator(s);
    } else {
      KeepsAfterShortRun(s);
    }
  }

  lemma {:induction false} KeepsAfterSeparator(s: string)
    requires NoLongRun(s) && |s| > 0 && !IsAlnum(s[0])
    ensures Mask(s) == s
    decreases |s|, 0
  {
    MaskOfSeparator(s);
    NoLongRunSuffix(s, 1);
    MaskKeepsShortRuns(s[1..]);
    assert s == [s[0]] + s[1..];
  }

  lemma {:induction false} KeepsAfterShortRun(s: string)
    requires NoLongRun(s) && |s| > 0 && IsAlnum(s[0])
    ensures Mask(s) == s
    decreases |s|, 0
  {
    var run := AlnumRun(s);
    assert s[0..] == s;
    MaskOfShortRun(s);
    var rest := s[|run|..];
    NoLongRunSuffix(s, |run|);
    MaskKeepsShortRuns(rest);
    assert s == run + rest;
  }

  /** The masking leaves a text unchanged exactly when it has no long run. */
  lemma MaskFixedIff(s: string)
    ensures Mask(s) == s <==> NoLongRun(s)
  {
    MaskLeavesNoLongRun(s);
    if NoLongRun(s) {
      MaskKeepsShortRuns(s);
    }
  }

  /** Masking twice is masking once. */
  lemma MaskIdempotent(s: string)
    ensures Mask(Mask(s)) == Mask(s)
  {
    MaskLeavesNoLongRun(s);
    MaskKeepsShortRuns(Mask(s));
  }

  /** Parameters without commas and without long runs are logged joined by
      single spaces. */
  lemma {:induction false} MaskedParamsOfPlainParams(params: seq<string>)
    requires forall i :: 0 <= i < |params| ==> ',' !in params[i]
    requires NoLongRun(Join(params, ' '))
    ensures MaskedParams(params) == Join(params, ' ')
  {
    ReplaceCommasJoin(params);
    MaskKeepsShortRuns(Join(params, ' '));
  }

  /** Replacing the commas of a comma join of comma-free pieces gives the
      space join. */
  lemma {:induction false} ReplaceCommasJoin(params: seq<string>)
    requires forall i :: 0 <= i < |params| ==> ',' !in params[i]
    ensures ReplaceCommas(Join(params, ',')) == Join(params, ' ')
    decreases |params|
  {
    if |params| <= 1 {
      if |params| == 1 {
        assert forall k :: 0 <= k < |params[0]| ==> params[0][k] != ',';
      }
    } else {
      ReplaceCommasJoin(params[1..]);
      var tail := Join(params[1..], ',');
      var whole := Join(params, ',');
      assert whole == params[0] + [','] + tail;
      assert forall k :: 0 <= k < |params[0]| ==> params[0][k] != ',';
      ReplaceCommasAppend(params[0] + [','], tail);
      ReplaceCommasAppend(params[0], [',']);
    }
  }

  /** Replacing commas works piece by piece. */
  lemma ReplaceCommasAppend(a: string, b: string)
    ensures ReplaceCommas(a + b) == ReplaceCommas(a) + ReplaceCommas(b)
  {
    var l, r := ReplaceCommas(a + b), ReplaceCommas(a) + ReplaceCommas(b);
    forall k | 0 <= k < |l| ensures l[k] == r[k] {
      if k < |a| {
        assert (a + b)[k] == a[k];
      } else {
        assert (a + b)[k] == b[k - |a|];
      }
    }
  }
}
