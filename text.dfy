/** String helpers shared by every report evaluator and builder: character
    classes, prefix and substring tests, `split`/`join`, the first run of
    decimal digits (what `s.match(/\d+/)` yields without the g flag), and
    the output of `grep '^prefix' file`. */
module Text {
  import opened Wrappers

  predicate IsDigit(c: char) { '0' <= c <= '9' }

  /** The class `[0-9a-zA-Z]`. */
  predicate IsAlnum(c: char) { IsDigit(c) || 'a' <= c <= 'z' || 'A' <= c <= 'Z' }

  /** The characters a JavaScript regular expression treats as line
      terminators: `^` under the m flag matches after each of them and `.`
      matches none of them. */
  const LineTerminators: set<char> := {'\n', '\r', '\U{2028}', '\U{2029}'}

  predicate StartsWith(s: string, prefix: string) {
    |prefix| <= |s| && s[..|prefix|] == prefix
  }

  predicate OccursAt(s: string, sub: string, i: int) {
    0 <= i && i + |sub| <= |s| && s[i..i + |sub|] == sub
  }

  /** `s.includes(sub)`: a case-sensitive literal substring search. */
  function Contains(s: string, sub: string): bool
    decreases |s|
  {
    if StartsWith(s, sub) then true
    else if |s| == 0 then false
    else Contains(s[1..], sub)
  }

  /** An occurrence in the tail of `s` is an occurrence in `s`, one further on. */
  lemma OccursInTail(s: string, sub: string, i: int)
    requires |s| > 0 && 0 <= i
    ensures OccursAt(s[1..], sub, i) <==> OccursAt(s, sub, i + 1)
  {
    if 0 <= i && i + |sub| <= |s| - 1 {
      assert s[1..][i..i + |sub|] == s[i + 1..i + 1 + |sub|];
    }
  }

  lemma {:induction false} ContainsIffOccurs(s: string, sub: string)
    ensures Contains(s, sub) <==> exists i :: OccursAt(s, sub, i)
    decreases |s|
  {
    if StartsWith(s, sub) {
      assert OccursAt(s, sub, 0);
    } else if |s| == 0 {
      forall i ensures !OccursAt(s, sub, i) {
      }
    } else {
      ContainsIffOccurs(s[1..], sub);
      if Contains(s, sub) {
        var i :| OccursAt(s[1..], sub, i);
        OccursInTail(s, sub, i);
      } else {
        forall i | OccursAt(s, sub, i) ensures false {
          assert i != 0;
          OccursInTail(s, sub, i - 1);
        }
      }
    }
  }

  /** `s.split(sep)` generalised to a set of separator characters: the
      maximal separator-free pieces of `s`, in order, never fewer than one. */
  function SplitBy(s: string, seps: set<char>): (parts: seq<string>)
    ensures |parts| >= 1
    ensures forall i, k :: 0 <= i < |parts| && 0 <= k < |parts[i]| ==> parts[i][k] !in seps
    ensures |parts| == 1 <==> forall k :: 0 <= k < |s| ==> s[k] !in seps
    ensures |parts[0]| <= |s| && parts[0] == s[..|parts[0]|]
    ensures |parts[0]| < |s| ==> s[|parts[0]|] in seps
    decreases |s|
  {
    if |s| == 0 then [""]
    else
      var rest := SplitBy(s[1..], seps);
      if s[0] in seps then [""] + rest
      else [[s[0]] + rest[0]] + rest[1..]
  }

  /** A string without a separator is its own only piece. */
  lemma SplitBySeparatorFree(s: string, seps: set<char>)
    requires forall k :: 0 <= k < |s| ==> s[k] !in seps
    ensures SplitBy(s, seps) == [s]
  {
    var parts := SplitBy(s, seps);
    assert |parts[0]| == |s|;
    assert parts[0] == s[..|s|] == s;
  }

  /** The pieces after the first are the pieces of what follows the first
      separator. */
  lemma {:induction false} SplitByRest(s: string, seps: set<char>)
    requires |SplitBy(s, seps)| > 1
    ensures |SplitBy(s, seps)[0]| < |s|
    ensures SplitBy(s, seps)[1..] == SplitBy(s[|SplitBy(s, seps)[0]| + 1..], seps)
    decreases |s|
  {
    var rest := SplitBy(s[1..], seps);
    if s[0] in seps {
      assert SplitBy(s, seps) == [""] + rest;
    } else {
      assert SplitBy(s, seps) == [[s[0]] + rest[0]] + rest[1..];
      SplitByRest(s[1..], seps);
      assert s[1..][|rest[0]| + 1..] == s[|rest[0]| + 2..];
    }
  }

  /** A separator-free head stays at the front of the first piece. */
  lemma {:induction false} SplitByFirstAppend(a: string, b: string, seps: set<char>)
    requires forall k :: 0 <= k < |a| ==> a[k] !in seps
    ensures SplitBy(a + b, seps)[0] == a + SplitBy(b, seps)[0]
    decreases |a|
  {
    if |a| == 0 {
      assert a + b == b;
    } else {
      SplitByFirstAppend(a[1..], b, seps);
      assert (a + b)[1..] == a[1..] + b;
      assert (a + b)[0] == a[0];
      assert [a[0]] + a[1..] == a;
    }
  }

  /** ASCII lower-casing leaves a string without capitals unchanged. */
  lemma AsciiLowerOfLower(s: string)
    requires forall k :: 0 <= k < |s| ==> !('A' <= s[k] <= 'Z')
    ensures AsciiLower(s) == s
  {
  }

  /** `s.split(sep)` for a one-character separator. */
  function Split(s: string, sep: char): seq<string> {
    SplitBy(s, {sep})
  }

  /** `parts.join(sep)` for a one-character separator. */
  function Join(parts: seq<string>, sep: char): string {
    if |parts| == 0 then ""
    else if |parts| == 1 then parts[0]
    else parts[0] + [sep] + Join(parts[1..], sep)
  }

  /** Splitting on a character and joining with it gives the string back. */
  lemma {:induction false} JoinSplit(s: string, sep: char)
    ensures Join(Split(s, sep), sep) == s
    decreases |s|
  {
    if |s| > 0 {
      var rest := Split(s[1..], sep);
      JoinSplit(s[1..], sep);
      if s[0] == sep {
        assert Split(s, sep) == [""] + rest;
        assert ([""] + rest)[1..] == rest;
      } else {
        assert Split(s, sep) == [[s[0]] + rest[0]] + rest[1..];
        if |rest| > 1 {
          assert ([[s[0]] + rest[0]] + rest[1..])[1..] == rest[1..];
        }
      }
    }
  }

  /** Joining separator-free pieces and splitting again gives the pieces back. */
  lemma {:induction false} SplitJoin(parts: seq<string>, sep: char)
    requires |parts| >= 1
    requires forall i, k :: 0 <= i < |parts| && 0 <= k < |parts[i]| ==> parts[i][k] != sep
    ensures Split(Join(parts, sep), sep) == parts
    decreases |parts|, |parts[0]|
  {
    if |parts[0]| > 0 {
      var p0 := parts[0][1..];
      var shorter := [p0] + parts[1..];
      SplitJoin(shorter, sep);
      assert Join(parts, sep) == [parts[0][0]] + Join(shorter, sep) by {
        if |parts| > 1 {
          assert shorter[1..] == parts[1..];
        }
      }
      assert ([parts[0][0]] + Join(shorter, sep))[1..] == Join(shorter, sep);
      assert [parts[0][0]] + p0 == parts[0];
      assert [[parts[0][0]] + p0] + parts[1..] == parts;
    } else if |parts| > 1 {
      SplitJoin(parts[1..], sep);
      assert Join(parts, sep) == [sep] + Join(parts[1..], sep);
      assert ([sep] + Join(parts[1..], sep))[1..] == Join(parts[1..], sep);
      assert [""] + parts[1..] == parts;
    }
  }

  /** ASCII lower-casing. Compared with "alpine" or "debian", it agrees
      with `toLowerCase`. */
  function AsciiLower(s: string): (r: string)
    ensures |r| == |s|
    ensures forall k :: 0 <= k < |s| ==> r[k] == if 'A' <= s[k] <= 'Z' then (s[k] as int + 32) as char else s[k]
  {
    seq(|s|, k requires 0 <= k < |s| => if 'A' <= s[k] <= 'Z' then (s[k] as int + 32) as char else s[k])
  }

  /** The longest prefix of `s` made of decimal digits. */
  function LeadingDigits(s: string): (d: string)
    ensures |d| <= |s| && d == s[..|d|]
    ensures forall k :: 0 <= k < |d| ==> IsDigit(d[k])
    ensures |d| < |s| ==> !IsDigit(s[|d|])
    decreases |s|
  {
    if |s| > 0 && IsDigit(s[0]) then [s[0]] + LeadingDigits(s[1..]) else ""
  }

  /** The text `s.match(/\d+/)[0]`: the first maximal run of decimal digits,
      or None where `match` returns null. */
  function FirstDigitRun(s: string): (r: Option<string>)
    ensures r.None? <==> forall k :: 0 <= k < |s| ==> !IsDigit(s[k])
    ensures r.Some? ==> |r.value| > 0 && forall k :: 0 <= k < |r.value| ==> IsDigit(r.value[k])
    decreases |s|
  {
    if |s| == 0 then None
    else if IsDigit(s[0]) then Some(LeadingDigits(s))
    else FirstDigitRun(s[1..])
  }

  /** `d` stands at index `i` of `s`, no digit comes before it and none
      right after it. */
  ghost predicate FirstRunAt(s: string, d: string, i: nat) {
    i + |d| <= |s| && s[i..i + |d|] == d &&
    (forall k :: 0 <= k < i ==> !IsDigit(s[k])) &&
    (i + |d| < |s| ==> !IsDigit(s[i + |d|]))
  }

  /** The run `FirstDigitRun` finds is the leftmost maximal run of digits:
      it stands in `s`, after a digit-free prefix, and is not followed by a
      digit. */
  lemma {:induction false} FirstDigitRunIsFirst(s: string)
    ensures FirstDigitRun(s).Some? ==> exists i: nat :: FirstRunAt(s, FirstDigitRun(s).value, i)
    decreases |s|
  {
    if |s| > 0 {
      if IsDigit(s[0]) {
        assert FirstRunAt(s, LeadingDigits(s), 0);
      } else {
        FirstDigitRunIsFirst(s[1..]);
        if FirstDigitRun(s[1..]).Some? {
          var d := FirstDigitRun(s[1..]).value;
          var i: nat :| FirstRunAt(s[1..], d, i);
          assert s[1..][i..i + |d|] == s[i + 1..i + 1 + |d|];
          forall k | 0 <= k < i + 1 ensures !IsDigit(s[k]) {
            if k > 0 {
              assert s[k] == s[1..][k - 1];
            }
          }
          if i + 1 + |d| < |s| {
            assert s[i + 1 + |d|] == s[1..][i + |d|];
          }
          assert FirstRunAt(s, d, i + 1);
        }
      }
    }
  }

  /** The number a string of decimal digits denotes. */
  function DigitsValue(d: string): nat
    decreases |d|
  {
    if |d| == 0 then 0
    else 10 * DigitsValue(d[..|d| - 1]) + if IsDigit(d[|d| - 1]) then (d[|d| - 1] - '0') as int else 0
  }

  /** The first integer of `s`, as JavaScript's `>` reads `s.match(/\d+/)[0]`. */
  function FirstNumber(s: string): Option<nat> {
    match FirstDigitRun(s)
    case None => None
    case Some(d) => Some(DigitsValue(d))
  }

  /** The decimal rendering of `n`, without leading zeros. */
  function NatToString(n: nat): (r: string)
    ensures |r| > 0 && forall k :: 0 <= k < |r| ==> IsDigit(r[k])
    decreases n
  {
    if n < 10 then [('0' as int + n) as char]
    else NatToString(n / 10) + [('0' as int + n % 10) as char]
  }

  /** Rendering a number and reading it back gives the number. */
  lemma {:induction false} DigitsValueOfNatToString(n: nat)
    ensures DigitsValue(NatToString(n)) == n
    decreases n
  {
    var r := NatToString(n);
    if n >= 10 {
      DigitsValueOfNatToString(n / 10);
      assert r[..|r| - 1] == NatToString(n / 10);
    }
  }

  /** A digit run followed by a non-digit (or nothing) is read up to its end. */
  lemma {:induction false} LeadingDigitsAppend(a: string, b: string)
    requires forall k :: 0 <= k < |a| ==> IsDigit(a[k])
    requires |b| == 0 || !IsDigit(b[0])
    ensures LeadingDigits(a + b) == a
    decreases |a|
  {
    if |a| > 0 {
      assert (a + b)[1..] == a[1..] + b;
      LeadingDigitsAppend(a[1..], b);
    } else {
      assert a + b == b;
    }
  }

  /** The first digit run of `a + b` comes from `a` when `a` has one, and
      otherwise from `b`, as long as `b` does not extend a run ending `a`. */
  lemma {:induction false} FirstDigitRunAppend(a: string, b: string)
    requires |b| == 0 || !IsDigit(b[0])
    ensures FirstDigitRun(a + b) == if FirstDigitRun(a).Some? then FirstDigitRun(a) else FirstDigitRun(b)
    decreases |a|
  {
    if |a| == 0 {
      assert a + b == b;
    } else if IsDigit(a[0]) {
      var d := LeadingDigits(a);
      var tail := a[|d|..];
      assert a == d + tail;
      assert a + b == d + (tail + b);
      if |tail| > 0 {
        LeadingDigitsAppend(d, tail + b);
        LeadingDigitsAppend(d, tail);
      } else {
        assert a + b == d + b;
        LeadingDigitsAppend(d, b);
        assert a == d + [];
        LeadingDigitsAppend(d, []);
      }
    } else {
      assert (a + b)[1..] == a[1..] + b;
      FirstDigitRunAppend(a[1..], b);
    }
  }

  /** A digit-free prefix does not change the first digit run. */
  lemma {:induction false} FirstDigitRunSkipsDigitFree(prefix: string, s: string)
    requires forall k :: 0 <= k < |prefix| ==> !IsDigit(prefix[k])
    ensures FirstDigitRun(prefix + s) == FirstDigitRun(s)
    decreases |prefix|
  {
    if |prefix| == 0 {
      assert prefix + s == s;
    } else {
      assert (prefix + s)[1..] == prefix[1..] + s;
      FirstDigitRunSkipsDigitFree(prefix[1..], s);
    }
  }

  /** The first integer of a digit-free prefix, a rendered number and a tail
      that does not start with a digit is that number. */
  lemma FirstNumberOfRendered(prefix: string, n: nat, tail: string)
    requires forall k :: 0 <= k < |prefix| ==> !IsDigit(prefix[k])
    requires |tail| == 0 || !IsDigit(tail[0])
    ensures FirstNumber(prefix + NatToString(n) + tail) == Some(n)
  {
    var r := NatToString(n);
    assert prefix + r + tail == prefix + (r + tail);
    FirstDigitRunSkipsDigitFree(prefix, r + tail);
    LeadingDigitsAppend(r, tail);
    DigitsValueOfNatToString(n);
  }

  /** The `\n`-separated lines of `lines` that start with `prefix`, in order. */
  function MatchingLines(lines: seq<string>, prefix: string): (m: seq<string>)
    ensures |m| <= |lines|
    ensures forall i :: 0 <= i < |m| ==> StartsWith(m[i], prefix)
    ensures |m| == 0 <==> forall i :: 0 <= i < |lines| ==> !StartsWith(lines[i], prefix)
    decreases |lines|
  {
    if |lines| == 0 then []
    else if StartsWith(lines[0], prefix) then [lines[0]] + MatchingLines(lines[1..], prefix)
    else MatchingLines(lines[1..], prefix)
  }

  /** The matching lines are exactly the input lines that start with the
      prefix. */
  lemma {:induction false} MatchingLinesMembers(lines: seq<string>, prefix: string)
    ensures forall x :: x in MatchingLines(lines, prefix) <==> x in lines && StartsWith(x, prefix)
    decreases |lines|
  {
    if |lines| > 0 {
      MatchingLinesMembers(lines[1..], prefix);
      assert lines == [lines[0]] + lines[1..];
    }
  }

  /** The filter keeps file order: the matches of two consecutive pieces are
      the matches of the first followed by those of the second. */
  lemma {:induction false} MatchingLinesAppend(a: seq<string>, b: seq<string>, prefix: string)
    ensures MatchingLines(a + b, prefix) == MatchingLines(a, prefix) + MatchingLines(b, prefix)
    decreases |a|
  {
    if |a| == 0 {
      assert a + b == b;
    } else {
      assert (a + b)[0] == a[0];
      assert (a + b)[1..] == a[1..] + b;
      MatchingLinesAppend(a[1..], b, prefix);
    }
  }

  /** At least two lines match exactly when two different lines of the
      input start with the prefix. */
  lemma {:induction false} MatchingLinesAtLeastTwo(lines: seq<string>, prefix: string)
    ensures |MatchingLines(lines, prefix)| >= 2 <==>
      exists i, j :: 0 <= i < j < |lines| && StartsWith(lines[i], prefix) && StartsWith(lines[j], prefix)
    decreases |lines|
  {
    if |lines| > 0 {
      var t := lines[1..];
      MatchingLinesAtLeastTwo(t, prefix);
      if |MatchingLines(lines, prefix)| >= 2 {
        if StartsWith(lines[0], prefix) {
          var j :| 0 <= j < |t| && StartsWith(t[j], prefix);
          assert StartsWith(lines[j + 1], prefix);
        } else {
          var i, j :| 0 <= i < j < |t| && StartsWith(t[i], prefix) && StartsWith(t[j], prefix);
          assert StartsWith(lines[i + 1], prefix) && StartsWith(lines[j + 1], prefix);
        }
      }
      if exists i, j :: 0 <= i < j < |lines| && StartsWith(lines[i], prefix) && StartsWith(lines[j], prefix) {
        var i, j :| 0 <= i < j < |lines| && StartsWith(lines[i], prefix) && StartsWith(lines[j], prefix);
        assert t[j - 1] == lines[j];
        if i > 0 {
          assert t[i - 1] == lines[i];
        }
      }
    }
  }

  /** Each line followed by a newline, as grep prints its matches. */
  function Terminated(lines: seq<string>): string
    decreases |lines|
  {
    if |lines| == 0 then "" else lines[0] + "\n" + Terminated(lines[1..])
  }

  /** `grep '^prefix' file` on a file holding `content`: the printed lines
      on a match, None where grep exits with status 1 (no line matched). */
  function Grep(content: string, prefix: string): (out: Option<string>)
    ensures out.None? <==> |MatchingLines(Split(content, '\n'), prefix)| == 0
  {
    var m := MatchingLines(Split(content, '\n'), prefix);
    if |m| == 0 then None else Some(Terminated(m))
  }

  /** The first integer of grep's output is that of the first matching line
      that holds a digit: a later Total line decides only when the earlier
      ones hold no digits. */
  lemma {:induction false} FirstNumberOfTerminated(lines: seq<string>)
    requires |lines| > 0
    ensures FirstNumber(Terminated(lines)) ==
      if FirstNumber(lines[0]).Some? then FirstNumber(lines[0]) else FirstNumber(Terminated(lines[1..]))
  {
    assert Terminated(lines) == lines[0] + ("\n" + Terminated(lines[1..]));
    FirstDigitRunAppend(lines[0], "\n" + Terminated(lines[1..]));
    assert ("\n" + Terminated(lines[1..]))[1..] == Terminated(lines[1..]);
  }

  /** The first integer grep prints; None when grep finds no line. */
  function GrepTotal(content: string, prefix: string): Option<nat> {
    match Grep(content, prefix)
    case None => None
    case Some(out) => FirstNumber(out)
  }

  /** Reference definition: the first integer on the first of `lines` that
      holds a digit at all. */
  function FirstNumberAmong(lines: seq<string>): Option<nat>
    decreases |lines|
  {
    if |lines| == 0 then None
    else if FirstNumber(lines[0]).Some? then FirstNumber(lines[0])
    else FirstNumberAmong(lines[1..])
  }

  /** The first integer of grep's output is the first integer among the
      matching lines in file order. */
  lemma {:induction false} FirstNumberOfGrepOutput(lines: seq<string>)
    ensures FirstNumber(Terminated(lines)) == FirstNumberAmong(lines)
    decreases |lines|
  {
    if |lines| == 0 {
      assert FirstDigitRun("").None?;
    } else {
      FirstNumberOfTerminated(lines);
      FirstNumberOfGrepOutput(lines[1..]);
    }
  }

  /** grep's first integer is the reference first integer among the
      matching lines, in file order. */
  lemma GrepTotalIsFirstAmong(content: string, prefix: string)
    ensures GrepTotal(content, prefix) == FirstNumberAmong(MatchingLines(Split(content, '\n'), prefix))
  {
    var m := MatchingLines(Split(content, '\n'), prefix);
    if |m| > 0 {
      FirstNumberOfGrepOutput(m);
    }
  }
}
