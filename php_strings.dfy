/**
 * The PHP string built-ins the legacy web code relies on, with the PHP
 * semantics that matter to it: `strpos` returning a position or false,
 * loose truthiness of strings and positions, `explode` on a one-character
 * delimiter, and `str_replace` of one search string.
 */
module PhpStrings {
  import opened Wrappers

  /** A string is falsy in PHP when it is empty or exactly "0". */
  predicate Truthy(s: string) {
    s != "" && s != "0"
  }

  /** A nullable string where PHP wants a string (interpolation, `str_replace`, loose `==`): null is ''. */
  function OrEmpty(s: Option<string>): string {
    if s.Some? then s.value else ""
  }

  /** `strpos($s, $c)` for a one-character needle: the first position of `c`, or false. */
  function StrPos(s: string, c: char): (r: Option<nat>)
    ensures r.Some? ==> r.value < |s| && s[r.value] == c && c !in s[..r.value]
    ensures r.None? <==> c !in s
    decreases |s|
  {
    if |s| == 0 then None
    else if s[0] == c then Some(0)
    else
      match StrPos(s[1..], c)
      case None => None
      case Some(i) =>
        assert s[..i + 1] == [s[0]] + s[1..][..i];
        Some(i + 1)
  }

  /**
   * A `strpos` result used as a condition, as in `strpos(...) != false` or
   * `!strpos(...)`: position 0 is as falsy as false itself.
   */
  predicate PosTruthy(r: Option<nat>) {
    r.Some? && r.value != 0
  }

  /** `needle` occurs in `s` starting at position `i`. */
  predicate OccursAt(s: string, needle: string, i: int) {
    0 <= i && i + |needle| <= |s| && s[i..i + |needle|] == needle
  }

  /** `$needle` occurs in `$s`: `strpos($s, $needle) !== false`. */
  predicate Contains(s: string, needle: string) {
    exists i | 0 <= i <= |s| - |needle| :: OccursAt(s, needle, i)
  }

  /** Occurrences in a suffix are occurrences in the whole string, shifted. */
  lemma OccursShift(s: string, needle: string, k: nat, i: nat)
    requires k <= |s|
    ensures OccursAt(s[k..], needle, i) <==> OccursAt(s, needle, i + k)
  {
    if 0 <= i && i + |needle| <= |s| - k {
      assert s[k..][i..i + |needle|] == s[i + k..i + k + |needle|];
    }
  }

  // ---------------------------------------------------------------------------
  // explode

  /** `explode($c, $s)` with a one-character delimiter: never empty, no piece holds `c`. */
  function Split(s: string, c: char): (parts: seq<string>)
    ensures |parts| >= 1
    ensures forall i :: 0 <= i < |parts| ==> c !in parts[i]
    decreases |s|
  {
    if |s| == 0 then [""]
    else
      var rest := Split(s[1..], c);
      if s[0] == c then [""] + rest
      else [[s[0]] + rest[0]] + rest[1..]
  }

  /** `implode($c, $parts)` */
  function Join(parts: seq<string>, c: char): string
    requires |parts| >= 1
    decreases |parts|
  {
    if |parts| == 1 then parts[0] else parts[0] + [c] + Join(parts[1..], c)
  }

  /** Exploding and joining with the same delimiter gives back the string. */
  lemma {:induction false} JoinSplit(s: string, c: char)
    ensures Join(Split(s, c), c) == s
    decreases |s|
  {
    if |s| > 0 {
      JoinSplit(s[1..], c);
      var rest := Split(s[1..], c);
      if s[0] == c {
        assert Split(s, c)[1..] == rest;
      } else {
        var parts := Split(s, c);
        if |rest| > 1 {
          assert parts[1..] == rest[1..];
        }
      }
    }
  }

  /** The first piece of an explode is the text before the first delimiter. */
  lemma {:induction false} SplitFirst(s: string, c: char)
    ensures StrPos(s, c).Some? ==> Split(s, c)[0] == s[..StrPos(s, c).value]
    ensures StrPos(s, c).None? ==> Split(s, c) == [s]
    decreases |s|
  {
    if |s| > 0 && s[0] != c {
      SplitFirst(s[1..], c);
      if StrPos(s, c).Some? {
        assert s[..StrPos(s, c).value] == [s[0]] + s[1..][..StrPos(s[1..], c).value];
      } else {
        assert [s[0]] + s[1..] == s;
      }
    }
  }

  // ---------------------------------------------------------------------------
  // str_replace

  /** `str_replace($search, $replace, $s)`: every occurrence, scanning left to right, none overlapping. */
  function ReplaceAll(s: string, search: string, replace: string): string
    requires |search| > 0
    decreases |s|
  {
    if |s| < |search| then s
    else if s[..|search|] == search then replace + ReplaceAll(s[|search|..], search, replace)
    else [s[0]] + ReplaceAll(s[1..], search, replace)
  }

  /** A string without the search string is left as it is. */
  lemma {:induction false} ReplaceAbsent(s: string, search: string, replace: string)
    requires |search| > 0 && !Contains(s, search)
    ensures ReplaceAll(s, search, replace) == s
    decreases |s|
  {
    if |s| >= |search| {
      assert !OccursAt(s, search, 0);
      assert !Contains(s[1..], search) by {
        forall i | OccursAt(s[1..], search, i)
          ensures false
        {
          OccursShift(s, search, 1, i);
        }
      }
      ReplaceAbsent(s[1..], search, replace);
      assert [s[0]] + s[1..] == s;
    }
  }

  /** Replacing one character by a text without it leaves none of it. */
  lemma {:induction false} ReplaceCharGone(s: string, c: char, replace: string)
    requires c !in replace
    ensures c !in ReplaceAll(s, [c], replace)
    decreases |s|
  {
    if |s| >= 1 {
      ReplaceCharGone(s[1..], c, replace);
    }
  }

  /** Replacing one character by one character keeps the length. */
  lemma {:induction false} ReplaceCharLength(s: string, c: char, replace: string)
    requires |replace| == 1
    ensures |ReplaceAll(s, [c], replace)| == |s|
    decreases |s|
  {
    if |s| >= 1 {
      ReplaceCharLength(s[1..], c, replace);
    }
  }

  /** Replacing one character distributes over concatenation. */
  lemma {:induction false} ReplaceCharAppend(a: string, b: string, c: char, replace: string)
    ensures ReplaceAll(a + b, [c], replace) == ReplaceAll(a, [c], replace) + ReplaceAll(b, [c], replace)
    decreases |a|
  {
    if |a| == 0 {
      assert a + b == b;
    } else {
      assert (a + b)[..1] == a[..1];
      assert (a + b)[1..] == a[1..] + b;
      ReplaceCharAppend(a[1..], b, c, replace);
    }
  }

  /**
   * No occurrence of `search` in `a + search + b` starts inside `a` and
   * reaches into the `search` in the middle.
   */
  predicate NoCrossing(a: string, search: string, b: string) {
    forall i :: 0 <= i < |a| < i + |search| ==> !OccursAt(a + search + b, search, i)
  }

  /** Dropping the first `k` characters of `a` keeps the occurrences from crossing. */
  lemma NoCrossingSuffix(a: string, search: string, b: string, k: nat)
    requires k <= |a| && NoCrossing(a, search, b)
    ensures NoCrossing(a[k..], search, b)
  {
    var s := a + search + b;
    assert s[k..] == a[k..] + search + b;
    forall i | 0 <= i < |a[k..]| < i + |search|
      ensures !OccursAt(a[k..] + search + b, search, i)
    {
      OccursShift(s, search, k, i);
    }
  }

  lemma ReplaceSkip(s: string, search: string, replace: string)
    requires |search| > 0 && |s| >= |search| && !OccursAt(s, search, 0)
    ensures ReplaceAll(s, search, replace) == [s[0]] + ReplaceAll(s[1..], search, replace)
  {
    assert s[0..|search|] == s[..|search|];
  }

  lemma ReplaceHit(s: string, search: string, replace: string)
    requires |search| > 0 && OccursAt(s, search, 0)
    ensures ReplaceAll(s, search, replace) == replace + ReplaceAll(s[|search|..], search, replace)
  {
    assert s[0..|search|] == s[..|search|];
  }

  lemma ReplaceAroundEmpty(search: string, b: string, replace: string)
    requires |search| > 0
    ensures ReplaceAll(search + b, search, replace) == replace + ReplaceAll(b, search, replace)
  {
    var s := search + b;
    assert s[..|search|] == search && s[|search|..] == b;
    ReplaceHit(s, search, replace);
  }

  /** One step of `ReplaceAround` when `a` starts with text that is copied: its first character. */
  lemma ReplaceAroundSkip(a: string, search: string, b: string, replace: string)
    requires |search| > 0 && |a| > 0 && NoCrossing(a, search, b)
    requires !OccursAt(a, search, 0)
    requires ReplaceAll(a[1..] + search + b, search, replace)
          == ReplaceAll(a[1..], search, replace) + replace + ReplaceAll(b, search, replace)
    ensures ReplaceAll(a + search + b, search, replace)
         == ReplaceAll(a, search, replace) + replace + ReplaceAll(b, search, replace)
  {
    var s := a + search + b;
    var t := a[1..];
    assert s[1..] == t + search + b;
    assert s[0] == a[0];
    if |a| < |search| {
      assert !OccursAt(s, search, 0);
      hide NoCrossing;
      ReplaceSkip(s, search, replace);
      ReplaceShort(a, search, replace);
    } else {
      assert s[..|search|] == a[..|search|];
      assert !OccursAt(s, search, 0);
      hide NoCrossing;
      ReplaceSkip(s, search, replace);
      ReplaceSkip(a, search, replace);
    }
  }

  /** A text shorter than the search string is copied. */
  lemma ReplaceShort(a: string, search: string, replace: string)
    requires 0 < |a| < |search|
    ensures ReplaceAll(a[1..], search, replace) == a[1..]
    ensures ReplaceAll(a, search, replace) == [a[0]] + a[1..]
  {
  }

  /** One step of `ReplaceAround` when `a` starts with an occurrence. */
  lemma ReplaceAroundHit(a: string, search: string, b: string, replace: string)
    requires |search| > 0 && OccursAt(a, search, 0)
    requires ReplaceAll(a[|search|..] + search + b, search, replace)
          == ReplaceAll(a[|search|..], search, replace) + replace + ReplaceAll(b, search, replace)
    ensures ReplaceAll(a + search + b, search, replace)
         == ReplaceAll(a, search, replace) + replace + ReplaceAll(b, search, replace)
  {
    var s := a + search + b;
    assert s[..|search|] == a[..|search|];
    assert s[|search|..] == a[|search|..] + search + b;
    ReplaceHit(s, search, replace);
    ReplaceHit(a, search, replace);
  }

  /** An occurrence that does not cross into its neighbours is replaced on its own. */
  lemma {:induction false} ReplaceAround(a: string, search: string, b: string, replace: string)
    requires |search| > 0 && NoCrossing(a, search, b)
    ensures ReplaceAll(a + search + b, search, replace)
         == ReplaceAll(a, search, replace) + replace + ReplaceAll(b, search, replace)
    decreases |a|
  {
    if |a| == 0 {
      assert a + search + b == search + b;
      assert ReplaceAll(a, search, replace) == [];
      ReplaceAroundEmpty(search, b, replace);
    } else if OccursAt(a, search, 0) {
      NoCrossingSuffix(a, search, b, |search|);
      ReplaceAround(a[|search|..], search, b, replace);
      ReplaceAroundHit(a, search, b, replace);
    } else {
      NoCrossingSuffix(a, search, b, 1);
      ReplaceAround(a[1..], search, b, replace);
      ReplaceAroundSkip(a, search, b, replace);
    }
  }
}
