// Shared vocabulary of the model: optional values, results that carry an
// error message, and the small pieces of Go's `strings` package that the
// workflow code relies on.

module Common {

  datatype Option<T> = None | Some(value: T)

  /** The (value, error) pair a Go function returns, as one value. */
  datatype Result<T> = Ok(value: T) | Err(msg: string)
  {
    predicate IsFailure() { Err? }
  }

  // ---------------------------------------------------------------------
  // strings.HasPrefix / strings.TrimPrefix

  predicate HasPrefix(s: string, prefix: string)
  {
    |prefix| <= |s| && s[..|prefix|] == prefix
  }

  /** strings.TrimPrefix: drops `prefix` once when `s` starts with it. */
  function TrimPrefix(s: string, prefix: string): (r: string)
    ensures HasPrefix(s, prefix) ==> s == prefix + r
    ensures !HasPrefix(s, prefix) ==> r == s
  {
    if HasPrefix(s, prefix) then s[|prefix|..] else s
  }

  // ---------------------------------------------------------------------
  // strings.TrimLeft with a one-character cutset

  /** strings.TrimLeft(s, [c]): removes every leading `c`. */
  function TrimLeftChar(s: string, c: char): (r: string)
    ensures |r| <= |s| && r == s[|s| - |r|..]
    ensures |r| > 0 ==> r[0] != c
    ensures forall i :: 0 <= i < |s| - |r| ==> s[i] == c
  {
    if |s| > 0 && s[0] == c then TrimLeftChar(s[1..], c) else s
  }

  // ---------------------------------------------------------------------
  // strings.ReplaceAll (strings.Replace with n = -1)

  /**
   * Replaces every non-overlapping occurrence of `old`, scanning from the
   * left, by `new`. Go's Replace with an empty `old` inserts `new` between
   * runes; no caller in this model passes an empty `old`.
   */
  function ReplaceAll(s: string, pat: string, rep: string): string
    requires |pat| > 0
    decreases |s|
  {
    if |s| < |pat| then s
    else if s[..|pat|] == pat then rep + ReplaceAll(s[|pat|..], pat, rep)
    else [s[0]] + ReplaceAll(s[1..], pat, rep)
  }

  /** `pat` occurs in `s` starting at index i. */
  predicate OccursAt(s: string, pat: string, i: nat)
  {
    i + |pat| <= |s| && s[i..i + |pat|] == pat
  }

  /** `pat` occurs somewhere in `s`. */
  ghost predicate Occurs(s: string, pat: string)
  {
    exists i: nat :: OccursAt(s, pat, i)
  }

  /** A string in which `pat` does not occur is left as it is. */
  lemma {:induction false} ReplaceAllNoOccurrence(s: string, pat: string, rep: string)
    requires |pat| > 0 && !Occurs(s, pat)
    ensures ReplaceAll(s, pat, rep) == s
    decreases |s|
  {
    if |s| >= |pat| {
      assert !OccursAt(s, pat, 0);
      assert s[0..|pat|] == s[..|pat|];
      assert !Occurs(s[1..], pat) by {
        forall i: nat | i + |pat| <= |s[1..]|
          ensures !OccursAt(s[1..], pat, i)
        {
          assert !OccursAt(s, pat, i + 1);
          assert s[1..][i..i + |pat|] == s[i + 1..i + 1 + |pat|];
        }
      }
      ReplaceAllNoOccurrence(s[1..], pat, rep);
      assert [s[0]] + s[1..] == s;
    }
  }

  /** A pattern holding a character the string lacks does not occur in it. */
  lemma MissingCharNoOccurrence(s: string, pat: string, c: char)
    requires c in pat && c !in s
    ensures !Occurs(s, pat)
  {
    var k :| 0 <= k < |pat| && pat[k] == c;
    forall i: nat | i + |pat| <= |s|
      ensures !OccursAt(s, pat, i)
    {
      assert s[i..i + |pat|][k] == s[i + k] != c;
    }
  }

  /** A string that is exactly the pattern becomes the replacement. */
  lemma ReplaceAllWhole(pat: string, rep: string)
    requires |pat| > 0
    ensures ReplaceAll(pat, pat, rep) == rep
  {
    assert pat[|pat|..] == "";
    assert ReplaceAll(pat, pat, rep) == rep + ReplaceAll("", pat, rep);
  }

  /** A string in which `old` cannot start anywhere is left as it is. */
  lemma {:induction false} ReplaceAllAbsent(s: string, pat: string, rep: string)
    requires |pat| > 0 && pat[0] !in s
    ensures ReplaceAll(s, pat, rep) == s
    decreases |s|
  {
    if |s| >= |pat| {
      assert s[..|pat|][0] == s[0] != pat[0];
      ReplaceAllAbsent(s[1..], pat, rep);
    }
  }

  /** Replacing a single character by text without it removes it everywhere. */
  lemma {:induction false} ReplaceAllRemovesChar(s: string, c: char, rep: string)
    requires c !in rep
    ensures c !in ReplaceAll(s, [c], rep)
    decreases |s|
  {
    if |s| >= 1 {
      ReplaceAllRemovesChar(s[1..], c, rep);
      if s[..1] == [c] {
      } else {
        assert s[0] != c by { assert s[..1][0] == s[0]; }
      }
    }
  }

  /** A character other than the first of `old` and absent from `new` stays absent. */
  lemma {:induction false} ReplaceAllKeepsAbsent(s: string, pat: string, rep: string, c: char)
    requires |pat| > 0 && c !in s && c !in rep
    ensures c !in ReplaceAll(s, pat, rep)
    decreases |s|
  {
    if |s| >= |pat| {
      if s[..|pat|] == pat {
        ReplaceAllKeepsAbsent(s[|pat|..], pat, rep, c);
      } else {
        ReplaceAllKeepsAbsent(s[1..], pat, rep, c);
      }
    }
  }

  // ---------------------------------------------------------------------
  // strings.ToLower and strings.TrimSpace

  function LowerChar(c: char): (r: char)
    ensures 'A' <= c <= 'Z' ==> 'a' <= r <= 'z' && r as int == c as int + 32
    ensures !('A' <= c <= 'Z') ==> r == c
  {
    if 'A' <= c <= 'Z' then (c as int + 32) as char else c
  }

  /** strings.ToLower on ASCII letters; every other character is kept. */
  function ToLower(s: string): (r: string)
    ensures |r| == |s|
    ensures forall i :: 0 <= i < |s| ==> r[i] == LowerChar(s[i])
  {
    if |s| == 0 then "" else [LowerChar(s[0])] + ToLower(s[1..])
  }

  /** unicode.IsSpace: the white-space code points Go's TrimSpace removes. */
  predicate IsSpace(c: char)
  {
    var n := c as int;
    (0x09 <= n <= 0x0D) || n == 0x20 || n == 0x85 || n == 0xA0 || n == 0x1680
    || (0x2000 <= n <= 0x200A) || n == 0x2028 || n == 0x2029 || n == 0x202F
    || n == 0x205F || n == 0x3000
  }

  function TrimSpaceLeft(s: string): (r: string)
    ensures |r| <= |s| && r == s[|s| - |r|..]
    ensures |r| > 0 ==> !IsSpace(r[0])
  {
    if |s| > 0 && IsSpace(s[0]) then TrimSpaceLeft(s[1..]) else s
  }

  function TrimSpaceRight(s: string): (r: string)
    ensures |r| <= |s| && r == s[..|r|]
    ensures |r| > 0 ==> !IsSpace(r[|r| - 1])
  {
    if |s| > 0 && IsSpace(s[|s| - 1]) then TrimSpaceRight(s[..|s| - 1]) else s
  }

  /** strings.TrimSpace: no leading and no trailing white space remains. */
  function TrimSpace(s: string): (r: string)
    ensures |r| <= |s|
    ensures |r| > 0 ==> !IsSpace(r[0]) && !IsSpace(r[|r| - 1])
  {
    var l := TrimSpaceLeft(s);
    var r := TrimSpaceRight(l);
    assert |r| > 0 ==> r[0] == l[0];
    r
  }

  // ---------------------------------------------------------------------
  // fmt's %d

  function DigitChar(d: nat): char
    requires d < 10
  {
    "0123456789"[d]
  }

  /** Decimal digits of a natural number, without leading zeros. */
  function NatToString(n: nat): (r: string)
    ensures |r| > 0
    ensures forall i :: 0 <= i < |r| ==> '0' <= r[i] <= '9'
    ensures n >= 10 ==> r[0] != '0'
  {
    if n < 10 then [DigitChar(n)] else NatToString(n / 10) + [DigitChar(n % 10)]
  }

  function IntToString(n: int): (r: string)
    ensures |r| > 0
    ensures n < 0 <==> r[0] == '-'
  {
    if n < 0 then "-" + NatToString(-n) else NatToString(n)
  }

  // ---------------------------------------------------------------------
  // Go's integer division truncates toward zero.

  function GoDiv(a: int, b: int): (q: int)
    requires b > 0
    ensures a >= 0 ==> q == a / b
    ensures a < 0 ==> q == -((-a) / b)
  {
    if a >= 0 then a / b else -((-a) / b)
  }

  // ---------------------------------------------------------------------
  // Workflow output references

  /**
   * The reference a later job uses to read output `name` of the job task
   * with key `key`. The helper that builds it lives outside the modelled
   * files; the model fixes one concrete shape, and relies only on the
   * injectivity proved below.
   */
  function JobOutputKey(key: string, name: string): string
  {
    "{{.job." + key + ".output." + name + "}}"
  }

  /** Different job keys never share an output reference. */
  lemma JobOutputKeyInjective(k1: string, k2: string, name: string)
    ensures JobOutputKey(k1, name) == JobOutputKey(k2, name) ==> k1 == k2
  {
    var s1 := JobOutputKey(k1, name);
    var s2 := JobOutputKey(k2, name);
    if s1 == s2 {
      assert |k1| == |k2|;
      assert s1[7..7 + |k1|] == k1;
      assert s2[7..7 + |k2|] == k2;
    }
  }

  /** A string joined at a separator the first part lacks splits back into the same parts. */
  lemma SeparatedPairInjective(sep: char, a1: string, b1: string, a2: string, b2: string)
    requires sep !in a1 && sep !in a2
    requires a1 + [sep] + b1 == a2 + [sep] + b2
    ensures a1 == a2 && b1 == b2
  {
    var s := a1 + [sep] + b1;
    assert s[|a1|] == sep && (a2 + [sep] + b2)[|a2|] == sep;
    assert |a1| == |a2|;
    assert a1 == s[..|a1|] == a2;
    assert b1 == s[|a1| + 1..] == b2;
  }

  // ---------------------------------------------------------------------
  // Keeping, in order, the elements a partial map is defined on

  /** The images under `f` of the elements of `s` it maps to something, in order. */
  function FilterMap<T, U>(s: seq<T>, f: T -> Option<U>): seq<U>
  {
    if |s| == 0 then []
    else FilterMap(s[..|s| - 1], f) + (match f(s[|s| - 1]) case None => [] case Some(u) => [u])
  }

  /** The positions of the elements of `s` that `f` maps to something. */
  function KeptIndices<T, U>(s: seq<T>, f: T -> Option<U>): seq<nat>
  {
    if |s| == 0 then []
    else KeptIndices(s[..|s| - 1], f) + (if f(s[|s| - 1]).Some? then [|s| - 1] else [])
  }

  lemma AppendAssoc<T>(a: seq<T>, b: seq<T>, c: seq<T>)
    ensures a + (b + c) == (a + b) + c
  {
  }

  /** As many images as kept positions. */
  lemma {:induction false} KeptLength<T, U>(s: seq<T>, f: T -> Option<U>)
    ensures |FilterMap(s, f)| == |KeptIndices(s, f)|
    decreases |s|
  {
    if |s| > 0 {
      KeptLength(s[..|s| - 1], f);
    }
  }

  /** Kept positions lie in `s`, in increasing order. */
  lemma {:induction false} KeptIncreasing<T, U>(s: seq<T>, f: T -> Option<U>)
    ensures forall k :: 0 <= k < |KeptIndices(s, f)| ==> KeptIndices(s, f)[k] < |s|
    ensures forall k, l :: 0 <= k < l < |KeptIndices(s, f)| ==> KeptIndices(s, f)[k] < KeptIndices(s, f)[l]
    decreases |s|
  {
    if |s| > 0 {
      KeptIncreasing(s[..|s| - 1], f);
    }
  }

  /** The k-th image is the image of the element at the k-th kept position. */
  lemma {:induction false} KeptImages<T, U>(s: seq<T>, f: T -> Option<U>)
    ensures forall k :: 0 <= k < |KeptIndices(s, f)| && k < |FilterMap(s, f)| ==>
      KeptIndices(s, f)[k] < |s| && f(s[KeptIndices(s, f)[k]]) == Some(FilterMap(s, f)[k])
    decreases |s|
  {
    if |s| > 0 {
      var init := s[..|s| - 1];
      KeptImages(init, f);
      KeptLength(init, f);
      KeptIncreasing(init, f);
      var ks, fs := KeptIndices(init, f), FilterMap(init, f);
      forall k | 0 <= k < |ks| ensures s[ks[k]] == init[ks[k]] { }
    }
  }

  /** Every position `f` is defined on is kept. */
  lemma {:induction false} KeptComplete<T, U>(s: seq<T>, f: T -> Option<U>)
    ensures forall i :: 0 <= i < |s| && f(s[i]).Some? ==> i in KeptIndices(s, f)
    decreases |s|
  {
    if |s| > 0 {
      var init := s[..|s| - 1];
      KeptComplete(init, f);
      forall i | 0 <= i < |init| && f(s[i]).Some? ensures i in KeptIndices(init, f) {
        assert init[i] == s[i];
      }
    }
  }

  /**
   * FilterMap keeps exactly the elements `f` is defined on, in their order:
   * result k is the image of the element at the k-th kept position, the
   * kept positions increase, and every position `f` is defined on is kept.
   */
  lemma FilterMapKeeps<T, U>(s: seq<T>, f: T -> Option<U>)
    ensures |FilterMap(s, f)| == |KeptIndices(s, f)|
    ensures forall k :: 0 <= k < |KeptIndices(s, f)| ==>
      KeptIndices(s, f)[k] < |s| && f(s[KeptIndices(s, f)[k]]) == Some(FilterMap(s, f)[k])
    ensures forall k, l :: 0 <= k < l < |KeptIndices(s, f)| ==> KeptIndices(s, f)[k] < KeptIndices(s, f)[l]
    ensures forall i :: 0 <= i < |s| && f(s[i]).Some? ==> i in KeptIndices(s, f)
  {
    KeptLength(s, f);
    KeptIncreasing(s, f);
    KeptImages(s, f);
    KeptComplete(s, f);
  }

  /** Where `f` is defined on every element, FilterMap maps each one, in place. */
  lemma {:induction false} FilterMapTotal<T, U>(s: seq<T>, f: T -> Option<U>)
    requires forall i :: 0 <= i < |s| ==> f(s[i]).Some?
    ensures |FilterMap(s, f)| == |s|
    ensures forall k :: 0 <= k < |s| ==> f(s[k]) == Some(FilterMap(s, f)[k])
    decreases |s|
  {
    if |s| > 0 {
      var init := s[..|s| - 1];
      FilterMapTotal(init, f);
      forall k | 0 <= k < |init| ensures s[k] == init[k] { }
    }
  }

  /** Where `f` is defined on no element, FilterMap yields nothing. */
  lemma {:induction false} FilterMapNone<T, U>(s: seq<T>, f: T -> Option<U>)
    requires forall i :: 0 <= i < |s| ==> f(s[i]).None?
    ensures FilterMap(s, f) == []
    decreases |s|
  {
    if |s| > 0 {
      FilterMapNone(s[..|s| - 1], f);
    }
  }

  /** FilterMap over a longer prefix adds the next element's image, if any. */
  lemma FilterMapSnoc<T, U>(s: seq<T>, i: nat, f: T -> Option<U>)
    requires i < |s|
    ensures FilterMap(s[..i + 1], f)
         == FilterMap(s[..i], f) + (match f(s[i]) case None => [] case Some(u) => [u])
  {
    assert s[..i + 1][..i] == s[..i];
  }

  // ---------------------------------------------------------------------
  // Running a fallible step over a list, stopping at the first error

  /** The results gathered before stopping, and the error that stopped the run, if any. */
  datatype Run<U> = Run(done: seq<U>, err: Option<string>)

  /** Applies `f` to the items in order and stops at the first error. */
  function RunAll<T, U>(items: seq<T>, f: T -> Result<U>): Run<U>
  {
    if |items| == 0 then Run([], None)
    else if f(items[0]).Err? then Run([], Some(f(items[0]).msg))
    else var rest := RunAll(items[1..], f); Run([f(items[0]).value] + rest.done, rest.err)
  }

  /** The results `done` followed by those of the run `r`. */
  function Prepend<U>(done: seq<U>, r: Run<U>): Run<U>
  {
    Run(done + r.done, r.err)
  }

  lemma PrependAssoc<U>(a: seq<U>, b: seq<U>, r: Run<U>)
    ensures Prepend(a, Prepend(b, r)) == Prepend(a + b, r)
  {
    AppendAssoc(a, b, r.done);
  }

  /** A run over one item followed by more. */
  lemma RunAllCons<T, U>(x: T, rest: seq<T>, f: T -> Result<U>)
    ensures RunAll([x] + rest, f)
         == if f(x).Err? then Run([], Some(f(x).msg)) else Prepend([f(x).value], RunAll(rest, f))
  {
    assert ([x] + rest)[0] == x && ([x] + rest)[1..] == rest;
  }

  /** A run over two parts: the second part runs only when the first had no error. */
  lemma {:induction false} RunAllConcat<T, U>(a: seq<T>, b: seq<T>, f: T -> Result<U>)
    ensures RunAll(a + b, f)
         == if RunAll(a, f).err.Some? then RunAll(a, f) else Prepend(RunAll(a, f).done, RunAll(b, f))
    decreases |a|
  {
    if |a| == 0 {
      assert a + b == b;
      assert [] + RunAll(b, f).done == RunAll(b, f).done;
    } else {
      assert a + b == [a[0]] + (a[1..] + b);
      assert a == [a[0]] + a[1..];
      RunAllCons(a[0], a[1..] + b, f);
      RunAllCons(a[0], a[1..], f);
      RunAllConcat(a[1..], b, f);
      if f(a[0]).Ok? {
        PrependAssoc([f(a[0]).value], RunAll(a[1..], f).done, RunAll(b, f));
      }
    }
  }

  /** A run from position i, in terms of item i and the items after it. */
  lemma RunAllAt<T, U>(items: seq<T>, i: nat, f: T -> Result<U>)
    requires i < |items|
    ensures RunAll(items[i..], f)
         == if f(items[i]).Err? then Run([], Some(f(items[i]).msg))
            else Prepend([f(items[i]).value], RunAll(items[i + 1..], f))
  {
    assert items[i..] == [items[i]] + items[i + 1..];
    RunAllCons(items[i], items[i + 1..], f);
  }

  /** A run without error maps every item, in order, to its result. */
  lemma {:induction false} RunAllOk<T, U>(items: seq<T>, f: T -> Result<U>)
    requires RunAll(items, f).err.None?
    ensures |RunAll(items, f).done| == |items|
    ensures forall i :: 0 <= i < |items| ==> f(items[i]) == Ok(RunAll(items, f).done[i])
    decreases |items|
  {
    if |items| > 0 {
      RunAllOk(items[1..], f);
      var r := RunAll(items, f);
      forall i | 0 <= i < |items|
        ensures f(items[i]) == Ok(r.done[i])
      {
        if i > 0 {
          assert items[i] == items[1..][i - 1];
        }
      }
    }
  }

  /**
   * A run that stops stops at the first failing item: every item before
   * it succeeded and gave its result in order, and nothing after it ran.
   */
  lemma {:induction false} RunAllStops<T, U>(items: seq<T>, f: T -> Result<U>)
    requires RunAll(items, f).err.Some?
    ensures var r := RunAll(items, f);
      |r.done| < |items| && f(items[|r.done|]) == Err(r.err.value)
      && forall k :: 0 <= k < |r.done| ==> f(items[k]) == Ok(r.done[k])
    decreases |items|
  {
    if f(items[0]).Ok? {
      RunAllStops(items[1..], f);
      var r := RunAll(items, f);
      var rest := RunAll(items[1..], f);
      assert items[|r.done|] == items[1..][|rest.done|];
      forall k | 0 <= k < |r.done|
        ensures f(items[k]) == Ok(r.done[k])
      {
        if k > 0 {
          assert items[k] == items[1..][k - 1];
        }
      }
    }
  }
}
