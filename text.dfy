/** Order-preserving selection from a sequence (the `append`-inside-a-loop
    idiom of the source). */
module Seqs {

  /** The elements of `s` that satisfy `p`, in their original order. */
  function KeepIf<T(!new)>(s: seq<T>, p: T -> bool): (r: seq<T>)
    ensures |r| <= |s|
    ensures forall x :: x in r <==> x in s && p(x)
  {
    if s == [] then []
    else (if p(s[0]) then [s[0]] else []) + KeepIf(s[1..], p)
  }

  /** Selecting from a concatenation selects from each part in turn, so the
      selection keeps the relative order of the elements it keeps. */
  lemma {:induction false} KeepIfAppend<T(!new)>(s: seq<T>, t: seq<T>, p: T -> bool)
    ensures KeepIf(s + t, p) == KeepIf(s, p) + KeepIf(t, p)
  {
    if s == [] {
      assert s + t == t;
    } else {
      assert (s + t)[1..] == s[1..] + t;
      KeepIfAppend(s[1..], t, p);
    }
  }

  /** The first element selected is the first element of `s` that
      satisfies `p`. */
  lemma {:induction false} KeepIfHead<T(!new)>(s: seq<T>, p: T -> bool)
    requires KeepIf(s, p) != []
    ensures exists i ::
              && 0 <= i < |s| && s[i] == KeepIf(s, p)[0] && p(s[i])
              && forall j :: 0 <= j < i ==> !p(s[j])
  {
    if !p(s[0]) {
      var rest := s[1..];
      assert KeepIf(s, p) == [] + KeepIf(rest, p);
      KeepIfHead(rest, p);
      var i :| 0 <= i < |rest| && rest[i] == KeepIf(rest, p)[0] && p(rest[i])
        && forall j :: 0 <= j < i ==> !p(rest[j]);
      assert s[i + 1] == rest[i];
      forall j | 0 <= j < i + 1 ensures !p(s[j]) {
        if j > 0 { assert s[j] == rest[j - 1]; }
      }
    }
  }
}

/** The string helpers of Go's standard library that the core relies on. */
module Text {
  import opened Types

  /** Go's unicode.IsSpace: the ASCII blanks, NEL, NBSP and the other
      characters with the Unicode White_Space property. */
  predicate IsSpace(c: char) {
    || c == ' ' || c == '\t' || c == '\n' || c == '\U{0B}' || c == '\U{0C}' || c == '\r'
    || c == '\U{85}' || c == '\U{A0}' || c == '\U{1680}'
    || ('\U{2000}' <= c <= '\U{200A}')
    || c == '\U{2028}' || c == '\U{2029}' || c == '\U{202F}' || c == '\U{205F}' || c == '\U{3000}'
  }

  predicate AllSpace(s: string) {
    forall i :: 0 <= i < |s| ==> IsSpace(s[i])
  }

  /** Number of white-space characters at the start of `s`. */
  function LeadingSpaces(s: string): (k: nat)
    ensures k <= |s|
    ensures AllSpace(s[..k])
    ensures k < |s| ==> !IsSpace(s[k])
  {
    if s == [] || !IsSpace(s[0]) then 0
    else
      var k := 1 + LeadingSpaces(s[1..]);
      assert s[..k] == [s[0]] + s[1..][..k - 1];
      k
  }

  /** Number of white-space characters at the end of `s`. */
  function TrailingSpaces(s: string): (k: nat)
    ensures k <= |s|
    ensures AllSpace(s[|s| - k..])
    ensures k < |s| ==> !IsSpace(s[|s| - 1 - k])
  {
    if s == [] || !IsSpace(s[|s| - 1]) then 0
    else
      var init := s[..|s| - 1];
      var k := 1 + TrailingSpaces(init);
      assert s[|s| - k..] == init[|init| - (k - 1)..] + [s[|s| - 1]];
      k
  }

  /** strings.TrimSpace: `s` without its leading and trailing white space. */
  function TrimSpace(s: string): (r: string)
    ensures var k := LeadingSpaces(s);
      && k + |r| <= |s|
      && s[k..k + |r|] == r
      && AllSpace(s[..k])
      && AllSpace(s[k + |r|..])
    ensures r == [] || (!IsSpace(r[0]) && !IsSpace(r[|r| - 1]))
  {
    var k := LeadingSpaces(s);
    if k == |s| then []
    else
      LeadingBeforeTrailing(s);
      s[k..|s| - TrailingSpaces(s)]
  }

  /** Unless `s` is all white space, its leading white space ends before
      its trailing white space begins. */
  lemma LeadingBeforeTrailing(s: string)
    requires LeadingSpaces(s) < |s|
    ensures LeadingSpaces(s) < |s| - TrailingSpaces(s)
  {
  }

  /** Trimming yields the empty string exactly when `s` is all white space. */
  lemma TrimSpaceEmpty(s: string)
    ensures TrimSpace(s) == [] <==> AllSpace(s)
  {
    var k := LeadingSpaces(s);
    if TrimSpace(s) == [] {
      assert s[..k] == s;
    }
  }

  /** Trimming twice is trimming once. */
  lemma TrimSpaceIdempotent(s: string)
    ensures TrimSpace(TrimSpace(s)) == TrimSpace(s)
  {
    var r := TrimSpace(s);
    if r != [] {
      assert LeadingSpaces(r) == 0;
      assert r[0..] == r;
      assert TrailingSpaces(r) == 0;
    }
  }

  /** The two halves of a string cut at one separator character. */
  datatype Halves = Halves(before: string, after: string)

  /** strings.SplitN(s, sep, 2) for a one-character separator: `None` when
      `sep` does not occur (SplitN then returns a single part), otherwise the
      text before the first `sep` and everything after it. */
  function SplitFirst(s: string, sep: char): (r: Option<Halves>)
    ensures r.None? <==> sep !in s
    ensures r.Some? ==> s == r.value.before + [sep] + r.value.after && sep !in r.value.before
  {
    if s == [] then None
    else if s[0] == sep then Some(Halves([], s[1..]))
    else
      match SplitFirst(s[1..], sep)
      case None => None
      case Some(h) =>
        assert s == [s[0]] + s[1..];
        Some(Halves([s[0]] + h.before, h.after))
  }

  /** The cut is at the FIRST separator: any decomposition whose left part
      is free of `sep` is the one SplitFirst finds, so the right part may
      itself contain `sep`. */
  lemma {:induction false} SplitFirstUnique(before: string, after: string, sep: char)
    requires sep !in before
    ensures SplitFirst(before + [sep] + after, sep) == Some(Halves(before, after))
  {
    var s := before + [sep] + after;
    if before != [] {
      assert s[0] == before[0];
      assert s[1..] == before[1..] + [sep] + after;
      SplitFirstUnique(before[1..], after, sep);
      assert [s[0]] + before[1..] == before;
    } else {
      assert s[1..] == after;
    }
  }

  /** strconv.Itoa: the decimal text of `n`. */
  function Itoa(n: int): string {
    if n < 0 then "-" + Digits(-n) else Digits(n)
  }

  /** The decimal digits of `n`, most significant first. */
  function Digits(n: nat): (r: string)
    ensures |r| >= 1
    ensures n < 10 <==> |r| == 1
    ensures forall i :: 0 <= i < |r| ==> '0' <= r[i] <= '9'
    decreases n
  {
    var d := "0123456789"[n % 10];
    if n < 10 then [d] else Digits(n / 10) + [d]
  }

  /** Different numbers have different decimal texts. */
  lemma {:induction false} DigitsInjective(a: nat, b: nat)
    requires Digits(a) == Digits(b)
    ensures a == b
    decreases a
  {
    var da := Digits(a);
    assert "0123456789"[a % 10] == da[|da| - 1] == "0123456789"[b % 10];
    assert a % 10 == b % 10;
    if a >= 10 {
      assert b >= 10;
      assert Digits(a / 10) == da[..|da| - 1] == Digits(b / 10);
      DigitsInjective(a / 10, b / 10);
    }
  }

  /** The text of `n` starts with a minus sign exactly when `n` is negative. */
  lemma ItoaSign(n: int)
    ensures |Itoa(n)| >= 1 && (Itoa(n)[0] == '-' <==> n < 0)
  {
  }

  /** strconv.Itoa is injective: the window id in a raw command names one
      window id only. */
  lemma ItoaInjective(a: int, b: int)
    requires Itoa(a) == Itoa(b)
    ensures a == b
  {
    if a < 0 && b < 0 {
      ItoaNegative(a);
      ItoaNegative(b);
      DigitsInjective(-a, -b);
    } else if a >= 0 && b >= 0 {
      DigitsInjective(a, b);
    } else {
      ItoaSign(a);
      ItoaSign(b);
    }
  }

  /** After its minus sign, the text of a negative number is the digits of
      its magnitude. */
  lemma ItoaNegative(n: int)
    requires n < 0
    ensures Itoa(n)[1..] == Digits(-n)
  {
    assert ("-" + Digits(-n))[1..] == Digits(-n);
  }
}
