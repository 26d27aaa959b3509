/**
 * What the native code does to wide strings when they pass through C APIs:
 * a `std::wstring` built from a zero-filled buffer, `c_str()` handed to a
 * Win32 call, and `wcscpy` all stop at the first NUL character; `_wcsicmp`
 * compares two such strings ignoring case (the "C" locale folds only the
 * ASCII letters).
 */
module CStrings {

  /** The longest prefix of `s` that does not contain `stop`. */
  function PrefixBefore<T(==)>(s: seq<T>, stop: T): (r: seq<T>)
    ensures r <= s
    ensures stop !in r
    ensures |r| < |s| ==> s[|r|] == stop
  {
    if |s| == 0 || s[0] == stop then []
    else [s[0]] + PrefixBefore(s[1..], stop)
  }

  /** A sequence that does not contain the stop element is its own prefix. */
  lemma PrefixBeforeNoStop<T>(s: seq<T>, stop: T)
    ensures stop !in s ==> PrefixBefore(s, stop) == s
  {
  }

  /** Everything after the first stop element is ignored. */
  lemma {:induction false} PrefixBeforeStopsAtFirst<T>(a: seq<T>, stop: T, rest: seq<T>)
    requires stop !in a
    ensures PrefixBefore(a + [stop] + rest, stop) == a
  {
    var s := a + [stop] + rest;
    if |a| != 0 {
      assert s[0] == a[0];
      assert s[1..] == a[1..] + [stop] + rest;
      assert stop !in a[1..] by {
        forall x | x in a[1..] ensures x != stop {
          var k :| 1 <= k < |a| && a[k] == x;
        }
      }
      PrefixBeforeStopsAtFirst(a[1..], stop, rest);
    }
  }

  const Nul: char := '\0'

  /** The string a C API sees when handed `s.c_str()`: everything before the first NUL. */
  function CStr(s: string): (r: string)
    ensures r <= s && Nul !in r
    ensures |r| < |s| ==> s[|r|] == Nul
    ensures Nul !in s ==> r == s
  {
    PrefixBeforeNoStop(s, Nul);
    PrefixBefore(s, Nul)
  }

  /** The per-character folding `_wcsicmp` applies in the "C" locale. */
  function FoldChar(c: char): char {
    if 'A' <= c <= 'Z' then (c as int + 32) as char else c
  }

  function Fold(s: string): string {
    seq(|s|, i requires 0 <= i < |s| => FoldChar(s[i]))
  }

  /** Equality of two strings up to ASCII case. */
  predicate EqualIgnoringCase(a: string, b: string) {
    Fold(a) == Fold(b)
  }

  /**
   * `_wcsicmp(a.c_str(), b.c_str()) == 0`: the two strings, each cut at its
   * first NUL, have the same length and agree position by position once
   * ASCII letters are lower-cased.
   */
  function WcsIcmpEqual(a: string, b: string): (r: bool)
    ensures r <==> (|CStr(a)| == |CStr(b)| &&
      forall i :: 0 <= i < |CStr(a)| ==> FoldChar(CStr(a)[i]) == FoldChar(CStr(b)[i]))
    ensures r <==> (|CStr(a)| == |CStr(b)| &&
      forall i :: 0 <= i < |CStr(a)| ==> FoldChar(a[i]) == FoldChar(b[i]))
  {
    EqualIgnoringCaseCharwise(CStr(a), CStr(b));
    EqualIgnoringCase(CStr(a), CStr(b))
  }

  /** Case-insensitive equality is character-wise equality of the folded letters. */
  lemma EqualIgnoringCaseCharwise(a: string, b: string)
    ensures EqualIgnoringCase(a, b) <==>
      |a| == |b| && forall i :: 0 <= i < |a| ==> FoldChar(a[i]) == FoldChar(b[i])
  {
    if |a| == |b| && forall i :: 0 <= i < |a| ==> FoldChar(a[i]) == FoldChar(b[i]) {
      assert Fold(a) == Fold(b);
    }
    if EqualIgnoringCase(a, b) {
      assert |Fold(a)| == |a| && |Fold(b)| == |b|;
      forall i | 0 <= i < |a| ensures FoldChar(a[i]) == FoldChar(b[i]) {
        assert Fold(a)[i] == Fold(b)[i];
      }
    }
  }

  /** `_wcsicmp` equality is an equivalence: reflexive, symmetric, transitive. */
  lemma WcsIcmpEquivalence(a: string, b: string, c: string)
    ensures WcsIcmpEqual(a, a)
    ensures WcsIcmpEqual(a, b) ==> WcsIcmpEqual(b, a)
    ensures WcsIcmpEqual(a, b) && WcsIcmpEqual(b, c) ==> WcsIcmpEqual(a, c)
  {
  }
}
