/**
 * The two C string comparisons the crate supplies to the native engine when
 * it is built without a C library (section 7.24.4.2 and section 7.24.4.4 of
 * ISO/IEC 9899:2011). The native code is compiled with -funsigned-char, so
 * every character is an unsigned byte and `*l - *r` is a difference of two
 * values in 0..255.
 *
 * A C string is modelled as an array of bytes read from index 0; a pointer
 * step `l++` is an index step.
 */
module Interop {

  type byte = x: int | 0 <= x < 256

  const NUL: byte := 0

  /** The number of bytes before the first NUL: C's strlen. */
  function Strlen(s: seq<byte>): (len: nat)
    requires NUL in s
    ensures len < |s| && s[len] == NUL
    ensures forall j :: 0 <= j < len ==> s[j] != NUL
  {
    if s[0] == NUL then 0 else 1 + Strlen(s[1..])
  }

  /** The string a NUL-terminated byte array denotes, terminator excluded. */
  function CString(s: seq<byte>): seq<byte>
    requires NUL in s
  {
    s[..Strlen(s)]
  }

  /**
   * What strncmp may read: either n bytes, or the whole array if a NUL
   * comes before the n-th byte.
   */
  predicate Readable(s: seq<byte>, n: nat) {
    n <= |s| || NUL in s
  }

  /**
   * The number of bytes strncmp treats as string content: at most n, and
   * none from the first NUL on (C's strnlen).
   */
  function StrnLen(s: seq<byte>, n: nat): (len: nat)
    ensures len <= n && len <= |s|
    ensures forall j :: 0 <= j < len ==> s[j] != NUL
    ensures len < n && len < |s| ==> s[len] == NUL
    ensures Readable(s, n) && len < n ==> len < |s|
  {
    if n == 0 || |s| == 0 || s[0] == NUL then 0
    else
      assert Readable(s, n) ==> Readable(s[1..], n - 1) by {
        if NUL in s && s[0] != NUL {
          var z :| 0 <= z < |s| && s[z] == NUL;
          assert s[1..][z - 1] == NUL;
        }
      }
      1 + StrnLen(s[1..], n - 1)
  }

  /** The string content of the first n bytes, stopping at a NUL. */
  function CStringN(s: seq<byte>, n: nat): seq<byte> {
    s[..StrnLen(s, n)]
  }

  /**
   * Once n reaches past the terminator, strncmp's bounded string is the
   * whole C string: with such an n, strncmp compares what strcmp compares.
   */
  lemma CStringNOfLongBound(s: seq<byte>, n: nat)
    requires NUL in s && n > Strlen(s)
    ensures CStringN(s, n) == CString(s)
  {
  }

  /**
   * The reference order on byte strings: the first differing byte decides,
   * compared as unsigned values, and a proper prefix is smaller.
   */
  predicate LexLess(a: seq<byte>, b: seq<byte>) {
    if a == [] then b != []
    else if b == [] then false
    else if a[0] != b[0] then a[0] < b[0]
    else LexLess(a[1..], b[1..])
  }

  /**
   * Two strings agreeing on their first k bytes and no further are ordered
   * by what comes at position k: the end of a string sorts first, otherwise
   * the smaller byte.
   */
  lemma {:induction false} LexAt(a: seq<byte>, b: seq<byte>, k: nat)
    requires k <= |a| && k <= |b| && a[..k] == b[..k]
    requires k == |a| || k == |b| || a[k] != b[k]
    ensures a == b <==> |a| == k && |b| == k
    ensures LexLess(a, b) <==> (k == |a| && k < |b|) || (k < |a| && k < |b| && a[k] < b[k])
  {
    if k > 0 {
      assert a[0] == a[..k][0] == b[..k][0] == b[0];
      assert a[1..][..k - 1] == a[..k][1..] == b[..k][1..] == b[1..][..k - 1];
      LexAt(a[1..], b[1..], k - 1);
      assert a == [a[0]] + a[1..] && b == [b[0]] + b[1..];
    } else if a != [] && b != [] {
      assert a != b;
    }
  }

  /** LexLess is a strict order: no string is below itself. */
  lemma {:induction false} LexLessIrreflexive(a: seq<byte>)
    ensures !LexLess(a, a)
  {
    if a != [] {
      LexLessIrreflexive(a[1..]);
    }
  }

  /** LexLess is asymmetric: two strings are never each below the other. */
  lemma {:induction false} LexLessAsymmetric(a: seq<byte>, b: seq<byte>)
    ensures !(LexLess(a, b) && LexLess(b, a))
  {
    if a != [] && b != [] && a[0] == b[0] {
      LexLessAsymmetric(a[1..], b[1..]);
    }
  }

  /** LexLess is total: of two different strings, one is below the other. */
  lemma {:induction false} LexLessTotal(a: seq<byte>, b: seq<byte>)
    ensures a == b || LexLess(a, b) || LexLess(b, a)
  {
    if a != [] && b != [] && a[0] == b[0] {
      LexLessTotal(a[1..], b[1..]);
      if a[1..] == b[1..] {
        assert a == [a[0]] + a[1..] && b == [b[0]] + b[1..];
      }
    }
  }

  /**
   * strcmp: walks both strings while the bytes agree and the left one is
   * not NUL, then returns the unsigned difference of the bytes it stopped on.
   * Zero exactly for equal strings; negative exactly when l sorts first;
   * positive exactly when r sorts first.
   */
  method Strcmp(l: array<byte>, r: array<byte>) returns (res: int)
    requires NUL in l[..] && NUL in r[..]
    ensures res == 0 <==> CString(l[..]) == CString(r[..])
    ensures res < 0 <==> LexLess(CString(l[..]), CString(r[..]))
    ensures res > 0 <==> LexLess(CString(r[..]), CString(l[..]))
    ensures -255 <= res <= 255
  {
    ghost var ls, rs := l[..], r[..];
    var i := 0;
    while l[i] == r[i] && l[i] != NUL
      invariant i <= Strlen(ls) && i <= Strlen(rs)
      invariant ls[..i] == rs[..i]
      decreases Strlen(ls) - i
    {
      assert ls[i] == rs[i];
      assert ls[..i + 1] == ls[..i] + [ls[i]] && rs[..i + 1] == rs[..i] + [rs[i]];
      i := i + 1;
    }
    res := l[i] as int - r[i] as int;
    ghost var a, b := CString(ls), CString(rs);
    assert a[..i] == ls[..i] && b[..i] == rs[..i];
    assert i < |a| ==> a[i] == ls[i];
    assert i < |b| ==> b[i] == rs[i];
    LexAt(a, b, i);
    LexLessTotal(a, b);
    LexLessAsymmetric(a, b);
    LexLessIrreflexive(a);
  }

  /**
   * strncmp: compares at most n bytes, stopping after a NUL in either
   * string; with n = 0 it reads nothing and returns 0. The result compares
   * the bounded strings as strcmp compares whole ones.
   */
  method Strncmp(l: array<byte>, r: array<byte>, n: nat) returns (res: int)
    requires Readable(l[..], n) && Readable(r[..], n)
    ensures n == 0 ==> res == 0
    ensures res == 0 <==> CStringN(l[..], n) == CStringN(r[..], n)
    ensures res < 0 <==> LexLess(CStringN(l[..], n), CStringN(r[..], n))
    ensures res > 0 <==> LexLess(CStringN(r[..], n), CStringN(l[..], n))
    ensures -255 <= res <= 255
  {
    if n == 0 {
      return 0;
    }
    ghost var ls, rs := l[..], r[..];
    var m: nat := n - 1;
    var i := 0;
    while l[i] != NUL && r[i] != NUL && m != 0 && l[i] == r[i]
      invariant i + m == n - 1
      invariant i <= StrnLen(ls, n) && i <= StrnLen(rs, n)
      invariant ls[..i] == rs[..i]
      decreases m
    {
      assert ls[i] == rs[i];
      assert ls[..i + 1] == ls[..i] + [ls[i]] && rs[..i + 1] == rs[..i] + [rs[i]];
      i, m := i + 1, m - 1;
    }
    res := l[i] as int - r[i] as int;
    ghost var a, b := CStringN(ls, n), CStringN(rs, n);
    assert a[..i] == ls[..i] && b[..i] == rs[..i];
    assert i < |a| ==> a[i] == ls[i];
    assert i < |b| ==> b[i] == rs[i];
    if i < |a| && i < |b| && a[i] == b[i] {
      // Stopped by the count on two equal, non-NUL bytes.
      assert a[..i + 1] == a[..i] + [a[i]] && b[..i + 1] == b[..i] + [b[i]];
      LexAt(a, b, i + 1);
    } else {
      LexAt(a, b, i);
    }
    LexLessTotal(a, b);
    LexLessAsymmetric(a, b);
    LexLessIrreflexive(a);
  }
}
