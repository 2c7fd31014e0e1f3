/*
 * php_strncpy: a bounded copy of a NUL-terminated string that always
 * terminates the destination (when it has any room) and returns the length
 * of the source, in the manner of BSD strlcpy. Strings are arrays of char;
 * a C string is the part of an array before its first NUL.
 */
module CString {

  function Min(a: int, b: int): int
  {
    if a < b then a else b
  }

  /** Length of the C string held in s: the index of its first NUL. */
  function CLen(s: seq<char>): (n: nat)
    requires '\0' in s
    ensures n < |s| && s[n] == '\0'
    ensures forall i :: 0 <= i < n ==> s[i] != '\0'
  {
    if s[0] == '\0' then 0 else CLen(s[1..]) + 1
  }

  /** The C string held in s, without its terminator. */
  function CStr(s: seq<char>): (r: seq<char>)
    requires '\0' in s
    ensures '\0' !in r
    ensures r + ['\0'] <= s
  {
    s[..CLen(s)]
  }

  /** Index of the terminator a copy with room n writes, for n > 0. */
  function CopyEnd(src: seq<char>, n: nat): nat
    requires '\0' in src && n > 0
  {
    Min(n - 1, CLen(src))
  }

  /** What a copy of src into dst with room n can write without overflowing dst. */
  predicate CopyFits(dst: seq<char>, src: seq<char>, n: nat)
    requires '\0' in src
  {
    n > 0 ==> CopyEnd(src, n) < |dst|
  }

  /**
   * The destination after copying src into dst with room n: nothing when
   * n is 0; otherwise the longest prefix of the source string that leaves
   * room for a terminator, then the terminator.
   */
  function StrNCopied(dst: seq<char>, src: seq<char>, n: nat): (r: seq<char>)
    requires '\0' in src && CopyFits(dst, src, n)
    ensures |r| == |dst|
    ensures n > 0 ==> '\0' in r && r[CopyEnd(src, n)] == '\0'
    ensures forall i :: 0 <= i < |dst| && (n == 0 || i > CopyEnd(src, n)) ==> r[i] == dst[i]
    ensures forall i :: 0 <= i < |dst| && n > 0 && i < CopyEnd(src, n) ==> r[i] == src[i]
  {
    if n == 0 then dst
    else
      var k := CopyEnd(src, n);
      src[..k] + ['\0'] + dst[k + 1..]
  }

  /** At most n bytes change: the copy never writes at or beyond index n. */
  lemma StrNCopyWritesAtMostN(dst: seq<char>, src: seq<char>, n: nat)
    requires '\0' in src && CopyFits(dst, src, n)
    ensures forall i :: n <= i < |dst| ==> StrNCopied(dst, src, n)[i] == dst[i]
  {
  }

  /**
   * The destination's C string is the source's string cut to at most n - 1
   * characters.
   */
  lemma {:induction false} StrNCopyResult(dst: seq<char>, src: seq<char>, n: nat)
    requires '\0' in src && CopyFits(dst, src, n) && n > 0
    ensures CStr(StrNCopied(dst, src, n)) == CStr(src)[..Min(n - 1, |CStr(src)|)]
  {
    var r := StrNCopied(dst, src, n);
    var k := CopyEnd(src, n);
    CLenAt(r, k);
  }

  /** A sequence whose first NUL is at k has C-string length k. */
  lemma CLenAt(s: seq<char>, k: nat)
    requires k < |s| && s[k] == '\0'
    requires forall i :: 0 <= i < k ==> s[i] != '\0'
    ensures CLen(s) == k
  {
  }

  /**
   * The returned length reaches n exactly when the copy was truncated, that
   * is, when the destination does not hold the whole source string.
   */
  lemma StrNCopyTruncation(dst: seq<char>, src: seq<char>, n: nat)
    requires '\0' in src && CopyFits(dst, src, n) && n > 0
    ensures CLen(src) >= n <==> CStr(StrNCopied(dst, src, n)) != CStr(src)
  {
    StrNCopyResult(dst, src, n);
  }

  /**
   * php_strncpy on arrays. The cursors d and s stand for the advancing dst
   * and src pointers; the result is the distance src travelled, less one.
   */
  method StrNCopy(dst: array<char>, src: array<char>, n: nat) returns (r: nat)
    requires dst != src
    requires '\0' in src[..]
    requires CopyFits(dst[..], src[..], n)
    modifies dst
    ensures r == CLen(src[..])
    ensures dst[..] == StrNCopied(old(dst[..]), src[..], n)
  {
    ghost var len := CLen(src[..]);
    ghost var before := dst[..];
    var nleft := n;
    var d, s := 0, 0;
    // copy as many bytes as will fit
    if nleft != 0 {
      nleft := nleft - 1;
      while nleft != 0
        invariant d == s <= CopyEnd(src[..], n)
        invariant nleft + s == n - 1
        invariant forall i :: 0 <= i < s ==> dst[i] == src[i]
        invariant forall i :: s <= i < dst.Length ==> dst[i] == before[i]
        decreases nleft
      {
        var c := src[s];
        dst[d] := c;
        d, s := d + 1, s + 1;
        if c == '\0' {
          break;
        }
        nleft := nleft - 1;
      }
    }
    // not enough room in dst: terminate it, then walk the rest of src
    if nleft == 0 {
      if n != 0 {
        dst[d] := '\0';
      }
      var c := src[s];
      s := s + 1;
      while c != '\0'
        invariant 1 <= s <= len + 1
        invariant c == src[s - 1]
        decreases len + 1 - s
      {
        c := src[s];
        s := s + 1;
      }
    }
    r := s - 1;
    ghost var after := StrNCopied(before, src[..], n);
    forall i | 0 <= i < dst.Length
      ensures dst[i] == after[i]
    {
    }
    assert dst[..] == after;
  }
}
