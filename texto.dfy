/** The string primitives the task list relies on: `String.prototype.trim`,
    `toLowerCase` and `includes`. */
module Texto {

  /** The characters `trim` strips: ECMAScript's WhiteSpace (tab, vertical tab,
      form feed, space, no-break space, byte-order mark and the other Zs space
      separators) and LineTerminator (LF, CR, line and paragraph separators). */
  predicate IsSpace(c: char)
  {
    c == '\t' || c == '\n' || c == '\U{B}' || c == '\U{C}' || c == '\r' || c == ' ' ||
    c == '\U{A0}' || c == '\U{1680}' || ('\U{2000}' <= c <= '\U{200A}') ||
    c == '\U{2028}' || c == '\U{2029}' || c == '\U{202F}' || c == '\U{205F}' ||
    c == '\U{3000}' || c == '\U{FEFF}'
  }

  /** `s` without its leading white space. */
  function TrimStart(s: string): (r: string)
    ensures |r| <= |s| && r == s[|s| - |r|..]
    ensures forall k :: 0 <= k < |s| - |r| ==> IsSpace(s[k])
    ensures r == [] || !IsSpace(r[0])
  {
    if s != [] && IsSpace(s[0]) then TrimStart(s[1..]) else s
  }

  /** `s` without its trailing white space. */
  function TrimEnd(s: string): (r: string)
    ensures |r| <= |s| && r == s[..|r|]
    ensures forall k :: |r| <= k < |s| ==> IsSpace(s[k])
    ensures r == [] || !IsSpace(r[|r| - 1])
  {
    if s != [] && IsSpace(s[|s| - 1]) then TrimEnd(s[..|s| - 1]) else s
  }

  /** `String.prototype.trim`: the stretch of `s` left after dropping its
      leading and trailing white space; it neither starts nor ends with white
      space. */
  function Trim(s: string): (r: string)
    ensures |r| <= |s| && OccursAt(s, r, |s| - |TrimStart(s)|)
    ensures forall k :: |s| - |TrimStart(s)| + |r| <= k < |s| ==> IsSpace(s[k])
    ensures r == [] || (!IsSpace(r[0]) && !IsSpace(r[|r| - 1]))
  {
    var a := TrimStart(s);
    var t := TrimEnd(a);
    assert t == [] || t[0] == a[0];
    t
  }

  /** A string made only of white space trims to nothing. */
  lemma {:induction false} AllSpaceTrimsAway(s: string)
    requires forall k :: 0 <= k < |s| ==> IsSpace(s[k])
    ensures TrimStart(s) == [] && Trim(s) == []
    decreases |s|
  {
    if s != [] {
      AllSpaceTrimsAway(s[1..]);
    }
  }

  /** A name is empty after trimming exactly when it is all white space
      (which is what `if (!nombre)` rejects). */
  lemma TrimEmptyIff(s: string)
    ensures Trim(s) == [] <==> forall k :: 0 <= k < |s| ==> IsSpace(s[k])
  {
    if forall k :: 0 <= k < |s| ==> IsSpace(s[k]) {
      AllSpaceTrimsAway(s);
    }
  }

  /** Trimming twice is trimming once. */
  lemma TrimIdempotent(s: string)
    ensures Trim(Trim(s)) == Trim(s)
  {
    var a := TrimStart(s);
    var t := TrimEnd(a);
    if t != [] {
      assert t[0] == a[0];
    }
  }

  /** `toLowerCase`, restricted to the ASCII letters. */
  function LowerChar(c: char): (d: char)
    ensures !('A' <= d <= 'Z')
    ensures !('A' <= c <= 'Z') ==> d == c
  {
    if 'A' <= c <= 'Z' then (c as int + 32) as char else c
  }

  function Lower(s: string): (r: string)
    ensures |r| == |s|
    ensures forall i :: 0 <= i < |s| ==> r[i] == LowerChar(s[i])
  {
    if s == [] then [] else [LowerChar(s[0])] + Lower(s[1..])
  }

  /** `n` occurs in `h` starting at position `i`. */
  predicate OccursAt(h: string, n: string, i: nat)
  {
    i + |n| <= |h| && h[i..i + |n|] == n
  }

  /** `String.prototype.includes`: `n` occurs somewhere in `h`. */
  function Includes(h: string, n: string): (r: bool)
    ensures r <==> exists i: nat :: OccursAt(h, n, i)
  {
    if |n| > |h| then false
    else if h[..|n|] == n then
      assert OccursAt(h, n, 0);
      true
    else
      OccursLater(h, n);
      Includes(h[1..], n)
  }

  /** A text in which the first character of `n` never appears does not
      include `n`. */
  lemma FirstCharMissing(h: string, n: string)
    requires n != [] && forall k :: 0 <= k < |h| ==> h[k] != n[0]
    ensures !Includes(h, n)
  {
    forall i: nat ensures !OccursAt(h, n, i) {
      if i + |n| <= |h| {
        assert h[i..i + |n|][0] == h[i];
      }
    }
  }

  /** When `n` is not a prefix of `h`, it occurs in `h` exactly when it occurs
      in `h` without its first character. */
  lemma OccursLater(h: string, n: string)
    requires |n| <= |h| && h[..|n|] != n
    ensures (exists i: nat :: OccursAt(h, n, i)) <==> (exists i: nat :: OccursAt(h[1..], n, i))
  {
    if exists i: nat :: OccursAt(h[1..], n, i) {
      var i: nat :| OccursAt(h[1..], n, i);
      assert h[i + 1..i + 1 + |n|] == h[1..][i..i + |n|];
      assert OccursAt(h, n, i + 1);
    }
    if exists i: nat :: OccursAt(h, n, i) {
      var i: nat :| OccursAt(h, n, i);
      assert i > 0;
      assert h[1..][i - 1..i - 1 + |n|] == h[i..i + |n|];
      assert OccursAt(h[1..], n, i - 1);
    }
  }
}
