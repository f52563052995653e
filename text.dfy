/** The string operations the pages rely on: `trim`, `toLowerCase` and
    `includes`. JavaScript's versions work on all of Unicode; this model fixes
    an ASCII whitespace set (space, tab, line feed, carriage return, vertical
    tab, form feed) and the ASCII case mapping of 'A'..'Z'. */
module Text {

  predicate IsSpace(c: char) {
    c == ' ' || c == '\t' || c == '\n' || c == '\r' || c == '\U{B}' || c == '\U{C}'
  }

  predicate AllSpace(s: string) {
    forall i :: 0 <= i < |s| ==> IsSpace(s[i])
  }

  /** Drops the leading whitespace: what is left is a suffix of `s`, what was
      dropped is all whitespace, and what is left does not start with any. */
  function TrimStart(s: string): (r: string)
    ensures |r| <= |s| && r == s[|s| - |r|..]
    ensures AllSpace(s[..|s| - |r|])
    ensures r != [] ==> !IsSpace(r[0])
  {
    if |s| > 0 && IsSpace(s[0]) then
      var r := TrimStart(s[1..]);
      assert s[..|s| - |r|] == [s[0]] + s[1..][..|s| - 1 - |r|];
      r
    else s
  }

  /** Drops the trailing whitespace: what is left is a prefix of `s`, what was
      dropped is all whitespace, and what is left does not end with any. */
  function TrimEnd(s: string): (r: string)
    ensures |r| <= |s| && r == s[..|r|]
    ensures AllSpace(s[|r|..])
    ensures r != [] ==> !IsSpace(r[|r| - 1])
  {
    if |s| > 0 && IsSpace(s[|s| - 1]) then
      var r := TrimEnd(s[..|s| - 1]);
      assert s[|r|..] == s[..|s| - 1][|r|..] + [s[|s| - 1]];
      r
    else s
  }

  /** `String.prototype.trim`. */
  function Trim(s: string): string {
    TrimEnd(TrimStart(s))
  }

  function LowerChar(c: char): char {
    if 'A' <= c <= 'Z' then (c as int - 'A' as int + 'a' as int) as char else c
  }

  /** `String.prototype.toLowerCase`, character by character. */
  function ToLower(s: string): (r: string)
    ensures |r| == |s|
  {
    seq(|s|, i requires 0 <= i < |s| => LowerChar(s[i]))
  }

  /** `String.prototype.includes`: `q` occurs in `s` at some position. */
  function Contains(s: string, q: string): bool {
    q <= s || (|s| > 0 && Contains(s[1..], q))
  }

  // ---- lemmas -------------------------------------------------------------

  lemma {:induction false} TrimStartSpaces(w: string, t: string)
    requires AllSpace(w)
    ensures TrimStart(w + t) == TrimStart(t)
  {
    if w != [] {
      var wt := w + t;
      assert wt[0] == w[0] && IsSpace(w[0]);
      assert TrimStart(wt) == TrimStart(wt[1..]);
      assert wt[1..] == w[1..] + t;
      assert AllSpace(w[1..]);
      TrimStartSpaces(w[1..], t);
    } else {
      assert w + t == t;
    }
  }

  lemma {:induction false} TrimStartAppend(s: string, t: string)
    requires TrimStart(s) != []
    ensures TrimStart(s + t) == TrimStart(s) + t
  {
    if |s| > 0 && IsSpace(s[0]) {
      assert (s + t)[1..] == s[1..] + t;
      TrimStartAppend(s[1..], t);
    }
  }

  lemma {:induction false} TrimEndSpaces(t: string, w: string)
    requires AllSpace(w)
    ensures TrimEnd(t + w) == TrimEnd(t)
  {
    if w != [] {
      var tw := t + w;
      assert tw[|tw| - 1] == w[|w| - 1] && IsSpace(w[|w| - 1]);
      assert TrimEnd(tw) == TrimEnd(tw[..|tw| - 1]);
      assert tw[..|tw| - 1] == t + w[..|w| - 1];
      assert AllSpace(w[..|w| - 1]);
      TrimEndSpaces(t, w[..|w| - 1]);
    } else {
      assert t + w == t;
    }
  }

  /** Whitespace around the text never changes what `trim` returns. */
  lemma TrimPadding(w1: string, s: string, w2: string)
    requires AllSpace(w1) && AllSpace(w2)
    ensures Trim(w1 + s + w2) == Trim(s)
  {
    assert w1 + s + w2 == w1 + (s + w2);
    TrimStartSpaces(w1, s + w2);
    if TrimStart(s) != [] {
      TrimStartAppend(s, w2);
      TrimEndSpaces(TrimStart(s), w2);
    } else {
      assert s == s[..|s|];
      TrimStartSpaces(s, w2);
      TrimStartSpaces(w2, []);
      assert w2 + [] == w2;
    }
  }

  /** `trim` returns the slice between the leading and the trailing
      whitespace. */
  lemma TrimSlice(s: string) returns (i: nat, j: nat)
    ensures i <= j <= |s| && Trim(s) == s[i..j]
    ensures AllSpace(s[..i]) && AllSpace(s[j..])
  {
    var t := TrimStart(s);
    i := |s| - |t|;
    assert t == s[i..] && AllSpace(s[..i]);
    var e := TrimEnd(t);
    j := i + |e|;
    assert e == t[..|e|] && AllSpace(t[|e|..]);
    assert t[..|e|] == s[i..j];
    assert t[|e|..] == s[j..];
  }

  /** Text that neither starts nor ends with whitespace is its own trim. */
  lemma TrimUnpadded(s: string)
    requires s != [] && !IsSpace(s[0]) && !IsSpace(s[|s| - 1])
    ensures Trim(s) == s
  {
    assert TrimStart(s) == s;
  }

  /** Lowering leaves whitespace alone. */
  lemma LowerSpace(c: char)
    requires IsSpace(c)
    ensures LowerChar(c) == c
  {
  }

  lemma ToLowerAppend(a: string, b: string)
    ensures ToLower(a + b) == ToLower(a) + ToLower(b)
  {
    assert forall i :: 0 <= i < |a + b| ==> ToLower(a + b)[i] == (ToLower(a) + ToLower(b))[i];
  }

  lemma {:induction false} TrimStartLower(s: string)
    ensures TrimStart(ToLower(s)) == ToLower(TrimStart(s))
  {
    if |s| > 0 {
      var l := ToLower(s);
      assert l[0] == LowerChar(s[0]) && (IsSpace(l[0]) <==> IsSpace(s[0]));
      assert l[1..] == ToLower(s[1..]);
      if IsSpace(s[0]) {
        TrimStartLower(s[1..]);
      }
    }
  }

  lemma {:induction false} TrimEndLower(s: string)
    ensures TrimEnd(ToLower(s)) == ToLower(TrimEnd(s))
  {
    if |s| > 0 {
      var l := ToLower(s);
      assert l[|s| - 1] == LowerChar(s[|s| - 1]) && (IsSpace(l[|s| - 1]) <==> IsSpace(s[|s| - 1]));
      assert l[..|s| - 1] == ToLower(s[..|s| - 1]);
      if IsSpace(s[|s| - 1]) {
        TrimEndLower(s[..|s| - 1]);
      }
    }
  }

  /** Trimming and lowering commute, since no whitespace character is a
      letter. */
  lemma TrimLower(s: string)
    ensures Trim(ToLower(s)) == ToLower(Trim(s))
  {
    TrimStartLower(s);
    TrimEndLower(TrimStart(s));
  }

  /** `q` occurs in `s` starting at index `i`. */
  predicate OccursAt(s: string, q: string, i: int) {
    0 <= i && i + |q| <= |s| && s[i..i + |q|] == q
  }

  /** `Contains` holds exactly when `q` occurs in `s` at some index. */
  lemma ContainsAt(s: string, q: string)
    ensures Contains(s, q) <==> exists i :: OccursAt(s, q, i)
  {
    if Contains(s, q) {
      ContainsSound(s, q);
    }
    if exists i :: OccursAt(s, q, i) {
      var i :| OccursAt(s, q, i);
      ContainsComplete(s, q, i);
    }
  }

  lemma {:induction false} ContainsSound(s: string, q: string)
    requires Contains(s, q)
    ensures exists i :: OccursAt(s, q, i)
  {
    if q <= s {
      assert OccursAt(s, q, 0);
    } else {
      ContainsSound(s[1..], q);
      var j :| OccursAt(s[1..], q, j);
      OccursShift(s, q, j + 1);
    }
  }

  lemma {:induction false} ContainsComplete(s: string, q: string, i: int)
    requires OccursAt(s, q, i)
    ensures Contains(s, q)
  {
    if i == 0 {
      assert s[..|q|] == q;
    } else {
      OccursShift(s, q, i);
      ContainsComplete(s[1..], q, i - 1);
    }
  }

  /** An occurrence past the first character is one in the tail. */
  lemma OccursShift(s: string, q: string, i: int)
    requires |s| > 0 && 1 <= i
    ensures OccursAt(s, q, i) <==> OccursAt(s[1..], q, i - 1)
  {
    if i + |q| <= |s| {
      assert s[1..][i - 1..i - 1 + |q|] == s[i..i + |q|];
    }
  }

  /** A text built around `q` contains `q`. */
  lemma {:induction false} ContainsInfix(a: string, q: string, b: string)
    ensures Contains(a + q + b, q)
  {
    if a == [] {
      assert a + q + b == q + b;
    } else {
      assert (a + q + b)[1..] == a[1..] + q + b;
      ContainsInfix(a[1..], q, b);
    }
  }
}
