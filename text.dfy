/**
 * The JavaScript string primitives the core relies on: `trim`, `toLowerCase`,
 * `includes`, `Array.prototype.join` and concatenation with `+=`.
 * Strings are sequences of characters; lengths count characters.
 */
module Text {

  /** The characters `String.prototype.trim` removes: WhiteSpace and LineTerminator of ECMAScript. */
  predicate IsSpace(c: char) {
    var n := c as int;
    n == 0x09 || n == 0x0A || n == 0x0B || n == 0x0C || n == 0x0D || n == 0x20
    || n == 0xA0 || n == 0x1680 || (0x2000 <= n <= 0x200A) || n == 0x2028 || n == 0x2029
    || n == 0x202F || n == 0x205F || n == 0x3000 || n == 0xFEFF
  }

  predicate AllSpace(s: string) {
    forall i :: 0 <= i < |s| ==> IsSpace(s[i])
  }

  /** Drops leading white space: the result is the suffix of `s` that starts at its first non-space. */
  function TrimStart(s: string): (r: string)
    ensures |r| <= |s| && r == s[|s| - |r|..]
    ensures r == [] || !IsSpace(r[0])
    ensures AllSpace(s[..|s| - |r|])
  {
    if |s| > 0 && IsSpace(s[0]) then TrimStart(s[1..]) else s
  }

  /** Drops trailing white space: the result is the prefix of `s` that ends at its last non-space. */
  function TrimEnd(s: string): (r: string)
    ensures |r| <= |s| && r == s[..|r|]
    ensures r == [] || !IsSpace(r[|r| - 1])
    ensures AllSpace(s[|r|..])
  {
    if |s| > 0 && IsSpace(s[|s| - 1]) then TrimEnd(s[..|s| - 1]) else s
  }

  /** `s.trim()`: both ends of `s` stripped of white space. */
  function Trim(s: string): (r: string)
    ensures |r| <= |s|
    ensures r == [] || (!IsSpace(r[0]) && !IsSpace(r[|r| - 1]))
    ensures exists a :: TrimmedAt(s, r, a)
  {
    TrimStartEnd(s, TrimStart(s), TrimEnd(TrimStart(s)));
    TrimEnd(TrimStart(s))
  }

  /** Where the two strippings leave the trimmed string inside `s`: `t` is `s` after the leading strip, `r` is `t` after the trailing one. */
  lemma TrimStartEnd(s: string, t: string, r: string)
    requires |t| <= |s| && t == s[|s| - |t|..] && AllSpace(s[..|s| - |t|]) && (t == [] || !IsSpace(t[0]))
    requires |r| <= |t| && r == t[..|r|] && AllSpace(t[|r|..])
    ensures TrimmedAt(s, r, |s| - |t|) && (r == [] || !IsSpace(r[0]))
  {
    var a := |s| - |t|;
    assert r == s[a..a + |r|];
    assert s[a + |r|..] == t[|r|..];
  }

  /** `r` is `s` with the white space `s[..a]` before it and the white space after it removed. */
  predicate TrimmedAt(s: string, r: string, a: int) {
    0 <= a <= |s| - |r| && r == s[a..a + |r|] && AllSpace(s[..a]) && AllSpace(s[a + |r|..])
  }

  /** Trimming leaves nothing exactly when the string is all white space. */
  lemma TrimEmptyIff(s: string)
    ensures Trim(s) == [] <==> AllSpace(s)
  {
    var t := TrimStart(s);
    if TrimEnd(t) == [] {
      assert s == s[..|s| - |t|] + t;
      assert t[0..] == t;
    }
  }

  /** A string that is its own trim is left alone by a second trim. */
  lemma TrimOfTrimmed(s: string)
    requires s == [] || (!IsSpace(s[0]) && !IsSpace(s[|s| - 1]))
    ensures Trim(s) == s
  {
  }

  lemma TrimIdempotent(s: string)
    ensures Trim(Trim(s)) == Trim(s)
  {
    TrimOfTrimmed(Trim(s));
  }

  /** `toLowerCase` on the ASCII letters; every other character is left as it is. */
  function LowerChar(c: char): (r: char)
    ensures !('A' <= r <= 'Z')
    ensures IsSpace(r) <==> IsSpace(c)
    ensures !('A' <= c <= 'Z') ==> r == c
  {
    if 'A' <= c <= 'Z' then (c as int + 32) as char else c
  }

  function Lower(s: string): (r: string)
    ensures |r| == |s|
    ensures forall i :: 0 <= i < |s| ==> r[i] == LowerChar(s[i])
  {
    if |s| == 0 then [] else [LowerChar(s[0])] + Lower(s[1..])
  }

  /** Lower-casing twice is lower-casing once. */
  lemma LowerIdempotent(s: string)
    ensures Lower(Lower(s)) == Lower(s)
  {
  }

  /** `t` occurs in `s` starting at position `a`. */
  predicate OccursAt(s: string, t: string, a: int) {
    0 <= a <= |s| - |t| && s[a..a + |t|] == t
  }

  /** `s.includes(t)`: `t` occurs somewhere in `s`. */
  function Contains(s: string, t: string): (b: bool)
    ensures b <==> exists a :: OccursAt(s, t, a)
  {
    if t <= s then
      assert OccursAt(s, t, 0);
      true
    else if |s| == 0 then false
    else
      var b := Contains(s[1..], t);
      assert b ==> exists a :: OccursAt(s, t, a) by {
        if b {
          var a :| OccursAt(s[1..], t, a);
          assert s[a + 1..a + 1 + |t|] == s[1..][a..a + |t|];
          assert OccursAt(s, t, a + 1);
        }
      }
      assert (exists a :: OccursAt(s, t, a)) ==> b by {
        if exists a :: OccursAt(s, t, a) {
          var a :| OccursAt(s, t, a);
          assert s[1..][a - 1..a - 1 + |t|] == s[a..a + |t|];
          assert OccursAt(s[1..], t, a - 1);
        }
      }
      b
  }

  /** `+=` over a list of strings, left to right (the empty list gives ""). */
  function Concat(xs: seq<string>): (r: string)
  {
    if |xs| == 0 then [] else Concat(xs[..|xs| - 1]) + xs[|xs| - 1]
  }

  lemma {:induction false} ConcatAppend(xs: seq<string>, ys: seq<string>)
    ensures Concat(xs + ys) == Concat(xs) + Concat(ys)
    decreases |ys|
  {
    if |ys| == 0 {
      assert xs + ys == xs;
    } else {
      var init, last := ys[..|ys| - 1], ys[|ys| - 1];
      assert Concat(xs + ys) == Concat(xs + init) + last by {
        assert (xs + ys)[..|xs + ys| - 1] == xs + init;
      }
      ConcatAppend(xs, init);
      assert Concat(xs) + Concat(init) + last == Concat(xs) + (Concat(init) + last);
    }
  }

  /** `Array.prototype.join(sep)`: the elements with `sep` between neighbours. */
  function Join(xs: seq<string>, sep: string): (r: string)
    ensures |xs| == 1 ==> r == xs[0]
    ensures |r| == 0 <==> (|xs| == 0 || (|xs| == 1 && xs[0] == []) || (|xs| > 1 && sep == [] && forall i :: 0 <= i < |xs| ==> xs[i] == []))
  {
    if |xs| == 0 then []
    else if |xs| == 1 then xs[0]
    else
      var r := xs[0] + sep + Join(xs[1..], sep);
      assert |xs[1..]| > 1 || (|xs[1..]| == 1 && xs[1..][0] == xs[1]);
      assert (forall i :: 0 <= i < |xs| ==> xs[i] == []) <==> xs[0] == [] && (forall i :: 0 <= i < |xs[1..]| ==> xs[1..][i] == []);
      r
  }

  /** Appending an element to a non-empty list appends the separator and that element to its join. */
  lemma {:induction false} JoinSnoc(xs: seq<string>, x: string, sep: string)
    requires |xs| > 0
    ensures Join(xs + [x], sep) == Join(xs, sep) + sep + x
    decreases |xs|
  {
    if |xs| == 1 {
      assert (xs + [x])[1..] == [x];
    } else {
      assert (xs + [x])[1..] == xs[1..] + [x];
      JoinSnoc(xs[1..], x, sep);
    }
  }

  /** `filter((s) => s)` over strings: the non-empty elements, in order. */
  function Truthy(xs: seq<string>): (kept: seq<string>)
    ensures |kept| <= |xs|
    ensures forall i :: 0 <= i < |kept| ==> kept[i] != []
  {
    if |xs| == 0 then []
    else Truthy(xs[..|xs| - 1]) + (if xs[|xs| - 1] == [] then [] else [xs[|xs| - 1]])
  }

  /** Filtering keeps order: the survivors of a list are those of its parts, one after the other. */
  lemma {:induction false} TruthyAppend(a: seq<string>, b: seq<string>)
    ensures Truthy(a + b) == Truthy(a) + Truthy(b)
    decreases |b|
  {
    if |b| == 0 {
      assert a + b == a;
    } else {
      assert (a + b)[..|a + b| - 1] == a + b[..|b| - 1];
      TruthyAppend(a, b[..|b| - 1]);
    }
  }

  /** An element survives the filter exactly when it is non-empty and was in the list. */
  lemma {:induction false} TruthyMembers(xs: seq<string>, x: string)
    ensures x in Truthy(xs) <==> x != [] && x in xs
  {
    if |xs| > 0 {
      var init := xs[..|xs| - 1];
      TruthyMembers(init, x);
      assert xs == init + [xs[|xs| - 1]];
    }
  }
}
