/** Python's string operations as the dashboard uses them: the substring
    test `sub in s` that drives every styling decision, `str.split` on a
    one-character separator, and the selection key `f"{a}+{b}"`.
 */
module Strings {

  /** `sub in s`: some window of `s` spells `sub` (the empty string occurs everywhere). */
  predicate Contains(s: string, sub: string)
    decreases |s|
  {
    if |sub| > |s| then false
    else if s[..|sub|] == sub then true
    else Contains(s[1..], sub)
  }

  /** `sub` occurs in `s` starting at index `i`. */
  ghost predicate OccursAt(s: string, sub: string, i: int)
  {
    0 <= i && i + |sub| <= |s| && s[i..i + |sub|] == sub
  }

  /** The recursive test agrees with the window definition of a substring. */
  lemma {:induction false} ContainsIffOccurs(s: string, sub: string)
    ensures Contains(s, sub) <==> exists i :: OccursAt(s, sub, i)
    decreases |s|
  {
    if |sub| > |s| {
      assert forall i :: !OccursAt(s, sub, i);
    } else if s[..|sub|] == sub {
      assert OccursAt(s, sub, 0);
    } else {
      var t := s[1..];
      ContainsIffOccurs(t, sub);
      if Contains(t, sub) {
        var j :| OccursAt(t, sub, j);
        assert s[j + 1..j + 1 + |sub|] == t[j..j + |sub|];
        assert OccursAt(s, sub, j + 1);
      }
      if i :| OccursAt(s, sub, i) {
        assert i != 0;
        assert t[i - 1..i - 1 + |sub|] == s[i..i + |sub|];
        assert OccursAt(t, sub, i - 1);
      }
    }
  }

  /** A substring free of `c` occurs in `a + [c] + b` exactly when it occurs
      in `a` or in `b`: no occurrence can straddle the separator. */
  lemma SeparatedContains(a: string, c: char, b: string, sub: string)
    requires c !in sub
    ensures Contains(a + [c] + b, sub) <==> Contains(a, sub) || Contains(b, sub)
  {
    var s := a + [c] + b;
    ContainsIffOccurs(s, sub);
    ContainsIffOccurs(a, sub);
    ContainsIffOccurs(b, sub);
    if i :| OccursAt(s, sub, i) {
      OccurrenceAvoidsSeparator(a, c, b, sub, i);
    }
    if i :| OccursAt(a, sub, i) {
      OccurrenceInHead(a, c, b, sub, i);
    }
    if i :| OccursAt(b, sub, i) {
      OccurrenceInTail(a, c, b, sub, i);
    }
  }

  lemma OccurrenceAvoidsSeparator(a: string, c: char, b: string, sub: string, i: int)
    requires c !in sub
    requires OccursAt(a + [c] + b, sub, i)
    ensures OccursAt(a, sub, i) || OccursAt(b, sub, i - |a| - 1)
  {
    var s := a + [c] + b;
    if i + |sub| <= |a| {
      assert s[i..i + |sub|] == a[i..i + |sub|];
    } else if i > |a| {
      assert s[i..i + |sub|] == b[i - |a| - 1..i - |a| - 1 + |sub|];
    } else {
      CharOfOccurrence(s, sub, i, |a| - i);
      assert false;
    }
  }

  lemma OccurrenceInHead(a: string, c: char, b: string, sub: string, i: int)
    requires OccursAt(a, sub, i)
    ensures OccursAt(a + [c] + b, sub, i)
  {
    assert (a + [c] + b)[i..i + |sub|] == a[i..i + |sub|];
  }

  lemma OccurrenceInTail(a: string, c: char, b: string, sub: string, i: int)
    requires OccursAt(b, sub, i)
    ensures OccursAt(a + [c] + b, sub, i + |a| + 1)
  {
    var s := a + [c] + b;
    assert s[i + |a| + 1..i + |a| + 1 + |sub|] == b[i..i + |sub|];
  }

  /** Each character of an occurrence is the character of `s` under it. */
  lemma CharOfOccurrence(s: string, sub: string, i: int, k: int)
    ensures OccursAt(s, sub, i) && 0 <= k < |sub| ==> sub[k] == s[i + k]
  {
    if OccursAt(s, sub, i) && 0 <= k < |sub| {
      assert s[i..i + |sub|][k] == s[i + k];
    }
  }

  /** `s.split(c)`: the maximal `c`-free pieces of `s`, in order. */
  function Split(s: string, c: char): (parts: seq<string>)
    ensures |parts| >= 1
    ensures forall k :: 0 <= k < |parts| ==> c !in parts[k]
    ensures Join(parts, c) == s
    decreases |s|
  {
    if |s| == 0 then [""]
    else
      var rest := Split(s[1..], c);
      if s[0] == c then [""] + rest
      else [[s[0]] + rest[0]] + rest[1..]
  }

  /** `c.join(parts)` for a non-empty list of pieces. */
  function Join(parts: seq<string>, c: char): string
    requires |parts| >= 1
    decreases |parts|
  {
    if |parts| == 1 then parts[0] else parts[0] + [c] + Join(parts[1..], c)
  }

  /** Splitting undoes joining when no piece contains the separator. */
  lemma {:induction false} SplitJoin(parts: seq<string>, c: char)
    requires |parts| >= 1
    requires forall k :: 0 <= k < |parts| ==> c !in parts[k]
    ensures Split(Join(parts, c), c) == parts
    decreases |parts|
  {
    if |parts| == 1 {
      SplitFree(parts[0], c);
    } else {
      SplitJoin(parts[1..], c);
      SplitPrefix(parts[0], c, Join(parts[1..], c));
      assert [parts[0]] + parts[1..] == parts;
    }
  }

  /** A `c`-free string splits into itself. */
  lemma {:induction false} SplitFree(s: string, c: char)
    requires c !in s
    ensures Split(s, c) == [s]
    decreases |s|
  {
    if |s| > 0 {
      SplitFree(s[1..], c);
      assert [s[0]] + s[1..] == s;
    }
  }

  /** A `c`-free head followed by the separator splits off as one piece. */
  lemma {:induction false} SplitPrefix(a: string, c: char, b: string)
    requires c !in a
    ensures Split(a + [c] + b, c) == [a] + Split(b, c)
    decreases |a|
  {
    if |a| == 0 {
      assert a + [c] + b == [c] + b;
      assert ([c] + b)[1..] == b;
    } else {
      SplitPrefix(a[1..], c, b);
      assert (a + [c] + b)[1..] == a[1..] + [c] + b;
      assert [a[0]] + a[1..] == a;
    }
  }

  /** The dropdown value for a pair of surfaces, `f"{name1}+{name2}"`. */
  function SelectionKey(name1: string, name2: string): (key: string)
    ensures |key| == |name1| + |name2| + 1
    ensures key[|name1|] == '+'
  {
    name1 + "+" + name2
  }

  /** Splitting a selection key on '+' recovers both names (indices 0 and 1)
      exactly when neither name contains '+'. */
  lemma SelectionKeyRoundTrip(name1: string, name2: string)
    ensures var parts := Split(SelectionKey(name1, name2), '+');
      (|parts| >= 2 && parts[0] == name1 && parts[1] == name2)
      <==> ('+' !in name1 && '+' !in name2)
  {
    var parts := Split(SelectionKey(name1, name2), '+');
    if '+' !in name1 && '+' !in name2 {
      assert Join([name1, name2], '+') == SelectionKey(name1, name2);
      SplitJoin([name1, name2], '+');
    }
  }
}
