/** String helpers that mirror the JavaScript built-ins used by the core. */
module Strings {

  /** `parts.join("")` on an array of strings: as long as all the parts together. */
  function Concat(parts: seq<string>): (text: string)
    ensures |text| == TotalLength(parts)
  {
    if parts == [] then ""
    else
      var init, last := parts[..|parts| - 1], parts[|parts| - 1];
      assert parts == init + [last];
      TotalLengthAppend(init, last);
      Concat(init) + last
  }

  /** The sum of the lengths of `parts`, counted from the front. */
  function TotalLength(parts: seq<string>): nat
  {
    if parts == [] then 0 else |parts[0]| + TotalLength(parts[1..])
  }

  lemma {:induction false} TotalLengthAppend(parts: seq<string>, last: string)
    ensures TotalLength(parts + [last]) == TotalLength(parts) + |last|
    decreases |parts|
  {
    if parts == [] {
      assert parts + [last] == [last];
    } else {
      assert (parts + [last])[1..] == parts[1..] + [last];
      TotalLengthAppend(parts[1..], last);
    }
  }

  /** Pushing one more part appends exactly that part to the joined text. */
  lemma ConcatAppend(parts: seq<string>, last: string)
    ensures Concat(parts + [last]) == Concat(parts) + last
  {
    assert (parts + [last])[..|parts|] == parts;
  }

  /** The joined text of a sequence is a prefix of the joined text of any extension of it. */
  lemma {:induction false} ConcatPrefix(parts: seq<string>, more: seq<string>)
    ensures Concat(parts) <= Concat(parts + more)
    decreases |more|
  {
    if more == [] {
      assert parts + more == parts;
    } else {
      var init := more[..|more| - 1];
      assert parts + more == (parts + init) + [more[|more| - 1]];
      ConcatAppend(parts + init, more[|more| - 1]);
      ConcatPrefix(parts, init);
    }
  }

  lemma PrefixTransitive(a: string, b: string, c: string)
    requires a <= b && b <= c
    ensures a <= c
  {
  }

  /** The joined text of a sequence is the text of its first part followed by the rest. */
  lemma {:induction false} ConcatCons(first: string, rest: seq<string>)
    ensures Concat([first] + rest) == first + Concat(rest)
    decreases |rest|
  {
    if rest == [] {
      assert [first] + rest == [] + [first];
      ConcatAppend([], first);
    } else {
      var init := rest[..|rest| - 1];
      var last := rest[|rest| - 1];
      assert [first] + rest == ([first] + init) + [last];
      assert rest == init + [last];
      ConcatAppend([first] + init, last);
      ConcatCons(first, init);
      ConcatAppend(init, last);
    }
  }

  /** A character of the ASCII class `\w` of JavaScript regular expressions (no `u` flag). */
  predicate IsWordChar(c: char)
  {
    ('a' <= c <= 'z') || ('A' <= c <= 'Z') || ('0' <= c <= '9') || c == '_'
  }

  /** A line terminator: the characters that the regular-expression `.` does not match. */
  predicate IsLineTerminator(c: char)
  {
    c == '\n' || c == '\r' || c == '\U{2028}' || c == '\U{2029}'
  }

  /** The longest run of word characters of `s` starting at position `k` (a greedy `\w*`). */
  function WordRun(s: string, k: nat): (w: string)
    requires k <= |s|
    ensures k + |w| <= |s| && s[k..k + |w|] == w
    ensures forall c :: 0 <= c < |w| ==> IsWordChar(w[c])
    ensures k + |w| == |s| || !IsWordChar(s[k + |w|])
    decreases |s| - k
  {
    if k < |s| && IsWordChar(s[k]) then [s[k]] + WordRun(s, k + 1) else ""
  }
}
