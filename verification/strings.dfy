/** The parts of Go's `strings` package the provider uses, for single-character separators. */
module Strings {

  /** strings.IndexByte: the position of the first `c` in `s`, or -1 when there is none. */
  function IndexOf(s: string, c: char): (i: int)
    ensures -1 <= i < |s|
    ensures i == -1 <==> c !in s
    ensures 0 <= i ==> s[i] == c && c !in s[..i]
  {
    if |s| == 0 then -1
    else if s[0] == c then 0
    else
      var j := IndexOf(s[1..], c);
      if j < 0 then -1
      else
        assert s[..j + 1] == [s[0]] + s[1..][..j];
        j + 1
  }

  /** The first occurrence of a separator is found wherever the separator-free prefix ends. */
  lemma IndexOfAfterPrefix(a: string, c: char, b: string)
    requires c !in a
    ensures IndexOf(a + [c] + b, c) == |a|
  {
    var s := a + [c] + b;
    assert s[|a|] == c;
    assert s[..|a|] == a;
  }

  /** strings.SplitN(s, sep, 2): the whole string when `sep` is absent, otherwise the text
      before and after its first occurrence. */
  function SplitN2(s: string, sep: char): (parts: seq<string>)
    ensures 1 <= |parts| <= 2
    ensures |parts| == 1 <==> sep !in s
    ensures |parts| == 1 ==> parts[0] == s
    ensures |parts| == 2 ==> sep !in parts[0] && parts[0] + [sep] + parts[1] == s
  {
    var i := IndexOf(s, sep);
    if i < 0 then [s]
    else
      assert s[..i] + [sep] + s[i + 1..] == s;
      [s[..i], s[i + 1..]]
  }

  /** The split is unique: a separator-free head and any tail are recovered exactly. */
  lemma SplitN2Of(a: string, sep: char, b: string)
    requires sep !in a
    ensures SplitN2(a + [sep] + b, sep) == [a, b]
  {
    var s := a + [sep] + b;
    IndexOfAfterPrefix(a, sep, b);
    assert s[..|a|] == a;
    assert s[|a| + 1..] == b;
  }

  /** strings.Split(s, sep): the maximal separator-free pieces between separators, in order. */
  function Split(s: string, sep: char): (parts: seq<string>)
    ensures |parts| >= 1
    ensures forall k :: 0 <= k < |parts| ==> sep !in parts[k]
    decreases |s|
  {
    var i := IndexOf(s, sep);
    if i < 0 then [s] else [s[..i]] + Split(s[i + 1..], sep)
  }

  /** strings.Join(parts, sep). */
  function Join(parts: seq<string>, sep: char): string
  {
    if |parts| == 0 then ""
    else if |parts| == 1 then parts[0]
    else parts[0] + [sep] + Join(parts[1..], sep)
  }

  /** Joining the pieces with the separator gives back the original string. */
  lemma {:induction false} JoinSplit(s: string, sep: char)
    ensures Join(Split(s, sep), sep) == s
    decreases |s|
  {
    var i := IndexOf(s, sep);
    if i < 0 {
      assert Split(s, sep) == [s];
    } else {
      var head := s[..i];
      var tail := s[i + 1..];
      var rest := Split(tail, sep);
      JoinSplit(tail, sep);
      assert Split(s, sep) == [head] + rest;
      assert |[head] + rest| >= 2;
      assert ([head] + rest)[0] == head && ([head] + rest)[1..] == rest;
      calc {
        Join(Split(s, sep), sep);
        Join([head] + rest, sep);
        head + [sep] + Join(rest, sep);
        head + [sep] + tail;
        { assert head + [sep] + tail == s; }
        s;
      }
    }
  }

  /** Splitting a join of separator-free pieces gives back exactly those pieces. */
  lemma {:induction false} SplitJoin(parts: seq<string>, sep: char)
    requires |parts| >= 1
    requires forall k :: 0 <= k < |parts| ==> sep !in parts[k]
    ensures Split(Join(parts, sep), sep) == parts
    decreases |parts|
  {
    if |parts| > 1 {
      var rest := Join(parts[1..], sep);
      var s := parts[0] + [sep] + rest;
      IndexOfAfterPrefix(parts[0], sep, rest);
      assert s[..|parts[0]|] == parts[0];
      assert s[|parts[0]| + 1..] == rest;
      assert Join(parts, sep) == s;
      assert Split(s, sep) == [parts[0]] + Split(rest, sep);
      SplitJoin(parts[1..], sep);
      assert [parts[0]] + parts[1..] == parts;
    }
  }

  /** Concatenation is associative; stated apart so that proofs about Split need not rediscover
      it among the Split terms. */
  lemma ConcatAssoc<T>(x: seq<T>, y: seq<T>, z: seq<T>)
    ensures x + (y + z) == (x + y) + z
  {
  }

  /** A sequence is what lies before position i, the element there, and what follows. */
  lemma SliceAround<T>(x: seq<T>, i: int)
    requires 0 <= i < |x|
    ensures x == x[..i] + [x[i]] + x[i + 1..]
  {
  }

  /** Split peels off the text before the first separator. */
  lemma SplitAtFirst(head: string, sep: char, tail: string)
    requires sep !in head
    ensures Split(head + [sep] + tail, sep) == [head] + Split(tail, sep)
  {
    var s := head + [sep] + tail;
    IndexOfAfterPrefix(head, sep, tail);
    assert s[..|head|] == head;
    assert s[|head| + 1..] == tail;
  }

  /** A separator splits the string into the pieces of its two sides. */
  lemma {:induction false} SplitAppend(a: string, sep: char, b: string)
    ensures Split(a + [sep] + b, sep) == Split(a, sep) + Split(b, sep)
    decreases |a|
  {
    var i := IndexOf(a, sep);
    if i < 0 {
      SplitAtFirst(a, sep, b);
      assert Split(a, sep) == [a];
    } else {
      var head := a[..i];
      var rest := a[i + 1..];
      SliceAround(a, i);
      SplitAppend(rest, sep, b);
      SplitAppendStep(head, rest, sep, b);
    }
  }

  /** The inductive step of SplitAppend: the head before the first separator of `a` leads
      both sides. */
  lemma SplitAppendStep(head: string, rest: string, sep: char, b: string)
    requires sep !in head
    requires Split(rest + [sep] + b, sep) == Split(rest, sep) + Split(b, sep)
    ensures Split(head + [sep] + rest + [sep] + b, sep) == Split(head + [sep] + rest, sep) + Split(b, sep)
  {
    var left := Split(rest, sep);
    var right := Split(b, sep);
    SplitAtFirst(head, sep, rest);
    ConcatAssoc(head + [sep] + rest, [sep], b);
    ConcatAssoc(head + [sep], rest, [sep] + b);
    ConcatAssoc(rest, [sep], b);
    SplitAtFirst(head, sep, rest + [sep] + b);
    ConcatAssoc([head], left, right);
  }


}
