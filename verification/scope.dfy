/** oauth2/scope.go: a scope string (section 3.3 of RFC 6749) is split on single spaces and the
    empty pieces between consecutive spaces are dropped. */
module Scope {
  import opened Strings

  /** The pieces that are not empty, in their original order. */
  function NonEmpty(parts: seq<string>): (kept: seq<string>)
    ensures forall k :: 0 <= k < |kept| ==> kept[k] != ""
    ensures forall k :: 0 <= k < |kept| ==> kept[k] in parts
    ensures (forall k :: 0 <= k < |parts| ==> parts[k] != "") ==> kept == parts
    decreases |parts|
  {
    if |parts| == 0 then []
    else
      assert [parts[0]] + parts[1..] == parts;
      (if parts[0] == "" then [] else [parts[0]]) + NonEmpty(parts[1..])
  }

  /** Dropping empties distributes over concatenation, so relative order is kept. */
  lemma {:induction false} NonEmptyAppend(a: seq<string>, b: seq<string>)
    ensures NonEmpty(a + b) == NonEmpty(a) + NonEmpty(b)
    decreases |a|
  {
    if |a| == 0 {
      assert a + b == b;
    } else {
      var head := if a[0] == "" then [] else [a[0]];
      assert (a + b)[0] == a[0];
      assert (a + b)[1..] == a[1..] + b;
      NonEmptyAppend(a[1..], b);
      assert head + (NonEmpty(a[1..]) + NonEmpty(b)) == (head + NonEmpty(a[1..])) + NonEmpty(b);
    }
  }

  /** ParseScope: only the space character separates; every other character, tab included,
      stays inside its token. */
  function ParseScope(scopeString: string): (scope: seq<string>)
    ensures forall k :: 0 <= k < |scope| ==> scope[k] != "" && ' ' !in scope[k]
    ensures scopeString == "" ==> scope == []
  {
    NonEmpty(Split(scopeString, ' '))
  }

  /** A list of non-empty, space-free tokens joined with single spaces parses back to itself. */
  lemma ParseJoined(tokens: seq<string>)
    requires forall k :: 0 <= k < |tokens| ==> tokens[k] != "" && ' ' !in tokens[k]
    ensures ParseScope(Join(tokens, ' ')) == tokens
  {
    if |tokens| == 0 {
      assert Split("", ' ') == [""];
    } else {
      SplitJoin(tokens, ' ');
    }
  }

  /** Parsing is idempotent: re-joining the parsed scope with spaces and parsing again changes
      nothing. */
  lemma ParseIdempotent(scopeString: string)
    ensures ParseScope(Join(ParseScope(scopeString), ' ')) == ParseScope(scopeString)
  {
    ParseJoined(ParseScope(scopeString));
  }

  /** A space splits a scope string into the scopes of its two sides, in order. */
  lemma ParseAppend(a: string, b: string)
    ensures ParseScope(a + " " + b) == ParseScope(a) + ParseScope(b)
  {
    SplitAppend(a, ' ', b);
    NonEmptyAppend(Split(a, ' '), Split(b, ' '));
  }

  /** A non-empty run without spaces is a single scope, whatever other characters it holds. */
  lemma ParseToken(token: string)
    requires token != "" && ' ' !in token
    ensures ParseScope(token) == [token]
  {
    ParseJoined([token]);
  }
}
