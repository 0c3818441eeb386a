/**
 * The page text handed to speech: the strings of a page's text items joined
 * with single spaces, in the order the document source returns them.
 */
module PageText {

  /** Sum of the lengths of the tokens. */
  function TotalLength(tokens: seq<string>): nat
  {
    if tokens == [] then 0 else |tokens[0]| + TotalLength(tokens[1..])
  }

  /** `items.map(item => item.str).join(' ')`: no separator before the first
      token or after the last, exactly one between neighbours. */
  function JoinTokens(tokens: seq<string>): (r: string)
    ensures tokens == [] ==> r == ""
    ensures tokens != [] ==> |r| == TotalLength(tokens) + |tokens| - 1
    ensures tokens != [] ==> r[..|tokens[0]|] == tokens[0]
  {
    if |tokens| == 0 then ""
    else if |tokens| == 1 then tokens[0]
    else tokens[0] + " " + JoinTokens(tokens[1..])
  }

  /** The inverse of joining: cut a string at every space. */
  function SplitAtSpaces(s: string): (r: seq<string>)
    ensures |r| >= 1
  {
    if s == [] then [""]
    else
      var rest := SplitAtSpaces(s[1..]);
      if s[0] == ' ' then [""] + rest
      else [[s[0]] + rest[0]] + rest[1..]
  }

  /** A space-free prefix becomes part of the first piece. */
  lemma {:induction false} SplitWord(t: string, s: string)
    requires ' ' !in t
    ensures SplitAtSpaces(t + s) == [t + SplitAtSpaces(s)[0]] + SplitAtSpaces(s)[1..]
  {
    if t == [] {
      assert t + s == s;
      var r := SplitAtSpaces(s);
      assert t + r[0] == r[0];
      assert r == [r[0]] + r[1..];
    } else {
      SplitWord(t[1..], s);
      assert (t + s)[0] == t[0];
      assert (t + s)[1..] == t[1..] + s;
      assert [t[0]] + (t[1..] + SplitAtSpaces(s)[0]) == t + SplitAtSpaces(s)[0];
    }
  }

  /** Joining loses nothing when no token contains a space: cutting the page
      text at its spaces gives back the tokens, in source order. */
  lemma {:induction false} SplitJoin(tokens: seq<string>)
    requires tokens != []
    requires forall i :: 0 <= i < |tokens| ==> ' ' !in tokens[i]
    ensures SplitAtSpaces(JoinTokens(tokens)) == tokens
  {
    if |tokens| == 1 {
      SplitWord(tokens[0], "");
      assert tokens[0] + "" == tokens[0];
    } else {
      var rest := JoinTokens(tokens[1..]);
      SplitJoin(tokens[1..]);
      SplitWord(tokens[0], " " + rest);
      assert tokens[0] + " " + rest == tokens[0] + (" " + rest);
      assert (" " + rest)[0] == ' ' && (" " + rest)[1..] == rest;
      assert SplitAtSpaces(" " + rest) == [""] + tokens[1..];
      assert tokens[0] + "" == tokens[0];
      assert tokens == [tokens[0]] + tokens[1..];
    }
  }

  /** Joining two non-empty runs of tokens puts one space between their texts. */
  lemma {:induction false} JoinAppend(a: seq<string>, b: seq<string>)
    requires a != [] && b != []
    ensures JoinTokens(a + b) == JoinTokens(a) + " " + JoinTokens(b)
  {
    if |a| == 1 {
      assert (a + b)[1..] == b;
    } else {
      JoinAppend(a[1..], b);
      assert (a + b)[1..] == a[1..] + b;
    }
  }
}
