/**
 * The splitting done by java.util.StringTokenizer with the delimiter set " ,":
 * tokens are the maximal runs of characters that are neither a space nor a
 * comma; runs of delimiters (including leading and trailing ones) yield no
 * token.
 */
module Tokenizer {

  predicate IsDelimiter(c: char)
  {
    c == ' ' || c == ','
  }

  predicate NoDelimiter(t: string)
  {
    forall i :: 0 <= i < |t| ==> !IsDelimiter(t[i])
  }

  /** The characters of s that are not delimiters, in order. */
  function Strip(s: string): string
  {
    if s == [] then []
    else if IsDelimiter(s[0]) then Strip(s[1..])
    else [s[0]] + Strip(s[1..])
  }

  function Concat(ts: seq<string>): string
  {
    if ts == [] then [] else ts[0] + Concat(ts[1..])
  }

  /** Each token followed by one space: a text whose tokens are ts. */
  function JoinTokens(ts: seq<string>): string
  {
    if ts == [] then [] else ts[0] + " " + JoinTokens(ts[1..])
  }

  /** Length of the run of non-delimiters that starts s. */
  function RunLength(s: string): (n: nat)
    ensures n <= |s|
    ensures NoDelimiter(s[..n])
    ensures n < |s| ==> IsDelimiter(s[n])
  {
    if s == [] || IsDelimiter(s[0]) then 0
    else
      var m := RunLength(s[1..]);
      assert s[..1 + m] == [s[0]] + s[1..][..m];
      1 + m
  }

  /** The tokens of s, in source order. */
  function Tokens(s: string): (ts: seq<string>)
    ensures forall k :: 0 <= k < |ts| ==> ts[k] != [] && NoDelimiter(ts[k])
    decreases |s|
  {
    if s == [] then []
    else if IsDelimiter(s[0]) then Tokens(s[1..])
    else
      var n := RunLength(s);
      [s[..n]] + Tokens(s[n..])
  }

  /** A text has no token exactly when it is made of delimiters only. */
  lemma {:induction false} TokensEmptyIffDelimitersOnly(s: string)
    ensures Tokens(s) == [] <==> forall i :: 0 <= i < |s| ==> IsDelimiter(s[i])
    decreases |s|
  {
    if s != [] {
      if IsDelimiter(s[0]) {
        TokensEmptyIffDelimitersOnly(s[1..]);
        assert forall i :: 1 <= i < |s| ==> s[i] == s[1..][i - 1];
      } else {
        assert !IsDelimiter(s[0]);
      }
    }
  }

  lemma {:induction false} StripOfNoDelimiter(t: string)
    requires NoDelimiter(t)
    ensures Strip(t) == t
  {
    if t != [] {
      assert NoDelimiter(t[1..]) by {
        assert forall i :: 0 <= i < |t[1..]| ==> t[1..][i] == t[i + 1];
      }
      StripOfNoDelimiter(t[1..]);
    }
  }

  lemma {:induction false} StripAppend(a: string, b: string)
    ensures Strip(a + b) == Strip(a) + Strip(b)
  {
    if a != [] {
      assert (a + b)[1..] == a[1..] + b;
      StripAppend(a[1..], b);
    } else {
      assert a + b == b;
    }
  }

  /** Nothing is lost and nothing is reordered: the tokens, concatenated, are
      exactly the non-delimiter characters of s. */
  lemma {:induction false} TokensCoverText(s: string)
    ensures Concat(Tokens(s)) == Strip(s)
    decreases |s|
  {
    if s != [] {
      if IsDelimiter(s[0]) {
        TokensCoverText(s[1..]);
      } else {
        var n := RunLength(s);
        TokensCoverText(s[n..]);
        assert s == s[..n] + s[n..];
        StripAppend(s[..n], s[n..]);
        StripOfNoDelimiter(s[..n]);
        assert Tokens(s) == [s[..n]] + Tokens(s[n..]);
        assert Concat(Tokens(s)) == s[..n] + Concat(Tokens(s[n..]));
      }
    }
  }

  lemma {:induction false} RunLengthOfToken(t: string, rest: string)
    requires NoDelimiter(t)
    ensures RunLength(t + " " + rest) == |t|
  {
    var s := t + " " + rest;
    if t == [] {
      assert IsDelimiter(s[0]);
    } else {
      assert s[1..] == t[1..] + " " + rest;
      assert NoDelimiter(t[1..]) by {
        assert forall i :: 0 <= i < |t[1..]| ==> t[1..][i] == t[i + 1];
      }
      RunLengthOfToken(t[1..], rest);
    }
  }

  /** Joining delimiter-free, non-empty tokens and splitting the text again
      gives the same tokens back. */
  lemma {:induction false} TokensOfJoin(ts: seq<string>)
    requires forall k :: 0 <= k < |ts| ==> ts[k] != [] && NoDelimiter(ts[k])
    ensures Tokens(JoinTokens(ts)) == ts
  {
    if ts != [] {
      var rest := JoinTokens(ts[1..]);
      var s := JoinTokens(ts);
      assert s == ts[0] + " " + rest;
      RunLengthOfToken(ts[0], rest);
      var n := |ts[0]|;
      assert s[..n] == ts[0];
      assert s[n..] == " " + rest;
      assert Tokens(s[n..]) == Tokens(rest) by {
        assert s[n..][1..] == rest;
      }
      TokensOfJoin(ts[1..]);
      assert ts[0][0] == s[0];
    }
  }

  /** A leading delimiter changes nothing. */
  lemma LeadingDelimiterIgnored(s: string)
    ensures Tokens(" " + s) == Tokens(s)
  {
  }

  /** The leading run of a followed by more text that starts with a
      delimiter, or that a already ends, is the leading run of a. */
  lemma {:induction false} RunLengthAppend(a: string, rest: string)
    requires RunLength(a) < |a| || (rest != [] && IsDelimiter(rest[0]))
    ensures RunLength(a + rest) == RunLength(a)
  {
    if a != [] && !IsDelimiter(a[0]) {
      assert (a + rest)[1..] == a[1..] + rest;
      RunLengthAppend(a[1..], rest);
    }
  }

  /** A delimiter separates tokens: no token spans it, and the tokens on its
      two sides are those of the two sides. */
  lemma {:induction false} TokensSplit(a: string, d: char, b: string)
    requires IsDelimiter(d)
    ensures Tokens(a + [d] + b) == Tokens(a) + Tokens(b)
    decreases |a|
  {
    var s := a + [d] + b;
    if a == [] {
      assert s[1..] == b;
    } else if IsDelimiter(a[0]) {
      assert s[1..] == a[1..] + [d] + b;
      TokensSplit(a[1..], d, b);
    } else {
      var m := RunLength(a);
      RunLengthAppend(a, [d] + b);
      assert s == a + ([d] + b);
      assert s[..m] == a[..m];
      assert s[m..] == a[m..] + [d] + b;
      TokensSplit(a[m..], d, b);
    }
  }

  /** A non-empty run without delimiters is one token. */
  lemma TokensOfToken(t: string)
    requires t != [] && NoDelimiter(t)
    ensures Tokens(t) == [t]
  {
    assert t[..|t|] == t;
  }

  /** For instance "1,,2" has the two tokens "1" and "2". */
  lemma TokensExample()
    ensures Tokens("1,,2") == ["1", "2"]
  {
    assert "1,,2" == "1" + [','] + ",2";
    TokensSplit("1", ',', ",2");
    assert ",2" == [] + [','] + "2";
    TokensSplit([], ',', "2");
    TokensOfToken("1");
    TokensOfToken("2");
  }
}
