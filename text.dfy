/**
  Text helpers the builtin commands rely on: joining argument tokens with
  single spaces, the whitespace tokenizer that the join is meant to undo,
  right-padding a name to a column and ASCII upper-casing.
 */
module Text {

  /** The characters the command-line tokenizer treats as separators. */
  predicate IsSpace(c: char) {
    c == ' ' || c == '\t' || c == '\n' || c == '\r'
  }

  /** A token: non-empty and free of separators. */
  predicate IsWord(w: string) {
    |w| > 0 && forall i :: 0 <= i < |w| ==> !IsSpace(w[i])
  }

  /**
    The tokens in order with one space between neighbours and none after the
    last. Defined from the left, the way a builder appends them.
   */
  function Join(tokens: seq<string>): string {
    if |tokens| == 0 then ""
    else if |tokens| == 1 then tokens[0]
    else Join(tokens[..|tokens| - 1]) + " " + tokens[|tokens| - 1]
  }

  /** Sum of the lengths of the tokens. */
  function TotalLength(tokens: seq<string>): nat {
    if |tokens| == 0 then 0 else TotalLength(tokens[..|tokens| - 1]) + |tokens[|tokens| - 1]|
  }

  /** Joining from the right: the first token, one space, then the rest joined. */
  lemma {:induction false} JoinCons(t: string, ts: seq<string>)
    requires |ts| >= 1
    ensures Join([t] + ts) == t + " " + Join(ts)
  {
    var s := [t] + ts;
    if |ts| == 1 {
      assert s[..1] == [t];
    } else {
      var init := ts[..|ts| - 1];
      assert s[..|s| - 1] == [t] + init;
      JoinCons(t, init);
    }
  }

  /** n tokens joined take their own characters plus n - 1 separators. */
  lemma {:induction false} JoinLength(ts: seq<string>)
    requires |ts| >= 1
    ensures |Join(ts)| == TotalLength(ts) + |ts| - 1
  {
    if |ts| > 1 {
      JoinLength(ts[..|ts| - 1]);
    } else {
      assert ts[..0] == [];
    }
  }

  /** The joined line starts with the first token and ends with the last one. */
  lemma {:induction false} JoinEnds(ts: seq<string>)
    requires |ts| >= 1
    ensures |ts[0]| <= |Join(ts)| && Join(ts)[..|ts[0]|] == ts[0]
    ensures |ts[|ts| - 1]| <= |Join(ts)| && Join(ts)[|Join(ts)| - |ts[|ts| - 1]|..] == ts[|ts| - 1]
  {
    if |ts| > 1 {
      var init := ts[..|ts| - 1];
      JoinEnds(init);
      assert init[0] == ts[0];
      var j := Join(ts);
      assert j == Join(init) + " " + ts[|ts| - 1];
      assert j[..|ts[0]|] == Join(init)[..|ts[0]|];
    }
  }

  /** The longest separator-free prefix of `s`. */
  function Word(s: string): (w: string)
    ensures |w| <= |s| && w == s[..|w|]
    ensures forall i :: 0 <= i < |w| ==> !IsSpace(w[i])
    ensures |w| < |s| ==> IsSpace(s[|w|])
  {
    if s == [] || IsSpace(s[0]) then [] else [s[0]] + Word(s[1..])
  }

  /** Whitespace tokenizing: the maximal separator-free runs of `line`, in order. */
  function Tokens(line: string): (ts: seq<string>)
    ensures forall i :: 0 <= i < |ts| ==> IsWord(ts[i])
    decreases |line|
  {
    if line == [] then []
    else if IsSpace(line[0]) then Tokens(line[1..])
    else
      var w := Word(line);
      [w] + Tokens(line[|w|..])
  }

  /** A separator-free prefix followed by a separator (or nothing) is the word. */
  lemma {:induction false} WordOfPrefix(w: string, rest: string)
    requires forall i :: 0 <= i < |w| ==> !IsSpace(w[i])
    requires rest == [] || IsSpace(rest[0])
    ensures Word(w + rest) == w
  {
    if w == [] {
      assert w + rest == rest;
    } else {
      assert (w + rest)[1..] == w[1..] + rest;
      WordOfPrefix(w[1..], rest);
    }
  }

  /** Tokens that are words survive a join followed by tokenizing. */
  lemma {:induction false} TokensOfJoin(ts: seq<string>)
    requires forall i :: 0 <= i < |ts| ==> IsWord(ts[i])
    ensures Tokens(Join(ts)) == ts
  {
    if |ts| == 1 {
      WordOfPrefix(ts[0], "");
      assert ts[0] + "" == ts[0];
    } else if |ts| > 1 {
      var rest := ts[1..];
      assert ts == [ts[0]] + rest;
      JoinCons(ts[0], rest);
      var line := Join(ts);
      var tail := " " + Join(rest);
      assert line == ts[0] + tail;
      WordOfPrefix(ts[0], tail);
      assert line[|ts[0]|..] == tail;
      assert tail[1..] == Join(rest);
      TokensOfJoin(rest);
    }
  }

  /** `n` spaces. */
  function Spaces(n: nat): (r: string)
    ensures |r| == n && forall i :: 0 <= i < n ==> r[i] == ' '
  {
    if n == 0 then "" else Spaces(n - 1) + " "
  }

  /** C#'s `PadRight(width)` with the default space padding. */
  function PadRight(s: string, width: nat): (r: string)
    ensures |r| == if |s| < width then width else |s|
    ensures r[..|s|] == s
    ensures forall i :: |s| <= i < |r| ==> r[i] == ' '
  {
    if |s| < width then s + Spaces(width - |s|) else s
  }

  /** Upper-casing restricted to the ASCII letters. */
  function UpperChar(c: char): char {
    if 'a' <= c <= 'z' then (c as int - 32) as char else c
  }

  /** `ToUpper` over ASCII: every character upper-cased in place. */
  function ToUpper(s: string): (r: string)
    ensures |r| == |s|
    ensures forall i :: 0 <= i < |s| ==> r[i] == UpperChar(s[i])
  {
    if s == [] then [] else [UpperChar(s[0])] + ToUpper(s[1..])
  }

  /** A name made of upper-case letters is its own upper-casing. */
  lemma UpperCaseName(name: string)
    requires forall k :: 0 <= k < |name| ==> 'A' <= name[k] <= 'Z'
    ensures ToUpper(name) == name
  {
  }
}
