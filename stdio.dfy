/**
  A C stdio stream (`FILE *`): the characters its reads will return, how
  many of them have been read so far, and the log of what was written
  to it, one entry per write call.
 */
module Stdio {
  import opened Wrappers

  /** The characters before the first newline of `s`. */
  function LineBefore(s: seq<char>): (line: seq<char>)
    requires '\n' in s
    ensures |line| < |s| && line == s[..|line|] && s[|line|] == '\n'
    ensures '\n' !in line
  {
    if s[0] == '\n' then [] else [s[0]] + LineBefore(s[1..])
  }

  /** The number of characters `getline` consumes from `s`: up to and
      including the first newline, or everything when there is none. */
  function LineLength(s: seq<char>): (n: nat)
    ensures n <= |s| && (n == 0 <==> s == [])
    ensures '\n' in s ==> n == |LineBefore(s)| + 1
    ensures '\n' !in s ==> n == |s|
  {
    if s == [] then 0
    else if s[0] == '\n' then 1
    else
      assert '\n' in s ==> '\n' in s[1..];
      1 + LineLength(s[1..])
  }

  /** A newline preceded only by other characters marks where
      `LineBefore` ends. */
  lemma LineBeforeAt(s: seq<char>, k: nat)
    requires k < |s| && s[k] == '\n' && '\n' !in s[..k]
    ensures LineBefore(s) == s[..k]
  {
    var line := LineBefore(s);
    assert forall i | 0 <= i < k :: s[i] == s[..k][i];
    assert forall i | 0 <= i < |line| :: s[i] == line[i];
  }

  class Stream {
    var input: seq<char>
    var pos: nat
    var output: seq<string>

    ghost predicate Valid()
      reads this
    {
      pos <= |input|
    }

    /** What reads have still to deliver. */
    ghost function Remaining(): seq<char>
      reads this
      requires Valid()
    {
      input[pos..]
    }

    constructor (input: seq<char>)
      ensures Valid() && this.input == input && pos == 0 && output == []
    {
      this.input := input;
      pos := 0;
      output := [];
    }

    /** `getc`: the next character, or `None` for end of file. */
    method GetC() returns (c: Option<char>)
      requires Valid()
      modifies this
      ensures Valid() && input == old(input) && output == old(output)
      ensures old(pos) < |input| ==> c == Some(input[old(pos)]) && pos == old(pos) + 1
      ensures old(pos) == |input| ==> c == None && pos == old(pos)
    {
      if pos < |input| {
        c := Some(input[pos]);
        pos := pos + 1;
      } else {
        c := None;
      }
    }

    /** `fprintf` of an already formatted text. */
    method Write(text: string)
      requires Valid()
      modifies this
      ensures Valid() && input == old(input) && pos == old(pos)
      ensures output == old(output) + [text]
    {
      output := output + [text];
    }

    /** `getline`: consumes one line, newline included, and returns the
        number of characters read, or -1 at end of file. */
    method GetLine() returns (r: int)
      requires Valid()
      modifies this
      ensures Valid() && input == old(input) && output == old(output)
      ensures pos == old(pos) + LineLength(old(Remaining()))
      ensures r == if old(Remaining()) == [] then -1 else LineLength(old(Remaining()))
    {
      var n := LineLength(input[pos..]);
      pos := pos + n;
      r := if n == 0 then -1 else n;
    }
  }
}
