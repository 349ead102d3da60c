/** Stripping and joining text. */
module Text {

  /** Which characters are white space. */
  type Spaces = char -> bool

  function StripLeft(s: string, space: Spaces): string {
    if s != "" && space(s[0]) then StripLeft(s[1..], space) else s
  }

  function StripRight(s: string, space: Spaces): string {
    if s != "" && space(s[|s| - 1]) then StripRight(s[..|s| - 1], space) else s
  }

  function Strip(s: string, space: Spaces): string { StripRight(StripLeft(s, space), space) }

  /** Neither begins nor ends with white space. */
  predicate Stripped(s: string, space: Spaces) {
    s == "" || (!space(s[0]) && !space(s[|s| - 1]))
  }

  lemma {:induction false} StripLeftBegins(s: string, space: Spaces)
    ensures StripLeft(s, space) == "" || !space(StripLeft(s, space)[0])
  {
    if s != "" && space(s[0]) { StripLeftBegins(s[1..], space); }
  }

  lemma {:induction false} StripRightEnds(s: string, space: Spaces)
    ensures StripRight(s, space) <= s
    ensures StripRight(s, space) == "" || !space(StripRight(s, space)[|StripRight(s, space)| - 1])
  {
    if s != "" && space(s[|s| - 1]) { StripRightEnds(s[..|s| - 1], space); }
  }

  lemma StripStrips(s: string, space: Spaces)
    ensures Stripped(Strip(s, space), space)
  {
    StripLeftBegins(s, space);
    StripRightEnds(StripLeft(s, space), space);
  }

  /** What ends in a character that is no white space stays. */
  lemma {:induction false} StripRightKeeps(start: string, rest: string, space: Spaces)
    requires start != "" && !space(start[|start| - 1])
    ensures start <= StripRight(start + rest, space)
  {
    if rest != "" {
      var all := start + rest;
      assert all[..|all| - 1] == start + rest[..|rest| - 1];
      StripRightKeeps(start, rest[..|rest| - 1], space);
    } else {
      assert start + rest == start;
    }
  }

  lemma StripKeeps(start: string, rest: string, space: Spaces)
    requires start != "" && Stripped(start, space)
    ensures start <= Strip(start + rest, space)
  {
    assert StripLeft(start + rest, space) == start + rest;
    StripRightKeeps(start, rest, space);
  }

  function Join(parts: seq<string>, glue: string): string {
    if parts == [] then ""
    else if |parts| == 1 then parts[0]
    else parts[0] + glue + Join(parts[1..], glue)
  }

  function TotalLength(parts: seq<string>): nat {
    if parts == [] then 0 else TotalLength(parts[..|parts| - 1]) + |parts[|parts| - 1]|
  }

  lemma {:induction false} TotalLengthOfRest(parts: seq<string>)
    requires parts != []
    ensures TotalLength(parts) == |parts[0]| + TotalLength(parts[1..])
  {
    var front := parts[..|parts| - 1];
    if front != [] {
      TotalLengthOfRest(front);
      assert parts[1..][..|parts| - 2] == front[1..];
    }
  }

  lemma {:induction false} JoinLength(parts: seq<string>, glue: string)
    requires parts != []
    ensures |Join(parts, glue)| == TotalLength(parts) + |glue| * (|parts| - 1)
  {
    var rest := parts[1..];
    TotalLengthOfRest(parts);
    if |parts| > 1 {
      JoinLength(rest, glue);
      assert |Join(parts, glue)| == |parts[0]| + |glue| + |Join(rest, glue)|;
    } else {
      assert rest == [];
    }
  }

}
