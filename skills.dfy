/**
 * The comma-separated skills parser of the profile handler:
 * `skills.split(",").map(skill => skill.trim())`, with JavaScript's
 * `String.prototype.split` on a one-character separator and
 * `String.prototype.trim`.
 */
module SkillsParser {

  /** The characters JavaScript's `trim` removes: the WhiteSpace and LineTerminator code points. */
  const JsWhitespace: set<char> := {
    '\t', '\n', '\U{000B}', '\U{000C}', '\r', ' ', '\U{00A0}', '\U{1680}',
    '\U{2000}', '\U{2001}', '\U{2002}', '\U{2003}', '\U{2004}', '\U{2005}',
    '\U{2006}', '\U{2007}', '\U{2008}', '\U{2009}', '\U{200A}',
    '\U{2028}', '\U{2029}', '\U{202F}', '\U{205F}', '\U{3000}', '\U{FEFF}'}

  predicate IsJsWhitespace(c: char) {
    c in JsWhitespace
  }

  predicate AllWhitespace(s: string) {
    forall i | 0 <= i < |s| :: IsJsWhitespace(s[i])
  }

  /** `s` neither starts nor ends with whitespace. */
  predicate IsTrimmed(s: string) {
    s == [] || (!IsJsWhitespace(s[0]) && !IsJsWhitespace(s[|s| - 1]))
  }

  /** Drops the leading whitespace of `s`. */
  function TrimStart(s: string): (r: string)
    ensures |r| <= |s| && r == s[|s| - |r|..]
    ensures AllWhitespace(s[..|s| - |r|])
    ensures r == [] || !IsJsWhitespace(r[0])
  {
    if |s| > 0 && IsJsWhitespace(s[0]) then
      var r := TrimStart(s[1..]);
      assert s[..|s| - |r|] == [s[0]] + s[1..][..|s| - 1 - |r|];
      r
    else s
  }

  /** Drops the trailing whitespace of `s`. */
  function TrimEnd(s: string): (r: string)
    ensures |r| <= |s| && r == s[..|r|]
    ensures AllWhitespace(s[|r|..])
    ensures r == [] || !IsJsWhitespace(r[|r| - 1])
  {
    if |s| > 0 && IsJsWhitespace(s[|s| - 1]) then
      var r := TrimEnd(s[..|s| - 1]);
      assert s[|r|..] == s[..|s| - 1][|r|..] + [s[|s| - 1]];
      r
    else s
  }

  /** `s[i..j]` is what remains of `s` once whitespace-only ends `s[..i]` and `s[j..]` are cut off. */
  predicate CutsBlankEnds(s: string, i: int, j: int) {
    0 <= i <= j <= |s| && AllWhitespace(s[..i]) && AllWhitespace(s[j..])
  }

  /** `String.prototype.trim`: the result neither starts nor ends with whitespace. */
  function Trim(s: string): (r: string)
    ensures IsTrimmed(r)
  {
    var t := TrimStart(s);
    var r := TrimEnd(t);
    assert r != [] ==> r[0] == t[0];
    r
  }

  /** `trim` returns a slice of its input and cuts off only whitespace on either side. */
  lemma {:induction false} TrimCutsOnlyBlankEnds(s: string)
    ensures exists i, j :: CutsBlankEnds(s, i, j) && Trim(s) == s[i..j]
  {
    var t := TrimStart(s);
    var r := TrimEnd(t);
    var i := |s| - |t|;
    assert s[i..i + |r|] == r;
    assert s[i + |r|..] == t[|r|..];
    assert CutsBlankEnds(s, i, i + |r|);
  }

  /** Trimming twice is trimming once. */
  lemma {:induction false} TrimIdempotent(s: string)
    ensures Trim(Trim(s)) == Trim(s)
  {
    var r := Trim(s);
    assert TrimStart(r) == r;
    assert TrimEnd(r) == r;
  }

  /** A piece made only of whitespace trims to the empty string. */
  lemma {:induction false} TrimWhitespaceIsEmpty(s: string)
    requires AllWhitespace(s)
    ensures Trim(s) == ""
  {
  }

  /** The number of commas in `s`. */
  function CommaCount(s: string): nat {
    multiset(s)[',']
  }

  /**
   * `s.split(",")`: the maximal comma-free runs of `s`, in order. As in
   * JavaScript, the empty string splits into one empty piece and adjacent
   * commas give empty pieces.
   */
  function Split(s: string): (pieces: seq<string>)
    ensures |pieces| >= 1
    ensures forall i | 0 <= i < |pieces| :: ',' !in pieces[i]
  {
    if s == [] then [[]]
    else
      var rest := Split(s[1..]);
      if s[0] == ',' then [[]] + rest
      else [[s[0]] + rest[0]] + rest[1..]
  }

  /** `pieces.join(",")`. */
  function Join(pieces: seq<string>): string
    requires |pieces| >= 1
  {
    if |pieces| == 1 then pieces[0] else pieces[0] + "," + Join(pieces[1..])
  }

  /** Splitting yields one more piece than there are commas. */
  lemma {:induction false} SplitCount(s: string)
    ensures |Split(s)| == CommaCount(s) + 1
  {
    if s != [] {
      assert s == [s[0]] + s[1..];
      assert multiset(s) == multiset([s[0]]) + multiset(s[1..]);
      SplitCount(s[1..]);
    }
  }

  /** Joining the pieces with "," gives back the input. */
  lemma {:induction false} JoinSplit(s: string)
    ensures Join(Split(s)) == s
  {
    if s != [] {
      var rest := Split(s[1..]);
      JoinSplit(s[1..]);
      if s[0] == ',' {
        assert Split(s) == [[]] + rest;
      } else {
        JoinExtendsFirst(s[0], rest);
      }
      assert [s[0]] + s[1..] == s;
    }
  }

  /** Prepending a character to the first piece prepends it to the joined string. */
  lemma {:induction false} JoinExtendsFirst(c: char, pieces: seq<string>)
    requires |pieces| >= 1
    ensures Join([[c] + pieces[0]] + pieces[1..]) == [c] + Join(pieces)
  {
    var p := [[c] + pieces[0]] + pieces[1..];
    if |pieces| > 1 {
      var tail := Join(pieces[1..]);
      assert p[1..] == pieces[1..];
      assert Join(p) == ([c] + pieces[0]) + "," + tail;
      assert Join(pieces) == pieces[0] + "," + tail;
      assert ([c] + pieces[0]) + "," + tail == [c] + (pieces[0] + "," + tail);
    } else {
      assert Join(p) == p[0];
    }
  }

  /** A comma-free prefix extends the first piece of what follows it. */
  lemma {:induction false} SplitPrefix(p: string, t: string)
    requires ',' !in p
    ensures Split(p + t) == [p + Split(t)[0]] + Split(t)[1..]
  {
    if p != [] {
      SplitPrefix(p[1..], t);
      assert (p + t)[1..] == p[1..] + t;
      assert (p + t)[0] == p[0];
      assert [p[0]] + (p[1..] + Split(t)[0]) == p + Split(t)[0];
    } else {
      assert p + t == t;
      assert p + Split(t)[0] == Split(t)[0];
      assert Split(t) == [Split(t)[0]] + Split(t)[1..];
    }
  }

  /** Splitting comma-free pieces joined with "," gives back the pieces. */
  lemma {:induction false} SplitJoin(pieces: seq<string>)
    requires |pieces| >= 1
    requires forall i | 0 <= i < |pieces| :: ',' !in pieces[i]
    ensures Split(Join(pieces)) == pieces
  {
    var p := pieces[0];
    if |pieces| == 1 {
      SplitPrefix(p, "");
      assert p + "" == p;
    } else {
      var j := Join(pieces[1..]);
      SplitJoin(pieces[1..]);
      SplitPrefix(p, "," + j);
      assert ("," + j)[1..] == j;
      assert Split("," + j) == [[]] + pieces[1..];
      assert p + "," + j == p + ("," + j);
      assert p + [] == p;
      assert [p] + pieces[1..] == pieces;
    }
  }

  /** `skills.split(",").map(skill => skill.trim())`. */
  function ParseSkills(s: string): (skills: seq<string>)
    ensures |skills| == |Split(s)|
  {
    var pieces := Split(s);
    seq(|pieces|, i requires 0 <= i < |pieces| => Trim(pieces[i]))
  }

  /**
   * One skill per comma-separated piece (the number of commas plus one, empty
   * pieces kept), each the trimmed piece: no skill contains a comma or starts
   * or ends with whitespace.
   */
  lemma {:induction false} ParsedSkills(s: string)
    ensures |ParseSkills(s)| == CommaCount(s) + 1
    ensures forall i | 0 <= i < |ParseSkills(s)| :: ParseSkills(s)[i] == Trim(Split(s)[i])
    ensures forall i | 0 <= i < |ParseSkills(s)| :: IsTrimmed(ParseSkills(s)[i]) && ',' !in ParseSkills(s)[i]
  {
    SplitCount(s);
    var pieces := Split(s);
    forall i | 0 <= i < |pieces|
      ensures ',' !in Trim(pieces[i])
    {
      var t := Trim(pieces[i]);
      TrimCutsOnlyBlankEnds(pieces[i]);
      var a, b :| CutsBlankEnds(pieces[i], a, b) && t == pieces[i][a..b];
      assert forall c | c in t :: c in pieces[i];
    }
  }

  /** A piece that is empty or blank yields an empty skill, which is kept in the list. */
  lemma {:induction false} BlankPieceKept(s: string, i: nat)
    requires i < |Split(s)| && AllWhitespace(Split(s)[i])
    ensures i < |ParseSkills(s)| && ParseSkills(s)[i] == ""
  {
    TrimWhitespaceIsEmpty(Split(s)[i]);
  }
}
