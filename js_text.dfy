/** The JavaScript string primitives the site relies on: the whitespace class
    shared by `\s` in regular expressions and by `String.prototype.trim`. */
module JsText {

  /** ECMAScript WhiteSpace and LineTerminator code points: the characters that
      `\s` matches and `trim()` removes. */
  const WhiteSpaceChars: set<char> := {
    '\t', '\n', '\U{000B}', '\U{000C}', '\r', ' ', '\U{00A0}', '\U{1680}',
    '\U{2000}', '\U{2001}', '\U{2002}', '\U{2003}', '\U{2004}', '\U{2005}',
    '\U{2006}', '\U{2007}', '\U{2008}', '\U{2009}', '\U{200A}',
    '\U{2028}', '\U{2029}', '\U{202F}', '\U{205F}', '\U{3000}', '\U{FEFF}'
  }

  predicate IsWhiteSpace(c: char) {
    c in WhiteSpaceChars
  }

  predicate AllWhiteSpace(s: string) {
    forall i :: 0 <= i < |s| ==> IsWhiteSpace(s[i])
  }

  predicate NoWhiteSpace(s: string) {
    forall i :: 0 <= i < |s| ==> !IsWhiteSpace(s[i])
  }

  /** `trimStart()`: the longest suffix of `s` that does not begin with whitespace. */
  function TrimStart(s: string): (r: string)
    ensures |r| <= |s| && r == s[|s| - |r|..]
    ensures AllWhiteSpace(s[..|s| - |r|])
    ensures r == [] || !IsWhiteSpace(r[0])
  {
    if s != [] && IsWhiteSpace(s[0]) then
      var r := TrimStart(s[1..]);
      assert s[1..][..|s[1..]| - |r|] == s[1..|s| - |r|];
      r
    else
      s
  }

  /** `trimEnd()`: the longest prefix of `s` that does not end with whitespace. */
  function TrimEnd(s: string): (r: string)
    ensures |r| <= |s| && r == s[..|r|]
    ensures AllWhiteSpace(s[|r|..])
    ensures r == [] || !IsWhiteSpace(r[|r| - 1])
  {
    if s != [] && IsWhiteSpace(s[|s| - 1]) then
      var r := TrimEnd(s[..|s| - 1]);
      assert s[..|s| - 1][|r|..] == s[|r|..|s| - 1];
      assert s[|r|..] == s[|r|..|s| - 1] + [s[|s| - 1]];
      r
    else
      s
  }

  /** `trim()`: `s` without its leading and trailing whitespace. */
  function Trim(s: string): (r: string)
  {
    TrimEnd(TrimStart(s))
  }

  /** `trim()` is empty exactly when `s` is all whitespace. */
  lemma TrimEmptyIff(s: string)
    ensures Trim(s) == [] <==> AllWhiteSpace(s)
  {
    var t := TrimStart(s);
    var lead := |s| - |t|;
    if TrimEnd(t) == [] {
      assert t[0..] == t;
      assert s[..lead] == s;
    } else {
      assert s[lead] == t[0];
    }
  }

  /** `trim()` cuts `s` into whitespace, the result, whitespace; the result
      neither starts nor ends with whitespace, and it is empty exactly when `s`
      is all whitespace. */
  lemma TrimShape(s: string) returns (lead: nat)
    ensures lead + |Trim(s)| <= |s|
    ensures Trim(s) == s[lead..lead + |Trim(s)|]
    ensures AllWhiteSpace(s[..lead]) && AllWhiteSpace(s[lead + |Trim(s)|..])
    ensures Trim(s) == [] || (!IsWhiteSpace(Trim(s)[0]) && !IsWhiteSpace(Trim(s)[|Trim(s)| - 1]))
    ensures Trim(s) == [] <==> AllWhiteSpace(s)
  {
    var t := TrimStart(s);
    lead := |s| - |t|;
    Cut(s, lead, TrimEnd(t));
    TrimEmptyIff(s);
    TrimEnds(s);
  }

  /** `trim()` neither starts nor ends with whitespace. */
  lemma TrimEnds(s: string)
    ensures Trim(s) == [] || (!IsWhiteSpace(Trim(s)[0]) && !IsWhiteSpace(Trim(s)[|Trim(s)| - 1]))
  {
    var t := TrimStart(s);
    if Trim(s) != [] {
      assert Trim(s)[0] == t[0];
    }
  }

  /** Cutting whitespace off the front of `s` at `lead` and then off the back
      leaves a middle slice of `s` between two runs of whitespace. */
  lemma Cut(s: string, lead: nat, r: string)
    requires lead <= |s| && AllWhiteSpace(s[..lead])
    requires |r| <= |s| - lead && r == s[lead..][..|r|] && AllWhiteSpace(s[lead..][|r|..])
    ensures r == s[lead..lead + |r|]
    ensures AllWhiteSpace(s[lead + |r|..])
  {
    assert s[lead..][|r|..] == s[lead + |r|..];
  }

  /** A string that neither starts nor ends with whitespace is its own trim. */
  lemma TrimUnpadded(s: string)
    requires s == [] || (!IsWhiteSpace(s[0]) && !IsWhiteSpace(s[|s| - 1]))
    ensures Trim(s) == s
  {
    assert TrimStart(s) == s;
  }

  /** Trimming twice is trimming once. */
  lemma TrimIdempotent(s: string)
    ensures Trim(Trim(s)) == Trim(s)
  {
    var _ := TrimShape(s);
    TrimUnpadded(Trim(s));
  }
}
