/** String.prototype.trim and the input guard isNonEmptyString (main.js:58-60). */
module Text {
  import opened Js

  /** The code points trim removes: ECMAScript WhiteSpace and LineTerminator. */
  predicate IsJsSpace(c: char)
  {
    || c == '\t' || c == '\n' || c == '\U{000B}' || c == '\U{000C}' || c == '\r'
    || c == ' ' || c == '\U{00A0}' || c == '\U{1680}'
    || ('\U{2000}' <= c <= '\U{200A}')
    || c == '\U{2028}' || c == '\U{2029}' || c == '\U{202F}' || c == '\U{205F}'
    || c == '\U{3000}' || c == '\U{FEFF}'
  }

  /** Drops the leading white space: the result is the suffix of `s` after it. */
  function TrimStart(s: string): (r: string)
    ensures |r| <= |s| && r == s[|s| - |r|..]
    ensures forall i :: 0 <= i < |s| - |r| ==> IsJsSpace(s[i])
    ensures r != [] ==> !IsJsSpace(r[0])
  {
    if s != [] && IsJsSpace(s[0]) then TrimStart(s[1..]) else s
  }

  /** Drops the trailing white space: the result is the prefix of `s` before it. */
  function TrimEnd(s: string): (r: string)
    ensures |r| <= |s| && r == s[..|r|]
    ensures forall i :: |r| <= i < |s| ==> IsJsSpace(s[i])
    ensures r != [] ==> !IsJsSpace(r[|r| - 1])
  {
    if s != [] && IsJsSpace(s[|s| - 1]) then TrimEnd(s[..|s| - 1]) else s
  }

  /** `s.trim()`. */
  function Trim(s: string): (r: string)
    ensures |r| <= |s|
    ensures var a := |s| - |TrimStart(s)|;
      && a + |r| <= |s| && r == s[a..a + |r|]
      && (forall i :: 0 <= i < a ==> IsJsSpace(s[i]))
      && (forall i :: a + |r| <= i < |s| ==> IsJsSpace(s[i]))
    ensures r != [] ==> !IsJsSpace(r[0]) && !IsJsSpace(r[|r| - 1])
  {
    TrimIsMiddle(s);
    TrimEnd(TrimStart(s))
  }

  /** Trimming keeps the middle of `s`: what it drops at either end is white space. */
  lemma TrimIsMiddle(s: string)
    ensures var t := TrimStart(s);
            var a := |s| - |t|;
      && a + |TrimEnd(t)| <= |s| && TrimEnd(t) == s[a..a + |TrimEnd(t)|]
      && forall i :: a + |TrimEnd(t)| <= i < |s| ==> IsJsSpace(s[i])
  {
    var t := TrimStart(s);
    var r := TrimEnd(t);
    var a := |s| - |t|;
    assert r == t[..|r|];
    forall i | a + |r| <= i < |s|
      ensures IsJsSpace(s[i])
    {
      assert s[i] == t[i - a];
    }
  }

  /** A string of white space only trims to nothing. */
  lemma {:induction false} TrimStartAllSpace(s: string)
    requires forall i :: 0 <= i < |s| ==> IsJsSpace(s[i])
    ensures TrimStart(s) == []
  {
    if s != [] {
      TrimStartAllSpace(s[1..]);
    }
  }

  /** A character that is not white space survives trimming. */
  lemma TrimKeepsNonSpace(s: string, k: int)
    requires 0 <= k < |s| && !IsJsSpace(s[k])
    ensures Trim(s) != []
  {
    var t := TrimStart(s);
    assert |s| - |t| <= k;
    var j := k - (|s| - |t|);
    assert t[j] == s[k];
    assert j < |TrimEnd(t)|;
  }

  /** Trimming leaves nothing exactly when every character is white space. */
  lemma TrimEmptyIffAllSpace(s: string)
    ensures Trim(s) == [] <==> forall i :: 0 <= i < |s| ==> IsJsSpace(s[i])
  {
    if forall i :: 0 <= i < |s| ==> IsJsSpace(s[i]) {
      TrimStartAllSpace(s);
    } else {
      var k :| 0 <= k < |s| && !IsJsSpace(s[k]);
      TrimKeepsNonSpace(s, k);
    }
  }

  /** A trimmed string has no white space at either end and trimming it again changes nothing. */
  lemma TrimIdempotent(s: string)
    ensures Trim(Trim(s)) == Trim(s)
  {
    var r := Trim(s);
    if r != [] {
      assert !IsJsSpace(r[0]);
      assert TrimStart(r) == r;
      assert TrimEnd(r) == r;
    }
  }

  /** `typeof x === 'string' && x.trim().length > 0`. */
  predicate IsNonEmptyString(x: Value)
  {
    x.Str? && |Trim(x.s)| > 0
  }

  /** isNonEmptyString holds exactly of strings with a character that is not white space. */
  lemma NonEmptyStringIff(x: Value)
    ensures IsNonEmptyString(x) <==> x.Str? && exists i :: 0 <= i < |x.s| && !IsJsSpace(x.s[i])
  {
    if x.Str? {
      TrimEmptyIffAllSpace(x.s);
    }
  }
}
