/** White space and its trimming, as ECMAScript defines them. */
module WhiteSpace {

  /** White space in the sense of ECMAScript regular expressions. */
  predicate IsSpace(c: char) {
    || '\t' <= c <= '\r' || c == ' ' || c == '\U{A0}' || c == '\U{1680}' || '\U{2000}' <= c <= '\U{200A}'
    || c == '\U{2028}' || c == '\U{2029}' || c == '\U{202F}' || c == '\U{205F}' || c == '\U{3000}' || c == '\U{FEFF}'
  }

  /** The characters that ECMAScript calls white space or line terminators, one by one. */
  const SPACES := "\t\n\U{B}\U{C}\r \U{A0}\U{1680}\U{2000}\U{2001}\U{2002}\U{2003}\U{2004}\U{2005}\U{2006}"
    + "\U{2007}\U{2008}\U{2009}\U{200A}\U{2028}\U{2029}\U{202F}\U{205F}\U{3000}\U{FEFF}"

  lemma SpacesIff(c: char)
    ensures IsSpace(c) <==> c in SPACES
  {
    var low := "\t\n\U{B}\U{C}\r \U{A0}\U{1680}\U{2000}\U{2001}\U{2002}\U{2003}\U{2004}\U{2005}\U{2006}";
    var high := "\U{2007}\U{2008}\U{2009}\U{200A}\U{2028}\U{2029}\U{202F}\U{205F}\U{3000}\U{FEFF}";
    assert SPACES == low + high;
    assert c in SPACES <==> c in low || c in high;
    assert c in low <==>
      ('\t' <= c <= '\r' || c == ' ' || c == '\U{A0}' || c == '\U{1680}' || '\U{2000}' <= c <= '\U{2006}');
  }

  function TrimLeft(s: string): (t: string)
    ensures |t| <= |s|
    ensures t != "" ==> !IsSpace(t[0])
  {
    if s != "" && IsSpace(s[0]) then TrimLeft(s[1..]) else s
  }

  function TrimRight(s: string): (t: string)
    ensures |t| <= |s|
    ensures t != "" ==> !IsSpace(t[|t| - 1])
  {
    if s != "" && IsSpace(s[|s| - 1]) then TrimRight(s[..|s| - 1]) else s
  }

  function Trim(s: string): string { TrimRight(TrimLeft(s)) }

  lemma NothingToTrim(s: string)
    requires s != "" ==> !IsSpace(s[0]) && !IsSpace(s[|s| - 1])
    ensures Trim(s) == s
  {
  }

  predicate AllSpaces(s: string) { forall i :: 0 <= i < |s| ==> IsSpace(s[i]) }

  /** Text that neither starts nor ends with white space. */
  predicate Trimmed(s: string) { s != "" && !IsSpace(s[0]) && !IsSpace(s[|s| - 1]) }

  lemma {:induction false} TrimsLeft(a: string, t: string)
    requires AllSpaces(a) && (t != "" ==> !IsSpace(t[0]))
    ensures TrimLeft(a + t) == t
  {
    if a == "" {
      assert a + t == t;
    } else {
      assert (a + t)[1..] == a[1..] + t;
      TrimsLeft(a[1..], t);
    }
  }

  lemma {:induction false} TrimsRight(t: string, b: string)
    requires AllSpaces(b) && (t != "" ==> !IsSpace(t[|t| - 1]))
    ensures TrimRight(t + b) == t
  {
    if b == "" {
      assert t + b == t;
    } else {
      assert (t + b)[..|t + b| - 1] == t + b[..|b| - 1];
      TrimsRight(t, b[..|b| - 1]);
    }
  }

  /** Exactly the white space around a text is trimmed. */
  lemma TrimsBoth(a: string, t: string, b: string)
    requires AllSpaces(a) && AllSpaces(b) && Trimmed(t)
    ensures Trim(a + t + b) == t
  {
    assert a + t + b == a + (t + b) && (t + b)[0] == t[0];
    TrimsLeft(a, t + b);
    TrimsRight(t, b);
  }
}
