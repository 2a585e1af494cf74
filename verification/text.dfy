/**
 * The JavaScript string operations the core relies on: `startsWith`, `trim`
 * and `split(',')[1]`, on strings as sequences of characters.
 */
module Text {
  import opened Wrappers

  /** `s.startsWith(p)`. */
  function StartsWith(s: string, p: string): (b: bool)
    ensures b <==> |p| <= |s| && forall k | 0 <= k < |p| :: s[k] == p[k]
  {
    |p| <= |s| && s[..|p|] == p
  }

  /**
   * The characters `String.prototype.trim` removes: the WhiteSpace
   * (tab, vertical tab, form feed, space, no-break space, byte-order mark
   * and the other space separators) and LineTerminator code points.
   */
  function IsJsWhitespace(c: char): (b: bool)
    ensures c == ' ' || c == '\t' || c == '\n' || c == '\r' ==> b
    ensures b ==> !('!' <= c <= '~')
  {
    c == '\t' || c == '\n' || c == '\U{000B}' || c == '\U{000C}' || c == '\r' || c == ' '
    || c == '\U{00A0}' || c == '\U{1680}' || ('\U{2000}' <= c <= '\U{200A}')
    || c == '\U{2028}' || c == '\U{2029}' || c == '\U{202F}' || c == '\U{205F}'
    || c == '\U{3000}' || c == '\U{FEFF}'
  }

  /** Drops leading whitespace: the result is the suffix after a whitespace-only prefix. */
  function TrimStart(s: string): (r: string)
    ensures |r| <= |s| && r == s[|s| - |r|..]
    ensures forall k | 0 <= k < |s| - |r| :: IsJsWhitespace(s[k])
    ensures r == [] || !IsJsWhitespace(r[0])
  {
    if s != [] && IsJsWhitespace(s[0]) then TrimStart(s[1..]) else s
  }

  /** Drops trailing whitespace: the result is the prefix before a whitespace-only suffix. */
  function TrimEnd(s: string): (r: string)
    ensures |r| <= |s| && r == s[..|r|]
    ensures forall k | |r| <= k < |s| :: IsJsWhitespace(s[k])
    ensures r == [] || !IsJsWhitespace(r[|r| - 1])
  {
    if s != [] && IsJsWhitespace(s[|s| - 1]) then TrimEnd(s[..|s| - 1]) else s
  }

  /** `r` is `s[i..j]` and every character of `s` outside that slice is whitespace. */
  predicate IsWhitespaceFramedSlice(s: string, i: int, j: int, r: string) {
    && 0 <= i <= j <= |s| && r == s[i..j]
    && (forall k | 0 <= k < i :: IsJsWhitespace(s[k]))
    && (forall k | j <= k < |s| :: IsJsWhitespace(s[k]))
  }

  /**
   * A whitespace-only prefix dropped from `s`, then a whitespace-only suffix
   * dropped from what is left, leaves a slice of `s` framed by whitespace.
   */
  lemma FramedAfterBothEnds(s: string, t: string, r: string)
    requires |t| <= |s| && t == s[|s| - |t|..] && forall k | 0 <= k < |s| - |t| :: IsJsWhitespace(s[k])
    requires |r| <= |t| && r == t[..|r|] && forall k | |r| <= k < |t| :: IsJsWhitespace(t[k])
    ensures IsWhitespaceFramedSlice(s, |s| - |t|, |s| - |t| + |r|, r)
  {
    var i := |s| - |t|;
    forall k | i + |r| <= k < |s|
      ensures IsJsWhitespace(s[k])
    {
      assert t[k - i] == s[k];
    }
    assert r == s[i..i + |r|];
  }

  /** `s.trim()`: a slice of `s` with whitespace only outside it and none at its ends. */
  function Trim(s: string): (r: string)
    ensures exists i, j :: IsWhitespaceFramedSlice(s, i, j, r)
    ensures r == [] || (!IsJsWhitespace(r[0]) && !IsJsWhitespace(r[|r| - 1]))
  {
    FramedAfterBothEnds(s, TrimStart(s), TrimEnd(TrimStart(s)));
    TrimEnd(TrimStart(s))
  }

  /** Trimming twice is trimming once. */
  lemma TrimIdempotent(s: string)
    ensures Trim(Trim(s)) == Trim(s)
  {
    var r := Trim(s);
    assert TrimStart(r) == r;
    assert TrimEnd(r) == r;
  }

  /** A string without leading or trailing whitespace is its own trim. */
  lemma TrimOfTrimmed(s: string)
    requires s == [] || (!IsJsWhitespace(s[0]) && !IsJsWhitespace(s[|s| - 1]))
    ensures Trim(s) == s
  {
    assert TrimStart(s) == s;
  }

  /** The index of the first comma at or after `from`, or -1 when there is none. */
  function FirstCommaFrom(s: string, from: nat): (i: int)
    requires from <= |s|
    ensures i == -1 || from <= i < |s|
    ensures i >= 0 ==> s[i] == ',' && forall k | from <= k < i :: s[k] != ','
    ensures i == -1 ==> forall k | from <= k < |s| :: s[k] != ','
    decreases |s| - from
  {
    if from == |s| then -1
    else if s[from] == ',' then from
    else FirstCommaFrom(s, from + 1)
  }

  /** The index of the first comma of `s`, or -1 when `s` has none. */
  function FirstComma(s: string): (i: int)
    ensures -1 <= i < |s|
    ensures i == -1 <==> ',' !in s
    ensures i >= 0 ==> i < |s| && s[i] == ',' && forall k | 0 <= k < i :: s[k] != ','
  {
    FirstCommaFrom(s, 0)
  }

  /** The characters before the first comma (all of `s` when it has none). */
  function UpToComma(s: string): (r: string)
    ensures ',' !in r && StartsWith(s, r)
    ensures |r| < |s| ==> s[|r|] == ','
  {
    var i := FirstComma(s);
    if i < 0 then s else s[..i]
  }

  /** The characters after the first comma, absent when `s` has no comma. */
  function AfterComma(s: string): (r: Option<string>)
    ensures r.None? <==> ',' !in s
    ensures r.Some? ==> |r.value| < |s| && s[|s| - |r.value| - 1] == ','
                        && r.value == s[|s| - |r.value|..]
                        && forall k | 0 <= k < |s| - |r.value| - 1 :: s[k] != ','
  {
    var i := FirstComma(s);
    if i < 0 then None else Some(s[i + 1..])
  }

  /** `s.split(',')[1]`: the second comma-separated field, `undefined` when there is no comma. */
  function SecondField(s: string): (r: Option<string>)
    ensures r.None? <==> ',' !in s
    ensures r.Some? ==> ',' !in r.value && exists i | 0 <= i < |s| - |r.value| ::
              && s[i] == ',' && (forall k | 0 <= k < i :: s[k] != ',')
              && s[i + 1..i + 1 + |r.value|] == r.value
              && (i + 1 + |r.value| == |s| || s[i + 1 + |r.value|] == ',')
  {
    match AfterComma(s)
    case None => None
    case Some(rest) =>
      var field := UpToComma(rest);
      var i := |s| - |rest| - 1;
      assert s[i + 1..] == rest && rest[..|field|] == field;
      assert s[i + 1..i + 1 + |field|] == field;
      Some(field)
  }

  lemma {:induction false} AfterCommaOfJoin(p: string, q: string)
    requires ',' !in p
    ensures AfterComma(p + "," + q) == Some(q)
  {
    if p != [] {
      assert (p + "," + q)[1..] == p[1..] + "," + q;
      AfterCommaOfJoin(p[1..], q);
    }
  }

  lemma {:induction false} UpToCommaOfCommaFree(q: string)
    requires ',' !in q
    ensures UpToComma(q) == q
  {
    if q != [] {
      UpToCommaOfCommaFree(q[1..]);
    }
  }

  /** Splitting `p + "," + q` at commas, for comma-free `p` and `q`, gives `q` back as the second field. */
  lemma SecondFieldOfJoin(p: string, q: string)
    requires ',' !in p && ',' !in q
    ensures SecondField(p + "," + q) == Some(q)
    ensures SecondField(p) == None
  {
    AfterCommaOfJoin(p, q);
    UpToCommaOfCommaFree(q);
  }
}
