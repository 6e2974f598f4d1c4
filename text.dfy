/** String helpers with JavaScript's meaning: `trim`, `Array.prototype.join`,
    substring containment and decimal rendering of a status code. */
module Text {

  /** The code points JavaScript's `String.prototype.trim` removes: the WhiteSpace
      and LineTerminator productions of ECMA-262 (sections 12.2 and 12.3). */
  predicate IsWhitespace(c: char)
  {
    || c == '\t' || c == '\n' || c == '\U{000B}' || c == '\U{000C}' || c == '\r'
    || c == ' ' || c == '\U{00A0}' || c == '\U{1680}'
    || ('\U{2000}' <= c <= '\U{200A}')
    || c == '\U{2028}' || c == '\U{2029}' || c == '\U{202F}' || c == '\U{205F}'
    || c == '\U{3000}' || c == '\U{FEFF}'
  }

  /** A string that `trim` turns into the empty string: whitespace only. */
  predicate IsBlank(s: string)
  {
    forall i :: 0 <= i < |s| ==> IsWhitespace(s[i])
  }

  /** A string that `trim` leaves alone: no whitespace at either end. */
  predicate IsTrimmed(s: string)
  {
    s == [] || (!IsWhitespace(s[0]) && !IsWhitespace(s[|s| - 1]))
  }

  /** Drops leading whitespace: the result is the longest suffix not starting with whitespace. */
  function TrimStart(s: string): (r: string)
    ensures |r| <= |s| && r == s[|s| - |r|..]
    ensures r == [] || !IsWhitespace(r[0])
    ensures forall i :: 0 <= i < |s| - |r| ==> IsWhitespace(s[i])
  {
    if s != [] && IsWhitespace(s[0]) then TrimStart(s[1..]) else s
  }

  /** Drops trailing whitespace: the result is the longest prefix not ending with whitespace. */
  function TrimEnd(s: string): (r: string)
    ensures |r| <= |s| && r == s[..|r|]
    ensures r == [] || !IsWhitespace(r[|r| - 1])
    ensures forall i :: |r| <= i < |s| ==> IsWhitespace(s[i])
  {
    if s != [] && IsWhitespace(s[|s| - 1]) then TrimEnd(s[..|s| - 1]) else s
  }

  /** JavaScript's `s.trim()`: a contiguous slice of `s`, trimmed, with only
      whitespace cut away on either side. */
  function Trim(s: string): (r: string)
    ensures IsTrimmed(r)
    ensures r == "" <==> IsBlank(s)
  {
    var t := TrimEnd(TrimStart(s));
    TrimSlices(s);
    t
  }

  /** What `trim` returns is a contiguous piece of its input. */
  lemma TrimIsSlice(s: string)
    ensures Contains(s, Trim(s))
  {
    TrimOccurs(s);
  }

  /** The facts behind Trim's contract, from those of TrimStart and TrimEnd. */
  lemma TrimSlices(s: string)
    ensures IsTrimmed(TrimEnd(TrimStart(s)))
    ensures OccursAt(s, TrimEnd(TrimStart(s)), |s| - |TrimStart(s)|)
    ensures TrimEnd(TrimStart(s)) == "" <==> IsBlank(s)
  {
    TrimIsTrimmed(s);
    TrimOccurs(s);
    TrimEmpty(s);
  }

  lemma TrimIsTrimmed(s: string)
    ensures IsTrimmed(TrimEnd(TrimStart(s)))
  {
    var u := TrimStart(s);
    var t := TrimEnd(u);
    if t != "" {
      assert t[0] == u[0];
    }
  }

  lemma TrimOccurs(s: string)
    ensures OccursAt(s, TrimEnd(TrimStart(s)), |s| - |TrimStart(s)|)
  {
    var u := TrimStart(s);
    PrefixOfSuffix(s, |s| - |u|, TrimEnd(u));
  }

  /** A prefix of the suffix of `s` from `a` on occurs in `s` at `a`. */
  lemma PrefixOfSuffix(s: string, a: nat, t: string)
    requires a <= |s| && |t| <= |s| - a && t == s[a..][..|t|]
    ensures OccursAt(s, t, a)
  {
    assert s[a..a + |t|] == s[a..][..|t|];
  }

  lemma TrimEmpty(s: string)
    ensures TrimEnd(TrimStart(s)) == "" <==> forall i :: 0 <= i < |s| ==> IsWhitespace(s[i])
  {
    var u := TrimStart(s);
    var t := TrimEnd(u);
    var a := |s| - |u|;
    if t == "" {
      forall i | 0 <= i < |s| ensures IsWhitespace(s[i]) {
        if i >= a { assert s[i] == u[i - a]; }
      }
    } else {
      assert t[0] == u[0] == s[a];
    }
  }

  /** Trimming an already trimmed string changes nothing; so `trim` is idempotent. */
  lemma TrimOfTrimmed(s: string)
    requires IsTrimmed(s)
    ensures Trim(s) == s
  {
    assert TrimStart(s) == s;
    assert TrimEnd(s) == s;
  }

  lemma TrimIdempotent(s: string)
    ensures Trim(Trim(s)) == Trim(s)
  {
    TrimOfTrimmed(Trim(s));
  }

  /** `t` occurs in `s` starting at position `k`. */
  predicate OccursAt(s: string, t: string, k: nat)
  {
    k + |t| <= |s| && s[k..k + |t|] == t
  }

  /** `t` occurs in `s` as a contiguous substring. */
  ghost predicate Contains(s: string, t: string)
  {
    exists k: nat :: OccursAt(s, t, k)
  }

  lemma ContainsMiddle(a: string, t: string, b: string)
    ensures Contains(a + t + b, t)
  {
    assert OccursAt(a + t + b, t, |a|);
  }

  lemma ContainsLeft(a: string, b: string, t: string)
    requires Contains(a, t)
    ensures Contains(a + b, t)
  {
    var k: nat :| OccursAt(a, t, k);
    assert OccursAt(a + b, t, k);
  }

  lemma ContainsRight(a: string, b: string, t: string)
    requires Contains(b, t)
    ensures Contains(a + b, t)
  {
    var k: nat :| OccursAt(b, t, k);
    assert OccursAt(a + b, t, |a| + k);
  }

  lemma ContainsTransitive(s: string, t: string, u: string)
    requires Contains(s, t) && Contains(t, u)
    ensures Contains(s, u)
  {
    var k: nat :| OccursAt(s, t, k);
    var j: nat :| OccursAt(t, u, j);
    forall i | 0 <= i < |u| ensures s[k + j + i] == u[i] {
      assert s[k + j + i] == t[j + i];
    }
    assert s[k + j..k + j + |u|] == u;
    assert OccursAt(s, u, k + j);
  }

  /** A substring carries every character of it into the containing string. */
  lemma ContainsChar(s: string, t: string, c: char)
    requires Contains(s, t) && c in t
    ensures c in s
  {
    var k: nat :| OccursAt(s, t, k);
    var j :| 0 <= j < |t| && t[j] == c;
    assert s[k + j] == c;
  }

  /** JavaScript's `parts.join(sep)`. */
  function Join(parts: seq<string>, sep: string): string
  {
    if |parts| == 0 then ""
    else if |parts| == 1 then parts[0]
    else parts[0] + sep + Join(parts[1..], sep)
  }

  /** Every joined part appears verbatim in the joined string. */
  lemma {:induction false} JoinContainsEach(parts: seq<string>, sep: string, i: nat)
    requires i < |parts|
    ensures Contains(Join(parts, sep), parts[i])
  {
    if |parts| == 1 {
      ContainsMiddle("", parts[0], "");
      assert "" + parts[0] + "" == Join(parts, sep);
    } else if i == 0 {
      ContainsMiddle("", parts[0], sep + Join(parts[1..], sep));
      assert "" + parts[0] + (sep + Join(parts[1..], sep)) == Join(parts, sep);
    } else {
      JoinContainsEach(parts[1..], sep, i - 1);
      ContainsMiddle(parts[0] + sep, Join(parts[1..], sep), "");
      assert parts[0] + sep + Join(parts[1..], sep) + "" == Join(parts, sep);
      ContainsTransitive(Join(parts, sep), Join(parts[1..], sep), parts[i]);
    }
  }

  /** A character that no part holds and the separator does not hold is absent from the join. */
  lemma {:induction false} JoinLacksChar(parts: seq<string>, sep: string, c: char)
    requires c !in sep && forall i :: 0 <= i < |parts| ==> c !in parts[i]
    ensures c !in Join(parts, sep)
  {
    if |parts| > 1 {
      JoinLacksChar(parts[1..], sep, c);
    }
  }

  function DigitChar(d: nat): (c: char)
    requires d < 10
  {
    "0123456789"[d]
  }

  /** The decimal rendering of a number, as a template literal prints an HTTP status. */
  function NatToString(n: nat): (r: string)
    ensures r != []
    ensures forall i :: 0 <= i < |r| ==> '0' <= r[i] <= '9'
    ensures DecimalValue(r) == n
    ensures |r| > 1 ==> r[0] != '0'
  {
    if n < 10 then [DigitChar(n)]
    else
      var r := NatToString(n / 10) + [DigitChar(n % 10)];
      assert r[..|r| - 1] == NatToString(n / 10);
      r
  }

  /** Reads a string of decimal digits back as a number. */
  function DecimalValue(s: string): nat
    requires forall i :: 0 <= i < |s| ==> '0' <= s[i] <= '9'
  {
    if s == [] then 0
    else DecimalValue(s[..|s| - 1]) * 10 + (s[|s| - 1] as int - '0' as int)
  }
}
