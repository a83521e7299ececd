/** Python string operations the bridge relies on, over `seq<char>`:
    `str.strip`, `str.split()`, `str.lower`, `str.replace`, `in` on strings,
    `" ".join`, slicing and integer formatting. */
module Text {
  import opened Wrappers

  /** The characters for which Python's `str.isspace` holds: the ASCII
      whitespace and separators, NEL, no-break space, and the Unicode space
      and line/paragraph separators. `str.strip()` and `str.split()` with no
      argument use this set. */
  predicate IsSpace(c: char) {
    c == ' ' || c == '\t' || c == '\n' || c == '\r' || c == '\U{0B}' || c == '\U{0C}'
    || c == '\U{1C}' || c == '\U{1D}' || c == '\U{1E}' || c == '\U{1F}'
    || c == '\U{85}' || c == '\U{A0}' || c == '\U{1680}'
    || ('\U{2000}' <= c <= '\U{200A}')
    || c == '\U{2028}' || c == '\U{2029}' || c == '\U{202F}' || c == '\U{205F}' || c == '\U{3000}'
  }

  predicate IsBlank(s: string) {
    forall i :: 0 <= i < |s| ==> IsSpace(s[i])
  }

  predicate HasNoSpace(s: string) {
    forall i :: 0 <= i < |s| ==> !IsSpace(s[i])
  }

  function TrimStart(s: string): (r: string)
    ensures |r| <= |s| && r == s[|s| - |r|..]
    ensures r == [] || !IsSpace(r[0])
    ensures IsBlank(s[..|s| - |r|])
  {
    if s != [] && IsSpace(s[0]) then
      var r := TrimStart(s[1..]);
      assert s[..|s| - |r|] == [s[0]] + s[1..][..|s| - 1 - |r|];
      BlankPrepend(s[0], s[1..][..|s| - 1 - |r|]);
      assert s[1..][|s| - 1 - |r|..] == s[|s| - |r|..];
      r
    else s
  }

  lemma BlankPrepend(c: char, t: string)
    requires IsSpace(c) && IsBlank(t)
    ensures IsBlank([c] + t)
  {
  }

  function TrimEnd(s: string): (r: string)
    ensures |r| <= |s| && r == s[..|r|]
    ensures r == [] || !IsSpace(r[|r| - 1])
    ensures IsBlank(s[|r|..])
  {
    if s != [] && IsSpace(s[|s| - 1]) then TrimEnd(s[..|s| - 1]) else s
  }

  /** Python `s.strip()`. */
  function Strip(s: string): (r: string)
    ensures r == [] || (!IsSpace(r[0]) && !IsSpace(r[|r| - 1]))
  {
    TrimEnd(TrimStart(s))
  }

  /** `s.strip()` is empty exactly when every character of `s` is whitespace. */
  lemma StripEmptyIffBlank(s: string)
    ensures Strip(s) == [] <==> IsBlank(s)
  {
    var t := TrimStart(s);
    if Strip(s) == [] {
      assert IsBlank(t[|t|..]);
      assert t[|t|..] == t;
      assert s == s[..|s| - |t|] + t;
    } else {
      var r := Strip(s);
      assert r == t[..|r|];
      assert t[0] == r[0];
      assert s[|s| - |t|] == t[0];
    }
  }

  /** Python `s.split()` with no separator: the maximal runs of non-whitespace. */
  function Split(s: string): seq<string>
    decreases |s|
  {
    var t := TrimStart(s);
    if t == [] then []
    else
      var n := TokenLength(t);
      [t[..n]] + Split(t[n..])
  }

  /** Every word `split()` returns is non-empty and holds no whitespace. */
  lemma {:induction false} SplitWords(s: string)
    ensures forall i :: 0 <= i < |Split(s)| ==> Split(s)[i] != [] && HasNoSpace(Split(s)[i])
    decreases |s|
  {
    var t := TrimStart(s);
    if t != [] {
      var n := TokenLength(t);
      SplitWords(t[n..]);
      var rest := Split(t[n..]);
      assert Split(s) == [t[..n]] + rest;
      forall i | 0 <= i < |Split(s)|
        ensures Split(s)[i] != [] && HasNoSpace(Split(s)[i])
      {
        if i > 0 {
          assert Split(s)[i] == rest[i - 1];
        }
      }
    }
  }

  /** Length of the leading non-whitespace run of `s`. */
  function TokenLength(s: string): (n: nat)
    ensures n <= |s|
    ensures HasNoSpace(s[..n])
    ensures n == |s| || IsSpace(s[n])
    ensures s != [] && !IsSpace(s[0]) ==> n > 0
  {
    if s == [] || IsSpace(s[0]) then 0 else 1 + TokenLength(s[1..])
  }

  /** `sep.join(parts)`. */
  function Join(parts: seq<string>, sep: string): (r: string)
    ensures parts == [] ==> r == ""
    ensures |parts| == 1 ==> r == parts[0]
  {
    if parts == [] then ""
    else if |parts| == 1 then parts[0]
    else parts[0] + sep + Join(parts[1..], sep)
  }

  lemma TrimStartNoSpace(s: string)
    requires s == [] || !IsSpace(s[0])
    ensures TrimStart(s) == s
  {
  }

  lemma TokenLengthOfToken(tok: string, rest: string)
    requires HasNoSpace(tok)
    requires rest == [] || IsSpace(rest[0])
    ensures TokenLength(tok + rest) == |tok|
    decreases |tok|
  {
    if tok != [] {
      assert (tok + rest)[1..] == tok[1..] + rest;
      TokenLengthOfToken(tok[1..], rest);
    }
  }

  /** Splitting a single-space join of whitespace-free, non-empty tokens
      gives the tokens back. */
  lemma {:induction false} SplitJoin(tokens: seq<string>)
    requires forall i :: 0 <= i < |tokens| ==> tokens[i] != [] && HasNoSpace(tokens[i])
    ensures Split(Join(tokens, " ")) == tokens
  {
    if tokens == [] {
    } else if |tokens| == 1 {
      SplitSingle(tokens[0]);
    } else {
      var inner := Join(tokens[1..], " ");
      JoinStart(tokens[1..], " ");
      assert !IsSpace(inner[0]);
      assert Join(tokens, " ") == tokens[0] + (" " + inner);
      SplitToken(tokens[0], inner);
      SplitJoin(tokens[1..]);
      assert [tokens[0]] + tokens[1..] == tokens;
    }
  }

  lemma JoinStart(parts: seq<string>, sep: string)
    requires parts != [] && parts[0] != []
    ensures Join(parts, sep) != [] && Join(parts, sep)[0] == parts[0][0]
  {
  }

  lemma SplitSingle(t: string)
    requires t != [] && HasNoSpace(t)
    ensures Split(t) == [t]
  {
    TrimStartNoSpace(t);
    TokenLengthOfToken(t, "");
    assert t + "" == t;
    assert t[|t|..] == [];
  }

  /** A whitespace-free word followed by a space splits off as the first word. */
  lemma SplitToken(t: string, inner: string)
    requires t != [] && HasNoSpace(t)
    requires inner == [] || !IsSpace(inner[0])
    ensures Split(t + (" " + inner)) == [t] + Split(inner)
  {
    var rest := " " + inner;
    var j := t + rest;
    TrimStartNoSpace(j);
    TokenLengthOfToken(t, rest);
    assert j[..|t|] == t;
    assert j[|t|..] == rest;
    assert rest[1..] == inner;
    SplitSkipSpace(rest);
  }

  lemma SplitSkipSpace(s: string)
    requires s != [] && IsSpace(s[0])
    ensures Split(s) == Split(s[1..])
  {
  }

  /** ASCII lowering of one character (Python's `str.lower` on ASCII). */
  function LowerChar(c: char): char {
    if 'A' <= c <= 'Z' then (c as int + 32) as char else c
  }

  function Lower(s: string): (r: string)
    ensures |r| == |s| && forall i :: 0 <= i < |s| ==> r[i] == LowerChar(s[i])
  {
    if s == [] then [] else [LowerChar(s[0])] + Lower(s[1..])
  }

  /** Lowering works character by character, so it distributes over concatenation. */
  lemma {:induction false} LowerAppend(a: string, b: string)
    ensures Lower(a + b) == Lower(a) + Lower(b)
  {
    if a == [] {
      assert a + b == b;
    } else {
      assert (a + b)[1..] == a[1..] + b;
      LowerAppend(a[1..], b);
    }
  }

  lemma LowerConcat(a: string, p: string, b: string)
    ensures Lower(a + p + b) == Lower(a) + Lower(p) + Lower(b)
  {
    LowerAppend(a + p, b);
    LowerAppend(a, p);
  }

  /** A text without capital letters is its own lower case. */
  lemma LowerOfLowercase(s: string)
    requires forall i :: 0 <= i < |s| ==> !('A' <= s[i] <= 'Z')
    ensures Lower(s) == s
  {
  }

  predicate StartsWith(s: string, p: string) {
    |p| <= |s| && s[..|p|] == p
  }

  /** Python `p in s` for strings. */
  predicate Contains(s: string, p: string)
    decreases |s|
  {
    StartsWith(s, p) || (s != [] && Contains(s[1..], p))
  }

  /** `p` occurs in `s` at position `i`. */
  predicate OccursAt(s: string, p: string, i: int) {
    0 <= i <= |s| - |p| && s[i..i + |p|] == p
  }

  /** `p in s` holds exactly when `p` occurs somewhere in `s`. */
  lemma {:induction false} ContainsIffOccurs(s: string, p: string)
    ensures Contains(s, p) <==> exists i :: OccursAt(s, p, i)
    decreases |s|
  {
    if s != [] {
      ContainsIffOccurs(s[1..], p);
      if Contains(s[1..], p) {
        var i :| OccursAt(s[1..], p, i);
        assert s[i + 1..i + 1 + |p|] == s[1..][i..i + |p|];
        assert OccursAt(s, p, i + 1);
      }
      if exists i :: OccursAt(s, p, i) {
        var i :| OccursAt(s, p, i);
        if i > 0 {
          assert s[1..][i - 1..i - 1 + |p|] == s[i..i + |p|];
          assert OccursAt(s[1..], p, i - 1);
        } else {
          assert StartsWith(s, p);
        }
      }
    }
    if StartsWith(s, p) {
      assert OccursAt(s, p, 0);
    }
    if s == [] && exists i :: OccursAt(s, p, i) {
      var i :| OccursAt(s, p, i);
      assert StartsWith(s, p);
    }
  }

  /** A string contains every string placed inside it. */
  lemma ContainsMiddle(a: string, p: string, b: string)
    ensures Contains(a + p + b, p)
  {
    var s := a + p + b;
    assert s[|a|..|a| + |p|] == p;
    assert OccursAt(s, p, |a|);
    ContainsIffOccurs(s, p);
  }

  /** Python `s.replace(p, r)` for a non-empty pattern: non-overlapping,
      left to right. */
  function ReplaceAll(s: string, p: string, r: string): string
    requires p != []
    decreases |s|
  {
    if s == [] then []
    else if StartsWith(s, p) then r + ReplaceAll(s[|p|..], p, r)
    else [s[0]] + ReplaceAll(s[1..], p, r)
  }

  /** Replacing a pattern that does not occur leaves the text unchanged. */
  lemma {:induction false} ReplaceAbsent(s: string, p: string, r: string)
    requires p != [] && !Contains(s, p)
    ensures ReplaceAll(s, p, r) == s
    decreases |s|
  {
    if s != [] {
      ReplaceAbsent(s[1..], p, r);
      assert [s[0]] + s[1..] == s;
    }
  }

  /** Removing a pattern (replacing it by "") never lengthens the text. */
  lemma {:induction false} RemoveShortens(s: string, p: string)
    requires p != []
    ensures |ReplaceAll(s, p, "")| <= |s|
    decreases |s|
  {
    if s != [] {
      if StartsWith(s, p) {
        RemoveShortens(s[|p|..], p);
      } else {
        RemoveShortens(s[1..], p);
      }
    }
  }

  /** Python slice `s[:n]`. */
  function Take(s: string, n: nat): (r: string)
    ensures |r| == if n <= |s| then n else |s|
    ensures r == s[..|r|]
  {
    if n <= |s| then s[..n] else s
  }

  function DigitChar(d: nat): char
    requires d < 10
  {
    "0123456789"[d]
  }

  /** Decimal rendering of a natural number, as `str(n)`. */
  function NatToString(n: nat): (r: string)
    ensures r != []
    ensures forall i :: 0 <= i < |r| ==> '0' <= r[i] <= '9'
    decreases n
  {
    if n < 10 then [DigitChar(n)] else NatToString(n / 10) + [DigitChar(n % 10)]
  }

  /** Decimal rendering of an integer, as `str(i)`. */
  function IntToString(i: int): (r: string)
    ensures r != []
    ensures (r[0] == '-') <==> i < 0
  {
    if i < 0 then "-" + NatToString(-i) else NatToString(i)
  }

  predicate IsDigit(c: char) {
    '0' <= c <= '9'
  }

  function DigitValue(c: char): (d: nat)
    requires IsDigit(c)
    ensures d < 10
  {
    c as int - '0' as int
  }

  function DigitsValue(s: string): nat
    requires forall i :: 0 <= i < |s| ==> IsDigit(s[i])
  {
    if s == [] then 0 else DigitsValue(s[..|s| - 1]) * 10 + DigitValue(s[|s| - 1])
  }

  /** The digits of a decimal literal as `int()` reads them: ASCII digits,
      where a single underscore may separate two digits. */
  predicate DigitGroups(s: string) {
    s != [] && IsDigit(s[0]) && IsDigit(s[|s| - 1])
    && (forall i :: 0 <= i < |s| ==> IsDigit(s[i]) || s[i] == '_')
    && (forall i :: 0 <= i < |s| - 1 ==> IsDigit(s[i]) || IsDigit(s[i + 1]))
  }

  /** The digits alone, the separating underscores dropped. */
  function Underscored(s: string): (r: string)
    ensures |r| <= |s|
  {
    if s == [] then [] else (if s[0] == '_' then [] else [s[0]]) + Underscored(s[1..])
  }

  function DigitsOf(s: string): (r: string)
    requires DigitGroups(s)
    ensures forall i :: 0 <= i < |r| ==> IsDigit(r[i])
  {
    DigitsOfGroups(s);
    Underscored(s)
  }

  lemma {:induction false} DigitsOfGroups(s: string)
    requires forall i :: 0 <= i < |s| ==> IsDigit(s[i]) || s[i] == '_'
    ensures forall i :: 0 <= i < |Underscored(s)| ==> IsDigit(Underscored(s)[i])
  {
    if s != [] {
      DigitsOfGroups(s[1..]);
    }
  }

  /** Python `int(s)` on an already stripped string: an optional sign, then
      decimal digit groups; `None` where Python raises ValueError. */
  function ParseInt(s: string): (r: Option<int>)
    ensures r.Some? ==> |s| > 0
  {
    var neg := s != [] && s[0] == '-';
    var body := if s != [] && (s[0] == '-' || s[0] == '+') then s[1..] else s;
    if !DigitGroups(body) then None
    else Some(if neg then -(DigitsValue(DigitsOf(body)) as int) else DigitsValue(DigitsOf(body)))
  }

  lemma DigitCharValue(d: nat)
    requires d < 10
    ensures IsDigit(DigitChar(d)) && DigitValue(DigitChar(d)) == d
  {
  }

  lemma {:induction false} DigitsOfNat(n: nat)
    ensures forall i :: 0 <= i < |NatToString(n)| ==> IsDigit(NatToString(n)[i])
    ensures DigitsValue(NatToString(n)) == n
    decreases n
  {
    DigitCharValue(n % 10);
    if n >= 10 {
      DigitsOfNat(n / 10);
      var r := NatToString(n);
      assert r[..|r| - 1] == NatToString(n / 10);
      assert r[|r| - 1] == DigitChar(n % 10);
    }
  }

  /** A string of digits alone has nothing to drop. */
  lemma {:induction false} UnderscoredDigits(s: string)
    requires forall i :: 0 <= i < |s| ==> IsDigit(s[i])
    ensures Underscored(s) == s
  {
    if s != [] {
      UnderscoredDigits(s[1..]);
      assert [s[0]] + s[1..] == s;
    }
  }

  /** `int(str(i)) == i`: parsing the decimal rendering gives the integer back. */
  lemma ParseIntToString(i: int)
    ensures ParseInt(IntToString(i)) == Some(i)
  {
    var s := IntToString(i);
    var n: nat := if i < 0 then -i else i;
    DigitsOfNat(n);
    UnderscoredDigits(NatToString(n));
    if i < 0 {
      assert s[1..] == NatToString(n);
      assert s[0] == '-';
    } else {
      assert s == NatToString(i);
      assert IsDigit(s[0]);
    }
  }

  /** Underscores between digits are accepted and ignored: `int("1_000") == 1000`. */
  lemma ParseIntGrouped()
    ensures ParseInt("1_000") == Some(1000)
  {
    assert DigitGroups("1_000");
    UnderscoredExample();
    DigitsValueExample();
  }

  lemma UnderscoredExample()
    ensures Underscored("1_000") == "1000"
  {
    var s := "1_000";
    assert Underscored(s[4..]) == "0";
    assert Underscored(s[3..]) == "00";
    assert Underscored(s[2..]) == "000";
    assert Underscored(s[1..]) == "000";
  }

  lemma DigitsValueExample()
    ensures DigitsValue("1000") == 1000
  {
    assert "1000"[..3] == "100" && "100"[..2] == "10" && "10"[..1] == "1" && "1"[..0] == "";
    assert DigitsValue("1") == 1;
    assert DigitsValue("10") == 10;
    assert DigitsValue("100") == 100;
  }

  /** An underscore must sit between two digits: `int("1__0")`, `int("_1")`
      and `int("1_")` raise. */
  lemma ParseIntMisplacedUnderscore()
    ensures ParseInt("1__0") == None && ParseInt("_1") == None && ParseInt("1_") == None
  {
    assert !DigitGroups("1__0") by {
      assert !IsDigit("1__0"[1]) && !IsDigit("1__0"[2]);
    }
  }

}
