/**
 * The pure helpers that read the instrument's text responses:
 * `extract_number`, `extract_mode` and `extract_pam_mode`.
 *
 * Python's `float()` is replaced by `ParseNumber`, a decimal grammar
 * (optional sign, digits with an optional point, optional exponent) whose
 * value is an exact `real`.
 */
module Parsing {
  import opened Base

  /** The channel electrical mode reported by `AINA` / `AINB`. */
  datatype ElectricalMode = Voltage | Current

  /** The instrument operating mode reported by `MODE`. */
  datatype OperatingMode = Standard | Expanded

  // ---------------------------------------------------------------------
  // Whitespace splitting (`str.split()` with no argument)
  // ---------------------------------------------------------------------

  /** The characters `str.isspace()` accepts, which `str.split()` splits on. */
  predicate IsSpace(c: char)
  {
    var n := c as int;
    (0x09 <= n <= 0x0D) || (0x1C <= n <= 0x20) || n == 0x85 || n == 0xA0
    || n == 0x1680 || (0x2000 <= n <= 0x200A) || n == 0x2028 || n == 0x2029
    || n == 0x202F || n == 0x205F || n == 0x3000
  }

  /** A token of `str.split()`: non-empty and free of whitespace. */
  predicate IsWord(w: string)
  {
    w != [] && forall i :: 0 <= i < |w| ==> !IsSpace(w[i])
  }

  /** Length of the maximal run of non-space characters at the head of `s`. */
  function WordLength(s: string): (n: nat)
    requires s != [] && !IsSpace(s[0])
    ensures 1 <= n <= |s|
    ensures forall i :: 0 <= i < n ==> !IsSpace(s[i])
    ensures n < |s| ==> IsSpace(s[n])
    decreases |s|
  {
    if |s| == 1 || IsSpace(s[1]) then 1 else 1 + WordLength(s[1..])
  }

  /** `s.split()`: the maximal runs of non-space characters, in order. */
  function Tokens(s: string): (toks: seq<string>)
    ensures forall i :: 0 <= i < |toks| ==> IsWord(toks[i])
    decreases |s|
  {
    if s == [] then []
    else if IsSpace(s[0]) then Tokens(s[1..])
    else
      var n := WordLength(s);
      [s[..n]] + Tokens(s[n..])
  }

  /** `" ".join(ws)`: the inverse of `Tokens` on a sequence of words. */
  function Join(ws: seq<string>): string
  {
    if ws == [] then []
    else if |ws| == 1 then ws[0]
    else ws[0] + " " + Join(ws[1..])
  }

  lemma {:induction false} WordLengthOfWord(w: string, rest: string)
    requires IsWord(w)
    requires rest == [] || IsSpace(rest[0])
    ensures WordLength(w + rest) == |w|
    decreases |w|
  {
    if |w| > 1 {
      assert (w + rest)[1..] == w[1..] + rest;
      WordLengthOfWord(w[1..], rest);
    }
  }

  /** Splitting words joined by single spaces gives the words back. */
  lemma {:induction false} TokensOfJoin(ws: seq<string>)
    requires forall i :: 0 <= i < |ws| ==> IsWord(ws[i])
    ensures Tokens(Join(ws)) == ws
    decreases |ws|
  {
    if ws == [] {
    } else if |ws| == 1 {
      var w := ws[0];
      WordLengthOfWord(w, []);
      assert w + [] == w;
      assert w[|w|..] == [];
      assert w[..|w|] == w;
    } else {
      var w := ws[0];
      var rest := " " + Join(ws[1..]);
      var s := w + rest;
      assert Join(ws) == s;
      WordLengthOfWord(w, rest);
      assert s[..|w|] == w;
      assert s[|w|..] == rest;
      assert rest[1..] == Join(ws[1..]);
      TokensOfJoin(ws[1..]);
      assert Tokens(rest) == Tokens(Join(ws[1..]));
      assert ws == [w] + ws[1..];
    }
  }

  // ---------------------------------------------------------------------
  // Removing the prompt marker (`resp.replace(">", "")`)
  // ---------------------------------------------------------------------

  /** `s` with every `>` removed and every other character kept in order. */
  function RemovePrompt(s: string): (r: string)
    ensures '>' !in r
    ensures forall c :: c != '>' ==> multiset(r)[c] == multiset(s)[c]
    ensures '>' !in s ==> r == s
  {
    if s == [] then []
    else
      assert s == [s[0]] + s[1..];
      if s[0] == '>' then RemovePrompt(s[1..]) else [s[0]] + RemovePrompt(s[1..])
  }

  /** A single character is dropped when it is `>` and kept otherwise. */
  lemma RemovePromptChar(c: char)
    ensures RemovePrompt([c]) == if c == '>' then [] else [c]
  {
    assert [c][1..] == [];
  }

  /**
   * Removal works piece by piece: removing from `a + b` is removing from
   * `a`, then from `b`, so the kept characters stay in their order.
   */
  lemma {:induction false} RemovePromptAppend(a: string, b: string)
    ensures RemovePrompt(a + b) == RemovePrompt(a) + RemovePrompt(b)
    decreases |a|
  {
    if a == [] {
      assert a + b == b;
    } else {
      assert (a + b)[0] == a[0];
      assert (a + b)[1..] == a[1..] + b;
      RemovePromptAppend(a[1..], b);
      if a[0] != '>' {
        AppendTwo([a[0]], RemovePrompt(a[1..]), RemovePrompt(b));
      }
    }
  }

  // ---------------------------------------------------------------------
  // Number recognition (the stand-in for `float(t)`)
  // ---------------------------------------------------------------------

  predicate IsDigit(c: char)
  {
    '0' <= c <= '9'
  }

  predicate AllDigits(s: string)
  {
    forall i :: 0 <= i < |s| ==> IsDigit(s[i])
  }

  /** The natural number a string of decimal digits denotes. */
  function DigitsValue(s: string): nat
    requires AllDigits(s)
  {
    if s == [] then 0
    else DigitsValue(s[..|s| - 1]) * 10 + (s[|s| - 1] as int - '0' as int)
  }

  /** Exactly ten to the power `e`, for any integer `e`. */
  function Pow10(e: int): (r: real)
    ensures r > 0.0
    decreases if e < 0 then -e else e
  {
    if e == 0 then 1.0
    else if e > 0 then 10.0 * Pow10(e - 1)
    else Pow10(e + 1) / 10.0
  }

  /**
   * `m` with its decimal point moved `e` places (right for positive `e`):
   * one multiplication or division by ten per place.
   */
  function Shift(m: real, e: int): real
    decreases if e < 0 then -e else e
  {
    if e == 0 then m
    else if e > 0 then Shift(m * 10.0, e - 1)
    else Shift(m / 10.0, e + 1)
  }

  /** Moving the decimal point `e` places multiplies by ten to the power `e`. */
  lemma {:induction false} ShiftScales(m: real, e: int)
    ensures Shift(m, e) == m * Pow10(e)
    decreases if e < 0 then -e else e
  {
    if e > 0 {
      ShiftScales(m * 10.0, e - 1);
      assert (m * 10.0) * Pow10(e - 1) == m * (10.0 * Pow10(e - 1));
    } else if e < 0 {
      ShiftScales(m / 10.0, e + 1);
      assert (m / 10.0) * Pow10(e + 1) == m * (Pow10(e + 1) / 10.0);
    }
  }

  /** Index of the first occurrence of `c` in `s`, or `|s|` when there is none. */
  function IndexOf(s: string, c: char): (k: nat)
    ensures k <= |s|
    ensures k < |s| ==> s[k] == c
    ensures forall i :: 0 <= i < k ==> s[i] != c
  {
    if s == [] then 0
    else if s[0] == c then 0
    else 1 + IndexOf(s[1..], c)
  }

  /** Index of the first `e` or `E` in `s`, or `|s|`. */
  function IndexOfExponent(s: string): (k: nat)
    ensures k <= |s|
    ensures k < |s| ==> s[k] == 'e' || s[k] == 'E'
    ensures forall i :: 0 <= i < k ==> s[i] != 'e' && s[i] != 'E'
  {
    if s == [] then 0
    else if s[0] == 'e' || s[0] == 'E' then 0
    else 1 + IndexOfExponent(s[1..])
  }

  /** Digits with at most one decimal point and at least one digit: `12`, `12.5`, `.5`, `12.`. */
  function ParseMantissa(m: string): Option<real>
  {
    var p := IndexOf(m, '.');
    var ip := m[..p];
    var fp := if p < |m| then m[p + 1..] else [];
    if AllDigits(ip) && AllDigits(fp) && |ip| + |fp| >= 1 then
      Some(DigitsValue(ip) as real + Shift(DigitsValue(fp) as real, -|fp|))
    else None
  }

  /** An optionally signed, non-empty string of digits. */
  function ParseExponent(x: string): Option<int>
  {
    if x != [] && (x[0] == '+' || x[0] == '-') then
      var ds := x[1..];
      if ds != [] && AllDigits(ds) then
        Some(if x[0] == '-' then -(DigitsValue(ds) as int) else DigitsValue(ds))
      else None
    else if x != [] && AllDigits(x) then Some(DigitsValue(x))
    else None
  }

  /** The value of a decimal token, or `None` when `float()` would raise `ValueError`. */
  function ParseNumber(t: string): Option<real>
  {
    if t == [] then None
    else
      var negative := t[0] == '-';
      var body := if t[0] == '+' || t[0] == '-' then t[1..] else t;
      var e := IndexOfExponent(body);
      var magnitude :=
        match ParseMantissa(body[..e])
        case None => None
        case Some(m) =>
          if e == |body| then Some(m)
          else
            match ParseExponent(body[e + 1..])
            case None => None
            case Some(x) => Some(Shift(m, x));
      match magnitude
      case None => None
      case Some(v) => Some(if negative then -v else v)
  }

  /** The "is numeric token" predicate. */
  predicate IsNumeric(t: string)
  {
    ParseNumber(t).Some?
  }

  /** Position of the first numeric token of `toks`, or `|toks|` when there is none. */
  function FirstNumeric(toks: seq<string>): (k: nat)
    ensures k <= |toks|
    ensures k < |toks| ==> IsNumeric(toks[k])
    ensures forall j :: 0 <= j < k ==> !IsNumeric(toks[j])
  {
    if toks == [] then 0
    else if IsNumeric(toks[0]) then 0
    else 1 + FirstNumeric(toks[1..])
  }

  /** The value of the first numeric token of `toks`, or `None` when no token is numeric. */
  function FirstValue(toks: seq<string>): (r: Option<real>)
    ensures r.None? <==> forall i :: 0 <= i < |toks| ==> !IsNumeric(toks[i])
    ensures r.Some? ==>
      exists i :: 0 <= i < |toks| && ParseNumber(toks[i]) == r
        && forall j :: 0 <= j < i ==> !IsNumeric(toks[j])
  {
    var k := FirstNumeric(toks);
    if k < |toks| then ParseNumber(toks[k]) else None
  }

  /**
   * `extract_number`: the value of the first whitespace-separated token of
   * the response, with every `>` removed, that parses as a number.
   */
  function ExtractNumber(resp: string): Option<real>
  {
    FirstValue(Tokens(RemovePrompt(resp)))
  }

  /** `int(x)` on a float: truncation toward zero. */
  function Truncate(x: real): (n: int)
    ensures 0.0 <= x ==> n as real <= x < n as real + 1.0
    ensures x < 0.0 ==> n as real - 1.0 < x <= n as real
  {
    if x >= 0.0 then x.Floor else -((-x).Floor)
  }

  // ---------------------------------------------------------------------
  // Mode markers
  // ---------------------------------------------------------------------

  /** `extract_mode`: `V` wins over `C`; neither marker gives `None`. */
  function ExtractMode(resp: string): (m: Option<ElectricalMode>)
    ensures m == Some(Voltage) <==> 'V' in resp
    ensures m == Some(Current) <==> 'V' !in resp && 'C' in resp
    ensures m == None <==> 'V' !in resp && 'C' !in resp
  {
    if 'V' in resp then Some(Voltage)
    else if 'C' in resp then Some(Current)
    else None
  }

  /** True when `p` is a prefix of `s`. */
  predicate IsPrefix(p: string, s: string)
  {
    |p| <= |s| && s[..|p|] == p
  }

  /** Python's substring test `p in s`, by scanning every start position. */
  predicate Contains(s: string, p: string)
    decreases |s|
  {
    IsPrefix(p, s) || (s != [] && Contains(s[1..], p))
  }

  /** `p` occurs in `s` starting at position `i`. */
  predicate OccursAt(s: string, p: string, i: int)
  {
    0 <= i <= |s| - |p| && s[i..i + |p|] == p
  }

  /** `Contains` holds exactly when `p` occurs at some position of `s`. */
  lemma {:induction false} ContainsIffOccurs(s: string, p: string)
    ensures Contains(s, p) <==> exists i :: OccursAt(s, p, i)
    decreases |s|
  {
    if IsPrefix(p, s) {
      assert s[0..|p|] == p;
      assert OccursAt(s, p, 0);
    }
    if s != [] {
      ContainsIffOccurs(s[1..], p);
      if Contains(s[1..], p) {
        var i :| OccursAt(s[1..], p, i);
        assert s[i + 1..i + 1 + |p|] == s[1..][i..i + |p|];
        assert OccursAt(s, p, i + 1);
      }
      if !IsPrefix(p, s) && (exists i :: OccursAt(s, p, i)) {
        var i :| OccursAt(s, p, i);
        assert i != 0;
        assert s[1..][i - 1..i - 1 + |p|] == s[i..i + |p|];
        assert OccursAt(s[1..], p, i - 1);
      }
    } else {
      if exists i :: OccursAt(s, p, i) {
        var i :| OccursAt(s, p, i);
        assert i == 0 && |p| == 0;
        assert p == [] && s[..0] == [];
        assert IsPrefix(p, s);
      }
    }
  }

  /** `extract_pam_mode`: `STD` wins over `EXP`; neither marker gives `None`. */
  function ExtractPamMode(resp: string): (m: Option<OperatingMode>)
    ensures m == Some(Standard) <==> Contains(resp, "STD")
    ensures m == Some(Expanded) <==> !Contains(resp, "STD") && Contains(resp, "EXP")
    ensures m == None <==> !Contains(resp, "STD") && !Contains(resp, "EXP")
  {
    if Contains(resp, "STD") then Some(Standard)
    else if Contains(resp, "EXP") then Some(Expanded)
    else None
  }

  // ---------------------------------------------------------------------
  // Worked examples
  // ---------------------------------------------------------------------

  /** `float("12.5")` is 12.5. */
  lemma ParseTwelvePointFive() ensures ParseNumber("12.5") == Some(12.5) {
    var t := "12.5";
    assert IndexOfExponent(t[3..]) == 1 by { assert t[3..][1..] == []; }
    assert IndexOfExponent(t[2..]) == 2 by { assert t[2..][1..] == t[3..]; }
    assert IndexOfExponent(t[1..]) == 3 by { assert t[1..][1..] == t[2..]; }
    assert IndexOfExponent(t) == 4;
    assert t[..4] == t;
    assert IndexOf(t[2..], '.') == 0;
    assert IndexOf(t, '.') == 2;
    assert t[..2] == "12" && t[3..] == "5";
    assert DigitsValue("1") == 1;
    assert DigitsValue("12") == 12 by { assert "12"[..1] == "1"; }
    assert DigitsValue("5") == 5 by { assert "5"[..0] == ""; }
    assert Shift(5.0, -1) == 0.5;
  }
  /** The prompt marker is ignored: `"> 12.5"` reads as 12.5. */
  lemma ExtractNumberOfPrompt() ensures ExtractNumber("> 12.5") == Some(12.5) {
    var s := "> 12.5";
    assert RemovePrompt(s) == " 12.5" by {
      assert s[1..] == " 12.5";
      assert RemovePrompt(" 12.5") == " 12.5";
    }
    var u := " 12.5";
    assert u[1..] == "12.5";
    assert WordLength("12.5") == 4 by {
      assert "12.5"[1..] == "2.5";
      assert "2.5"[1..] == ".5";
      assert ".5"[1..] == "5";
    }
    assert "12.5"[..4] == "12.5" && "12.5"[4..] == [];
    assert Tokens(u) == ["12.5"];
    ParseTwelvePointFive();
    assert IsNumeric("12.5");
    assert FirstNumeric(["12.5"]) == 0;
  }
  /** A response without a number, such as `"ERR"`, reads as `None`. */
  lemma ExtractNumberOfError() ensures ExtractNumber("ERR") == None {
    var s := "ERR";
    assert RemovePrompt(s) == s;
    assert WordLength(s) == 3 by {
      assert s[1..] == "RR";
      assert "RR"[1..] == "R";
    }
    assert s[..3] == s && s[3..] == [];
    assert Tokens(s) == [s];
    assert !IsNumeric(s) by {
      assert IndexOfExponent(s) == 0;
    }
    assert FirstNumeric([s]) == 1 by {
      var one: seq<string> := [s]; assert |one[1..]| == 0;
    }
  }
}
