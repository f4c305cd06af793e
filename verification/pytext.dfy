/** The few Python string built-ins the plugin relies on, stated exactly
    enough for the configuration rules: `int(text)` on an environment
    string, `str(n)` as its inverse, and `str.upper()` on a test outcome. */
module PyText {
  import opened Common

  /** Characters `int()` skips around a number: the ASCII whitespace
      `\t \n \v \f \r` and space, and every non-ASCII character Python
      counts as whitespace. */
  predicate IsSpace(c: char) {
    || c == ' ' || c == '\t' || c == '\n' || c == '\r'
    || c == '\U{000B}' || c == '\U{000C}'
    || c == '\U{0085}' || c == '\U{00A0}' || c == '\U{1680}'
    || ('\U{2000}' <= c <= '\U{200A}')
    || c == '\U{2028}' || c == '\U{2029}' || c == '\U{202F}'
    || c == '\U{205F}' || c == '\U{3000}'
  }

  predicate IsDigit(c: char) {
    '0' <= c <= '9'
  }

  function DigitValue(c: char): nat
    requires IsDigit(c)
  {
    (c as int) - ('0' as int)
  }

  function DigitChar(d: nat): (c: char)
    requires d < 10
    ensures IsDigit(c) && DigitValue(c) == d
  {
    (('0' as int) + d) as char
  }

  /** Drops the leading whitespace, and only that. */
  function TrimStart(s: string): (r: string)
    ensures |r| <= |s| && r == s[|s| - |r|..]
    ensures forall i :: 0 <= i < |s| - |r| ==> IsSpace(s[i])
    ensures r == [] || !IsSpace(r[0])
  {
    if |s| > 0 && IsSpace(s[0]) then TrimStart(s[1..]) else s
  }

  /** Drops the trailing whitespace, and only that. */
  function TrimEnd(s: string): (r: string)
    ensures |r| <= |s| && r == s[..|r|]
    ensures forall i :: |r| <= i < |s| ==> IsSpace(s[i])
    ensures r == [] || !IsSpace(r[|r| - 1])
  {
    if |s| > 0 && IsSpace(s[|s| - 1]) then TrimEnd(s[..|s| - 1]) else s
  }

  function Strip(s: string): string {
    TrimEnd(TrimStart(s))
  }

  /** A run of decimal digits in which every underscore stands alone
      between two digits, as `int()` admits them. */
  predicate IsDigitRun(u: string) {
    && |u| > 0
    && (forall i :: 0 <= i < |u| ==> IsDigit(u[i]) || u[i] == '_')
    && (forall i :: 0 <= i < |u| && u[i] == '_' ==>
          0 < i < |u| - 1 && IsDigit(u[i - 1]) && IsDigit(u[i + 1]))
  }

  /** The number a digit run denotes; underscores carry no value. */
  function RunValue(u: string): nat {
    if |u| == 0 then 0
    else if IsDigit(u[|u| - 1]) then 10 * RunValue(u[..|u| - 1]) + DigitValue(u[|u| - 1])
    else RunValue(u[..|u| - 1])
  }

  /** Python's `int(text)` in base 10; `None` is the `ValueError` it raises. */
  function ParseInt(s: string): Option<int> {
    var t := Strip(s);
    if |t| > 0 && (t[0] == '+' || t[0] == '-') then
      var u := t[1..];
      var n: int := RunValue(u);
      if IsDigitRun(u) then Some(if t[0] == '-' then -n else n) else None
    else if IsDigitRun(t) then Some(RunValue(t))
    else None
  }

  /** Python's `str(n)` for an integer. */
  function Decimal(n: nat): (r: string)
    ensures |r| > 0
    ensures forall i :: 0 <= i < |r| ==> IsDigit(r[i])
  {
    if n < 10 then [DigitChar(n)] else Decimal(n / 10) + [DigitChar(n % 10)]
  }

  function IntToString(i: int): string {
    if i < 0 then "-" + Decimal(-i) else Decimal(i)
  }

  /** The value of a run is zero exactly when all of its digits are '0'. */
  lemma {:induction false} RunValueZero(u: string)
    ensures RunValue(u) == 0 <==> forall i :: 0 <= i < |u| && IsDigit(u[i]) ==> u[i] == '0'
  {
    if |u| > 0 {
      var p := u[..|u| - 1];
      RunValueZero(p);
      assert forall i :: 0 <= i < |p| ==> p[i] == u[i];
    }
  }

  lemma {:induction false} RunValueOfDecimal(n: nat)
    ensures RunValue(Decimal(n)) == n
  {
    if n >= 10 {
      RunValueOfDecimal(n / 10);
      var d := Decimal(n);
      assert d[..|d| - 1] == Decimal(n / 10);
    }
  }

  /** The text `int()` sees after stripping is a contiguous piece of the
      input, and everything around it is whitespace. */
  lemma StripSlice(s: string) returns (k: nat)
    ensures k + |Strip(s)| <= |s|
    ensures Strip(s) == s[k..k + |Strip(s)|]
    ensures forall i :: 0 <= i < k ==> IsSpace(s[i])
    ensures forall i :: k + |Strip(s)| <= i < |s| ==> IsSpace(s[i])
    ensures Strip(s) == [] || (!IsSpace(Strip(s)[0]) && !IsSpace(Strip(s)[|Strip(s)| - 1]))
  {
    var a := TrimStart(s);
    k := |s| - |a|;
    var t := TrimEnd(a);
    assert t == a[..|t|];
    assert forall i :: k + |t| <= i < |s| ==> s[i] == a[i - k];
    if t != [] {
      assert t[0] == a[0];
    }
  }

  lemma StripClean(s: string)
    requires s == [] || (!IsSpace(s[0]) && !IsSpace(s[|s| - 1]))
    ensures Strip(s) == s
  {
    assert TrimStart(s) == s;
  }

  lemma DecimalIsRun(n: nat)
    ensures IsDigitRun(Decimal(n))
  {
  }

  /** `int()` of a number written by `str()` gives the number back. */
  lemma ParseIntOfString(i: int)
    ensures ParseInt(IntToString(i)) == Some(i)
  {
    var m: nat := if i < 0 then -i else i;
    var d := Decimal(m);
    var s := IntToString(i);
    StripClean(s);
    DecimalIsRun(m);
    RunValueOfDecimal(m);
    if i < 0 {
      assert s[1..] == d;
    } else {
      assert s == d;
      assert s[0] != '+' && s[0] != '-';
    }
  }

  /** Any character that is neither whitespace, a digit, an underscore nor
      a sign makes `int()` raise; so does a string of whitespace alone. */
  lemma ParseIntRejects(s: string, j: int)
    requires 0 <= j < |s|
    requires !IsSpace(s[j]) && !IsDigit(s[j]) && s[j] !in "_+-"
    ensures ParseInt(s).None?
  {
    var k := StripSlice(s);
    var t := Strip(s);
    assert k <= j < k + |t|;
    assert t[j - k] == s[j];
    if |t| > 0 && (t[0] == '+' || t[0] == '-') {
      assert j - k > 0;
      assert t[1..][j - k - 1] == s[j];
    }
  }

  lemma ParseIntBlank(s: string)
    requires forall i :: 0 <= i < |s| ==> IsSpace(s[i])
    ensures ParseInt(s).None?
  {
    var k := StripSlice(s);
    assert Strip(s) == [];
  }

  /** The digit run `int()` evaluates, and where it sits in the input. */
  lemma DigitRunOf(s: string) returns (off: nat, u: string)
    requires ParseInt(s).Some?
    ensures off + |u| <= |s| && u == s[off..off + |u|]
    ensures IsDigitRun(u)
    ensures ParseInt(s).value == RunValue(u) || ParseInt(s).value == -(RunValue(u) as int)
    ensures forall i :: 0 <= i < |s| && IsDigit(s[i]) ==> off <= i < off + |u|
  {
    var k := StripSlice(s);
    var t := Strip(s);
    if |t| > 0 && (t[0] == '+' || t[0] == '-') {
      off, u := k + 1, t[1..];
      assert !IsDigit(s[k]);
    } else {
      off, u := k, t;
    }
  }

  /** A non-zero digit of the input is a non-zero digit of the run and
      vice versa, since all the input's digits lie in the run. */
  lemma NonZeroDigitIn(s: string, off: nat, u: string)
    requires off + |u| <= |s| && u == s[off..off + |u|]
    requires forall i :: 0 <= i < |s| && IsDigit(s[i]) ==> off <= i < off + |u|
    ensures (exists i :: 0 <= i < |s| && IsDigit(s[i]) && s[i] != '0')
        <==> (exists j :: 0 <= j < |u| && IsDigit(u[j]) && u[j] != '0')
  {
    if exists i :: 0 <= i < |s| && IsDigit(s[i]) && s[i] != '0' {
      var i :| 0 <= i < |s| && IsDigit(s[i]) && s[i] != '0';
      assert u[i - off] == s[i];
    }
    if exists j :: 0 <= j < |u| && IsDigit(u[j]) && u[j] != '0' {
      var j :| 0 <= j < |u| && IsDigit(u[j]) && u[j] != '0';
      assert s[off + j] == u[j];
    }
  }

  /** A successful `int()` is non-zero exactly when some digit of the text
      is not '0'; this is what `bool(int(text))` decides. */
  lemma ParseIntNonZero(s: string)
    requires ParseInt(s).Some?
    ensures ParseInt(s).value != 0 <==> exists i :: 0 <= i < |s| && IsDigit(s[i]) && s[i] != '0'
  {
    var off, u := DigitRunOf(s);
    RunValueZero(u);
    NonZeroDigitIn(s, off, u);
  }

  predicate IsLower(c: char) {
    'a' <= c <= 'z'
  }

  function UpperChar(c: char): char {
    if IsLower(c) then ((c as int) - 32) as char else c
  }

  /** Python's `str.upper()` on ASCII text. */
  function Upper(s: string): (r: string)
    ensures |r| == |s|
    ensures forall i :: 0 <= i < |r| ==> !IsLower(r[i])
    ensures forall i :: 0 <= i < |s| && !IsLower(s[i]) ==> r[i] == s[i]
    ensures forall i :: 0 <= i < |s| && IsLower(s[i]) ==> r[i] as int == s[i] as int - 32
  {
    seq(|s|, i requires 0 <= i < |s| => UpperChar(s[i]))
  }

  /** pytest's outcomes reach the API as "PASSED", "FAILED" and "SKIPPED". */
  lemma UpperOfOutcomes()
    ensures Upper("passed") == "PASSED"
    ensures Upper("failed") == "FAILED"
    ensures Upper("skipped") == "SKIPPED"
  {
  }
}
