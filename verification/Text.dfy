/** The few string operations of the source that the model needs. */
module Text {
  /** What `str.strip` removes. */
  predicate IsSpace(c: char) {
    var n := c as int;
    || 9 <= n <= 13 || 28 <= n <= 32 || n == 0x85 || n == 0xA0 || n == 0x1680 || 0x2000 <= n <= 0x200A
    || n == 0x2028 || n == 0x2029 || n == 0x202F || n == 0x205F || n == 0x3000
  }

  function StripLeft(s: string): string {
    if s != "" && IsSpace(s[0]) then StripLeft(s[1..]) else s
  }

  function StripRight(s: string): string {
    if s != "" && IsSpace(s[|s| - 1]) then StripRight(s[..|s| - 1]) else s
  }

  function Strip(s: string): string { StripRight(StripLeft(s)) }

  predicate Trimmed(s: string) { s == "" || (!IsSpace(s[0]) && !IsSpace(s[|s| - 1])) }

  ghost predicate Blank(s: string) { forall i :: 0 <= i < |s| ==> IsSpace(s[i]) }

  lemma {:induction false} LeftFound(s: string)
    ensures StripLeft(s) == "" || !IsSpace(StripLeft(s)[0])
    ensures exists b :: Blank(b) && s == b + StripLeft(s)
  {
    if s != "" && IsSpace(s[0]) {
      LeftFound(s[1..]);
      var b :| Blank(b) && s[1..] == b + StripLeft(s[1..]);
      assert Blank([s[0]] + b) && s == ([s[0]] + b) + StripLeft(s);
    } else {
      assert Blank("") && s == "" + StripLeft(s);
    }
  }

  lemma {:induction false} RightFound(s: string)
    ensures StripRight(s) == "" || !IsSpace(StripRight(s)[|StripRight(s)| - 1])
    ensures exists b :: Blank(b) && s == StripRight(s) + b
  {
    if s != "" && IsSpace(s[|s| - 1]) {
      var n := |s| - 1;
      RightFound(s[..n]);
      var b :| Blank(b) && s[..n] == StripRight(s[..n]) + b;
      assert Blank(b + [s[n]]) && s == StripRight(s) + (b + [s[n]]);
    } else {
      assert Blank("") && s == StripRight(s) + "";
    }
  }

  /** Stripping takes white space off both ends, all of it and nothing else. */
  lemma StripFound(s: string)
    ensures Trimmed(Strip(s))
    ensures exists a, b :: Blank(a) && Blank(b) && s == a + Strip(s) + b
    ensures Strip(s) == s <==> Trimmed(s)
  {
    LeftFound(s);
    RightFound(StripLeft(s));
    var a :| Blank(a) && s == a + StripLeft(s);
    var b :| Blank(b) && StripLeft(s) == Strip(s) + b;
    assert s == a + Strip(s) + b;
    if Strip(s) != "" { assert StripLeft(s)[0] == Strip(s)[0]; }
  }

  /** `str` of a natural number. */
  function Digits(n: nat): string {
    (if n < 10 then "" else Digits(n / 10)) + ["0123456789"[n % 10]]
  }

  /** Different numbers are written differently. */
  lemma {:induction false} DigitsTell(a: nat, b: nat)
    requires Digits(a) == Digits(b)
    ensures a == b
    decreases a + b
  {
    var x, y := Digits(a), Digits(b);
    assert x[|x| - 1] == "0123456789"[a % 10] && y[|y| - 1] == "0123456789"[b % 10];
    assert a % 10 == b % 10;
    var p := if a < 10 then "" else Digits(a / 10);
    var q := if b < 10 then "" else Digits(b / 10);
    assert x[..|x| - 1] == p && y[..|y| - 1] == q;
    assert (a < 10 <==> p == "") && (b < 10 <==> q == "");
    if a >= 10 && b >= 10 { DigitsTell(a / 10, b / 10); }
  }
}
