/** `fmt_money`: a signed amount of cents rendered as `$1,234.56`, with a
    `-` in front of the `$` for negative amounts. */
module Money {
  import opened Text

  function Abs(x: int): nat
  {
    if x < 0 then -x else x
  }

  function RemoveCommas(s: string): (r: string)
    ensures ',' !in r
    decreases |s|
  {
    if |s| == 0 then ""
    else (if s[0] == ',' then "" else [s[0]]) + RemoveCommas(s[1..])
  }

  lemma {:induction false} RemoveCommasAppend(a: string, b: string)
    ensures RemoveCommas(a + b) == RemoveCommas(a) + RemoveCommas(b)
    decreases |a|
  {
    if |a| > 0 {
      assert (a + b)[1..] == a[1..] + b;
      RemoveCommasAppend(a[1..], b);
    } else {
      assert a + b == b;
    }
  }

  lemma {:induction false} RemoveCommasNone(s: string)
    requires ',' !in s
    ensures RemoveCommas(s) == s
    decreases |s|
  {
    if |s| > 0 {
      RemoveCommasNone(s[1..]);
      assert s == [s[0]] + s[1..];
    }
  }

  /** Digits grouped in threes from the right, separated by commas. */
  function GroupThousands(s: string): (r: string)
    requires ',' !in s
    ensures (',' in r) <==> |s| > 3
    decreases |s|
  {
    if |s| <= 3 then s
    else GroupThousands(s[..|s| - 3]) + "," + s[|s| - 3..]
  }

  lemma RemoveCommasSeparator(g: string, b: string)
    requires ',' !in b
    ensures RemoveCommas(g + "," + b) == RemoveCommas(g) + b
  {
    RemoveCommasAppend(g + ",", b);
    RemoveCommasAppend(g, ",");
    RemoveCommasNone(b);
    assert RemoveCommas(",") == "";
    assert RemoveCommas(g + ",") == RemoveCommas(g);
  }

  /** Grouping only inserts separators: removing them gives the digits back. */
  lemma {:induction false} RemoveCommasGroupThousands(s: string)
    requires ',' !in s
    ensures RemoveCommas(GroupThousands(s)) == s
    decreases |s|
  {
    if |s| <= 3 {
      RemoveCommasNone(s);
    } else {
      var a := s[..|s| - 3];
      var b := s[|s| - 3..];
      var g := GroupThousands(a);
      assert GroupThousands(s) == g + "," + b;
      RemoveCommasGroupThousands(a);
      RemoveCommasSeparator(g, b);
      assert s == a + b;
    }
  }

  /** The text the source's left-to-right loop has built after reading the
      first `n` characters of `s`: a comma goes before character `i` when
      `i > 0` and the number of characters from `i` to the end is a
      multiple of three. */
  function LoopGroup(s: string, n: nat): string
    requires n <= |s|
    decreases n
  {
    if n == 0 then ""
    else
      LoopGroup(s, n - 1)
      + (if n - 1 > 0 && (|s| - (n - 1)) % 3 == 0 then "," else "")
      + [s[n - 1]]
  }

  /** Shortening the string by three characters does not move the comma
      positions within the common prefix. */
  lemma {:induction false} LoopGroupDrop3(s: string, n: nat)
    requires |s| >= 3 && n <= |s| - 3
    ensures LoopGroup(s, n) == LoopGroup(s[..|s| - 3], n)
    decreases n
  {
    if n > 0 {
      LoopGroupDrop3(s, n - 1);
      assert (|s| - (n - 1)) % 3 == (|s| - 3 - (n - 1)) % 3;
    }
  }

  lemma {:induction false} LoopGroupShort(s: string, n: nat)
    requires n <= |s| <= 3
    ensures LoopGroup(s, n) == s[..n]
    decreases n
  {
    if n > 0 {
      LoopGroupShort(s, n - 1);
      assert s[..n] == s[..n - 1] + [s[n - 1]];
    }
  }

  /** The last three characters of a string longer than three follow one
      comma. */
  lemma {:induction false} LoopGroupLast3(s: string)
    requires |s| > 3
    ensures LoopGroup(s, |s|) == LoopGroup(s, |s| - 3) + "," + s[|s| - 3..]
  {
    var k := |s| - 3;
    var base := LoopGroup(s, k);
    var l1 := LoopGroup(s, k + 1);
    assert l1 == base + "," + [s[k]];
    var l2 := LoopGroup(s, k + 2);
    assert l2 == l1 + "" + [s[k + 1]];
    var l3 := LoopGroup(s, |s|);
    assert l3 == l2 + "" + [s[k + 2]];
    assert s[k..] == [s[k], s[k + 1], s[k + 2]];
    assert l3 == base + "," + [s[k], s[k + 1], s[k + 2]];
  }

  /** The source's loop and the right-to-left grouping agree. */
  lemma {:induction false} LoopGroupIsGroupThousands(s: string)
    requires ',' !in s
    ensures LoopGroup(s, |s|) == GroupThousands(s)
    decreases |s|
  {
    if |s| <= 3 {
      LoopGroupShort(s, |s|);
      assert s[..|s|] == s;
    } else {
      var t := s[..|s| - 3];
      assert ',' !in t by {
        forall i | 0 <= i < |t| ensures t[i] != ',' {
          assert t[i] == s[i];
        }
      }
      LoopGroupDrop3(s, |t|);
      LoopGroupIsGroupThousands(t);
      LoopGroupLast3(s);
    }
  }

  /** The thousands-separator loop of `fmt_money`, as the source writes it. */
  method GroupDigits(s: string) returns (r: string)
    requires ',' !in s
    ensures RemoveCommas(r) == s
    ensures r == GroupThousands(s)
  {
    r := "";
    var i := 0;
    while i < |s|
      invariant 0 <= i <= |s|
      invariant r == LoopGroup(s, i)
    {
      if i > 0 && (|s| - i) % 3 == 0 {
        r := r + ",";
      }
      r := r + [s[i]];
      i := i + 1;
    }
    LoopGroupIsGroupThousands(s);
    RemoveCommasGroupThousands(s);
  }

  /** `{:02}` of a number of cents below 100. */
  function TwoDigits(c: nat): (r: string)
    requires c < 100
    ensures |r| == 2 && AllDigits(r)
  {
    [DigitChar(c / 10), DigitChar(c % 10)]
  }

  lemma TwoDigitsValue(c: nat)
    requires c < 100
    ensures ParseNat(TwoDigits(c)) == c
  {
    var r := TwoDigits(c);
    assert r[..1] == [DigitChar(c / 10)];
    assert r[..1][..0] == [];
    assert ParseNat(r[..1]) == c / 10;
  }

  function DollarText(dollars: nat): (r: string)
  {
    var s := NatToString(dollars);
    if dollars >= 1000 then GroupThousands(s) else s
  }

  /** The amount `x` (in cents) as `fmt_money` prints it. */
  function FmtMoney(x: int): (r: string)
    ensures |r| >= 5
    ensures r[0] == '-' <==> x < 0
    ensures r[|r| - 3] == '.' && IsDigit(r[|r| - 2]) && IsDigit(r[|r| - 1])
  {
    var a := Abs(x);
    var body := "$" + DollarText(a / 100) + "." + TwoDigits(a % 100);
    assert body[|body| - 3] == '.';
    if x < 0 then "-" + body else body
  }

  /** Thousands separators appear exactly when the dollar part is at
      least 1000. */
  lemma FmtMoneyCommas(x: int)
    ensures (',' in FmtMoney(x)) <==> Abs(x) / 100 >= 1000
  {
    var a := Abs(x);
    NatToStringLength(a / 100);
    var s := NatToString(a / 100);
    assert forall i :: 0 <= i < |s| ==> s[i] != ',';
    var ds := DollarText(a / 100);
    assert (',' in ds) <==> a / 100 >= 1000;
    var cs := TwoDigits(a % 100);
    assert ',' !in cs;
    var body := "$" + ds + "." + cs;
    assert (',' in body) <==> (',' in ds);
    if x < 0 {
      assert FmtMoney(x) == "-" + body;
    } else {
      assert FmtMoney(x) == body;
    }
  }

  /** Reads back an unsigned rendering `$<dollars with commas>.<cents>`. */
  function ParseUnsigned(t: string): Option<nat>
  {
    if |t| < 5 || t[0] != '$' || t[|t| - 3] != '.' then None
    else
      var dollars := RemoveCommas(t[1..|t| - 3]);
      var cents := t[|t| - 2..];
      if |dollars| == 0 || !AllDigits(dollars) || !AllDigits(cents) then None
      else Some(ParseNat(dollars) * 100 + ParseNat(cents))
  }

  /** Reads back what `FmtMoney` prints. */
  function ParseMoney(s: string): Option<int>
  {
    if |s| > 0 && s[0] == '-' then
      match ParseUnsigned(s[1..])
      case Some(v) => Some(-(v as int))
      case None => None
    else
      match ParseUnsigned(s)
      case Some(v) => Some(v)
      case None => None
  }

  lemma DollarTextValue(d: nat)
    ensures |RemoveCommas(DollarText(d))| >= 1
    ensures AllDigits(RemoveCommas(DollarText(d)))
    ensures ParseNat(RemoveCommas(DollarText(d))) == d
  {
    var s := NatToString(d);
    assert forall i :: 0 <= i < |s| ==> s[i] != ',';
    assert ',' !in s;
    if d >= 1000 {
      RemoveCommasGroupThousands(s);
    } else {
      RemoveCommasNone(s);
    }
    ParseNatToString(d);
  }

  lemma ParseUnsignedBody(d: nat, c: nat)
    requires c < 100
    ensures ParseUnsigned("$" + DollarText(d) + "." + TwoDigits(c)) == Some(d * 100 + c)
  {
    var ds := DollarText(d);
    var cs := TwoDigits(c);
    var t := "$" + ds + "." + cs;
    DollarTextValue(d);
    TwoDigitsValue(c);
    assert |ds| >= 1;
    assert t[0] == '$';
    assert t[1..|t| - 3] == ds;
    assert t[|t| - 2..] == cs;
    assert t[|t| - 3] == '.';
    var dollars := RemoveCommas(t[1..|t| - 3]);
    assert ParseNat(dollars) == d;
    assert ParseNat(t[|t| - 2..]) == c;
  }

  lemma ParseMoneyUnsigned(body: string, v: nat)
    requires |body| > 0 && body[0] == '$' && ParseUnsigned(body) == Some(v)
    ensures ParseMoney(body) == Some(v)
    ensures ParseMoney("-" + body) == Some(-(v as int))
  {
    assert ("-" + body)[1..] == body;
  }

  /** Every amount can be read back from its rendering. */
  lemma ParseFmtMoney(x: int)
    ensures ParseMoney(FmtMoney(x)) == Some(x)
  {
    var a := Abs(x);
    var body := "$" + DollarText(a / 100) + "." + TwoDigits(a % 100);
    ParseUnsignedBody(a / 100, a % 100);
    assert a / 100 * 100 + a % 100 == a;
    ParseMoneyUnsigned(body, a);
    if x < 0 {
      assert FmtMoney(x) == "-" + body;
      assert -(a as int) == x;
    } else {
      assert FmtMoney(x) == body;
    }
  }

  /** The fixed values the source's unit test checks. */
  lemma FmtMoneyTenFifty()
    ensures FmtMoney(1050) == "$10.50"
  {
    assert NatToString(10) == "10";
    assert TwoDigits(50) == "50";
  }

  lemma FmtMoneyThousand()
    ensures FmtMoney(100000) == "$1,000.00"
  {
    DollarTextThousand();
    assert TwoDigits(0) == "00";
    assert Abs(100000) / 100 == 1000 && Abs(100000) % 100 == 0;
  }

  lemma DollarTextThousand()
    ensures DollarText(1000) == "1,000"
  {
    var s := NatToString(1000);
    assert NatToString(1) == "1";
    assert NatToString(10) == NatToString(1) + "0";
    assert NatToString(100) == NatToString(10) + "0";
    assert s == NatToString(100) + "0";
    assert s == "1000";
    assert s[..1] == "1" && s[1..] == "000";
    assert GroupThousands(s) == "1" + "," + "000";
  }

  lemma FmtMoneyFiveCents()
    ensures FmtMoney(5) == "$0.05"
  {
    assert NatToString(0) == "0";
    assert TwoDigits(5) == "05";
  }

  lemma FmtMoneyTwentyCents()
    ensures FmtMoney(20) == "$0.20"
  {
    assert NatToString(0) == "0";
    assert TwoDigits(20) == "20";
  }

  lemma FmtMoneyThirtyCents()
    ensures FmtMoney(30) == "$0.30"
  {
    assert NatToString(0) == "0";
    assert TwoDigits(30) == "30";
  }

  lemma FmtMoneyZero()
    ensures FmtMoney(0) == "$0.00"
  {
    assert NatToString(0) == "0";
    assert TwoDigits(0) == "00";
  }

  lemma FmtMoneyMinusFive()
    ensures FmtMoney(-500) == "-$5.00"
  {
    assert NatToString(5) == "5";
    assert TwoDigits(0) == "00";
  }
}
