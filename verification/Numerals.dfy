/** Numbers as text, and sets of numbers in order. */
module Numerals {
  function Decimal(n: nat): (s: string)
    ensures s != "" && forall i :: 0 <= i < |s| ==> '0' <= s[i] <= '9'
  {
    var digit := '0' + (n % 10) as char;
    if n < 10 then [digit] else Decimal(n / 10) + [digit]
  }

  function Number(n: int): string {
    if n < 0 then "-" + Decimal(-n) else Decimal(n)
  }

  predicate HexChar(c: char) {
    '0' <= c <= '9' || 'a' <= c <= 'f'
  }

  /** The lowest hexadecimal digit. */
  function Nibble(v: bv32): (c: char)
    ensures HexChar(c)
  {
    match v & 0xf
    case 0 => '0'
    case 1 => '1'
    case 2 => '2'
    case 3 => '3'
    case 4 => '4'
    case 5 => '5'
    case 6 => '6'
    case 7 => '7'
    case 8 => '8'
    case 9 => '9'
    case 10 => 'a'
    case 11 => 'b'
    case 12 => 'c'
    case 13 => 'd'
    case 14 => 'e'
    case _ => 'f'
  }

  function NibbleValue(c: char): bv32 {
    match c
    case '0' => 0
    case '1' => 1
    case '2' => 2
    case '3' => 3
    case '4' => 4
    case '5' => 5
    case '6' => 6
    case '7' => 7
    case '8' => 8
    case '9' => 9
    case 'a' => 10
    case 'b' => 11
    case 'c' => 12
    case 'd' => 13
    case 'e' => 14
    case _ => 15
  }

  function Nibbles(v: bv32, n: nat): (s: string)
    ensures |s| == n && forall i :: 0 <= i < n ==> HexChar(s[i])
  {
    if n == 0 then "" else Nibbles(v >> 4, n - 1) + [Nibble(v)]
  }

  /** Eight hexadecimal digits. */
  function Hex8(v: bv32): (s: string)
    ensures |s| == 10 && s[0] == '0' && s[1] == 'x'
    ensures forall i :: 2 <= i < |s| ==> HexChar(s[i])
  {
    "0x" + Nibbles(v, 8)
  }

  /** An IPv4 address in dotted form. */
  function Dotted(n: nat): (s: string)
    ensures s != "" && '0' <= s[0] <= '9'
    ensures forall i :: 0 <= i < |s| ==> '0' <= s[i] <= '9' || s[i] == '.'
  {
    Decimal(n / 0x1000000) + "." + Decimal(n / 0x10000 % 0x100) + "." + Decimal(n / 0x100 % 0x100) + "." + Decimal(n % 0x100)
  }

  lemma Inhabited(s: set<int>)
    ensures s == {} || exists x :: x in s
  {
    if forall x :: x !in s {
      assert s == {};
    }
  }

  lemma {:induction false} FindLeast(s: set<int>) returns (m: int)
    requires s != {}
    ensures m in s && forall x :: x in s ==> m <= x
  {
    Inhabited(s);
    var x :| x in s;
    var rest := s - {x};
    m := x;
    if rest != {} {
      var k := FindLeast(rest);
      if k < x {
        m := k;
      }
    }
    assert forall y :: y in s ==> y == x || y in rest;
  }

  lemma SomeLeast(s: set<int>)
    requires s != {}
    ensures exists m :: m in s && forall x :: x in s ==> m <= x
  {
    var m := FindLeast(s);
  }

  function Least(s: set<int>): (m: int)
    requires s != {}
    ensures m in s && forall x :: x in s ==> m <= x
  {
    SomeLeast(s);
    var m :| m in s && forall x :: x in s ==> m <= x;
    m
  }

  /** A set of numbers in ascending order. */
  function Ascending(s: set<int>): seq<int> {
    if s == {} then [] else [Least(s)] + Ascending(s - {Least(s)})
  }

  lemma {:induction false} AscendingMembers(s: set<int>)
    ensures forall x :: x in Ascending(s) <==> x in s
  {
    if s != {} {
      var m := Least(s);
      AscendingMembers(s - {m});
      assert Ascending(s) == [m] + Ascending(s - {m});
    }
  }

  lemma {:induction false} AscendingIsSorted(s: set<int>)
    ensures forall i, j :: 0 <= i < j < |Ascending(s)| ==> Ascending(s)[i] < Ascending(s)[j]
  {
    if s != {} {
      var m := Least(s);
      var rest := Ascending(s - {m});
      AscendingIsSorted(s - {m});
      AscendingMembers(s - {m});
      forall j | 0 <= j < |rest| ensures m < rest[j] {
        assert rest[j] in s - {m};
      }
      assert Ascending(s) == [m] + rest;
    }
  }

  function Numbers(ns: seq<int>): (r: seq<string>)
    ensures |r| == |ns|
    ensures forall i :: 0 <= i < |ns| ==> r[i] == Number(ns[i])
  {
    seq(|ns|, i requires 0 <= i < |ns| => Number(ns[i]))
  }

  // ---- Reading numbers back ----

  function ReadDigits(s: string): nat
    requires forall i :: 0 <= i < |s| ==> '0' <= s[i] <= '9'
  {
    if s == "" then 0 else 10 * ReadDigits(s[..|s| - 1]) + (s[|s| - 1] - '0') as nat
  }

  function ReadNumber(s: string): int {
    if s != "" && s[0] == '-' && AllDigits(s[1..]) then 0 - ReadDigits(s[1..])
    else if AllDigits(s) then ReadDigits(s)
    else 0
  }

  predicate AllDigits(s: string) {
    forall i :: 0 <= i < |s| ==> '0' <= s[i] <= '9'
  }

  lemma {:induction false} DecimalReads(n: nat)
    ensures ReadDigits(Decimal(n)) == n
  {
    var s := Decimal(n);
    if n >= 10 {
      DecimalReads(n / 10);
      assert s[..|s| - 1] == Decimal(n / 10);
    } else {
      assert s[..|s| - 1] == "";
    }
  }

  /** A number is read as it was written. */
  lemma NumberReads(n: int)
    ensures ReadNumber(Number(n)) == n
  {
    if n < 0 {
      DecimalReads(-n);
      assert Number(n)[1..] == Decimal(-n);
    } else {
      DecimalReads(n);
      assert Number(n)[0] != '-';
    }
  }

  function ReadNibbles(s: string): bv32 {
    if s == "" then 0 else (ReadNibbles(s[..|s| - 1]) << 4) | NibbleValue(s[|s| - 1])
  }

  function ReadHex(s: string): bv32 {
    if |s| >= 2 then ReadNibbles(s[2..]) else 0
  }

  function LowNibbles(n: nat): bv32 {
    if n == 0 then 0 else (LowNibbles(n - 1) << 4) | 0xf
  }

  lemma NibbleReads(v: bv32)
    ensures NibbleValue(Nibble(v)) == v & 0xf
  {
  }

  lemma JoinNibbles(v: bv32, low: bv32)
    ensures (((v >> 4) & low) << 4) | (v & 0xf) == v & ((low << 4) | 0xf)
  {
  }

  lemma {:induction false} NibblesRead(v: bv32, n: nat)
    ensures ReadNibbles(Nibbles(v, n)) == v & LowNibbles(n)
    decreases n
  {
    if n > 0 {
      var s := Nibbles(v, n);
      assert s[..|s| - 1] == Nibbles(v >> 4, n - 1);
      NibblesRead(v >> 4, n - 1);
      NibbleReads(v);
      JoinNibbles(v, LowNibbles(n - 1));
    }
  }

  lemma AllNibbles()
    ensures LowNibbles(8) == 0xffff_ffff
  {
    assert LowNibbles(2) == 0xff;
    assert LowNibbles(4) == 0xffff;
    assert LowNibbles(6) == 0xff_ffff;
  }

  /** A hexadecimal word is read as it was written. */
  lemma HexReads(v: bv32)
    ensures ReadHex(Hex8(v)) == v
  {
    assert Hex8(v)[2..] == Nibbles(v, 8);
    NibblesRead(v, 8);
    AllNibbles();
  }
}
