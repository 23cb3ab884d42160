/** The string names `rewrite_extensions` keys extensions by: `EXT_NAMES`, `x%04x` and `#k`. */
module ExtensionNames {
  import opened Bytes

  const HEX: string := "0123456789abcdef"

  function Hex4(t: u16): (s: string)
    ensures |s| == 4
  {
    [HEX[t / 16 / 16 / 16], HEX[t / 16 / 16 % 16], HEX[t / 16 % 16], HEX[t % 16]]
  }

  function HexDigit(c: char): (d: nat)
    ensures d < 16
  {
    if '0' <= c <= '9' then c as int - '0' as int
    else if 'a' <= c <= 'f' then c as int - 'a' as int + 10
    else 0
  }

  function FromHex4(s: string): u16
    requires |s| == 4
  {
    ((HexDigit(s[0]) * 16 + HexDigit(s[1])) * 16 + HexDigit(s[2])) * 16 + HexDigit(s[3])
  }

  lemma HexDigitReads(d: nat)
    requires d < 16
    ensures HexDigit(HEX[d]) == d && HEX[d] != '#'
  {
  }

  lemma Hex4NoHash(t: u16)
    ensures '#' !in "x" + Hex4(t)
  {
    var d3, d2, d1, d0 := t / 16 / 16 / 16, t / 16 / 16 % 16, t / 16 % 16, t % 16;
    HexDigitReads(d3);
    HexDigitReads(d2);
    HexDigitReads(d1);
    HexDigitReads(d0);
  }

  lemma Hex4Reads(t: u16)
    ensures FromHex4(Hex4(t)) == t
  {
    HexDigitReads(t / 16 / 16 / 16);
    HexDigitReads(t / 16 / 16 % 16);
    HexDigitReads(t / 16 % 16);
    HexDigitReads(t % 16);
  }

  /** `EXT_NAMES.get(t, f"x{t:04x}")`. */
  function BaseName(t: u16): string {
    if t == 0x0000 then "sni"
    else if t == 0x000A then "supported_groups"
    else if t == 0x000B then "ec_point_formats"
    else if t == 0x000D then "signature_algorithms"
    else if t == 0x0010 then "alpn"
    else if t == 0x0015 then "padding"
    else if t == 0x0017 then "extended_master_secret"
    else if t == 0x002B then "supported_versions"
    else "x" + Hex4(t)
  }

  /** `rev[base] if base in rev else int(base[1:], 16)`. */
  function KindOf(base: string): u16 {
    if base == "sni" then 0x0000
    else if base == "supported_groups" then 0x000A
    else if base == "ec_point_formats" then 0x000B
    else if base == "signature_algorithms" then 0x000D
    else if base == "alpn" then 0x0010
    else if base == "padding" then 0x0015
    else if base == "extended_master_secret" then 0x0017
    else if base == "supported_versions" then 0x002B
    else if |base| == 5 then FromHex4(base[1..]) else 0
  }

  lemma KindOfUnnamed(hex: string)
    requires |hex| == 4
    ensures KindOf("x" + hex) == FromHex4(hex)
    ensures "x" + hex != "grease" && "x" + hex != "padding"
  {
    var x := "x" + hex;
    assert x[0] == 'x' && |x| == 5 && x[1..] == hex;
  }

  predicate HasName(t: u16) {
    t == 0x0000 || t == 0x000A || t == 0x000B || t == 0x000D || t == 0x0010 || t == 0x0015 || t == 0x0017 || t == 0x002B
  }

  lemma NamedKinds()
    ensures forall t: u16 :: HasName(t) ==> KindOf(BaseName(t)) == t
  {
    assert KindOf("sni") == 0x0000;
    assert KindOf("supported_groups") == 0x000A;
    assert KindOf("ec_point_formats") == 0x000B;
    assert KindOf("signature_algorithms") == 0x000D;
    assert KindOf("alpn") == 0x0010;
    assert KindOf("padding") == 0x0015;
    assert KindOf("extended_master_secret") == 0x0017;
    assert KindOf("supported_versions") == 0x002B;
  }

  lemma KindOfBaseName(t: u16)
    ensures KindOf(BaseName(t)) == t
  {
    if HasName(t) {
      NamedKinds();
    } else {
      Hex4Reads(t);
      KindOfUnnamed(Hex4(t));
      assert BaseName(t) == "x" + Hex4(t);
    }
  }

  lemma BaseNameHasNoHash(t: u16)
    ensures '#' !in BaseName(t)
  {
    if HasName(t) {
      NamedHaveNoHash();
    } else {
      Hex4NoHash(t);
    }
  }

  lemma NamedHaveNoHash()
    ensures forall t: u16 :: HasName(t) ==> '#' !in BaseName(t)
  {
    assert '#' !in "sni" && '#' !in "supported_groups" && '#' !in "ec_point_formats";
    assert '#' !in "signature_algorithms" && '#' !in "alpn" && '#' !in "padding";
    assert '#' !in "extended_master_secret" && '#' !in "supported_versions";
  }

  lemma ReservedNames(t: u16)
    ensures BaseName(t) != "grease"
    ensures BaseName(t) == "padding" <==> t == 0x0015
  {
    if !HasName(t) {
      KindOfUnnamed(Hex4(t));
    } else {
      NamedKinds();
      assert BaseName(t)[0] != 'g';
    }
  }

  function Decimal(n: nat): (s: string)
    ensures s != [] && '#' !in s
  {
    if n < 10 then ['0' + n as char] else Decimal(n / 10) + ['0' + (n % 10) as char]
  }

  lemma {:induction false} DecimalInjective(a: nat, b: nat)
    requires Decimal(a) == Decimal(b)
    ensures a == b
    decreases a
  {
    var s, t := Decimal(a), Decimal(b);
    assert s[|s| - 1] == t[|t| - 1];
    if a >= 10 && b >= 10 {
      assert s[..|s| - 1] == Decimal(a / 10) && t[..|t| - 1] == Decimal(b / 10);
      DecimalInjective(a / 10, b / 10);
    }
  }

  /** `name.split("#", 1)[0]`. */
  function Before(name: string): string {
    if name == [] || name[0] == '#' then [] else [name[0]] + Before(name[1..])
  }

  lemma {:induction false} BeforePlain(base: string)
    requires '#' !in base
    ensures Before(base) == base
  {
    if base != [] {
      BeforePlain(base[1..]);
      assert [base[0]] + base[1..] == base;
    }
  }

  lemma {:induction false} BeforeTwin(base: string, k: string)
    requires '#' !in base
    ensures Before(base + "#" + k) == base
  {
    if base != [] {
      assert (base + "#" + k)[1..] == base[1..] + "#" + k;
      BeforeTwin(base[1..], k);
    } else {
      assert base + "#" + k == "#" + k;
    }
  }

  function TwinName(base: string, k: nat): string {
    base + "#" + Decimal(k)
  }

  /** A repeated extension's name says both its type and its position, so it is never taken. */
  lemma TwinNamesDiffer(a: string, i: nat, b: string, j: nat)
    requires '#' !in a && '#' !in b
    requires i != j
    ensures TwinName(a, i) != TwinName(b, j)
    ensures TwinName(a, i) != b
  {
    assert TwinName(a, i)[|a|] == '#' && '#' in TwinName(a, i);
    if TwinName(a, i) == TwinName(b, j) {
      BeforeTwin(a, Decimal(i));
      BeforeTwin(b, Decimal(j));
      assert TwinName(a, i)[|a| + 1..] == Decimal(i);
      assert TwinName(b, j)[|b| + 1..] == Decimal(j);
      DecimalInjective(i, j);
    }
  }

  /** `EXT_NAMES` as the rewriting code uses it: type to name, and name back to type. */
  datatype Table = Table(base: u16 -> string, kind: string -> u16)

  function ExtNames(): Table {
    Table((t: u16) => BaseName(t), name => KindOf(name))
  }

  ghost predicate Sound(t: Table) {
    forall k: u16 ::
      && '#' !in t.base(k)
      && t.kind(t.base(k)) == k
      && t.base(k) != "grease"
      && (t.base(k) == "padding" <==> k == 0x0015)
  }

  lemma ExtNamesSound()
    ensures Sound(ExtNames())
  {
    forall k: u16
      ensures '#' !in ExtNames().base(k) && ExtNames().kind(ExtNames().base(k)) == k
      ensures ExtNames().base(k) != "grease" && (ExtNames().base(k) == "padding" <==> k == 0x0015)
    {
      BaseNameHasNoHash(k);
      KindOfBaseName(k);
      ReservedNames(k);
    }
  }
}
