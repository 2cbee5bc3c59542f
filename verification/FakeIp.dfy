/** The per-user client addresses of the realistic load test. */
module FakeIp {
  import opened Wrappers
  import opened Decimal

  /** The address of user `idx`, with `Math.floor` of the exact quotients. */
  function FakeIP(idx: nat): string {
    Address(10 + idx / (256 * 256), (idx / 256) % 256, idx % 256)
  }

  function Address(a: nat, b: nat, c: nat): string {
    "10." + Dec(a) + "." + Dec(b) + "." + Dec(c)
  }

  /** Written in base 256, the user's index is the last three fields, the first of them 10 higher. */
  lemma AddressByField(a: nat, b: nat, c: nat)
    requires b < 256 && c < 256
    ensures FakeIP(a * 65536 + b * 256 + c) == "10." + Dec(a + 10) + "." + Dec(b) + "." + Dec(c)
  {
    var idx := a * 65536 + b * 256 + c;
    assert idx / 256 == a * 256 + b && idx % 256 == c;
    assert idx / 65536 == a && (idx / 256) % 256 == b;
  }

  function Split(s: string): (r: seq<string>)
    ensures |r| > 0
  {
    if s == "" then [""]
    else if s[0] == '.' then [""] + Split(s[1..])
    else var r := Split(s[1..]); [[s[0]] + r[0]] + r[1..]
  }

  lemma {:induction false} SplitField(f: string, rest: string)
    requires '.' !in f
    ensures Split(f + "." + rest) == [f] + Split(rest)
    decreases |f|
  {
    var s := f + "." + rest;
    if f == "" {
      assert s[1..] == rest;
    } else {
      assert s[1..] == f[1..] + "." + rest;
      SplitField(f[1..], rest);
      assert [f[0]] + f[1..] == f;
    }
  }

  lemma {:induction false} SplitLast(f: string)
    requires '.' !in f
    ensures Split(f) == [f]
    decreases |f|
  {
    if f != "" {
      SplitLast(f[1..]);
      assert [f[0]] + f[1..] == f;
    }
  }

  lemma NoDots(s: string)
    requires AllDigits(s)
    ensures '.' !in s
  {
  }

  lemma JoinedFields(f: string, a: string, b: string, c: string)
    requires '.' !in f && '.' !in a && '.' !in b && '.' !in c
    ensures Split(f + "." + (a + "." + (b + "." + c))) == [f, a, b, c]
  {
    SplitLast(c);
    SplitField(b, c);
    SplitField(a, b + "." + c);
    SplitField(f, a + "." + (b + "." + c));
  }

  lemma Regroup(a: string, b: string, c: string)
    ensures "10." + a + "." + b + "." + c == "10" + "." + (a + "." + (b + "." + c))
  {
  }

  lemma AddressFields(a: nat, b: nat, c: nat)
    ensures Split(Address(a, b, c)) == ["10", Dec(a), Dec(b), Dec(c)]
  {
    NoDots(Dec(a));
    NoDots(Dec(b));
    NoDots(Dec(c));
    Regroup(Dec(a), Dec(b), Dec(c));
    JoinedFields("10", Dec(a), Dec(b), Dec(c));
  }

  /** The user index behind a printed address. */
  function Decode(s: string): Option<int> {
    var f := Split(s);
    if |f| == 4 && AllDigits(f[1]) && AllDigits(f[2]) && AllDigits(f[3])
      then Some((Value(f[1]) - 10) * 65536 + Value(f[2]) * 256 + Value(f[3]))
      else None
  }

  lemma Places(idx: nat)
    ensures idx == (idx / (256 * 256)) * 65536 + ((idx / 256) % 256) * 256 + idx % 256
  {
    assert idx == 256 * (idx / 256) + idx % 256;
    assert idx / 256 == 256 * (idx / 256 / 256) + (idx / 256) % 256;
    assert idx / (256 * 256) == idx / 256 / 256;
  }

  lemma DecodeFields(s: string, a: nat, b: nat, c: nat)
    requires s == Address(a, b, c)
    ensures Decode(s) == Some((a - 10) * 65536 + b * 256 + c)
  {
    AddressFields(a, b, c);
  }

  lemma DecodeFakeIP(idx: nat)
    ensures Decode(FakeIP(idx)) == Some(idx)
  {
    DecodeFields(FakeIP(idx), 10 + idx / (256 * 256), (idx / 256) % 256, idx % 256);
    Places(idx);
  }

  /** Different users never share an address, however many users there are. */
  lemma FakeIPInjective(i: nat, j: nat)
    ensures FakeIP(i) == FakeIP(j) <==> i == j
  {
    DecodeFakeIP(i);
    DecodeFakeIP(j);
  }

  /** dec-octet of section 3.2.2 of RFC 3986, spelled out on characters. */
  predicate IsDecOctet(s: string) {
    AllDigits(s) &&
    match |s|
    case 1 => true
    case 2 => s[0] != '0'
    case 3 => s[0] == '1' || (s[0] == '2' && (s[1] <= '4' || (s[1] == '5' && s[2] <= '5')))
    case _ => false
  }

  predicate IsIPv4Address(s: string) {
    var f := Split(s);
    |f| == 4 && IsDecOctet(f[0]) && IsDecOctet(f[1]) && IsDecOctet(f[2]) && IsDecOctet(f[3])
  }

  lemma {:induction false} DecDigits(n: nat)
    ensures n < 10 <==> |Dec(n)| == 1
    ensures n < 100 <==> |Dec(n)| <= 2
    ensures n < 1000 <==> |Dec(n)| <= 3
  {
    if n >= 10 {
      assert |Dec(n)| == |Dec(n / 10)| + 1;
      if n >= 100 {
        assert |Dec(n / 10)| == |Dec(n / 10 / 10)| + 1;
        if n >= 1000 {
          assert |Dec(n / 10 / 10)| == |Dec(n / 10 / 10 / 10)| + 1;
        }
      }
    }
  }

  lemma ThreeDigits(s: string)
    requires |s| == 3 && AllDigits(s)
    ensures Value(s) == 100 * (s[0] as int - '0' as int) + 10 * (s[1] as int - '0' as int) + (s[2] as int - '0' as int)
  {
    assert Value(s) == 10 * Value(s[..2]) + (s[2] as int - '0' as int);
    assert s[..2][..1] == s[..1] && s[..1][..0] == "";
    assert Value(s[..2]) == 10 * Value(s[..1]) + (s[1] as int - '0' as int);
    assert Value(s[..1]) == 10 * Value(s[..1][..0]) + (s[0] as int - '0' as int);
  }

  lemma DecOctetIff(n: nat)
    ensures IsDecOctet(Dec(n)) <==> n <= 255
  {
    DecDigits(n);
    if |Dec(n)| == 3 {
      ThreeDigits(Dec(n));
    }
  }

  lemma ValidFields(s: string, a: nat, b: nat, c: nat)
    requires s == Address(a, b, c)
    ensures IsIPv4Address(s) <==> a <= 255 && b <= 255 && c <= 255
  {
    AddressFields(a, b, c);
    DecOctetIff(a);
    DecOctetIff(b);
    DecOctetIff(c);
    assert IsDecOctet("10");
  }

  /** The printed address is a valid IPv4 address exactly for the first 246 * 65536 users. */
  lemma {:induction false} FakeIPValidIff(idx: nat)
    ensures IsIPv4Address(FakeIP(idx)) <==> idx < 246 * 65536
  {
    ValidFields(FakeIP(idx), 10 + idx / (256 * 256), (idx / 256) % 256, idx % 256);
    HighOctet(idx);
  }

  lemma HighOctet(idx: nat)
    ensures idx / (256 * 256) < 246 <==> idx < 246 * 65536
  {
  }
}
