/**
 * The join token and the IPv4 check of `pkg/kubev/utils/utils.go`.
 *
 * A token is the master's IP address written in the standard base64 alphabet of
 * RFC 4648 (section 4, with `=` padding), as Go's `base64.StdEncoding` does. Go
 * strings are byte strings; a Dafny string stands for one when each character is
 * below 256 (`IsByteString`).
 */
module Token {

  import opened Wrappers
  import opened GoStrings

  predicate IsByteString(s: string) {
    forall i | 0 <= i < |s| :: s[i] as int < 256
  }

  /** `[]byte(s)` */
  function ToBytes(s: string): (b: seq<Byte>)
    requires IsByteString(s)
    ensures |b| == |s|
  {
    if |s| == 0 then [] else [s[0] as int] + ToBytes(s[1..])
  }

  /** `string(b)` */
  function FromBytes(b: seq<Byte>): (s: string)
    ensures |s| == |b| && IsByteString(s)
  {
    if |b| == 0 then "" else [b[0] as char] + FromBytes(b[1..])
  }

  lemma {:induction false} FromToBytes(s: string)
    requires IsByteString(s)
    ensures FromBytes(ToBytes(s)) == s
  {
    if |s| > 0 {
      FromToBytes(s[1..]);
      assert [s[0]] + s[1..] == s;
    }
  }

  // ---------------------------------------------------------------- alphabet

  /** A byte, as the values 0 to 255. */
  type Byte = x: int | 0 <= x < 256

  /** Six bits, the value one base64 character carries. */
  type Sextet = x: int | 0 <= x < 64

  /** A character of the standard alphabet `A-Z a-z 0-9 + /`. */
  predicate IsBase64Char(c: char) {
    ('A' <= c <= 'Z') || ('a' <= c <= 'z') || ('0' <= c <= '9') || c == '+' || c == '/'
  }

  function EncodeSextet(v: Sextet): (c: char)
    ensures IsBase64Char(c)
  {
    if v < 26 then ('A' as int + v) as char
    else if v < 52 then ('a' as int + v - 26) as char
    else if v < 62 then ('0' as int + v - 52) as char
    else if v == 62 then '+'
    else '/'
  }

  function DecodeSextet(c: char): (v: Sextet)
    requires IsBase64Char(c)
    ensures EncodeSextet(v) == c
  {
    if 'A' <= c <= 'Z' then c as int - 'A' as int
    else if 'a' <= c <= 'z' then c as int - 'a' as int + 26
    else if '0' <= c <= '9' then c as int - '0' as int + 52
    else if c == '+' then 62
    else 63
  }

  lemma SextetRoundTrip(v: Sextet)
    ensures DecodeSextet(EncodeSextet(v)) == v
  {
  }

  // ---------------------------------------------------------------- encoding

  /** The four sextets of three bytes, most significant bits first. */
  function Sextets(b0: Byte, b1: Byte, b2: Byte): (s: (Sextet, Sextet, Sextet, Sextet))
  {
    (b0 / 4, (b0 % 4) * 16 + b1 / 16, (b1 % 16) * 4 + b2 / 64, b2 % 64)
  }

  /** The three bytes carried by four sextets; the inverse of `Sextets`. */
  function Bytes(c0: Sextet, c1: Sextet, c2: Sextet, c3: Sextet): (Byte, Byte, Byte)
  {
    (c0 * 4 + c1 / 16, (c1 % 16) * 16 + c2 / 4, (c2 % 4) * 64 + c3)
  }

  lemma BytesOfSextets(b0: Byte, b1: Byte, b2: Byte)
    ensures var s := Sextets(b0, b1, b2); Bytes(s.0, s.1, s.2, s.3) == (b0, b1, b2)
  {
    var s := Sextets(b0, b1, b2);
    assert s.1 / 16 == b0 % 4 && s.1 % 16 == b1 / 16;
    assert s.2 / 4 == b1 % 16 && s.2 % 4 == b2 / 64;
  }

  /** Four characters for three bytes. */
  function EncodeGroup(b0: Byte, b1: Byte, b2: Byte): (q: string)
    ensures |q| == 4 && AllBase64(q)
  {
    var s := Sextets(b0, b1, b2);
    [EncodeSextet(s.0), EncodeSextet(s.1), EncodeSextet(s.2), EncodeSextet(s.3)]
  }

  /** `base64.StdEncoding.EncodeToString`: full groups, then a padded final group. */
  function Encode(b: seq<Byte>): string
    decreases |b|
  {
    if |b| == 0 then ""
    else if |b| == 1 then EncodeGroup(b[0], 0, 0)[..2] + "=="
    else if |b| == 2 then EncodeGroup(b[0], b[1], 0)[..3] + "="
    else EncodeGroup(b[0], b[1], b[2]) + Encode(b[3..])
  }

  // ---------------------------------------------------------------- decoding

  /** Go's decoder skips carriage returns and line feeds anywhere in its input. */
  function StripNewlines(s: string): (r: string)
    ensures '\r' !in r && '\n' !in r
  {
    if |s| == 0 then ""
    else if s[0] == '\r' || s[0] == '\n' then StripNewlines(s[1..])
    else [s[0]] + StripNewlines(s[1..])
  }

  predicate AllBase64(s: string) {
    forall i | 0 <= i < |s| :: IsBase64Char(s[i])
  }

  /** The three bytes of a quantum of four alphabet characters. */
  function DecodeGroup(q: string): (Byte, Byte, Byte)
    requires |q| == 4 && AllBase64(q)
  {
    Bytes(DecodeSextet(q[0]), DecodeSextet(q[1]), DecodeSextet(q[2]), DecodeSextet(q[3]))
  }

  /**
   * The last quantum: four alphabet characters, or three or two followed by `=`
   * padding; the bits the padding leaves over are ignored (the default,
   * non-strict, decoder).
   */
  function DecodeFinal(q: string): Option<seq<Byte>>
    requires |q| == 4
  {
    if AllBase64(q) then
      var g := DecodeGroup(q); Some([g.0, g.1, g.2])
    else if AllBase64(q[..3]) && q[3] == '=' then
      var g := DecodeGroup(q[..3] + "A"); Some([g.0, g.1])
    else if AllBase64(q[..2]) && q[2] == '=' && q[3] == '=' then
      var g := DecodeGroup(q[..2] + "AA"); Some([g.0])
    else None
  }

  /** Decoding of a string without line breaks, quantum by quantum. */
  function DecodeQuanta(s: string): Option<seq<Byte>>
    decreases |s|
  {
    if |s| == 0 then Some([])
    else if |s| < 4 then None
    else if |s| == 4 then DecodeFinal(s)
    else if !AllBase64(s[..4]) then None
    else match DecodeQuanta(s[4..])
      case None => None
      case Some(rest) =>
        var g := DecodeGroup(s[..4]);
        Some([g.0, g.1, g.2] + rest)
  }

  /** `base64.StdEncoding.DecodeString`; `None` stands for a `CorruptInputError`. */
  function DecodeString(s: string): Option<seq<Byte>>
  {
    DecodeQuanta(StripNewlines(s))
  }

  /**
   * Standard base64 text as an independent description: a whole number of
   * quanta, alphabet characters only, except for at most two `=` at the end.
   */
  predicate WellFormed(s: string) {
    |s| % 4 == 0 && (PaddedBy(s, 0) || PaddedBy(s, 1) || PaddedBy(s, 2))
  }

  predicate PaddedBy(s: string, p: nat) {
    p <= |s| && AllBase64(s[..|s| - p]) && forall i | |s| - p <= i < |s| :: s[i] == '='
  }

  // ---------------------------------------------------------------- the token

  /** `EncodeToken`: the token handed out for a master whose address is `ip`. */
  function EncodeToken(ip: string): (token: string)
    requires IsByteString(ip)
    ensures |token| == 4 * ((|ip| + 2) / 3) && WellFormed(token)
  {
    EncodeLength(ToBytes(ip));
    EncodeWellFormed(ToBytes(ip));
    Encode(ToBytes(ip))
  }

  const InvalidTokenError := "Invalide token"

  /** `DecodeToken`: the address in a token, or `""` with an error. */
  function DecodeToken(token: string): (r: (string, Option<string>))
    ensures r.1.Some? <==> !WellFormed(StripNewlines(token))
    ensures r.1.Some? ==> r.0 == "" && r.1 == Some(InvalidTokenError)
  {
    DecodeAcceptsWellFormed(StripNewlines(token));
    match DecodeString(token)
    case None => ("", Some(InvalidTokenError))
    case Some(b) => (FromBytes(b), None)
  }

  // ---------------------------------------------------------------- properties

  lemma {:induction false} EncodeLength(b: seq<Byte>)
    ensures |Encode(b)| == 4 * ((|b| + 2) / 3)
    decreases |b|
  {
    if |b| >= 3 {
      EncodeLength(b[3..]);
      assert (|b| + 2) / 3 == (|b[3..]| + 2) / 3 + 1;
    }
  }

  /** A well-formed text stays well-formed behind one more full quantum. */
  lemma PaddedPrepend(g: string, r: string, p: nat)
    requires |g| == 4 && AllBase64(g) && PaddedBy(r, p)
    ensures PaddedBy(g + r, p)
  {
    var e := g + r;
    var body, rbody := e[..|e| - p], r[..|r| - p];
    forall i | 0 <= i < |body| ensures IsBase64Char(body[i]) {
      if i >= 4 { assert body[i] == rbody[i - 4]; } else { assert body[i] == g[i]; }
    }
    forall i | |e| - p <= i < |e| ensures e[i] == '=' {
      assert e[i] == r[i - 4];
    }
  }

  /** Conversely, dropping a first quantum keeps a long enough text well-formed. */
  lemma PaddedDrop(s: string, p: nat)
    requires |s| > 4 && |s| % 4 == 0 && p <= 2 && PaddedBy(s, p)
    ensures AllBase64(s[..4]) && PaddedBy(s[4..], p)
  {
    var r := s[4..];
    forall i | 0 <= i < 4 ensures IsBase64Char(s[..4][i]) {
      assert s[..|s| - p][i] == s[i];
    }
    var rbody := r[..|r| - p];
    forall i | 0 <= i < |rbody| ensures IsBase64Char(rbody[i]) {
      assert s[..|s| - p][i + 4] == rbody[i];
    }
  }

  /** The encoding of the last one or two bytes, padded to a full quantum. */
  lemma FinalWellFormed(b: seq<Byte>)
    requires 0 < |b| < 3
    ensures WellFormed(Encode(b))
  {
    var e := Encode(b);
    if |b| == 1 {
      var q := EncodeGroup(b[0], 0, 0);
      assert e == q[..2] + "==";
      assert e[..2] == q[..2] && |e| == 4 && e[2] == e[3] == '=';
      assert PaddedBy(e, 2);
    } else {
      var q := EncodeGroup(b[0], b[1], 0);
      assert e == q[..3] + "=";
      assert e[..3] == q[..3] && |e| == 4 && e[3] == '=';
      assert PaddedBy(e, 1);
    }
  }

  /** The encoding is well-formed base64; in particular it uses only the alphabet and `=`. */
  lemma {:induction false} EncodeWellFormed(b: seq<Byte>)
    ensures WellFormed(Encode(b))
    decreases |b|
  {
    if |b| == 0 {
      assert PaddedBy(Encode(b), 0);
    } else if |b| < 3 {
      FinalWellFormed(b);
    } else {
      EncodeWellFormed(b[3..]);
      var g := EncodeGroup(b[0], b[1], b[2]);
      var r := Encode(b[3..]);
      PrependWellFormed(g, r);
      assert Encode(b) == g + r;
    }
  }

  lemma PrependWellFormed(g: string, r: string)
    requires |g| == 4 && AllBase64(g) && WellFormed(r)
    ensures WellFormed(g + r)
  {
    assert |g + r| == |r| + 4;
    if PaddedBy(r, 0) { PaddedPrepend(g, r, 0); }
    else if PaddedBy(r, 1) { PaddedPrepend(g, r, 1); }
    else { PaddedPrepend(g, r, 2); }
  }

  lemma WellFormedAlphabet(s: string)
    requires WellFormed(s)
    ensures forall i | 0 <= i < |s| :: IsBase64Char(s[i]) || s[i] == '='
  {
    var p := if PaddedBy(s, 0) then 0 else if PaddedBy(s, 1) then 1 else 2;
    forall i | 0 <= i < |s| ensures IsBase64Char(s[i]) || s[i] == '=' {
      if i < |s| - p { assert s[..|s| - p][i] == s[i]; }
    }
  }

  lemma {:induction false} NoNewlinesStripped(s: string)
    requires '\r' !in s && '\n' !in s
    ensures StripNewlines(s) == s
  {
    if |s| > 0 {
      NoNewlinesStripped(s[1..]);
      assert [s[0]] + s[1..] == s;
    }
  }

  lemma GroupRoundTrip(b0: Byte, b1: Byte, b2: Byte)
    ensures DecodeGroup(EncodeGroup(b0, b1, b2)) == (b0, b1, b2)
  {
    var s := Sextets(b0, b1, b2);
    SextetRoundTrip(s.0);
    SextetRoundTrip(s.1);
    SextetRoundTrip(s.2);
    SextetRoundTrip(s.3);
    BytesOfSextets(b0, b1, b2);
  }

  lemma DecodeEncodeOne(b0: Byte)
    ensures DecodeQuanta(Encode([b0])) == Some([b0])
  {
    var g := EncodeGroup(b0, 0, 0);
    var q := Encode([b0]);
    assert q == g[..2] + "==";
    assert !IsBase64Char(q[3]) && !IsBase64Char(q[..3][2]);
    assert q[..2] == g[..2];
    var s := Sextets(b0, 0, 0);
    assert s.2 == 0 && s.3 == 0;
    assert q[..2] + "AA" == g;
    GroupRoundTrip(b0, 0, 0);
  }

  lemma DecodeEncodeTwo(b0: Byte, b1: Byte)
    ensures DecodeQuanta(Encode([b0, b1])) == Some([b0, b1])
  {
    var g := EncodeGroup(b0, b1, 0);
    var q := Encode([b0, b1]);
    assert q == g[..3] + "=";
    assert !IsBase64Char(q[3]);
    assert q[..3] == g[..3];
    assert Sextets(b0, b1, 0).3 == 0;
    assert q[..3] + "A" == g;
    GroupRoundTrip(b0, b1, 0);
  }

  lemma {:induction false} DecodeEncode(b: seq<Byte>)
    ensures DecodeQuanta(Encode(b)) == Some(b)
    decreases |b|
  {
    if |b| == 1 {
      assert b == [b[0]];
      DecodeEncodeOne(b[0]);
    } else if |b| == 2 {
      assert b == [b[0], b[1]];
      DecodeEncodeTwo(b[0], b[1]);
    } else if |b| >= 3 {
      var g := EncodeGroup(b[0], b[1], b[2]);
      var r := Encode(b[3..]);
      var e := g + r;
      assert e == Encode(b);
      GroupRoundTrip(b[0], b[1], b[2]);
      assert b == [b[0], b[1], b[2]] + b[3..];
      if |b| == 3 {
        assert r == [] && e == g;
        assert b == [b[0], b[1], b[2]];
        assert DecodeQuanta(e) == DecodeFinal(g);
      } else {
        EncodeLength(b[3..]);
        DecodeEncode(b[3..]);
        assert e[..4] == g && e[4..] == r;
      }
    }
  }

  /** A final quantum decodes exactly when it is well-formed on its own. */
  lemma FinalAcceptsWellFormed(q: string)
    requires |q| == 4
    ensures DecodeFinal(q).Some? <==> WellFormed(q)
  {
    if AllBase64(q) {
      assert q[..4] == q;
      assert PaddedBy(q, 0);
    } else if AllBase64(q[..3]) && q[3] == '=' {
      assert PaddedBy(q, 1);
    } else if AllBase64(q[..2]) && q[2] == '=' && q[3] == '=' {
      assert PaddedBy(q, 2);
    } else {
      assert !PaddedBy(q, 0) by { assert q[..4] == q; }
      assert !PaddedBy(q, 1) by { assert q[..|q| - 1] == q[..3]; }
      assert !PaddedBy(q, 2) by { assert q[..|q| - 2] == q[..2]; }
    }
  }

  /** Decoding succeeds exactly on well-formed base64 text. */
  lemma {:induction false} DecodeAcceptsWellFormed(s: string)
    ensures DecodeQuanta(s).Some? <==> WellFormed(s)
    decreases |s|
  {
    if |s| == 0 {
      assert PaddedBy(s, 0);
    } else if |s| == 4 {
      FinalAcceptsWellFormed(s);
    } else if |s| > 4 {
      var r := s[4..];
      DecodeAcceptsWellFormed(r);
      if WellFormed(s) {
        if PaddedBy(s, 0) { PaddedDrop(s, 0); }
        else if PaddedBy(s, 1) { PaddedDrop(s, 1); }
        else { PaddedDrop(s, 2); }
      }
      if AllBase64(s[..4]) && WellFormed(r) {
        assert s == s[..4] + r;
        if PaddedBy(r, 0) { PaddedPrepend(s[..4], r, 0); }
        else if PaddedBy(r, 1) { PaddedPrepend(s[..4], r, 1); }
        else { PaddedPrepend(s[..4], r, 2); }
      }
    }
  }

  /** The round trip `DecodeToken(EncodeToken(ip)) == (ip, nil)`. */
  lemma TokenRoundTrip(ip: string)
    requires IsByteString(ip)
    ensures DecodeToken(EncodeToken(ip)) == (ip, None)
  {
    var b := ToBytes(ip);
    EncodeWellFormed(b);
    WellFormedAlphabet(Encode(b));
    NoNewlinesStripped(Encode(b));
    DecodeEncode(b);
    FromToBytes(ip);
  }

  /** The token is `4 * ceil(n / 3)` characters long and uses only the alphabet and `=`. */
  lemma TokenShape(ip: string)
    requires IsByteString(ip)
    ensures |EncodeToken(ip)| == 4 * ((|ip| + 2) / 3)
    ensures forall i | 0 <= i < |EncodeToken(ip)| ::
      IsBase64Char(EncodeToken(ip)[i]) || EncodeToken(ip)[i] == '='
  {
    WellFormedAlphabet(EncodeToken(ip));
  }

  // ---------------------------------------------------------------- Is_ipv4

  const MinInt64 := -0x8000_0000_0000_0000
  const MaxInt64 := 0x7fff_ffff_ffff_ffff

  /**
   * `strconv.Atoi`: an optional sign followed by at least one decimal digit,
   * within the range of a 64-bit `int`; `None` stands for its error.
   */
  function Atoi(s: string): (r: Option<int>)
    ensures r.Some? ==> MinInt64 <= r.value <= MaxInt64
  {
    if |s| == 0 then None
    else
      var negative := s[0] == '-';
      var digits := if s[0] == '-' || s[0] == '+' then s[1..] else s;
      if |digits| == 0 || !AllDigits(digits) then None
      else
        var magnitude: int := DecimalValue(digits);
        var v := if negative then 0 - magnitude else magnitude;
        if v < MinInt64 || v > MaxInt64 then None else Some(v)
  }

  /** One group of an address: it parses, and the value is in 0..255. */
  predicate IsOctet(part: string) {
    Atoi(part).Some? && 0 <= Atoi(part).value <= 255
  }

  /** The loop over the groups, returning false at the first bad one. */
  predicate AllOctets(parts: seq<string>) {
    |parts| == 0 || (IsOctet(parts[0]) && AllOctets(parts[1..]))
  }

  /** `Is_ipv4`: at least four dot-separated groups, each an octet. */
  predicate IsIpv4(host: string) {
    var parts := Split(host, '.');
    |parts| >= 4 && AllOctets(parts)
  }

  lemma {:induction false} AllOctetsEach(parts: seq<string>)
    ensures AllOctets(parts) <==> forall k | 0 <= k < |parts| :: IsOctet(parts[k])
  {
    if |parts| > 0 {
      AllOctetsEach(parts[1..]);
      assert forall k | 1 <= k < |parts| :: parts[k] == parts[1..][k - 1];
    }
  }

  /**
   * `Is_ipv4` rejects a host with fewer than four groups and a host with any group
   * that does not parse or lies outside 0..255, and accepts every other host.
   */
  lemma IsIpv4Exactly(host: string)
    ensures IsIpv4(host) <==>
      |Split(host, '.')| >= 4 &&
      forall k | 0 <= k < |Split(host, '.')| :: IsOctet(Split(host, '.')[k])
  {
    AllOctetsEach(Split(host, '.'));
  }

  lemma AtoiItoa(n: nat)
    requires n <= MaxInt64
    ensures Atoi(Itoa(n)) == Some(n)
  {
  }

  /** A host made of dot-free octets is accepted once there are at least four. */
  lemma OctetsAccepted(pieces: seq<string>)
    requires |pieces| >= 4
    requires forall k | 0 <= k < |pieces| :: '.' !in pieces[k] && IsOctet(pieces[k])
    ensures IsIpv4(JoinWith(pieces, '.'))
  {
    SplitJoin(pieces, '.');
    AllOctetsEach(pieces);
  }

  /** The decimal rendering of a number 0..255 is a dot-free octet. */
  lemma ItoaOctet(n: nat)
    requires n < 256
    ensures '.' !in Itoa(n) && IsOctet(Itoa(n))
  {
    AtoiItoa(n);
    DigitsHaveNo(Itoa(n), '.');
  }

  lemma JoinFour(a: string, b: string, c: string, d: string)
    ensures JoinWith([a, b, c, d], '.') == a + "." + b + "." + c + "." + d
  {
    assert [a, b, c, d][1..] == [b, c, d];
    assert [b, c, d][1..] == [c, d];
    assert [c, d][1..] == [d];
    assert JoinWith([c, d], '.') == c + "." + d;
    assert JoinWith([b, c, d], '.') == b + "." + (c + "." + d);
    assert JoinWith([a, b, c, d], '.') == a + "." + (b + "." + (c + "." + d));
  }

  /** Four dot-free octets joined by dots form an accepted host. */
  lemma QuadAccepted(a: string, b: string, c: string, d: string)
    requires '.' !in a && '.' !in b && '.' !in c && '.' !in d
    requires IsOctet(a) && IsOctet(b) && IsOctet(c) && IsOctet(d)
    ensures IsIpv4(a + "." + b + "." + c + "." + d)
  {
    var pieces := [a, b, c, d];
    assert forall k | 0 <= k < 4 :: '.' !in pieces[k] && IsOctet(pieces[k]);
    OctetsAccepted(pieces);
    JoinFour(a, b, c, d);
  }

  /** Every dotted quad `a.b.c.d` of decimal numbers 0..255 is accepted. */
  lemma DottedQuadAccepted(a: nat, b: nat, c: nat, d: nat)
    requires a < 256 && b < 256 && c < 256 && d < 256
    ensures IsIpv4(Itoa(a) + "." + Itoa(b) + "." + Itoa(c) + "." + Itoa(d))
  {
    ItoaOctet(a);
    ItoaOctet(b);
    ItoaOctet(c);
    ItoaOctet(d);
    QuadAccepted(Itoa(a), Itoa(b), Itoa(c), Itoa(d));
  }

  lemma SignedOctets()
    ensures IsOctet("+1") && IsOctet("-0") && IsOctet("2") && IsOctet("3")
  {
    assert "+1"[1..] == "1" && "-0"[1..] == "0";
    assert DecimalValue("1") == 1;
  }

  /** Atoi's signs are let through: "+1.-0.2.3" is accepted. */
  lemma SignedGroupsAccepted()
    ensures IsIpv4("+1.-0.2.3")
  {
    SignedOctets();
    assert "+1" + "." + "-0" + "." + "2" + "." + "3" == "+1.-0.2.3";
    QuadAccepted("+1", "-0", "2", "3");
  }

  lemma FiveGroupsJoined()
    ensures JoinWith(["1", "2", "3", "4", "5"], '.') == "1.2.3.4.5"
  {
    assert ["1", "2", "3", "4", "5"][1..] == ["2", "3", "4", "5"];
    JoinFour("2", "3", "4", "5");
  }

  lemma FiveOctets()
    ensures forall k | 0 <= k < 5 ::
      '.' !in ["1", "2", "3", "4", "5"][k] && IsOctet(["1", "2", "3", "4", "5"][k])
  {
    assert IsOctet("1") && IsOctet("2") && IsOctet("3") && IsOctet("4") && IsOctet("5");
  }

  /** Only a lower bound is placed on the number of groups: "1.2.3.4.5" is accepted. */
  lemma ExtraGroupsAccepted()
    ensures IsIpv4("1.2.3.4.5")
  {
    FiveGroupsJoined();
    FiveOctets();
    OctetsAccepted(["1", "2", "3", "4", "5"]);
  }
}
