// The hand-written DER encoder of the installer: lengths, tag-length-value triples,
// integers and the PKCS#8 private key, each specified by a decoder of the public standard.
module Der {
  import opened Options

  type Octet = n: int | 0 <= n < 256

  const INT32_LIMIT := 0x8000_0000

  // ---------- numbers as octets, most significant first ----------

  function Unsigned(octets: seq<Octet>): nat {
    if octets == [] then 0 else 256 * Unsigned(octets[..|octets| - 1]) + octets[|octets| - 1]
  }

  function Digits(n: nat): (octets: seq<Octet>)
    ensures n > 0 ==> |octets| > 0 && octets[0] != 0
  {
    if n == 0 then [] else Digits(n / 256) + [n % 256]
  }

  lemma {:induction false} UnsignedOfDigits(n: nat)
    ensures Unsigned(Digits(n)) == n
  {
    if n > 0 {
      UnsignedOfDigits(n / 256);
      assert Digits(n)[..|Digits(n)| - 1] == Digits(n / 256);
    }
  }

  lemma LastOctet(n: nat, octet: Octet)
    ensures (256 * n + octet) / 256 == n && |Digits(256 * n + octet)| <= |Digits(n)| + 1
  {
    assert (256 * n + octet) / 256 == n;
  }

  // No other octets say the same number in fewer places.
  lemma {:induction false} DigitsShortest(octets: seq<Octet>)
    ensures |Digits(Unsigned(octets))| <= |octets|
  {
    if octets != [] {
      var init := octets[..|octets| - 1];
      DigitsShortest(init);
      LastOctet(Unsigned(init), octets[|octets| - 1]);
    }
  }

  lemma {:induction false} LeadingZeros(zeros: seq<Octet>, octets: seq<Octet>)
    requires forall i :: 0 <= i < |zeros| ==> zeros[i] == 0
    ensures Unsigned(zeros + octets) == Unsigned(octets)
  {
    var all := zeros + octets;
    if octets != [] {
      LeadingZeros(zeros, octets[..|octets| - 1]);
      assert all[..|all| - 1] == zeros + octets[..|octets| - 1];
    } else if zeros != [] {
      LeadingZeros(zeros[..|zeros| - 1], []);
      assert all[..|all| - 1] == zeros[..|zeros| - 1] + [];
    }
  }

  // ---------- lengths (X.690 section 8.1.3) ----------

  // A definite length and what follows it, in the short or any long form.
  function ReadLength(octets: seq<Octet>): Option<(nat, seq<Octet>)> {
    if octets == [] then None
    else if octets[0] < 128 then Some((octets[0], octets[1..]))
    else
      var count := octets[0] - 128;
      if count == 0 || count == 127 || |octets| < 1 + count then None
      else Some((Unsigned(octets[1..1 + count]), octets[1 + count..]))
  }

  function Length(n: nat): seq<Octet>
    requires n < INT32_LIMIT
  {
    if n < 128 then [n]
    else
      DigitsOfInt32(n);
      [0x80 + |Digits(n)|] + Digits(n)
  }

  lemma DigitsOfInt32(n: nat)
    requires 0 < n < INT32_LIMIT
    ensures 0 < |Digits(n)| <= 4
  {
    var a, b, c := n / 256, n / 256 / 256, n / 256 / 256 / 256;
    assert c < 256 && Digits(c / 256) == [];
    assert |Digits(c)| <= 1;
    assert |Digits(b)| <= |Digits(c)| + 1 && |Digits(a)| <= |Digits(b)| + 1;
  }

  // The length reads back, leaving what follows it untouched.
  lemma LengthReadsBack(n: nat, rest: seq<Octet>)
    requires n < INT32_LIMIT
    ensures ReadLength(Length(n) + rest) == Some((n, rest))
  {
    var all := Length(n) + rest;
    if n < 128 {
      assert all[1..] == rest;
    } else {
      DigitsOfInt32(n);
      UnsignedOfDigits(n);
      var count := |Digits(n)|;
      assert all[1..1 + count] == Digits(n) && all[1 + count..] == rest;
    }
  }

  // Nothing shorter reads as the same length (X.690 section 10.1).
  lemma LengthIsShortest(n: nat, octets: seq<Octet>)
    requires n < INT32_LIMIT && ReadLength(octets) == Some((n, []))
    ensures |Length(n)| <= |octets|
  {
    if octets[0] >= 128 {
      DigitsShortest(octets[1..]);
      assert octets[1..1 + (octets[0] - 128)] == octets[1..];
      if n >= 128 {
        DigitsOfInt32(n);
      }
    }
  }

  method EncodeLength(length: int) returns (encoded: seq<Octet>)
    requires 0 <= length < INT32_LIMIT
    ensures encoded == Length(length)
  {
    if length < 128 {
      return [length];
    }
    var octets: seq<Octet> := [];
    var remaining := length;
    while remaining > 0
      invariant 0 <= remaining <= length
      invariant Digits(length) == Digits(remaining) + octets
    {
      ghost var before := octets;
      octets := [remaining % 256] + octets;
      assert Digits(remaining) + before == Digits(remaining / 256) + octets;
      remaining := remaining / 256;
    }
    DigitsOfInt32(length);
    encoded := [0x80 + |octets|];
    encoded := encoded + octets;
  }

  // ---------- tag, length, value ----------

  datatype Tlv = Tlv(tag: Octet, content: seq<Octet>)

  function ReadTlv(octets: seq<Octet>): Option<(Tlv, seq<Octet>)> {
    if octets == [] then None
    else
      var length := ReadLength(octets[1..]);
      if length == None || |length.value.1| < length.value.0 then None
      else Some((Tlv(octets[0], length.value.1[..length.value.0]), length.value.1[length.value.0..]))
  }

  function Encoded(t: Tlv): seq<Octet>
    requires |t.content| < INT32_LIMIT
  {
    [t.tag] + Length(|t.content|) + t.content
  }

  lemma TlvReadsBack(t: Tlv, rest: seq<Octet>)
    requires |t.content| < INT32_LIMIT
    ensures ReadTlv(Encoded(t) + rest) == Some((t, rest))
  {
    var all := Encoded(t) + rest;
    assert all[1..] == Length(|t.content|) + (t.content + rest);
    LengthReadsBack(|t.content|, t.content + rest);
  }

  predicate Encodable(ts: seq<Tlv>) {
    forall i :: 0 <= i < |ts| ==> |ts[i].content| < INT32_LIMIT
  }

  function EncodedAll(ts: seq<Tlv>): seq<Octet>
    requires Encodable(ts)
  {
    if ts == [] then [] else Encoded(ts[0]) + EncodedAll(ts[1..])
  }

  // Reads triples to the very end of the octets.
  function ReadAll(octets: seq<Octet>): Option<seq<Tlv>>
    decreases |octets|
  {
    if octets == [] then Some([])
    else
      var first := ReadTlv(octets);
      if first == None then None
      else
        ReadTlvShrinks(octets);
        var rest := ReadAll(first.value.1);
        if rest == None then None else Some([first.value.0] + rest.value)
  }

  lemma ReadTlvShrinks(octets: seq<Octet>)
    ensures ReadTlv(octets).Some? ==> |ReadTlv(octets).value.1| < |octets|
  {
  }

  lemma ReadAllStep(t: Tlv, rest: seq<Octet>)
    requires |t.content| < INT32_LIMIT && ReadAll(rest).Some?
    ensures ReadAll(Encoded(t) + rest) == Some([t] + ReadAll(rest).value)
  {
    TlvReadsBack(t, rest);
  }

  lemma TwoEncoded(a: Tlv, b: Tlv)
    requires |a.content| < INT32_LIMIT && |b.content| < INT32_LIMIT
    ensures EncodedAll([a, b]) == Encoded(a) + Encoded(b)
  {
    assert [a, b][1..] == [b] && [b][1..] == [];
    assert EncodedAll([b]) == Encoded(b);
  }

  lemma ThreeEncoded(a: Tlv, b: Tlv, c: Tlv)
    requires |a.content| < INT32_LIMIT && |b.content| < INT32_LIMIT && |c.content| < INT32_LIMIT
    ensures EncodedAll([a, b, c]) == Encoded(a) + Encoded(b) + Encoded(c)
  {
    assert [a, b, c][1..] == [b, c];
    TwoEncoded(b, c);
  }

  // Concatenated triples parse back to exactly themselves.
  lemma {:induction false} AllReadBack(ts: seq<Tlv>)
    requires Encodable(ts)
    ensures ReadAll(EncodedAll(ts)) == Some(ts)
  {
    if ts != [] {
      var first, rest := ts[0], ts[1..];
      AllReadBack(rest);
      ReadAllStep(first, EncodedAll(rest));
      assert ts == [first] + rest;
    }
  }

  method EncodeTlv(tag: Octet, content: seq<Octet>) returns (encoded: seq<Octet>)
    requires |content| < INT32_LIMIT
    ensures encoded == Encoded(Tlv(tag, content))
  {
    encoded := [tag];
    var length := EncodeLength(|content|);
    encoded := encoded + length;
    encoded := encoded + content;
  }

  // ---------- integers (X.690 section 8.3) ----------

  function Signed(octets: seq<Octet>): int
    requires octets != []
  {
    if octets[0] < 128 then Unsigned(octets) else Unsigned(octets) - Power256(|octets|)
  }

  function Power256(n: nat): nat {
    if n == 0 then 1 else 256 * Power256(n - 1)
  }

  // The first nine bits are neither all zero nor all one.
  predicate Minimal(octets: seq<Octet>) {
    && octets != []
    && (|octets| > 1 ==> !(octets[0] == 0 && octets[1] < 128) && !(octets[0] == 255 && octets[1] >= 128))
  }

  // The number an INTEGER holds, if its contents are well formed.
  function ReadInteger(t: Tlv): Option<int> {
    if t.tag == 0x02 && Minimal(t.content) then Some(Signed(t.content)) else None
  }

  // A big-endian component as integer contents: leading zeros gone, a sign octet where needed.
  function IntegerContent(value: seq<Octet>): seq<Octet>
    requires value != []
  {
    if |value| > 1 && value[0] == 0 then IntegerContent(value[1..])
    else if value[0] >= 128 then [0] + value
    else value
  }

  lemma {:induction false} IntegerReadsBack(value: seq<Octet>)
    requires value != []
    ensures ReadInteger(Tlv(0x02, IntegerContent(value))) == Some(Unsigned(value))
    ensures |IntegerContent(value)| <= |value| + 1
  {
    if |value| > 1 && value[0] == 0 {
      IntegerReadsBack(value[1..]);
      LeadingZeros([0], value[1..]);
      assert value == [0] + value[1..];
    } else if value[0] >= 128 {
      LeadingZeros([0], value);
    }
  }

  lemma SkippedZero(value: seq<Octet>, first: nat)
    requires first < |value| - 1 && value[first] == 0
    ensures IntegerContent(value[first..]) == IntegerContent(value[first + 1..])
  {
    assert value[first..][1..] == value[first + 1..];
  }

  lemma AppendNext(sign: seq<Octet>, value: seq<Octet>, first: nat, index: nat)
    requires first <= index < |value|
    ensures sign + value[first..index + 1] == sign + value[first..index] + [value[index]]
  {
    assert value[first..index + 1] == value[first..index] + [value[index]];
  }

  method EncodeInteger(value: seq<Octet>) returns (encoded: seq<Octet>)
    requires value != [] && |value| + 1 < INT32_LIMIT
    ensures |IntegerContent(value)| <= |value| + 1
    ensures encoded == Encoded(Tlv(0x02, IntegerContent(value)))
  {
    var first := 0;
    assert value[0..] == value;
    while first < |value| - 1 && value[first] == 0
      invariant 0 <= first < |value|
      invariant IntegerContent(value) == IntegerContent(value[first..])
    {
      SkippedZero(value, first);
      first := first + 1;
    }
    var content: seq<Octet> := [];
    if value[first] >= 128 {
      content := content + [0];
    }
    ghost var sign := content;
    assert IntegerContent(value) == sign + value[first..];
    var index := first;
    while index < |value|
      invariant first <= index <= |value| && content == sign + value[first..index]
    {
      AppendNext(sign, value, first, index);
      content := content + [value[index]];
      index := index + 1;
    }
    assert content == sign + value[first..];
    encoded := EncodeTlv(0x02, content);
  }

  // ---------- the private key (RFC 5208 section 5, RFC 8017 appendix A.1.2) ----------

  datatype RsaParameters = RsaParameters(
    modulus: seq<Octet>, exponent: seq<Octet>, d: seq<Octet>, p: seq<Octet>, q: seq<Octet>,
    dp: seq<Octet>, dq: seq<Octet>, inverseQ: seq<Octet>)
  {
    function Components(): seq<seq<Octet>> {
      [modulus, exponent, d, p, q, dp, dq, inverseQ]
    }

    // Every component is present and the encoded key fits a byte array.
    predicate Encodable() {
      && AllPresent(Components())
      && TotalLength(Components()) < INT32_LIMIT - 256
    }
  }

  predicate AllPresent(components: seq<seq<Octet>>) {
    forall i :: 0 <= i < |components| ==> components[i] != []
  }

  function TotalLength(components: seq<seq<Octet>>): nat {
    if components == [] then 0 else |components[0]| + TotalLength(components[1..])
  }

  const VERSION: seq<Octet> := [0]
  const RSA_ENCRYPTION: seq<Octet> := [0x2a, 0x86, 0x48, 0x86, 0xf7, 0x0d, 0x01, 0x01, 0x01]
  const RSA_ALGORITHM: seq<Tlv> := [Tlv(0x06, RSA_ENCRYPTION), Tlv(0x05, [])]

  // The numbers of an object identifier from some octet on (X.690 section 8.19): seven bits to an
  // octet, the last of a number without the high bit.
  function ReadNumbers(octets: seq<Octet>, i: nat, sofar: nat): seq<nat>
    decreases |octets| - i
  {
    if i >= |octets| then []
    else if octets[i] >= 128 then ReadNumbers(octets, i + 1, 128 * sofar + (octets[i] - 128))
    else [128 * sofar + octets[i]] + ReadNumbers(octets, i + 1, 0)
  }

  // The first of them holds two arcs.
  function ReadArcs(octets: seq<Octet>): seq<nat> {
    var numbers := ReadNumbers(octets, 0, 0);
    if numbers == [] then [] else [numbers[0] / 40, numbers[0] % 40] + numbers[1..]
  }

  // rsaEncryption is 1.2.840.113549.1.1.1 (RFC 8017 appendix A.1).
  lemma RsaEncryptionReads()
    ensures ReadArcs(RSA_ENCRYPTION) == [1, 2, 840, 113549, 1, 1, 1]
    ensures |RSA_ALGORITHM| == 2 && RSA_ALGORITHM[0].tag == 6 && RSA_ALGORITHM[1] == Tlv(5, [])
  {
    var s := RSA_ENCRYPTION;
    assert ReadNumbers(s, 7, 0) == [1, 1];
    assert ReadNumbers(s, 6, 0) == [1, 1, 1];
    assert ReadNumbers(s, 3, 0) == ReadNumbers(s, 4, 6) == ReadNumbers(s, 5, 887) == [113549, 1, 1, 1];
    assert ReadNumbers(s, 1, 0) == ReadNumbers(s, 2, 6) == [840, 113549, 1, 1, 1];
    assert ReadNumbers(s, 0, 0) == [42, 840, 113549, 1, 1, 1];
  }

  function ReadIntegers(ts: seq<Tlv>): Option<seq<int>> {
    if ts == [] then Some([])
    else
      var first, rest := ReadInteger(ts[0]), ReadIntegers(ts[1..]);
      if first == None || rest == None then None else Some([first.value] + rest.value)
  }

  // A constructed value with the given tag, read to its end, with nothing after it.
  function ReadNested(tag: Octet, octets: seq<Octet>): Option<seq<Tlv>> {
    var t := ReadTlv(octets);
    if t == None || t.value.0.tag != tag || t.value.1 != [] then None else ReadAll(t.value.0.content)
  }

  // The eight numbers of an RSAPrivateKey of version 0.
  function ReadRsaPrivateKey(octets: seq<Octet>): Option<seq<int>> {
    var fields := ReadNested(0x30, octets);
    if fields == None || |fields.value| != 9 then None
    else
      var numbers := ReadIntegers(fields.value);
      if numbers == None || |numbers.value| != 9 || numbers.value[0] != 0 then None else Some(numbers.value[1..])
  }

  // The RSA numbers inside a PrivateKeyInfo: version 0, the rsaEncryption algorithm with
  // NULL parameters, and the key in an octet string.
  function ReadPrivateKeyInfo(octets: seq<Octet>): Option<seq<int>> {
    var fields := ReadNested(0x30, octets);
    if fields == None || |fields.value| != 3 then None
    else
      var version, algorithm, key := fields.value[0], fields.value[1], fields.value[2];
      if ReadInteger(version) != Some(0) || algorithm.tag != 0x30 || key.tag != 0x04 then None
      else if ReadAll(algorithm.content) != Some(RSA_ALGORITHM) then None
      else ReadRsaPrivateKey(key.content)
  }

  function Numbers(components: seq<seq<Octet>>): seq<int> {
    if components == [] then [] else [Unsigned(components[0])] + Numbers(components[1..])
  }

  function IntegerTlvs(components: seq<seq<Octet>>): seq<Tlv>
    requires AllPresent(components)
  {
    if components == [] then [] else [Tlv(0x02, IntegerContent(components[0]))] + IntegerTlvs(components[1..])
  }

  lemma {:induction false} IntegerTlvsReadBack(components: seq<seq<Octet>>)
    requires AllPresent(components)
    requires TotalLength(components) < INT32_LIMIT - 1
    ensures var ts := IntegerTlvs(components);
            && |ts| == |components| && Encodable(ts)
            && ReadIntegers(ts) == Some(Numbers(components))
            && |EncodedAll(ts)| <= TotalLength(components) + 7 * |components|
  {
    if components != [] {
      IntegerReadsBack(components[0]);
      IntegerTlvsReadBack(components[1..]);
      var ts := IntegerTlvs(components);
      assert ts[1..] == IntegerTlvs(components[1..]);
      EncodedLength(ts[0]);
    }
  }

  lemma EncodedLength(t: Tlv)
    requires |t.content| < INT32_LIMIT
    ensures |t.content| + 2 <= |Encoded(t)| <= |t.content| + 6
  {
    if |t.content| >= 128 {
      DigitsOfInt32(|t.content|);
    }
  }

  function RsaPrivateKey(p: RsaParameters): (ts: seq<Tlv>)
    requires p.Encodable()
    ensures |ts| == 9 && Encodable(ts) && |EncodedAll(ts)| < INT32_LIMIT - 100
    ensures ReadIntegers(ts) == Some([0] + Numbers(p.Components()))
  {
    var components := [VERSION] + p.Components();
    assert components[1..] == p.Components();
    IntegerTlvsReadBack(components);
    IntegerTlvs(components)
  }

  function Sequence(ts: seq<Tlv>): Tlv
    requires Encodable(ts)
  {
    Tlv(0x30, EncodedAll(ts))
  }

  function PrivateKeyInfo(p: RsaParameters): (ts: seq<Tlv>)
    requires p.Encodable()
    ensures |ts| == 3 && Encodable(ts) && |EncodedAll(ts)| < INT32_LIMIT
  {
    var key := Sequence(RsaPrivateKey(p));
    EncodedLength(key);
    var version, algorithm, privateKey := Tlv(0x02, VERSION), Sequence(RSA_ALGORITHM), Tlv(0x04, Encoded(key));
    AlgorithmLength();
    EncodedLength(version);
    EncodedLength(algorithm);
    EncodedLength(privateKey);
    ThreeEncoded(version, algorithm, privateKey);
    [version, algorithm, privateKey]
  }

  lemma AlgorithmLength()
    ensures |EncodedAll(RSA_ALGORITHM)| == 13
    ensures EncodedAll(RSA_ALGORITHM) == Encoded(Tlv(0x06, RSA_ENCRYPTION)) + Encoded(Tlv(0x05, []))
  {
    assert |RSA_ENCRYPTION| == 9;
    TwoEncoded(Tlv(0x06, RSA_ENCRYPTION), Tlv(0x05, []));
  }

  lemma NestedReadsBack(tag: Octet, ts: seq<Tlv>)
    requires Encodable(ts) && |EncodedAll(ts)| < INT32_LIMIT
    ensures ReadNested(tag, Encoded(Tlv(tag, EncodedAll(ts)))) == Some(ts)
  {
    var t := Tlv(tag, EncodedAll(ts));
    TlvReadsBack(t, []);
    assert Encoded(t) + [] == Encoded(t);
    AllReadBack(ts);
  }

  lemma RsaPrivateKeyReadsBack(p: RsaParameters)
    requires p.Encodable()
    ensures ReadRsaPrivateKey(Encoded(Sequence(RsaPrivateKey(p)))) == Some(Numbers(p.Components()))
  {
    NestedReadsBack(0x30, RsaPrivateKey(p));
    assert ([0] + Numbers(p.Components()))[1..] == Numbers(p.Components());
    CountNumbers(p.Components());
  }

  lemma {:induction false} CountNumbers(components: seq<seq<Octet>>)
    ensures |Numbers(components)| == |components|
  {
    if components != [] {
      CountNumbers(components[1..]);
    }
  }

  // The whole nesting reads back as the eight numbers it was made of.
  lemma PrivateKeyInfoReadsBack(p: RsaParameters)
    requires p.Encodable()
    ensures ReadPrivateKeyInfo(Encoded(Sequence(PrivateKeyInfo(p)))) == Some(Numbers(p.Components()))
  {
    var ts := PrivateKeyInfo(p);
    NestedReadsBack(0x30, ts);
    IntegerReadsBack(VERSION);
    AllReadBack(RSA_ALGORITHM);
    RsaPrivateKeyReadsBack(p);
    assert Unsigned(VERSION) == 0 && IntegerContent(VERSION) == VERSION;
  }

  method EncodeRsaPrivateKey(p: RsaParameters) returns (encoded: seq<Octet>)
    requires p.Encodable()
    ensures encoded == Encoded(Sequence(RsaPrivateKey(p)))
  {
    var components := [VERSION] + p.Components();
    ghost var integers := RsaPrivateKey(p);
    assert components[1..] == p.Components();
    var rsaPrivateKey: seq<Octet> := [];
    var i := 0;
    while i < |components|
      invariant 0 <= i <= |components|
      invariant rsaPrivateKey == EncodedAll(integers[..i])
    {
      IntegerTlvAt(components, i);
      ComponentLength(components, i);
      var integer := EncodeInteger(components[i]);
      EncodedOneMore(integers, i);
      rsaPrivateKey := rsaPrivateKey + integer;
      i := i + 1;
    }
    assert integers[..i] == integers;
    encoded := EncodeTlv(0x30, rsaPrivateKey);
  }

  method EncodePrivateKeyInfo(p: RsaParameters) returns (encoded: seq<Octet>)
    requires p.Encodable()
    ensures ReadPrivateKeyInfo(encoded) == Some(Numbers(p.Components()))
  {
    var rsaPrivateKeyDer := EncodeRsaPrivateKey(p);

    var oid := EncodeTlv(0x06, RSA_ENCRYPTION);
    var parameters := EncodeTlv(0x05, []);
    AlgorithmLength();
    var algorithmIdentifier := oid + parameters;
    var algorithmIdentifierDer := EncodeTlv(0x30, algorithmIdentifier);

    var version := EncodeInteger(VERSION);
    EncodedLength(Sequence(RsaPrivateKey(p)));
    var privateKey := EncodeTlv(0x04, rsaPrivateKeyDer);
    var privateKeyInfo := version + algorithmIdentifierDer;
    privateKeyInfo := privateKeyInfo + privateKey;
    ghost var ts := PrivateKeyInfo(p);
    ThreeEncoded(ts[0], ts[1], ts[2]);
    encoded := EncodeTlv(0x30, privateKeyInfo);
    PrivateKeyInfoReadsBack(p);
  }

  lemma {:induction false} EncodedOneMore(ts: seq<Tlv>, i: nat)
    requires i < |ts| && Encodable(ts)
    ensures EncodedAll(ts[..i + 1]) == EncodedAll(ts[..i]) + Encoded(ts[i])
  {
    if i > 0 {
      EncodedOneMore(ts[1..], i - 1);
      assert ts[..i + 1][1..] == ts[1..][..i] && ts[..i][1..] == ts[1..][..i - 1];
    } else {
      assert ts[..1] == [ts[0]];
    }
  }

  lemma {:induction false} ComponentLength(components: seq<seq<Octet>>, i: nat)
    requires i < |components|
    ensures |components[i]| <= TotalLength(components)
  {
    if i > 0 {
      ComponentLength(components[1..], i - 1);
    }
  }

  lemma {:induction false} IntegerTlvAt(components: seq<seq<Octet>>, i: nat)
    requires i < |components| && AllPresent(components)
    ensures |IntegerTlvs(components)| == |components|
    ensures IntegerTlvs(components)[i] == Tlv(0x02, IntegerContent(components[i]))
  {
    if i > 0 {
      IntegerTlvAt(components[1..], i - 1);
    } else if |components| > 1 {
      IntegerTlvAt(components[1..], 0);
    }
  }
}
