/** Authenticator data of WebAuthn registrations and logins (handlers_webauthn.go), as laid out in sections 6.1 and
    6.5.1 of WebAuthn Level 2. The SHA-256 of the relying-party id is a parameter. */
module AuthData {
  import opened Entities
  import opened Bytes

  datatype Attested = Attested(signCount: nat, credentialID: seq<byte>, cosePublicKey: seq<byte>)

  datatype Error =
    | TooShort | RpIdMismatch | NoUserPresence | NoUserVerification | NoAttestedData
    | NoCredentialLength | CredentialTruncated | NoPublicKey

  // flags & bit != 0, for a power of two
  predicate Has(flags: byte, bit: nat)
    requires bit > 0
  {
    flags / bit % 2 == 1
  }

  const UP: nat := 0x01
  const UV: nat := 0x04
  const AT: nat := 0x40

  // verifyAssertionAuthData
  function Assertion(data: seq<byte>, rpHash: seq<byte>): Result<nat, Error> {
    if |data| < 37 then Err(TooShort)
    else if data[..32] != rpHash then Err(RpIdMismatch)
    else if !Has(data[32], UP) then Err(NoUserPresence)
    else if !Has(data[32], UV) then Err(NoUserVerification)
    else Ok(BigEndian(data[33..37]))
  }

  function Attestation(data: seq<byte>, rpHash: seq<byte>): Result<Attested, Error> {
    match Assertion(data, rpHash)
    case Err(e) => Err(e)
    case Ok(signCount) =>
      if !Has(data[32], AT) then Err(NoAttestedData)
      else if |data| < 55 then Err(NoCredentialLength)
      else
        var length := BigEndian(data[53..55]);
        if |data| < 55 + length then Err(CredentialTruncated)
        else if |data| <= 55 + length then Err(NoPublicKey)
        else Ok(Attested(signCount, data[55..55 + length], data[55 + length..]))
  }

  /** parseAttestedAuthData */
  method ParseAttestedAuthData(data: seq<byte>, rpHash: seq<byte>) returns (r: Result<Attested, Error>)
    ensures r == Attestation(data, rpHash)
  {
    if |data| < 37 {
      return Err(TooShort);
    }
    if data[..32] != rpHash {
      return Err(RpIdMismatch);
    }
    var flags := data[32];
    if !Has(flags, UP) {
      return Err(NoUserPresence);
    }
    if !Has(flags, UV) {
      return Err(NoUserVerification);
    }
    if !Has(flags, AT) {
      return Err(NoAttestedData);
    }
    var signCount := BigEndian(data[33..37]);
    var off := 37 + 16;
    if |data| < off + 2 {
      return Err(NoCredentialLength);
    }
    var credLen := BigEndian(data[off..off + 2]);
    off := off + 2;
    if |data| < off + credLen {
      return Err(CredentialTruncated);
    }
    var credID := data[off..off + credLen];
    off := off + credLen;
    if |data| <= off {
      return Err(NoPublicKey);
    }
    r := Ok(Attested(signCount, credID, data[off..]));
  }

  // The eight flags, bit 0 first
  type Flags = bits: seq<bool> | |bits| == 8 witness [false, false, false, false, false, false, false, false]

  // Bit 0: user present; bit 2: user verified; bit 6: attested credential data included
  predicate Present(flags: Flags) { flags[0] }
  predicate Verified(flags: Flags) { flags[2] }
  predicate Included(flags: Flags) { flags[6] }

  function Pow2(n: nat): nat {
    if n == 0 then 1 else 2 * Pow2(n - 1)
  }

  // The number whose binary digits these are, the lowest first
  function Number(bits: seq<bool>): (n: nat)
    ensures n < Pow2(|bits|)
  {
    if bits == [] then 0 else 2 * Number(bits[1..]) + if bits[0] then 1 else 0
  }

  lemma {:induction false} DigitsOf(n: nat, width: nat) returns (bits: seq<bool>)
    requires n < Pow2(width)
    ensures |bits| == width && Number(bits) == n
  {
    if width == 0 {
      bits := [];
    } else {
      var rest := DigitsOf(n / 2, width - 1);
      bits := [n % 2 == 1] + rest;
      assert bits[1..] == rest;
    }
  }

  lemma TwoShifted(bits: seq<bool>)
    requires |bits| >= 2
    ensures Number(bits[2..]) == Number(bits) / 4
  {
    assert bits[1..][1..] == bits[2..];
    assert Number(bits) / 2 == Number(bits[1..]) && Number(bits[1..]) / 2 == Number(bits[2..]);
  }

  function ToByte(flags: Flags): byte {
    assert Pow2(8) == 256;
    Number(flags)
  }

  lemma FlagsOf(b: byte) returns (flags: Flags)
    ensures ToByte(flags) == b
  {
    assert Pow2(8) == 256;
    flags := DigitsOf(b, 8);
  }

  // The bits the parser looks at
  lemma BitsOf(flags: Flags)
    ensures Has(ToByte(flags), UP) == Present(flags)
    ensures Has(ToByte(flags), UV) == Verified(flags)
    ensures Has(ToByte(flags), AT) == Included(flags)
  {
    var n := Number(flags);
    TwoShifted(flags);
    TwoShifted(flags[2..]);
    TwoShifted(flags[4..]);
    assert flags[2..][2..] == flags[4..] && flags[4..][2..] == flags[6..];
    assert n / 64 == n / 4 / 4 / 4;
    assert flags[2..][0] == flags[2] && flags[6..][0] == flags[6];
  }

  // What an authenticator sends
  function Layout(rpHash: seq<byte>, flags: Flags, aaguid: seq<byte>, a: Attested): seq<byte> {
    rpHash + [ToByte(flags)] + ToBigEndian(a.signCount, 4) + aaguid + ToBigEndian(|a.credentialID|, 2) +
      a.credentialID + a.cosePublicKey
  }

  // The fields have the sizes that the layout gives them
  ghost predicate Sized(rpHash: seq<byte>, aaguid: seq<byte>, a: Attested) {
    |rpHash| == 32 && |aaguid| == 16 && a.signCount < Pow256(4) && |a.credentialID| < Pow256(2)
  }

  lemma LayoutParts(rpHash: seq<byte>, flags: Flags, aaguid: seq<byte>, a: Attested)
    requires Sized(rpHash, aaguid, a)
    ensures var data, n := Layout(rpHash, flags, aaguid, a), |a.credentialID|;
      && |data| == 55 + n + |a.cosePublicKey| && data[..32] == rpHash && data[32] == ToByte(flags)
      && BigEndian(data[33..37]) == a.signCount && BigEndian(data[53..55]) == n
      && data[55..55 + n] == a.credentialID && data[55 + n..] == a.cosePublicKey
  {
    hide BigEndian, ToBigEndian, Pow256, ToByte;
    var data := Layout(rpHash, flags, aaguid, a);
    BigEndianOfTo(a.signCount, 4);
    BigEndianOfTo(|a.credentialID|, 2);
    assert data[33..37] == ToBigEndian(a.signCount, 4) && data[53..55] == ToBigEndian(|a.credentialID|, 2);
  }

  /** Parsing a layout gives back its counter, credential id and public key, or the first thing missing from it. */
  lemma AttestationInvertsLayout(rpHash: seq<byte>, flags: Flags, aaguid: seq<byte>, a: Attested, expected: seq<byte>)
    requires Sized(rpHash, aaguid, a)
    ensures Attestation(Layout(rpHash, flags, aaguid, a), expected) ==
            if rpHash != expected then Err(RpIdMismatch)
            else if !Present(flags) then Err(NoUserPresence)
            else if !Verified(flags) then Err(NoUserVerification)
            else if !Included(flags) then Err(NoAttestedData)
            else if a.cosePublicKey == [] then Err(NoPublicKey) else Ok(a)
  {
    hide BigEndian, Pow256, Has, ToByte, Layout;
    LayoutParts(rpHash, flags, aaguid, a);
    BitsOf(flags);
  }

  /** An acceptable layout that is cut short is refused, with the part that is missing. */
  lemma CutLayoutIsRefused(rpHash: seq<byte>, flags: Flags, aaguid: seq<byte>, a: Attested, k: nat)
    requires Sized(rpHash, aaguid, a) && Present(flags) && Verified(flags) && Included(flags)
    requires k <= 55 + |a.credentialID| <= |Layout(rpHash, flags, aaguid, a)|
    ensures Attestation(Layout(rpHash, flags, aaguid, a)[..k], rpHash) ==
            Err(if k < 37 then TooShort
                else if k < 55 then NoCredentialLength
                else if k < 55 + |a.credentialID| then CredentialTruncated else NoPublicKey)
  {
    hide BigEndian, Pow256, Has, ToByte, Layout;
    LayoutParts(rpHash, flags, aaguid, a);
    BitsOf(flags);
    var data := Layout(rpHash, flags, aaguid, a);
    if k >= 37 {
      assert data[..k][..32] == data[..32];
      if k >= 55 {
        assert data[..k][53..55] == data[53..55];
      }
    }
  }

  /** Whatever is accepted reassembles: the input is an acceptable layout of what was parsed. */
  lemma AcceptedIsLayout(data: seq<byte>, rpHash: seq<byte>) returns (flags: Flags, aaguid: seq<byte>)
    requires Attestation(data, rpHash).Ok?
    ensures var a := Attestation(data, rpHash).value;
            && Sized(rpHash, aaguid, a) && Present(flags) && Verified(flags) && Included(flags) && a.cosePublicKey != []
            && data == Layout(rpHash, flags, aaguid, a)
  {
    hide BigEndian, ToBigEndian, Pow256, Has, ToByte;
    flags := FlagsOf(data[32]);
    aaguid := data[37..53];
    BitsOf(flags);
    ToBigEndianOf(data[33..37]);
    ToBigEndianOf(data[53..55]);
    var a := Attestation(data, rpHash).value;
    var n := 55 + |a.credentialID|;
    assert data == data[..32] + [data[32]] + data[33..37] + data[37..53] + data[53..55] + data[55..n] + data[n..];
  }
}
