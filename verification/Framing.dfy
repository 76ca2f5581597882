/** The plaintext framing of callback messages once AES is undone (src/channels/wecom/crypto.ts, decryptMessage and
stripPkcs7Padding): 16 random bytes, a big-endian length, the message, the receiver id, and PKCS#7 padding as in section
6.3 of RFC 5652 with a block of 32 bytes. */
module Framing {
  import opened Wrappers

  newtype Byte = x: int | 0 <= x < 256

  type Bytes = seq<Byte>

  const BLOCK: nat := 32
  const PREFIX: nat := 16
  const HEADER: nat := 20
  const TWO_TO_THE_32: nat := 0x1_0000_0000

  // Padding

  function Repeat(b: Byte, n: nat): (r: Bytes)
    ensures |r| == n && forall i :: 0 <= i < n ==> r[i] == b
  {
    seq(n, i => b)
  }

  /** One to 32 bytes, each the number of them. */
  function Padded(data: Bytes): Bytes {
    var n := BLOCK - |data| % BLOCK;
    data + Repeat(n as Byte, n)
  }

  predicate IsPadded(value: Bytes, data: Bytes, n: nat) { 1 <= n <= BLOCK && value == data + Repeat(n as Byte, n) }

  /** stripPkcs7Padding */
  method StripPadding(value: Bytes) returns (r: Option<Bytes>)
    ensures r.Some? ==> exists n :: IsPadded(value, r.value, n)
    ensures r.None? ==> forall data, n :: !IsPadded(value, data, n)
  {
    if |value| == 0 {
      return None;
    }
    var paddingLength := value[|value| - 1] as int;
    if paddingLength < 1 || paddingLength > BLOCK || paddingLength > |value| {
      NotPadded(value, 0);
      return None;
    }
    var index := |value| - paddingLength;
    while index < |value|
      invariant |value| - paddingLength <= index <= |value|
      invariant forall i :: |value| - paddingLength <= i < index ==> value[i] as int == paddingLength
    {
      if value[index] as int != paddingLength {
        NotPadded(value, index);
        return None;
      }
      index := index + 1;
    }
    var data := value[..|value| - paddingLength];
    assert IsPadded(value, data, paddingLength);
    r := Some(data);
  }

  lemma PaddedTail(value: Bytes, data: Bytes, n: nat)
    requires IsPadded(value, data, n)
    ensures n <= |value| && data == value[..|value| - n]
      && forall i :: |value| - n <= i < |value| ==> value[i] as int == n
  {
    forall i | |value| - n <= i < |value| ensures value[i] as int == n {
      assert value[i] == Repeat(n as Byte, n)[i - |data|];
    }
  }

  /** The last byte decides how much padding there can be, and a wrong byte among that many rules it out. */
  lemma NotPadded(value: Bytes, index: nat)
    requires |value| > 0
    requires var n := value[|value| - 1] as int;
             n < 1 || n > BLOCK || n > |value| || (|value| - n <= index < |value| && value[index] as int != n)
    ensures forall data, n :: !IsPadded(value, data, n)
  {
    forall data, n ensures !IsPadded(value, data, n) {
      if IsPadded(value, data, n) { PaddedTail(value, data, n); }
    }
  }

  /** A value is padded in at most one way. */
  lemma PaddingIsUnique(value: Bytes, a: Bytes, m: nat, b: Bytes, n: nat)
    requires IsPadded(value, a, m) && IsPadded(value, b, n)
    ensures m == n && a == b
  {
    PaddedTail(value, a, m);
    PaddedTail(value, b, n);
    assert value[|value| - 1] as int == m;
  }

  // Framing

  function BigEndian(n: nat): (r: Bytes)
    requires n < TWO_TO_THE_32
    ensures |r| == 4
  {
    [(n / 0x100_0000) as Byte, (n / 0x1_0000 % 256) as Byte, (n / 0x100 % 256) as Byte, (n % 256) as Byte]
  }

  /** readUInt32BE */
  function ReadBigEndian(b: Bytes): nat
    requires |b| == 4
  {
    b[0] as int * 0x100_0000 + b[1] as int * 0x1_0000 + b[2] as int * 0x100 + b[3] as int
  }

  lemma Quotients(n: nat)
    ensures n / 0x1_0000 == n / 256 / 256 && n / 0x100_0000 == n / 0x1_0000 / 256
  {
  }

  lemma BigEndianRoundTrip(n: nat)
    requires n < TWO_TO_THE_32
    ensures ReadBigEndian(BigEndian(n)) == n
  {
    Quotients(n);
    var x, y, z := n / 256, n / 0x1_0000, n / 0x100_0000;
    assert n == 256 * x + n % 256 && x == 256 * y + x % 256 && y == 256 * z + y % 256;
  }

  lemma ReadIsBigEndian(b: Bytes)
    requires |b| == 4
    ensures ReadBigEndian(b) < TWO_TO_THE_32 && BigEndian(ReadBigEndian(b)) == b
  {
    var n := ReadBigEndian(b);
    assert n / 0x100_0000 == b[0] as int;
    assert n / 0x1_0000 == b[0] as int * 256 + b[1] as int;
    assert n / 0x100 == b[0] as int * 0x1_0000 + b[1] as int * 256 + b[2] as int;
  }

  function Frame(prefix: Bytes, message: Bytes, receiver: Bytes): Bytes
    requires |prefix| == PREFIX && |message| < TWO_TO_THE_32
  {
    prefix + BigEndian(|message|) + message + receiver
  }

  /** The padded value holds this message for this receiver. */
  ghost predicate Carries(value: Bytes, message: Bytes, receiver: Bytes) {
    exists prefix, n :: |prefix| == PREFIX && 1 <= |message| < TWO_TO_THE_32
      && IsPadded(value, Frame(prefix, message, receiver), n)
  }

  /** The parts of a plaintext as decryptMessage cuts it. */
  lemma CutFrame(plaintext: Bytes, length: nat)
    requires |plaintext| >= 21 && length == ReadBigEndian(plaintext[PREFIX..HEADER]) && HEADER + length <= |plaintext|
    ensures length < TWO_TO_THE_32
    ensures plaintext == Frame(plaintext[..PREFIX], plaintext[HEADER..HEADER + length], plaintext[HEADER + length..])
  {
    ReadIsBigEndian(plaintext[PREFIX..HEADER]);
    assert plaintext == plaintext[..PREFIX] + plaintext[PREFIX..HEADER] + plaintext[HEADER..HEADER + length]
      + plaintext[HEADER + length..];
  }

  lemma FrameParts(prefix: Bytes, message: Bytes, receiver: Bytes, plaintext: Bytes)
    requires |prefix| == PREFIX && |message| < TWO_TO_THE_32 && plaintext == Frame(prefix, message, receiver)
    ensures |plaintext| == HEADER + |message| + |receiver|
    ensures ReadBigEndian(plaintext[PREFIX..HEADER]) == |message|
    ensures plaintext[HEADER..HEADER + |message|] == message && plaintext[HEADER + |message|..] == receiver
  {
    BigEndianRoundTrip(|message|);
    assert plaintext[PREFIX..HEADER] == BigEndian(|message|);
  }

  /** What the value carries is read off it: there is at most one message, and the receiver must be the expected one. */
  lemma CarriedIsCut(value: Bytes, plaintext: Bytes, n: nat, message: Bytes, receiver: Bytes)
    requires IsPadded(value, plaintext, n) && Carries(value, message, receiver)
    ensures |plaintext| >= 21 && ReadBigEndian(plaintext[PREFIX..HEADER]) == |message|
      && HEADER + |message| <= |plaintext|
    ensures plaintext[HEADER..HEADER + |message|] == message && plaintext[HEADER + |message|..] == receiver
  {
    var prefix, m :| |prefix| == PREFIX && 1 <= |message| < TWO_TO_THE_32
      && IsPadded(value, Frame(prefix, message, receiver), m);
    PaddingIsUnique(value, plaintext, n, Frame(prefix, message, receiver), m);
    FrameParts(prefix, message, receiver, plaintext);
  }

  /** Whatever the value carries for the receiver passes the checks. */
  lemma OnlyCut(value: Bytes, plaintext: Bytes, n: nat, receiver: Bytes)
    requires IsPadded(value, plaintext, n)
    ensures forall message :: Carries(value, message, receiver) ==>
              |plaintext| >= 21 && ReadBigEndian(plaintext[PREFIX..HEADER]) == |message| >= 1
                && HEADER + |message| <= |plaintext|
              && plaintext[HEADER + |message|..] == receiver
  {
    forall message | Carries(value, message, receiver)
      ensures |plaintext| >= 21 && ReadBigEndian(plaintext[PREFIX..HEADER]) == |message| >= 1
        && HEADER + |message| <= |plaintext|
              && plaintext[HEADER + |message|..] == receiver
    {
      CarriedIsCut(value, plaintext, n, message, receiver);
    }
  }

  /** decryptMessage after AES, up to the decoding of the message as UTF-8. It accepts exactly the values that carry a
  message for the expected receiver, and returns that message. */
  method Unframe(padded: Bytes, receiver: Bytes) returns (r: Option<Bytes>)
    ensures r.Some? ==> Carries(padded, r.value, receiver)
    ensures r.None? ==> forall message :: !Carries(padded, message, receiver)
  {
    var stripped := StripPadding(padded);
    if stripped.None? {
      return None;
    }
    var plaintext := stripped.value;
    ghost var n :| IsPadded(padded, plaintext, n);
    OnlyCut(padded, plaintext, n, receiver);
    if |plaintext| < 21 {
      return None;
    }
    var messageLength := ReadBigEndian(plaintext[PREFIX..HEADER]);
    var messageEnd := HEADER + messageLength;
    if messageLength < 1 || messageEnd > |plaintext| {
      return None;
    }
    if plaintext[messageEnd..] != receiver {
      return None;
    }
    CutFrame(plaintext, messageLength);
    r := Some(plaintext[HEADER..messageEnd]);
  }

  /** Unframing inverts framing: a padded frame carries its message, and no other, for its receiver, and no receiver
  else. */
  lemma FrameCarries(prefix: Bytes, message: Bytes, receiver: Bytes, other: Bytes, elsewhere: Bytes)
    requires |prefix| == PREFIX && 1 <= |message| < TWO_TO_THE_32
    ensures Carries(Padded(Frame(prefix, message, receiver)), other, elsewhere)
      <==> other == message && elsewhere == receiver
  {
    var plaintext := Frame(prefix, message, receiver);
    var n := BLOCK - |plaintext| % BLOCK;
    assert IsPadded(Padded(plaintext), plaintext, n);
    if Carries(Padded(plaintext), other, elsewhere) {
      CarriedIsCut(Padded(plaintext), plaintext, n, other, elsewhere);
      FrameParts(prefix, message, receiver, plaintext);
    }
  }
}
