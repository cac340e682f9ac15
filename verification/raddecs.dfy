/** The radio-decoding observation ("raddec") as far as the spatial core
    reads it, and the identifier signatures of the raddec library. */
module Raddecs {
  import opened Wrappers

  /** Separator between an identifier and its type in a signature
      (`Raddec.identifiers.SIGNATURE_SEPARATOR` of the raddec library). */
  const SIGNATURE_SEPARATOR: string := "/"

  /** Event codes of the raddec library (`Raddec.events`) that the default
      engine filters name. */
  const APPEARANCE: int := 0
  const DISPLACEMENT: int := 1
  const KEEPALIVE: int := 3

  /** One receiver's report in an RSSI signature. */
  datatype RssiEntry = RssiEntry(receiverId: string, receiverIdType: int, rssi: int)

  /** An observation. `rssiSignature` is `None` when the property is not an
      array; `position` is `None` when it is not an array of numbers. */
  datatype Raddec = Raddec(
    transmitterId: string,
    transmitterIdType: int,
    rssiSignature: Option<seq<RssiEntry>>,
    position: Option<seq<real>>,
    events: seq<int>)

  function DigitChar(d: int): char
    requires 0 <= d < 10
  {
    "0123456789"[d]
  }

  predicate IsDigit(c: char) {
    '0' <= c <= '9'
  }

  /** Decimal text of a natural number, as JavaScript's `'' + n`. */
  function NaturalText(n: nat): (s: string)
    ensures |s| > 0
    ensures n < 10 <==> |s| == 1
    ensures forall i :: 0 <= i < |s| ==> IsDigit(s[i])
    decreases n
  {
    if n < 10 then [DigitChar(n)] else NaturalText(n / 10) + [DigitChar(n % 10)]
  }

  /** Decimal text of an integer, as JavaScript's `'' + n`: a minus sign
      exactly for negative numbers, digits otherwise. */
  function NumberText(n: int): (s: string)
    ensures |s| > 0
    ensures s[0] == '-' <==> n < 0
    ensures forall i :: 0 < i < |s| ==> IsDigit(s[i])
  {
    if n < 0 then "-" + NaturalText(-n) else NaturalText(n)
  }

  /** Distinct natural numbers have distinct texts. */
  lemma {:induction false} NaturalTextInjective(n: nat, m: nat)
    requires NaturalText(n) == NaturalText(m)
    ensures n == m
    decreases n
  {
    var s := NaturalText(n);
    if n >= 10 {
      assert m >= 10;
      assert DigitChar(n % 10) == s[|s| - 1] == DigitChar(m % 10);
      assert NaturalText(n / 10) == s[..|s| - 1] == NaturalText(m / 10);
      NaturalTextInjective(n / 10, m / 10);
    } else {
      assert DigitChar(n) == s[0] == DigitChar(m);
    }
  }

  /** Distinct integers have distinct texts. */
  lemma NumberTextInjective(n: int, m: int)
    requires NumberText(n) == NumberText(m)
    ensures n == m
  {
    if n < 0 {
      assert NaturalText(-n) == NumberText(n)[1..] == NaturalText(-m);
      NaturalTextInjective(-n, -m);
    } else {
      NaturalTextInjective(n, m);
    }
  }

  /** `id + SIGNATURE_SEPARATOR + idType`: the key of a device or receiver. */
  function IdentifierSignature(id: string, idType: int): (s: string)
    ensures |s| > |id| + 1
    ensures s[..|id|] == id && s[|id|] == SIGNATURE_SEPARATOR[0]
    ensures forall i :: |id| < i < |s| ==> s[i] != SIGNATURE_SEPARATOR[0]
  {
    id + SIGNATURE_SEPARATOR + NumberText(idType)
  }

  /** The signature is unique: it determines both the identifier and its
      type, because the type's text never holds the separator. */
  lemma SignatureIsUnique(id1: string, idType1: int, id2: string, idType2: int)
    requires IdentifierSignature(id1, idType1) == IdentifierSignature(id2, idType2)
    ensures id1 == id2 && idType1 == idType2
  {
    var s := IdentifierSignature(id1, idType1);
    assert |id1| == |id2|;
    assert id1 == s[..|id1|] == id2;
    assert NumberText(idType1) == s[|id1| + 1..] == NumberText(idType2);
    NumberTextInjective(idType1, idType2);
  }
}
