// The blockchain verification panel: a 32-bit string hash of the prediction
// text and the time, written as "0x" and 64 hex digits, and the list of
// verified predictions it prepends to.

module BlockchainVerification {
  import opened Strings

  const Two32 := 0x1_0000_0000
  const Two31 := 0x8000_0000
  const HashDigits := 64

  predicate IsInt32(x: int) {
    -Two31 <= x < Two31
  }

  /** ECMAScript's ToInt32 on an integral number: wrap into [-2^31, 2^31). */
  function ToInt32(x: int): (r: int)
    ensures IsInt32(r)
    ensures (r - x) % Two32 == 0
  {
    var m := x % Two32;
    if m >= Two31 then m - Two32 else m
  }

  /** Numbers that differ by a multiple of 2^32 wrap to the same value. */
  lemma ToInt32Congruent(x: int, y: int)
    requires (x - y) % Two32 == 0
    ensures ToInt32(x) == ToInt32(y)
  {
    var k := (x - y) / Two32;
    assert x == y + k * Two32;
    ModShift(y, k);
  }

  lemma ModShift(y: int, k: int)
    ensures (y + k * Two32) % Two32 == y % Two32
  {
  }

  lemma ToInt32Identity(x: int)
    requires IsInt32(x)
    ensures ToInt32(x) == x
  {
  }

  /** One round of the loop: `hash = ((hash << 5) - hash) + char; hash = hash & hash`.
      `<<` works on the 32-bit value and yields one, the sum is exact, and
      `& hash` wraps it again. */
  function Step(hash: int, c: char): (h: int)
    ensures IsInt32(h)
  {
    var shifted := ToInt32(ToInt32(hash) * 32);
    ToInt32(ToInt32((shifted - hash) + c as int))
  }

  /** The round is `hash * 31 + char` taken modulo 2^32. */
  lemma StepIsTimes31(hash: int, c: char)
    ensures Step(hash, c) == ToInt32(31 * hash + c as int)
  {
    var t := ToInt32(hash);
    var shifted := ToInt32(t * 32);
    var k := Multiple(t - hash);
    var k1 := Multiple(shifted - t * 32);
    var sum := (shifted - hash) + c as int;
    Distribute(k1, 32 * k);
    assert 32 * (k * Two32) == (32 * k) * Two32;
    assert sum - (31 * hash + c as int) == (k1 + 32 * k) * Two32;
    ModShift(0, k1 + 32 * k);
    ToInt32Congruent(sum, 31 * hash + c as int);
    ToInt32Identity(ToInt32(sum));
  }

  /** A multiple of 2^32 is `k * 2^32` for its quotient `k`. */
  lemma Multiple(x: int) returns (k: int)
    requires x % Two32 == 0
    ensures x == k * Two32
  {
    k := x / Two32;
  }

  lemma Distribute(a: int, b: int)
    ensures (a + b) * Two32 == a * Two32 + b * Two32
  {
  }

  /** The hash of a string: the loop's value after its last character. */
  function Hash(s: string): (h: int)
    ensures IsInt32(h)
  {
    if s == [] then 0 else Step(Hash(s[..|s| - 1]), s[|s| - 1])
  }

  /** `'0x' + Math.abs(hash).toString(16).padStart(64, '0')`. */
  function Render(hash: int): string
    requires IsInt32(hash)
  {
    "0x" + PadStart(NatToBase(if hash < 0 then -hash else hash, 16), HashDigits, '0')
  }

  /** Every rendered hash is "0x" and exactly 64 lower-case hex digits. */
  lemma RenderShape(hash: int)
    requires IsInt32(hash)
    ensures |Render(hash)| == 2 + HashDigits
    ensures Render(hash)[..2] == "0x" && IsLowerHex(Render(hash)[2..])
  {
    var n: nat := if hash < 0 then -hash else hash;
    HexDigitsOf32Bits(n);
    NatToBaseHex(n);
    var digits := NatToBase(n, 16);
    var padded := PadStart(digits, HashDigits, '0');
    assert |padded| == HashDigits;
    assert Render(hash)[2..] == padded;
    forall i | 0 <= i < |padded| ensures IsHexDigit(padded[i]) {
      if i >= |padded| - |digits| {
        assert padded[i] == padded[|padded| - |digits|..][i - (|padded| - |digits|)];
        assert IsHexDigit(digits[i - (|padded| - |digits|)]);
      } else {
        assert padded[i] == '0';
      }
    }
  }

  /** A 32-bit magnitude has at most eight hex digits. */
  lemma HexDigitsOf32Bits(n: nat)
    requires n <= Two31
    ensures |NatToBase(n, 16)| <= 8
  {
    assert Pow(16, 8) == Two32 by {
      assert Pow(16, 2) == 256;
      assert Pow(16, 4) == 16 * (16 * Pow(16, 2));
      assert Pow(16, 8) == 16 * (16 * (16 * (16 * Pow(16, 4))));
    }
    NatToBaseLength(n, 16, 8);
  }

  /** The hash has 32 bits, so at most eight of the 64 digits are
      significant: the first 56 are always zeros. */
  lemma LeadingZeros(hash: int)
    requires IsInt32(hash)
    ensures Render(hash)[2..2 + HashDigits - 8] == seq(HashDigits - 8, _ => '0')
  {
    var n: nat := if hash < 0 then -hash else hash;
    HexDigitsOf32Bits(n);
    var digits := NatToBase(n, 16);
    var padded := PadStart(digits, HashDigits, '0');
    assert |padded| == HashDigits && |padded| - |digits| >= HashDigits - 8;
    var r := Render(hash);
    assert r == "0x" + padded;
    var zeros := r[2..2 + HashDigits - 8];
    forall i | 0 <= i < HashDigits - 8
      ensures zeros[i] == '0'
    {
      assert zeros[i] == r[2 + i] == padded[i];
    }
  }

  /** `Math.abs` maps a hash and its negation to the same digits. */
  lemma SignIsLost(hash: int)
    requires IsInt32(hash) && IsInt32(-hash)
    ensures Render(hash) == Render(-hash)
  {
  }

  /** The empty string hashes to zero, rendered as 64 zeros. */
  lemma EmptyHash()
    ensures Hash("") == 0
    ensures Render(0)[2..] == seq(HashDigits, _ => '0')
  {
    var padded := PadStart("0", HashDigits, '0');
    assert NatToBase(0, 16) == "0" by {
      assert DigitChar(0) == '0';
    }
    assert |padded| == HashDigits;
    assert Render(0)[2..] == padded;
  }

  lemma NextPrefix(s: string, i: nat)
    requires i < |s|
    ensures Hash(s[..i + 1]) == Step(Hash(s[..i]), s[i])
  {
    assert s[..i + 1][..i] == s[..i];
  }

  /** `generateBlockHash` at time `now` (milliseconds). */
  method GenerateBlockHash(data: string, now: nat) returns (r: string)
    ensures r == Render(Hash(data + NatToString(now)))
    ensures |r| == 2 + HashDigits && r[..2] == "0x" && IsLowerHex(r[2..])
  {
    var combined := data + NatToString(now);
    var hash := 0;
    var i := 0;
    while i < |combined|
      invariant 0 <= i <= |combined|
      invariant hash == Hash(combined[..i])
    {
      ghost var before := hash;
      var shifted := ToInt32(ToInt32(hash) * 32);
      hash := (shifted - hash) + combined[i] as int;
      hash := ToInt32(ToInt32(hash));
      assert hash == Step(before, combined[i]);
      NextPrefix(combined, i);
      i := i + 1;
    }
    assert combined[..i] == combined;
    r := Render(hash);
    RenderShape(hash);
  }

  datatype Outcome = Correct | Incorrect | Pending

  datatype VerifiedPrediction = VerifiedPrediction(
    id: string, prediction: string, timestamp: nat, blockHash: string, verified: bool, outcome: Outcome)

  class Panel {
    var predictions: seq<VerifiedPrediction>
    var newPrediction: string

    constructor()
      ensures predictions == [] && newPrediction == ""
    {
      predictions, newPrediction := [], "";
    }

    /** `verifyPrediction`: a verified, pending entry first, and the input cleared. */
    method VerifyPrediction(text: string, now: nat)
      modifies this
      ensures predictions == [VerifiedPrediction(NatToString(now), text, now, Render(Hash(text + NatToString(now))), true, Pending)]
        + old(predictions)
      ensures newPrediction == ""
    {
      var blockHash := GenerateBlockHash(text, now);
      predictions := [VerifiedPrediction(NatToString(now), text, now, blockHash, true, Pending)] + predictions;
      newPrediction := "";
    }

    /** The Verify button: nothing happens while the input is empty. */
    method Submit(now: nat)
      modifies this
      ensures old(newPrediction) == "" ==> predictions == old(predictions) && newPrediction == ""
      ensures old(newPrediction) != "" ==>
        |predictions| == |old(predictions)| + 1
        && predictions[0].prediction == old(newPrediction) && predictions[1..] == old(predictions)
        && newPrediction == ""
    {
      if newPrediction != "" {
        VerifyPrediction(newPrediction, now);
      }
    }
  }
}
