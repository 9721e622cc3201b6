/**
 * The bit-string handling of the `SignalGenerator` panel in
 * `src/components/SignalGenerator.ts`: filtering typed input down to `0`s and
 * `1`s, turning the configured string into the bit array the encoders
 * consume, the random bit string, input validation, the play / pause / reset
 * state and the sample count of the info panel. `Math.random()` draws are
 * parameters.
 */
module SignalGenerator {
  import opened Numbers
  import LineCoding
  import Sampling

  /** The panel's state: the parts of `SignalGeneratorConfig` its logic reads, and `isPlaying`. */
  datatype Generator = Generator(bitString: string, bitDuration: real, sampleRate: real, isPlaying: bool)

  predicate IsBinaryChar(ch: char) {
    ch == '0' || ch == '1'
  }

  predicate AllBinary(s: string) {
    forall i :: 0 <= i < |s| ==> IsBinaryChar(s[i])
  }

  /** `/^[01]+$/.test(s)`. */
  predicate IsBitString(s: string) {
    |s| > 0 && AllBinary(s)
  }

  // ---------------------------------------------------------------- Input filtering

  /** `validateBitString`: `input.replace(/[^01]/g, '')`. */
  function ValidateBitString(input: string): (r: string)
    ensures AllBinary(r) && |r| <= |input|
  {
    if |input| == 0 then ""
    else (if IsBinaryChar(input[0]) then [input[0]] else "") + ValidateBitString(input[1..])
  }

  /** Filtering works character by character: it distributes over concatenation. */
  lemma {:induction false} ValidateConcat(a: string, b: string)
    ensures ValidateBitString(a + b) == ValidateBitString(a) + ValidateBitString(b)
    decreases |a|
  {
    if |a| == 0 {
      assert a + b == b;
    } else {
      var head := if IsBinaryChar(a[0]) then [a[0]] else "";
      assert (a + b)[0] == a[0] && (a + b)[1..] == a[1..] + b;
      assert ValidateBitString(a + b) == head + ValidateBitString(a[1..] + b);
      ValidateConcat(a[1..], b);
      assert ValidateBitString(a) == head + ValidateBitString(a[1..]);
      assert head + (ValidateBitString(a[1..]) + ValidateBitString(b)) == (head + ValidateBitString(a[1..])) + ValidateBitString(b);
    }
  }

  /** A string is left as it is exactly when it already holds only `0`s and `1`s. */
  lemma {:induction false} ValidateIdentity(s: string)
    ensures ValidateBitString(s) == s <==> AllBinary(s)
    decreases |s|
  {
    if |s| > 0 {
      ValidateIdentity(s[1..]);
      if !IsBinaryChar(s[0]) {
        assert |ValidateBitString(s)| < |s|;
      }
    }
  }

  /** Filtering twice is filtering once. */
  lemma ValidateIdempotent(s: string)
    ensures ValidateBitString(ValidateBitString(s)) == ValidateBitString(s)
  {
    ValidateIdentity(ValidateBitString(s));
  }

  /** Filtering keeps the count of each binary digit and drops every other character. */
  lemma {:induction false} ValidateKeepsDigits(s: string)
    ensures multiset(ValidateBitString(s))['0'] == multiset(s)['0']
    ensures multiset(ValidateBitString(s))['1'] == multiset(s)['1']
    ensures |ValidateBitString(s)| == multiset(s)['0'] + multiset(s)['1']
    decreases |s|
  {
    if |s| > 0 {
      ValidateKeepsDigits(s[1..]);
      assert s == [s[0]] + s[1..];
      assert multiset(s) == multiset{s[0]} + multiset(s[1..]);
    }
  }

  /** The input handler: the filtered input becomes the configured bit string. */
  function OnBitInput(g: Generator, input: string): (r: Generator)
    ensures AllBinary(r.bitString)
    ensures r == g.(bitString := r.bitString)
  {
    g.(bitString := ValidateBitString(input))
  }

  // ---------------------------------------------------------------- Bit arrays

  const DefaultBits: string := "10110100"

  /** `bit => parseInt(bit)` over a string of `0`s and `1`s. */
  function ParseBits(s: string): (bits: seq<int>)
    requires AllBinary(s)
    ensures |bits| == |s|
    ensures LineCoding.Binary(bits)
  {
    seq(|s|, i requires 0 <= i < |s| => if s[i] == '1' then 1 else 0)
  }

  /** Writing bits back as characters. */
  function ShowBits(bits: seq<int>): (s: string)
    ensures |s| == |bits|
  {
    seq(|bits|, i requires 0 <= i < |bits| => if bits[i] == 1 then '1' else '0')
  }

  /** Parsing is undone by writing the bits back. */
  lemma ShowParse(s: string)
    requires AllBinary(s)
    ensures ShowBits(ParseBits(s)) == s
  {
  }

  /** `getBitArray`: the configured string, or `10110100` when it is empty or not purely binary, as 0/1 numbers. */
  function GetBitArray(g: Generator): (bits: seq<int>)
    ensures LineCoding.Binary(bits) && |bits| > 0
    ensures IsBitString(g.bitString) ==> ShowBits(bits) == g.bitString
    ensures !IsBitString(g.bitString) ==> ShowBits(bits) == DefaultBits
  {
    var bitString := if |g.bitString| == 0 then DefaultBits else g.bitString;
    if !IsBitString(bitString) then ParseBits(DefaultBits) else ParseBits(bitString)
  }

  /** `validateInput`: false for an empty string or one with a character other than `0` and `1`. */
  function ValidateInput(g: Generator): (ok: bool)
    ensures ok <==> |g.bitString| > 0 && forall i :: 0 <= i < |g.bitString| ==> IsBinaryChar(g.bitString[i])
  {
    if |g.bitString| == 0 then false
    else IsBitString(g.bitString)
  }

  /** Typed input passes validation exactly when it contains at least one `0` or `1`. */
  lemma TypedInputValid(g: Generator, input: string)
    ensures ValidateInput(OnBitInput(g, input)) <==> multiset(input)['0'] + multiset(input)['1'] > 0
  {
    ValidateKeepsDigits(input);
  }

  // ---------------------------------------------------------------- Random bits

  /** `Math.floor(r * 8) + 4`, the length of a random bit string for the draw `r`. */
  function RandomLength(r: real): int {
    (r * 8.0).Floor + 4
  }

  /** A draw from `[0, 1)` gives a length from 4 to 11. */
  lemma RandomLengthRange(r: real)
    requires 0.0 <= r < 1.0
    ensures 4 <= RandomLength(r) <= 11
  {
    assert 0.0 <= r * 8.0 < 8.0;
  }

  /**
   * `generateRandomBits`: `lengthDraw` is the first `Math.random()` and
   * `draw(i)` the one for bit `i`; a draw above 0.5 gives a `1`.
   */
  method GenerateRandomBits(lengthDraw: real, draw: nat -> real) returns (bits: string)
    ensures |bits| == Max(0.0, RandomLength(lengthDraw) as real) as int
    ensures forall i :: 0 <= i < |bits| ==> (bits[i] == '1' <==> draw(i) > 0.5)
    ensures AllBinary(bits)
    ensures 0.0 <= lengthDraw < 1.0 ==> 4 <= |bits| <= 11 && IsBitString(bits)
  {
    var length := RandomLength(lengthDraw);
    bits := "";
    var i := 0;
    while i < length
      invariant 0 <= i && (length >= 0 ==> i <= length) && (length < 0 ==> i == 0)
      invariant |bits| == i
      invariant forall k :: 0 <= k < i ==> (bits[k] == '1' <==> draw(k) > 0.5) && IsBinaryChar(bits[k])
    {
      bits := bits + (if draw(i) > 0.5 then "1" else "0");
      i := i + 1;
    }
    if 0.0 <= lengthDraw < 1.0 {
      RandomLengthRange(lengthDraw);
    }
  }

  // ---------------------------------------------------------------- Play state

  /** `play`: refused (with an alert) while the bit string is empty. */
  function Play(g: Generator): (r: Generator)
    ensures |g.bitString| == 0 ==> r == g
    ensures |g.bitString| > 0 ==> r.isPlaying && r == g.(isPlaying := true)
  {
    if |g.bitString| == 0 then g else g.(isPlaying := true)
  }

  /** `pause`. */
  function Pause(g: Generator): (r: Generator)
    ensures !r.isPlaying && r == g.(isPlaying := false)
  {
    g.(isPlaying := false)
  }

  /** `reset`: pauses; resetting the scene itself is the caller's. */
  function Reset(g: Generator): (r: Generator)
    ensures !r.isPlaying && r.bitString == g.bitString
  {
    Pause(g)
  }

  /** Play and pause are idempotent, reset is pause, and pausing forgets a play. */
  lemma PlayStateLaws(g: Generator)
    ensures Play(Play(g)) == Play(g) && Pause(Pause(g)) == Pause(g)
    ensures Reset(g) == Pause(g)
    ensures Pause(Play(g)) == Pause(g)
    ensures Play(Pause(g)).isPlaying <==> |g.bitString| > 0
  {
  }

  // ---------------------------------------------------------------- Info panel

  /** The info panel's `Math.floor(bitLength * bitDuration * sampleRate)`. */
  function SampleCount(g: Generator): (n: int)
    ensures (n as real) <= (|g.bitString| as real) * g.bitDuration * g.sampleRate < (n as real) + 1.0
  {
    ((|g.bitString| as real) * g.bitDuration * g.sampleRate).Floor
  }

  /**
   * The panel never shows fewer samples than the line encoders produce: they
   * floor per bit (`samplesPerBit`), the panel floors the whole signal. A
   * negative duration or rate is excluded, since the panel then shows a
   * negative count where the encoders produce none.
   */
  lemma SampleCountCoversEncoders(g: Generator)
    requires g.bitDuration * g.sampleRate >= 0.0
    ensures |g.bitString| * Sampling.SamplesPerBit(g.bitDuration, g.sampleRate) <= SampleCount(g)
  {
    var n := |g.bitString|;
    var x := g.bitDuration * g.sampleRate;
    var spb := Sampling.SamplesPerBit(g.bitDuration, g.sampleRate);
    assert (spb as real) <= x;
    assert (n as real) * g.bitDuration * g.sampleRate == (n as real) * x;
    MulRealAtMost(n, spb as real, x);
    assert ((n * spb) as real) == (n as real) * (spb as real);
  }

  lemma MulRealAtMost(n: nat, a: real, b: real)
    requires 0.0 <= a <= b
    ensures (n as real) * a <= (n as real) * b
  {
  }
}
