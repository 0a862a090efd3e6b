/**
 * The arithmetic and string helpers the producer, the job wrapper and the failed-job
 * store share: priority clamping, delay conversion and message-id generation.
 */
module InteractsWithJobs {
  import opened PhpValues

  /** The largest priority an AMQP message carries. */
  const MaxPriority := 255

  function Max(a: int, b: int): int { if a >= b then a else b }

  function Min(a: int, b: int): int { if a <= b then a else b }

  /** `normalizePriorityValue`: negative values become 0, values from 255 up become 255. */
  function NormalizePriorityValue(value: int): (r: int)
    ensures 0 <= r <= MaxPriority
    ensures value < 0 ==> r == 0
    ensures value >= MaxPriority ==> r == MaxPriority
    ensures 0 <= value <= MaxPriority ==> r == value
  {
    var nonNegative := Max(0, value);
    if nonNegative >= MaxPriority then MaxPriority else nonNegative
  }

  /** The normalised priority is the clamp of the value into 0..255. */
  lemma NormalizeIsClamp(value: int)
    ensures NormalizePriorityValue(value) == Max(0, Min(MaxPriority, value))
  {
  }

  /** Normalising an already normalised priority changes nothing. */
  lemma NormalizeIsIdempotent(value: int)
    ensures NormalizePriorityValue(NormalizePriorityValue(value)) == NormalizePriorityValue(value)
  {
  }

  /**
   * `delayToMilliseconds`: a float is seconds with a fraction and is truncated after
   * scaling; any other value is cast to whole seconds first.
   */
  function DelayToMilliseconds(delay: Value): (ms: int)
    ensures delay.IntV? ==> ms == delay.i * 1000
    ensures delay.FloatV? && delay.r >= 0.0 ==> 0 <= ms && ms as real <= delay.r * 1000.0 < ms as real + 1.0
    ensures delay.FloatV? && delay.r < 0.0 ==> ms <= 0 && ms as real - 1.0 < delay.r * 1000.0 <= ms as real
    ensures !delay.FloatV? ==> ms % 1000 == 0
  {
    if delay.FloatV? then TruncateTowardZero(delay.r * 1000.0) else IntCast(delay) * 1000
  }

  predicate IsHexChar(c: char)
  {
    IsDigit(c) || 'a' <= c <= 'f'
  }

  predicate IsAlphaNumeric(c: char)
  {
    IsDigit(c) || 'a' <= c <= 'z' || 'A' <= c <= 'Z'
  }

  /** A `sha1` digest as PHP prints it: forty lower-case hexadecimal characters. */
  predicate IsSha1Hex(d: string)
  {
    |d| == 40 && forall i | 0 <= i < |d| :: IsHexChar(d[i])
  }

  /** `Str::substr($digest, 0, 8)`. */
  function First8(digest: string): string
  {
    if |digest| <= 8 then digest else digest[..8]
  }

  /** `generateMessageId`: the prefix followed by the first eight characters of the digest of the arguments. */
  function GenerateMessageId(prefix: string, digest: string): (id: string)
    ensures |id| == |prefix| + Min(8, |digest|)
    ensures id[..|prefix|] == prefix
    ensures forall i | 0 <= i < |id| - |prefix| :: id[|prefix| + i] == digest[i]
  {
    prefix + First8(digest)
  }

  /** With a real sha1 digest an id is the prefix and exactly eight letters or digits. */
  lemma GeneratedIdShape(prefix: string, digest: string)
    requires IsSha1Hex(digest)
    ensures |GenerateMessageId(prefix, digest)| == |prefix| + 8
    ensures forall i | |prefix| <= i < |prefix| + 8 :: IsAlphaNumeric(GenerateMessageId(prefix, digest)[i])
  {
    var id := GenerateMessageId(prefix, digest);
    forall i | |prefix| <= i < |prefix| + 8
      ensures IsAlphaNumeric(id[i])
    {
      assert id[|prefix| + (i - |prefix|)] == digest[i - |prefix|];
    }
  }
}
