/**
 * `HasPriorityTrait::priority()`: the priority of a job object, read from its `priority`
 * property when it has one and clamped into 0..255.
 */
module HasPriority {
  import opened Wrappers
  import opened PhpValues
  import opened InteractsWithJobs

  /** `priority()` of an object whose `priority` property is `property` (None when it has no such property). */
  function Priority(property: Option<Value>): (r: int)
    ensures 0 <= r <= MaxPriority
    ensures property.None? ==> r == 0
    ensures property.Some? && IntCast(property.value) < 0 ==> r == 0
    ensures property.Some? && IntCast(property.value) >= MaxPriority ==> r == MaxPriority
    ensures property.Some? && 0 <= IntCast(property.value) <= MaxPriority ==> r == IntCast(property.value)
  {
    var value := if property.Some? then IntCast(property.value) else 0;
    NormalizePriorityValue(value)
  }

  /** The producer clamps priorities again; a trait priority passes through that clamp unchanged. */
  lemma PriorityIsStableUnderProducerClamp(property: Option<Value>)
    ensures NormalizePriorityValue(Priority(property)) == Priority(property)
  {
  }
}
