/** Vocabulary shared by the whole model: driver results, errors, the
    outcome types that stand for the C++ exceptions, 32-bit unsigned
    conversion, and the sharing-mode rule used by buffers and swapchains. */
module Vk {

  datatype Option<+T> = None | Some(value: T)

  /** The error a constructor or call throws. */
  datatype Error =
    | RuntimeError(message: string)             // std::runtime_error
    | UnsuccessfulResult(call: string, result: int)  // SATURN_CALL in debug builds
    | MissingFeature(feature: string)           // MissingFeatureException

  /** A value, or the exception thrown instead of returning it. */
  datatype Result<+T> = Ok(value: T) | Err(error: Error)

  /** `void` operations that may throw. */
  datatype Outcome = Pass | Fail(error: Error)

  /** VkResult: VK_SUCCESS is 0, every other value is a failure. */
  type VkResult = int
  const VK_SUCCESS: VkResult := 0

  /** The index of the first result that is not VK_SUCCESS, if any. */
  function FirstFailure(results: seq<VkResult>): (k: Option<nat>)
    ensures k.None? <==> forall i :: 0 <= i < |results| ==> results[i] == VK_SUCCESS
    ensures k.Some? ==> k.value < |results| && results[k.value] != VK_SUCCESS
    ensures k.Some? ==> forall i :: 0 <= i < k.value ==> results[i] == VK_SUCCESS
  {
    if results == [] then None
    else if results[0] != VK_SUCCESS then Some(0)
    else match FirstFailure(results[1..])
         case None => None
         case Some(i) => Some(i + 1)
  }

  const U32_LIMIT: int := 0x1_0000_0000
  /** std::numeric_limits<uint32_t>::max() */
  const U32_MAX: nat := 0xFFFF_FFFF

  type U32 = x: nat | x < U32_LIMIT

  /** The conversion of any C++ integer to uint32_t: reduction modulo 2^32. */
  function ToU32(x: int): (r: U32)
    ensures 0 <= x < U32_LIMIT ==> r == x
    ensures (r - x) % U32_LIMIT == 0
  {
    x % U32_LIMIT
  }

  /** One byte of host or device memory. */
  newtype Byte = x: int | 0 <= x < 256

  /** VkExtent2D and VkOffset2D. */
  datatype Extent2D = Extent2D(width: U32, height: U32)
  datatype Offset2D = Offset2D(x: int, y: int)

  /** VkSharingMode and the queue-family list attached to it. */
  datatype SharingMode = Exclusive | Concurrent

  datatype Sharing = Sharing(mode: SharingMode, queueFamilyIndexCount: nat, queueFamilyIndices: seq<nat>)

  /** Exclusive with no index list when no queue family is shared;
      otherwise concurrent over exactly the given families. */
  function SharingFor(families: seq<nat>): (s: Sharing)
    ensures s.mode == Exclusive <==> families == []
    ensures s.mode == Exclusive ==> s.queueFamilyIndexCount == 0 && s.queueFamilyIndices == []
    ensures s.mode == Concurrent ==> s.queueFamilyIndexCount == |families| && s.queueFamilyIndices == families
  {
    if families == [] then Sharing(Exclusive, 0, [])
    else Sharing(Concurrent, |families|, families)
  }
}
