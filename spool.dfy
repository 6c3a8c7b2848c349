/** Whether a handler spools the source object through /tmp or decodes it
    straight from the S3 stream, and the size of the in-memory output buffer.
    Free memory (`Runtime.freeMemory()`) is a parameter. */
module Spool {

  /** Java's `long`. */
  type long = x: int | -0x8000_0000_0000_0000 <= x < 0x8000_0000_0000_0000

  const IntMax: int := 0x7fff_ffff

  /** `5 * 1024 * 1024`. */
  const MinThreshold: int := 5 * 1024 * 1024

  /** The content length the ChatGPT handlers pass on: the value read from
      the metadata is discarded and this constant is used instead. */
  const ChatGptContentLength: long := -1

  /** ChatGPT `shouldUseTmp`: unknown (non-positive) lengths stream; other
      objects spool when they exceed half of the free heap. */
  function ShouldUseTmp(contentLength: long, freeHeap: nat): (b: bool)
    ensures b <==> contentLength > 0 && 2 * contentLength > freeHeap
  {
    if contentLength <= 0 then false else contentLength > freeHeap / 2
  }

  /** The ChatGPT spool branch is dead: the constant length never spools,
      whatever the free heap. */
  lemma ChatGptNeverSpools(freeHeap: nat)
    ensures !ShouldUseTmp(ChatGptContentLength, freeHeap)
  {
  }

  /** Copilot `threshold = Math.max(5 * 1024 * 1024, freeMem / 2)`. */
  function Threshold(freeMem: nat): (t: int)
    ensures t >= MinThreshold && 2 * t >= freeMem - 1
    ensures t == MinThreshold || 2 * t <= freeMem
  {
    if MinThreshold >= freeMem / 2 then MinThreshold else freeMem / 2
  }

  /** Copilot `useTmp = contentLength > threshold`. */
  function UseTmp(contentLength: long, freeMem: nat): (b: bool)
    ensures b <==> contentLength > MinThreshold && 2 * contentLength > freeMem
  {
    contentLength > Threshold(freeMem)
  }

  /** Objects up to 5 MiB, and unknown (non-positive) lengths, never spool. */
  lemma SmallObjectsNeverSpool(contentLength: long, freeMem: nat)
    requires contentLength <= MinThreshold
    ensures !UseTmp(contentLength, freeMem)
  {
  }

  /** The Copilot rule spools only objects the ChatGPT rule would spool. */
  lemma CopilotSpoolsLess(contentLength: long, freeMem: nat)
    ensures UseTmp(contentLength, freeMem) ==> ShouldUseTmp(contentLength, freeMem)
  {
  }

  /** Two reference decisions: 10 MB with 4 MB free spools (threshold 5 MiB);
      1 MB with 100 MB free does not. */
  lemma ReferenceDecisions()
    ensures UseTmp(10_000_000, 4_000_000)
    ensures !UseTmp(1_000_000, 100_000_000)
  {
  }

  /** Java's `(int)` cast of a `long`: the low 32 bits, two's complement. */
  function ToInt(x: long): (r: int)
    ensures -IntMax - 1 <= r <= IntMax
    ensures (r - x) % 0x1_0000_0000 == 0
    ensures -IntMax - 1 <= x <= IntMax ==> r == x
  {
    (x + 0x8000_0000) % 0x1_0000_0000 - 0x8000_0000
  }

  /** Copilot `new ByteArrayOutputStream(Math.max(32 * 1024,
      (int) Math.min(contentLength, Integer.MAX_VALUE)))`: never below
      32 KiB, never above Integer.MAX_VALUE, and the object's own length
      when that lies between the two, even for lengths the cast wraps. */
  function InitialCapacity(contentLength: long): (c: int)
    ensures 32 * 1024 <= c <= IntMax
    ensures 32 * 1024 <= contentLength <= IntMax ==> c == contentLength
  {
    var narrowed := ToInt(if contentLength < IntMax then contentLength else IntMax);
    if 32 * 1024 >= narrowed then 32 * 1024 else narrowed
  }
}
