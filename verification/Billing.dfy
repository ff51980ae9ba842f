/** What a stream costs: audio length from PCM bytes, and the characters billed when the client
    leaves early. */
module Billing {
  import opened Arithmetic

  const MaxInt32: int := 0x7fff_ffff

  /** Milliseconds of 16-bit mono audio, cut off at the largest 32-bit value. */
  function DurationMs(bytes: nat, rate: int): (r: nat)
    ensures r <= MaxInt32
  {
    if rate <= 0 then 0
    else
      var ms := bytes / 2 * 1000 / rate;
      if ms > MaxInt32 then MaxInt32 else ms
  }

  /** Delivered audio at 14.5 characters per second, never more than the text. */
  function DeliveredChars(bytes: nat, rate: int, chars: nat): (r: nat)
    ensures r <= chars
    ensures r == chars || 2000 * r <= 29 * DurationMs(bytes, rate) < 2000 * (r + 1)
  {
    var delivered := 29 * DurationMs(bytes, rate) / 2000;
    if delivered > chars then chars else delivered
  }

  /** More audio delivered never costs less. */
  lemma BillMonotone(bytes: nat, more: nat, rate: int, chars: nat)
    requires bytes <= more
    ensures DurationMs(bytes, rate) <= DurationMs(more, rate)
    ensures DeliveredChars(bytes, rate, chars) <= DeliveredChars(more, rate, chars)
  {
    if rate > 0 {
      QuotientOrder(bytes, more, 2);
      QuotientOrder(bytes / 2 * 1000, more / 2 * 1000, rate);
    }
    QuotientOrder(29 * DurationMs(bytes, rate), 29 * DurationMs(more, rate), 2000);
  }
}
