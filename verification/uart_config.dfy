/**
 * Timing configuration of the UART testbench: a 50 MHz system clock and a
 * 9600 baud serial line, with every duration expressed in nanoseconds.
 *
 * The testbench computes both periods with floating-point division; here they
 * are exact integers. The clock period divides a second exactly, and the bit
 * period is Python's `round` of 1e9 / 9600 (round half to even), written on
 * integers.
 */
module UartConfig {

  const NsPerSecond: nat := 1_000_000_000
  const ClkFreqHz: nat := 50_000_000
  const BaudRate: nat := 9600

  /** Python's `round(n / d)` for a positive divisor: the integer nearest to
      n / d, and the even one of the two when n / d lies exactly halfway. */
  function RoundHalfEven(n: int, d: int): (r: int)
    requires d > 0
    ensures 2 * (n - r * d) <= d && 2 * (r * d - n) <= d
    ensures 2 * (n - r * d) == d || 2 * (r * d - n) == d ==> r % 2 == 0
    ensures n >= 0 ==> r >= 0
  {
    var q, rem := n / d, n % d;
    assert n == q * d + rem;
    assert (q + 1) * d == q * d + d;
    if 2 * rem < d then q
    else if 2 * rem > d then q + 1
    else if q % 2 == 0 then q
    else q + 1
  }

  /** CLK_PERIOD_NS: one period of the system clock. */
  const ClkPeriodNs: nat := NsPerSecond / ClkFreqHz

  /** BIT_TIME_NS: how long one bit is held on the serial line. */
  const BitTimeNs: nat := RoundHalfEven(NsPerSecond, BaudRate)

  /** The configured constants have the values the testbench relies on: the
      clock period is exactly 20 ns, and the bit period is 104167 ns, the
      nearest integer to 104166.67 ns with no halfway tie to break. */
  lemma ConstantValues()
    ensures ClkPeriodNs == 20 && ClkPeriodNs * ClkFreqHz == NsPerSecond
    ensures BitTimeNs == 104167
    ensures 2 * (NsPerSecond % BaudRate) != BaudRate
    ensures (BitTimeNs - 1) * BaudRate < NsPerSecond < BitTimeNs * BaudRate
  {
    var r := BitTimeNs;
    assert NsPerSecond / BaudRate == 104166 && NsPerSecond % BaudRate == 6400;
    assert r == 104167;
  }
}
