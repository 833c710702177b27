# UART testbench stimulus, modelled in Dafny

This project models the stimulus side of the cocotb testbench `sim/test_uart.py`
of an FPGA UART (a 50 MHz clock and a 9600 baud serial line). The testbench does
three things to the device under test:

- it pulses the active-low reset `rst_n`;
- it serialises a byte onto the device's receive line `rx`: an idle-high slot, a
  low start bit, the eight data bits least-significant first, and a high stop
  bit, each held for one bit period;
- it runs the scenario `test_uart_tx_rx`. This sets the inputs, resets the
  device and sends `0x5A` on `rx`. It then checks that the device reports
  `0x5A` on `rx_data`, requests a transmission through `tx_data`/`tx_start`,
  and polls `tx_busy` once per rising clock edge until it drops.

Modules, one per concern of that file:

- `UartConfig` (`uart_config.dfy`): the clock and bit periods as exact
  integers. Python's `round` (round half to even) is written out on integers.
- `SimTrace` (`sim_trace.dfy`): a step is a write to a signal, a fixed delay
  or a wait for a rising edge. `Timed` holds a run of levels for equal periods.
  `Elapsed`, `Edges` and `Driven` measure a trace, and lemmas show that they
  add up over concatenation.
- `UartFrame` (`uart_frame.dfy`): `Shr` and `Bit` give the meaning of
  Python's `(byte >> i) & 1` on unbounded integers, including negative ones.
  `Frame` is the 10-slot frame and `Waveform` the 11 levels actually driven.
  `Decode` is how a correct receiver reads a frame. The round trip and its
  converse are proved, and so is the fact that only bits 0 to 7 reach the line.
- `Testbench` (`testbench.dfy`): the class `Dut` holds the inputs the
  testbench writes, plus the trace of everything done to them. The coroutines
  become methods proved against trace functions: `ResetDut`, `UartSendByte`
  with its 8-step loop, the busy poll `AwaitTxDone` with its `while` loop, and
  `TestUartTxRx`.

The byte the device reports on `rx_data` and the successive samples of
`tx_busy` are parameters. The device itself is not part of this model.

The frame is 10 slots; `uart_send_byte` drives an idle-high slot before it, so
it makes 11 writes and lasts 11 bit periods. It accepts any integer and sends
its bits 0 to 7 (`FrameModulo`); it does not reject bytes outside 0 to 255.

## Model

| member | source | states |
|---|---|---|
| `UartConfig.RoundHalfEven` | sim/test_uart.py:16 | the result is the integer nearest to n/d, and the even one at an exact half, as Python's `round` gives |
| `UartConfig.ConstantValues` | sim/test_uart.py:12-16 | `CLK_PERIOD_NS` is exactly 20 (it divides 1e9 exactly). `BIT_TIME_NS` is 104167, the nearest integer to 1e9/9600. No halfway tie arises, so the rounding rule does not matter |
| `Testbench.Dut.SetValue` | sim/test_uart.py:31 | a write `sig.value = v` is appended to the trace; that signal's field now holds v (the last value written) and every other signal keeps its value |
| `Testbench.Dut.AwaitTimer` | sim/test_uart.py:32 | `await Timer(ns)` appends a delay of ns to the trace and changes no signal |
| `Testbench.Dut.AwaitRisingEdge` | sim/test_uart.py:96 | `await RisingEdge(clk)` appends one edge wait to the trace and changes no signal |
| `Testbench.ResetDut` | sim/test_uart.py:19-24 | reset_dut's trace is the reset pulse; afterwards `rst_n` is 1 and every other input is unchanged |
| `Testbench.ResetPulseTiming` | sim/test_uart.py:19-24 | the pulse writes `rst_n` 0 then 1, each held for 5 clock periods: 10 periods (200 ns) in all, no edge waits, no other signal written |
| `UartFrame.Bit` | sim/test_uart.py:40 | each level `(byte >> i) & 1` is 0 or 1, for any integer byte |
| `UartFrame.Frame` | sim/test_uart.py:34-50 | the frame has 10 slots: the start bit 0 in slot 0, data bit i in slot 1+i (LSB first), the stop bit 1 in slot 9 |
| `UartFrame.WaveformSlots` | sim/test_uart.py:30-50 | for every byte, including 0x00 and 0xFF, the 11 driven levels are binary. Slot 0 is idle 1, slot 1 is start 0, slot 2+i is `(byte >> i) & 1`, slot 10 is stop 1 |
| `UartFrame.LsbFirst` | sim/test_uart.py:38-41 | for 0x01 the first data slot is 1 and the last is 0; for 0x80 it is the reverse. So bits go out LSB first |
| `UartFrame.BitModulo` | sim/test_uart.py:40 | for i < 8, bit i of any integer equals bit i of that integer mod 256 |
| `UartFrame.FrameModulo` | sim/test_uart.py:39-40 | only bits 0-7 are ever sent: `Frame(b) == Frame(b % 256)` for every integer b |
| `UartFrame.RoundTrip` | sim/test_uart.py:79-86 | for 0 <= b < 256, decoding the frame of b (data slot 1+i weighted by 2^i) gives b back |
| `UartFrame.DecodeIsFrame` | sim/test_uart.py:84-86 | anything that decodes is the frame of the byte it decodes to, and that byte is below 256. A sequence decodes exactly when it is the frame of some byte |
| `UartFrame.ValueOfBits` | sim/test_uart.py:39-41 | reading back the low n bits of a number below 2^n, LSB first, gives the number |
| `UartFrame.BitsOfValue` | sim/test_uart.py:39-41 | binary digits read LSB first give a value below 2^n whose bits are those digits |
| `Testbench.UartSendByte` | sim/test_uart.py:27-50 | the trace grows by the byte's 11-level waveform on `rx`, one bit period per level, written by the 8-step data loop. `rx` ends at the stop level; no other input changes |
| `Testbench.SendByteTiming` | sim/test_uart.py:31-50 | sending makes exactly 11 writes to `rx` (the waveform), each held for `BIT_TIME_NS`, so it lasts 11 bit periods for every byte. No other signal is written and no edge is waited for |
| `SimTrace.TimedDuration` | sim/test_uart.py:31-50 | a run of levels each held for `hold` ns lasts `count × hold` ns and waits for no clock edge |
| `SimTrace.TimedWrites` | sim/test_uart.py:31-50 | a run of levels on one signal writes exactly those levels, in order, to that signal and nothing to any other |
| `SimTrace.TimedAppend` | sim/test_uart.py:38-50 | driving two runs of levels in turn is the same as driving their concatenation |
| `SimTrace.ElapsedAppend` | sim/test_uart.py:68-82 | the fixed delays of consecutive stimulus parts add up |
| `SimTrace.DrivenAppend` | sim/test_uart.py:61-82 | the writes to a signal in consecutive stimulus parts are concatenated in order |
| `SimTrace.EdgesAppend` | sim/test_uart.py:94-101 | the edge waits of consecutive stimulus parts add up |
| `Testbench.BusyRun` | sim/test_uart.py:100-101 | the count is the number of leading high `tx_busy` samples: all before it are high, and the sample at it (if any) is low |
| `Testbench.AwaitTxDone` | sim/test_uart.py:99-101 | the poll waits one rising edge per high sample and stops at the first low sample, with no timeout. It waits exactly `BusyRun(busy)` edges |
| `SimTrace.EdgeWaitsFacts` | sim/test_uart.py:100-101 | k edge waits count as k rising edges, take no fixed delay and write nothing |
| `Testbench.InitializeInputs` | sim/test_uart.py:61-65 | `rx`=1, `tx_start`=0, `tx_data`=0, `rst_n`=1 are written in that order |
| `Testbench.InitialLevelsFacts` | sim/test_uart.py:61-65 | the initial levels are one write per input, taking no time |
| `Testbench.RxTest` | sim/test_uart.py:70-86 | the scenario idles 3 bit periods, sends 0x5A and settles 12 bit periods. The check passes exactly when the reported `rx_data` equals 0x5A; otherwise it fails with the expected and received values. Afterwards `rx` is at the stop level and every other input is unchanged |
| `Testbench.RxDriveFacts` | sim/test_uart.py:76-82 | the receive part drives exactly the byte's waveform on `rx`, writes nothing else and lasts 3 + 11 + 12 = 26 bit periods |
| `Testbench.RxStimulusFacts` | sim/test_uart.py:61-82 | up to the check, the writes to `rst_n` are 1, 0, 1 in that order (the reset) and `rx` carries only the idle level and then the byte's waveform. This takes 10 clock periods plus 26 bit periods, with no edge waits |
| `Testbench.RxStimulusWrites` | sim/test_uart.py:61-82 | the writes to each signal up to the check are those of the initial levels, then the reset pulse, then the receive part |
| `Testbench.RxStimulusDecodes` | sim/test_uart.py:79-86 | the frame that follows the idle level on `rx` decodes to the byte the check expects. So a device that reads frames correctly passes the check |
| `Testbench.TxTest` | sim/test_uart.py:88-106 | the transmit part's trace is the strobe, `BusyRun(tx_busy)` edge waits and 12 bit periods of settling. Afterwards `tx_data` holds 0x5A, `tx_start` is low, and `rx` and `rst_n` are unchanged |
| `Testbench.TxStrobeFacts` | sim/test_uart.py:94-97 | `tx_data` is set to the byte, then `tx_start` is written 1 and then 0 with exactly one rising edge between them |
| `Testbench.TxStimulusFacts` | sim/test_uart.py:94-106 | `tx_start` is high for exactly one rising edge. The transmit part waits `k + 1` edges for `k` high busy samples and otherwise lasts 12 bit periods |
| `Testbench.TestUartTxRx` | sim/test_uart.py:53-108 | the scenario passes exactly when the device reports the byte it was sent. A mismatch ends it after the receive stimulus; a pass continues with the transmit part, whose poll length is set by `tx_busy`. At the end `rx` is at the stop level, `rst_n` high and `tx_start` low; `tx_data` is 0x5A after a pass and 0 after a mismatch |

## Left out

- The background clock started with `cocotb.start_soon` (line 59) is not modelled. It is an endless concurrent process owned by the cocotb library, so waits for a rising edge are counted, not timed.
- The cocotb scheduler and `async`/`await` are left out. Each write and wait becomes one step of a sequential trace.
- Writes that are not separated by a wait are each one step of the trace, but cocotb applies them together when the coroutine yields, so the device sees only the last value written to each signal. For example, the `rst_n` high written at line 65 is followed by the low written at line 21 with no wait between them, so the device sees `rst_n` low from time 0.
- The device under test is external (its HDL is not part of this model). `rx_data` and the `tx_busy` samples are inputs. The emitted `tx` waveform is not decoded, as in the testbench itself.
- `Testbench.AwaitTxDone`: requires that some busy sample is low. The testbench has no timeout, so if the device never lowers `tx_busy` the test hangs, and a terminating method cannot express that.
- `Testbench.TxTest`: requires that some busy sample is low, for the same reason as `AwaitTxDone`, whose poll it runs.
- `Testbench.TestUartTxRx`: requires a low busy sample only when the receive check passes, since only then does the scenario reach the poll.
- Logging (lines 56, 74, 92, 103, 108) is left out. The formatted assertion message becomes the `Fail(expected, got)` outcome.
- The commented-out MSB-first loop (lines 43-46) is disabled code and is not modelled.
- Floating-point division for the periods is replaced by the exact integers it yields (20 ns and 104167 ns).
- The initial X/Z levels of the simulator's signals are not modelled: the `Dut` constructor leaves the fields unconstrained.
- Comparing `rx_data` as a cocotb value with unknown bits is modelled as integer equality.
- `Testbench.ResetDut`: takes the whole device and writes only its `rst_n`; the Python function receives the `rst_n` handle alone.
