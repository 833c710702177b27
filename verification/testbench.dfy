/**
 * The cocotb testbench that drives the UART device: the reset pulse, the
 * serial driver for the receive path, and the top-level scenario that checks
 * the received byte and then waits for a transmission to finish.
 *
 * The device's input signals are the fields of a `Dut` object; every write
 * and every wait is appended to its trace. What the device does in reply
 * (the byte it reports on `rx_data`, the samples of `tx_busy`) is not
 * modelled: it comes in as parameters.
 */
module Testbench {

  import opened UartConfig
  import opened SimTrace
  import opened UartFrame

  /** The device under test, as the testbench sees it: the inputs it drives
      and the history of what it has done to them. */
  class Dut {
    var rx: int
    var rstN: int
    var txStart: int
    var txData: int
    var trace: seq<Step>

    /** The value the signal currently holds. */
    function Current(sig: Signal): int
      reads this`rx, this`rstN, this`txStart, this`txData
    {
      match sig
      case Rx => rx
      case RstN => rstN
      case TxStart => txStart
      case TxData => txData
    }

    /** Before the test starts nothing has been written; the signals' initial
        levels are whatever the simulator gives them. */
    constructor ()
      ensures trace == []
    {
      trace := [];
    }

    /** `sig.value = v`, recorded as one step of the trace; the field holds the
        last value written. */
    method SetValue(sig: Signal, v: int)
      modifies this
      ensures trace == old(trace) + [Assign(sig, v)]
      ensures Current(sig) == v
      ensures forall other :: other != sig ==> Current(other) == old(Current(other))
      ensures sig != Rx ==> rx == old(rx)
      ensures sig != RstN ==> rstN == old(rstN)
      ensures sig != TxStart ==> txStart == old(txStart)
      ensures sig != TxData ==> txData == old(txData)
    {
      match sig {
        case Rx => rx := v;
        case RstN => rstN := v;
        case TxStart => txStart := v;
        case TxData => txData := v;
      }
      trace := trace + [Assign(sig, v)];
    }

    /** `await Timer(ns, units="ns")`: time passes and no signal changes. */
    method AwaitTimer(ns: nat)
      modifies this`trace
      ensures trace == old(trace) + [Delay(ns)]
    {
      trace := trace + [Delay(ns)];
    }

    /** `await RisingEdge(dut.clk)`: the next rising clock edge. */
    method AwaitRisingEdge()
      modifies this`trace
      ensures trace == old(trace) + [RisingEdge]
    {
      trace := trace + [RisingEdge];
    }
  }

  /** What `reset_dut` does: `rst_n` low for five clock periods, then high for
      five more. */
  function ResetPulse(): seq<Step>
  {
    Timed(RstN, [0, 1], 5 * ClkPeriodNs)
  }

  /** reset_dut: the active-low reset pulse; it leaves `rst_n` high and every
      other signal as it was. */
  method ResetDut(dut: Dut)
    modifies dut
    ensures dut.trace == old(dut.trace) + ResetPulse()
    ensures dut.rstN == 1
    ensures forall sig :: sig != RstN ==> dut.Current(sig) == old(dut.Current(sig))
  {
    var hold := 5 * ClkPeriodNs;
    dut.SetValue(RstN, 0);
    dut.AwaitTimer(hold);
    dut.SetValue(RstN, 1);
    dut.AwaitTimer(hold);
    assert [0, 1][1..] == [1] && [1][1..] == [];
    assert Timed(RstN, [1], hold) == [Assign(RstN, 1), Delay(hold)];
    assert ResetPulse() == [Assign(RstN, 0), Delay(hold), Assign(RstN, 1), Delay(hold)];
  }

  /** The reset pulse holds `rst_n` low for exactly five clock periods and
      high for five more, ten clock periods (200 ns) in all; it writes no
      other signal and waits for no clock edge. */
  lemma ResetPulseTiming(sig: Signal)
    ensures ResetPulse() == [Assign(RstN, 0), Delay(5 * ClkPeriodNs), Assign(RstN, 1), Delay(5 * ClkPeriodNs)]
    ensures Driven(ResetPulse(), sig) == if sig == RstN then [0, 1] else []
    ensures Elapsed(ResetPulse()) == 10 * ClkPeriodNs == 200
    ensures Edges(ResetPulse()) == 0
  {
    ConstantValues();
    TimedDuration(RstN, [0, 1], 5 * ClkPeriodNs);
    TimedWrites(RstN, [0, 1], 5 * ClkPeriodNs, sig);
    assert [0, 1][1..] == [1] && [1][1..] == [];
    assert Timed(RstN, [1], 5 * ClkPeriodNs) == [Assign(RstN, 1), Delay(5 * ClkPeriodNs)];
  }

  /** uart_send_byte: drives the byte's waveform on `rx`, one level per bit
      period, and touches no other signal. */
  method UartSendByte(dut: Dut, byte: int)
    modifies dut
    ensures dut.trace == old(dut.trace) + Timed(Rx, Waveform(byte), BitTimeNs)
    ensures dut.rx == StopBit
    ensures forall sig :: sig != Rx ==> dut.Current(sig) == old(dut.Current(sig))
  {
    dut.SetValue(Rx, Idle);
    dut.AwaitTimer(BitTimeNs);
    dut.SetValue(Rx, StartBit);
    dut.AwaitTimer(BitTimeNs);
    ghost var head := [Idle, StartBit];
    assert dut.trace == old(dut.trace) + Timed(Rx, head, BitTimeNs);
    for i := 0 to DataBitCount
      invariant dut.trace == old(dut.trace) + Timed(Rx, head + DataBits(byte)[..i], BitTimeNs)
      invariant forall sig :: sig != Rx ==> dut.Current(sig) == old(dut.Current(sig))
    {
      dut.SetValue(Rx, Bit(byte, i));
      dut.AwaitTimer(BitTimeNs);
      TimedAppend(Rx, head + DataBits(byte)[..i], [Bit(byte, i)], BitTimeNs);
      assert DataBits(byte)[..i + 1] == DataBits(byte)[..i] + [Bit(byte, i)];
      assert head + DataBits(byte)[..i + 1] == head + DataBits(byte)[..i] + [Bit(byte, i)];
    }
    dut.SetValue(Rx, StopBit);
    dut.AwaitTimer(BitTimeNs);
    TimedAppend(Rx, head + DataBits(byte), [StopBit], BitTimeNs);
    assert DataBits(byte)[..DataBitCount] == DataBits(byte);
    assert Waveform(byte) == head + DataBits(byte) + [StopBit];
  }

  /** Sending any byte makes exactly 11 writes to `rx` (the byte's waveform),
      each held for one bit period, so it lasts 11 bit periods; it writes no
      other signal and waits for no clock edge. */
  lemma SendByteTiming(byte: int, sig: Signal)
    ensures Driven(Timed(Rx, Waveform(byte), BitTimeNs), sig) == if sig == Rx then Waveform(byte) else []
    ensures |Driven(Timed(Rx, Waveform(byte), BitTimeNs), Rx)| == 11
    ensures Elapsed(Timed(Rx, Waveform(byte), BitTimeNs)) == 11 * BitTimeNs
    ensures Edges(Timed(Rx, Waveform(byte), BitTimeNs)) == 0
  {
    WaveformSlots(byte);
    TimedDuration(Rx, Waveform(byte), BitTimeNs);
    TimedWrites(Rx, Waveform(byte), BitTimeNs, sig);
    TimedWrites(Rx, Waveform(byte), BitTimeNs, Rx);
  }

  /** The number of leading high samples of `tx_busy`. */
  function BusyRun(busy: seq<bool>): (k: nat)
    ensures k <= |busy|
    ensures forall j :: 0 <= j < k ==> busy[j]
    ensures k < |busy| ==> !busy[k]
  {
    if busy == [] || !busy[0] then 0 else 1 + BusyRun(busy[1..])
  }

  /** The poll `while dut.tx_busy.value == 1: await RisingEdge(dut.clk)`.
      `busy[k]` is the level of `tx_busy` read after `k` rising edges; the
      loop waits for one edge per high sample and stops at the first low one.
      It has no timeout: it ends only because the device lowers `tx_busy`. */
  method AwaitTxDone(dut: Dut, busy: seq<bool>) returns (edges: nat)
    requires false in busy
    modifies dut`trace
    ensures edges == BusyRun(busy)
    ensures edges < |busy| && !busy[edges] && forall j :: 0 <= j < edges ==> busy[j]
    ensures dut.trace == old(dut.trace) + EdgeWaits(edges)
  {
    edges := 0;
    while busy[edges]
      invariant edges <= |busy|
      invariant false in busy[edges..]
      invariant forall j :: 0 <= j < edges ==> busy[j]
      invariant dut.trace == old(dut.trace) + EdgeWaits(edges)
      decreases |busy| - edges
    {
      dut.AwaitRisingEdge();
      assert busy[edges..] == [busy[edges]] + busy[edges + 1..];
      edges := edges + 1;
      assert EdgeWaits(edges) == EdgeWaits(edges - 1) + [RisingEdge];
    }
  }

  /** The byte the scenario sends to the receiver and the byte it asks the
      transmitter to send. */
  const TestByteRx: int := 0x5A
  const TestByteTx: int := 0x5A

  /** How a scenario ends: the checked assertion holds, or it fails with the
      expected and the received byte. */
  datatype Outcome = Pass | Fail(expected: int, got: int)

  /** The levels the scenario gives the inputs before the reset: `rx` idle
      high, `tx_start` low, `tx_data` zero, `rst_n` inactive high. */
  function InitialLevels(): seq<Step>
  {
    [Assign(Rx, 1), Assign(TxStart, 0), Assign(TxData, 0), Assign(RstN, 1)]
  }

  /** The receive part for `byte`: three idle bit periods, the byte's
      waveform, and twelve bit periods for the receiver to settle. */
  function RxDrive(byte: int): seq<Step>
  {
    [Delay(3 * BitTimeNs)] + Timed(Rx, Waveform(byte), BitTimeNs) + [Delay(12 * BitTimeNs)]
  }

  /** Everything the scenario does up to the receive check. */
  function RxStimulus(byte: int): seq<Step>
  {
    InitialLevels() + ResetPulse() + RxDrive(byte)
  }

  /** The transmit request: present the byte on `tx_data` and raise
      `tx_start` for one rising clock edge. */
  function TxStrobe(byte: int): seq<Step>
  {
    [Assign(TxData, byte), Assign(TxStart, 1), RisingEdge, Assign(TxStart, 0)]
  }

  /** The transmit part: the request, one rising edge per high `tx_busy`
      sample, then twelve bit periods for the waveform to be recorded. */
  function TxStimulus(byte: int, edges: nat): seq<Step>
  {
    TxStrobe(byte) + EdgeWaits(edges) + [Delay(12 * BitTimeNs)]
  }

  /** The start of test_uart_tx_rx: every input the testbench owns gets a
      defined level. */
  method InitializeInputs(dut: Dut)
    modifies dut
    ensures dut.trace == old(dut.trace) + InitialLevels()
    ensures dut.rx == 1 && dut.txStart == 0 && dut.txData == 0 && dut.rstN == 1
  {
    dut.SetValue(Rx, 1);
    dut.SetValue(TxStart, 0);
    dut.SetValue(TxData, 0);
    dut.SetValue(RstN, 1);
  }

  /** The receive part of test_uart_tx_rx: send the test byte and, once the
      receiver has settled, compare what the device reports on `rx_data`
      (`rxData`) with it. */
  method RxTest(dut: Dut, rxData: int) returns (outcome: Outcome)
    modifies dut
    ensures outcome == if rxData == TestByteRx then Pass else Fail(TestByteRx, rxData)
    ensures dut.trace == old(dut.trace) + RxDrive(TestByteRx)
    ensures dut.rx == StopBit
    ensures forall sig :: sig != Rx ==> dut.Current(sig) == old(dut.Current(sig))
  {
    dut.AwaitTimer(3 * BitTimeNs);
    UartSendByte(dut, TestByteRx);
    dut.AwaitTimer(12 * BitTimeNs);
    outcome := if rxData == TestByteRx then Pass else Fail(TestByteRx, rxData);
  }

  /** The transmit part of test_uart_tx_rx: request the test byte, poll
      `tx_busy` (samples `txBusy`) until it drops, then leave time for the
      waveform to be recorded. Returns the number of edges the poll took. */
  method TxTest(dut: Dut, txBusy: seq<bool>) returns (edges: nat)
    requires false in txBusy
    modifies dut
    ensures edges == BusyRun(txBusy)
    ensures dut.trace == old(dut.trace) + TxStimulus(TestByteTx, edges)
    ensures dut.txData == TestByteTx && dut.txStart == 0
    ensures dut.rx == old(dut.rx) && dut.rstN == old(dut.rstN)
  {
    dut.SetValue(TxData, TestByteTx);
    dut.SetValue(TxStart, 1);
    dut.AwaitRisingEdge();
    dut.SetValue(TxStart, 0);
    edges := AwaitTxDone(dut, txBusy);
    dut.AwaitTimer(12 * BitTimeNs);
  }

  /** test_uart_tx_rx. `rxData` is what the device reports on `rx_data` after
      the settle time and `txBusy` the samples of `tx_busy` during the poll.
      The scenario passes exactly when the device reports the byte it was
      sent; on a mismatch the failed assertion ends it before the transmit
      part. */
  method TestUartTxRx(dut: Dut, rxData: int, txBusy: seq<bool>) returns (outcome: Outcome)
    requires rxData == TestByteRx ==> false in txBusy
    modifies dut
    ensures outcome == Pass <==> rxData == TestByteRx
    ensures outcome.Fail? ==> outcome == Fail(TestByteRx, rxData)
    ensures outcome.Fail? ==> dut.trace == old(dut.trace) + RxStimulus(TestByteRx)
    ensures outcome.Pass? ==>
      dut.trace == old(dut.trace) + RxStimulus(TestByteRx) + TxStimulus(TestByteTx, BusyRun(txBusy))
    ensures dut.rx == StopBit && dut.rstN == 1 && dut.txStart == 0
    ensures dut.txData == if outcome.Pass? then TestByteTx else 0
  {
    InitializeInputs(dut);
    ResetDut(dut);
    assert dut.Current(TxStart) == 0 && dut.Current(TxData) == 0 && dut.Current(RstN) == 1;
    outcome := RxTest(dut, rxData);
    assert dut.Current(TxStart) == 0 && dut.Current(TxData) == 0 && dut.Current(RstN) == 1;
    if outcome.Pass? {
      var _ := TxTest(dut, txBusy);
    }
  }

  /** The initial levels are four writes, one per input, and take no time. */
  lemma InitialLevelsFacts(sig: Signal)
    ensures Driven(InitialLevels(), sig) == [if sig == TxStart || sig == TxData then 0 else 1]
    ensures Elapsed(InitialLevels()) == 0 && Edges(InitialLevels()) == 0
  {
    var a, b, c, d := Assign(Rx, 1), Assign(TxStart, 0), Assign(TxData, 0), Assign(RstN, 1);
    assert InitialLevels() == [a] + [b] + [c] + [d];
    OneStep(a, sig); OneStep(b, sig); OneStep(c, sig); OneStep(d, sig);
    StepsAppend([a], [b], sig);
    StepsAppend([a] + [b], [c], sig);
    StepsAppend([a] + [b] + [c], [d], sig);
  }

  /** The receive part drives on `rx` exactly the byte's waveform, writes no
      other signal, lasts 26 bit periods (3 idle, 11 for the waveform, 12 to
      settle) and waits for no clock edge. */
  lemma RxDriveFacts(byte: int, sig: Signal)
    ensures Driven(RxDrive(byte), sig) == if sig == Rx then Waveform(byte) else []
    ensures Elapsed(RxDrive(byte)) == 26 * BitTimeNs && Edges(RxDrive(byte)) == 0
  {
    var frame := Timed(Rx, Waveform(byte), BitTimeNs);
    var idle: seq<Step> := [Delay(3 * BitTimeNs)];
    var settle: seq<Step> := [Delay(12 * BitTimeNs)];
    SendByteTiming(byte, sig);
    OneStep(idle[0], sig);
    OneStep(settle[0], sig);
    StepsAppend(idle, frame, sig);
    StepsAppend(idle + frame, settle, sig);
  }

  /** Up to the receive check the scenario writes `rst_n` high, low, high
      (the reset pulse) before it drives on `rx`, beyond the idle level, the
      byte's waveform and nothing else; it lasts ten clock periods and 26 bit
      periods and waits for no clock edge. */
  lemma RxStimulusFacts(byte: int)
    ensures Driven(RxStimulus(byte), RstN) == [1, 0, 1]
    ensures Driven(RxStimulus(byte), Rx) == [1] + Waveform(byte)
    ensures Elapsed(RxStimulus(byte)) == 10 * ClkPeriodNs + 26 * BitTimeNs
    ensures Edges(RxStimulus(byte)) == 0
  {
    RxStimulusWrites(byte, RstN);
    RxStimulusWrites(byte, Rx);
  }

  lemma RxStimulusWrites(byte: int, sig: Signal)
    ensures Driven(RxStimulus(byte), sig) == Driven(InitialLevels(), sig) + Driven(ResetPulse(), sig) + Driven(RxDrive(byte), sig)
    ensures Elapsed(RxStimulus(byte)) == 10 * ClkPeriodNs + 26 * BitTimeNs
    ensures Edges(RxStimulus(byte)) == 0
    ensures Driven(InitialLevels(), sig) == [if sig == TxStart || sig == TxData then 0 else 1]
    ensures Driven(ResetPulse(), sig) == if sig == RstN then [0, 1] else []
    ensures Driven(RxDrive(byte), sig) == if sig == Rx then Waveform(byte) else []
  {
    InitialLevelsFacts(sig);
    ResetPulseTiming(sig);
    RxDriveFacts(byte, sig);
    StepsAppend(InitialLevels(), ResetPulse(), sig);
    StepsAppend(InitialLevels() + ResetPulse(), RxDrive(byte), sig);
  }

  /** The frame that reaches `rx` after the idle level decodes to the byte
      the receive check expects, so a device that reads frames correctly
      passes that check. */
  lemma RxStimulusDecodes(byte: int)
    requires 0 <= byte < 256
    ensures |Driven(RxStimulus(byte), Rx)| == 12
    ensures Decode(Driven(RxStimulus(byte), Rx)[2..]) == Some(byte)
  {
    RxStimulusFacts(byte);
    WaveformSlots(byte);
    assert Driven(RxStimulus(byte), Rx)[2..] == Frame(byte);
    RoundTrip(byte);
  }

  /** The transmit request writes the byte to `tx_data`, raises `tx_start`
      and lowers it again after exactly one rising edge. */
  lemma TxStrobeFacts(byte: int, sig: Signal)
    ensures Driven(TxStrobe(byte), sig) ==
      if sig == TxData then [byte] else if sig == TxStart then [1, 0] else []
    ensures Elapsed(TxStrobe(byte)) == 0 && Edges(TxStrobe(byte)) == 1
  {
    var a, b, c, d := Assign(TxData, byte), Assign(TxStart, 1), RisingEdge, Assign(TxStart, 0);
    assert TxStrobe(byte) == [a] + [b] + [c] + [d];
    OneStep(a, sig); OneStep(b, sig); OneStep(c, sig); OneStep(d, sig);
    StepsAppend([a], [b], sig);
    StepsAppend([a] + [b], [c], sig);
    StepsAppend([a] + [b] + [c], [d], sig);
  }

  /** In the transmit part `tx_start` is raised once, held for exactly one
      rising edge and lowered again, after `tx_data` has been set to the byte;
      the poll then adds one edge per high `tx_busy` sample, and the part
      lasts twelve bit periods besides those edges. */
  lemma TxStimulusFacts(byte: int, edges: nat, sig: Signal)
    ensures TxStimulus(byte, edges)[..4] == [Assign(TxData, byte), Assign(TxStart, 1), RisingEdge, Assign(TxStart, 0)]
    ensures Driven(TxStimulus(byte, edges), sig) ==
      if sig == TxData then [byte] else if sig == TxStart then [1, 0] else []
    ensures Edges(TxStimulus(byte, edges)) == edges + 1
    ensures Elapsed(TxStimulus(byte, edges)) == 12 * BitTimeNs
  {
    var settle: seq<Step> := [Delay(12 * BitTimeNs)];
    TxStrobeFacts(byte, sig);
    EdgeWaitsFacts(edges, sig);
    OneStep(settle[0], sig);
    StepsAppend(TxStrobe(byte), EdgeWaits(edges), sig);
    StepsAppend(TxStrobe(byte) + EdgeWaits(edges), settle, sig);
  }
}
