/**
 * What the testbench does to the simulated device, flattened into a trace.
 *
 * The testbench interleaves writes to the device's input signals with waits:
 * a fixed delay in nanoseconds or the next rising edge of the clock. Each of
 * these is one step of the trace, in the order the testbench performs them.
 */
module SimTrace {

  /** The device inputs the testbench drives. */
  datatype Signal = Rx | RstN | TxStart | TxData

  datatype Step =
    | Assign(signal: Signal, value: int)  // `signal.value = value`
    | Delay(ns: nat)                      // `await Timer(ns, units="ns")`
    | RisingEdge                          // `await RisingEdge(clk)`

  /** Each level driven on `sig` in turn, every one held for `hold` ns. */
  function Timed(sig: Signal, levels: seq<int>, hold: nat): (r: seq<Step>)
    ensures |r| == 2 * |levels|
  {
    if levels == [] then []
    else [Assign(sig, levels[0]), Delay(hold)] + Timed(sig, levels[1..], hold)
  }

  /** `n` successive waits for a rising clock edge. */
  function EdgeWaits(n: nat): seq<Step>
  {
    seq(n, _ => RisingEdge)
  }

  /** Simulated time spent in fixed delays. */
  function Elapsed(t: seq<Step>): nat
  {
    if t == [] then 0
    else (if t[0].Delay? then t[0].ns else 0) + Elapsed(t[1..])
  }

  /** Number of rising clock edges waited for. */
  function Edges(t: seq<Step>): nat
  {
    if t == [] then 0
    else (if t[0].RisingEdge? then 1 else 0) + Edges(t[1..])
  }

  /** The values written to `sig`, in order. */
  function Driven(t: seq<Step>, sig: Signal): seq<int>
  {
    if t == [] then []
    else (if t[0].Assign? && t[0].signal == sig then [t[0].value] else []) + Driven(t[1..], sig)
  }

  lemma {:induction false} ElapsedAppend(a: seq<Step>, b: seq<Step>)
    ensures Elapsed(a + b) == Elapsed(a) + Elapsed(b)
  {
    if a != [] {
      assert (a + b)[1..] == a[1..] + b;
      ElapsedAppend(a[1..], b);
    } else {
      assert a + b == b;
    }
  }

  lemma {:induction false} EdgesAppend(a: seq<Step>, b: seq<Step>)
    ensures Edges(a + b) == Edges(a) + Edges(b)
  {
    if a != [] {
      assert (a + b)[1..] == a[1..] + b;
      EdgesAppend(a[1..], b);
    } else {
      assert a + b == b;
    }
  }

  lemma {:induction false} DrivenAppend(a: seq<Step>, b: seq<Step>, sig: Signal)
    ensures Driven(a + b, sig) == Driven(a, sig) + Driven(b, sig)
  {
    if a != [] {
      assert (a + b)[1..] == a[1..] + b;
      DrivenAppend(a[1..], b, sig);
    } else {
      assert a + b == b;
    }
  }

  /** Elapsed time, edges and the writes to `sig` add up over the parts of
      a trace. */
  lemma StepsAppend(a: seq<Step>, b: seq<Step>, sig: Signal)
    ensures Elapsed(a + b) == Elapsed(a) + Elapsed(b)
    ensures Edges(a + b) == Edges(a) + Edges(b)
    ensures Driven(a + b, sig) == Driven(a, sig) + Driven(b, sig)
  {
    ElapsedAppend(a, b);
    EdgesAppend(a, b);
    DrivenAppend(a, b, sig);
  }

  /** What a single step contributes. */
  lemma OneStep(e: Step, sig: Signal)
    ensures Elapsed([e]) == if e.Delay? then e.ns else 0
    ensures Edges([e]) == if e.RisingEdge? then 1 else 0
    ensures Driven([e], sig) == if e.Assign? && e.signal == sig then [e.value] else []
  {
    assert [e][1..] == [];
  }

  /** Driving two runs of levels one after the other is driving their
      concatenation. */
  lemma {:induction false} TimedAppend(sig: Signal, a: seq<int>, b: seq<int>, hold: nat)
    ensures Timed(sig, a + b, hold) == Timed(sig, a, hold) + Timed(sig, b, hold)
  {
    if a != [] {
      assert (a + b)[1..] == a[1..] + b;
      TimedAppend(sig, a[1..], b, hold);
    } else {
      assert a + b == b;
    }
  }

  /** A timed run holds each of its levels for `hold` ns and waits for no
      clock edge. */
  lemma {:induction false} TimedDuration(sig: Signal, levels: seq<int>, hold: nat)
    ensures Elapsed(Timed(sig, levels, hold)) == |levels| * hold
    ensures Edges(Timed(sig, levels, hold)) == 0
  {
    if levels != [] {
      var head: seq<Step> := [Assign(sig, levels[0]), Delay(hold)];
      var rest := Timed(sig, levels[1..], hold);
      TimedDuration(sig, levels[1..], hold);
      assert Timed(sig, levels, hold) == head + rest;
      assert head[1..][1..] == [];
      ElapsedAppend(head, rest);
      EdgesAppend(head, rest);
      assert |levels| * hold == hold + |levels[1..]| * hold;
    }
  }

  /** A timed run writes exactly `levels` to `sig`, and nothing to any other
      signal. */
  lemma {:induction false} TimedWrites(sig: Signal, levels: seq<int>, hold: nat, other: Signal)
    ensures Driven(Timed(sig, levels, hold), other) == if other == sig then levels else []
  {
    if levels != [] {
      var head: seq<Step> := [Assign(sig, levels[0]), Delay(hold)];
      var rest := Timed(sig, levels[1..], hold);
      TimedWrites(sig, levels[1..], hold, other);
      assert Timed(sig, levels, hold) == head + rest;
      assert head[1..][1..] == [];
      DrivenAppend(head, rest, other);
      assert levels == [levels[0]] + levels[1..];
    }
  }

  /** Waiting for `n` clock edges takes no fixed delay and writes nothing. */
  lemma {:induction false} EdgeWaitsFacts(n: nat, sig: Signal)
    ensures Edges(EdgeWaits(n)) == n && Elapsed(EdgeWaits(n)) == 0
    ensures Driven(EdgeWaits(n), sig) == []
  {
    if n > 0 {
      EdgeWaitsFacts(n - 1, sig);
      assert EdgeWaits(n)[1..] == EdgeWaits(n - 1);
    }
  }
}
