/** Running cycles back to back.  A cycle whose instruction would read or write
    outside memory, the stack or the key array stops the run with a fault (the
    interpreter raises an index error there). */
module Program {
  import opened Word
  import opened Opcode
  import opened Display
  import opened Machine
  import opened Cpu
  import Graphics
  import Flow

  datatype Outcome =
    | Done(s: State)    // every cycle ran
    | Fault(s: State)   // the next cycle cannot run from this state

  /** One cycle per random byte in `rnds`, the byte `Cxkk` would draw in that cycle. */
  function Run(s: State, rnds: seq<u8>): (r: Outcome)
    requires Valid(s)
    ensures Valid(r.s) && r.s.key == s.key
    ensures r.Fault? ==> !CanStep(r.s)
    decreases |rnds|
  {
    if |rnds| == 0 then Done(s)
    else if !CanStep(s) then Fault(s)
    else Run(Step(s, rnds[0]), rnds[1..])
  }

  /** A run whose first cycle goes from `s` to `t` continues from `t`. */
  lemma RunThrough(s: State, t: State, rnds: seq<u8>)
    requires Valid(s) && CanStep(s) && |rnds| > 0 && Step(s, rnds[0]) == t
    ensures Run(s, rnds) == Run(t, rnds[1..])
  {
  }

  /** Running `a` and then `b` is running `a + b`; a fault in `a` ends the whole run there. */
  lemma {:induction false} RunAppend(s: State, a: seq<u8>, b: seq<u8>)
    requires Valid(s)
    ensures Run(s, a).Done? ==> Run(s, a + b) == Run(Run(s, a).s, b)
    ensures Run(s, a).Fault? ==> Run(s, a + b) == Run(s, a)
    decreases |a|
  {
    if |a| == 0 {
      assert a + b == b;
    } else if CanStep(s) {
      assert (a + b)[0] == a[0];
      assert (a + b)[1..] == a[1..] + b;
      RunAppend(Step(s, a[0]), a[1..], b);
    }
  }

  /** A run never leaves a pixel other than 0 or 1 behind. */
  lemma {:induction false} RunKeepsBinary(s: State, rnds: seq<u8>)
    requires Valid(s) && Binary(s.gfx)
    ensures Binary(Run(s, rnds).s.gfx)
    decreases |rnds|
  {
    if |rnds| > 0 && CanStep(s) {
      Graphics.StepKeepsBinary(s, rnds[0]);
      RunKeepsBinary(Step(s, rnds[0]), rnds[1..]);
    }
  }

  /** Every state the run visits, the last one included, has a stack pointer above `k`. */
  predicate StaysAbove(s: State, rnds: seq<u8>, k: int)
    requires Valid(s)
    decreases |rnds|
  {
    s.sp as int > k && (|rnds| > 0 && CanStep(s) ==> StaysAbove(Step(s, rnds[0]), rnds[1..], k))
  }

  /** A stack slot below every stack pointer of a run is never overwritten by it. */
  lemma {:induction false} FrameKept(s: State, rnds: seq<u8>, k: int)
    requires Valid(s) && 0 <= k < 16 && StaysAbove(s, rnds, k)
    ensures Run(s, rnds).s.stack[k] == s.stack[k]
    decreases |rnds|
  {
    if |rnds| > 0 && CanStep(s) {
      Flow.StepStackFrame(s, rnds[0]);
      FrameKept(Step(s, rnds[0]), rnds[1..], k);
    }
  }

  /** A call at `a`, any subroutine body that never returns past the call's own
      frame, and the matching `00EE` come back to the instruction after the call
      with the stack pointer as before. */
  lemma {:induction false} CallBodyReturn(s: State, a: u12, rnd: u8, body: seq<u8>, rnd': u8)
    requires At(s, Call(a)) && s.sp < 16
    requires StaysAbove(Step(s, rnd), body, s.sp as int)
    requires Run(Step(s, rnd), body).Done?
    requires At(Run(Step(s, rnd), body).s, Ret) && Run(Step(s, rnd), body).s.sp as int == s.sp as int + 1
    ensures var r := Step(Run(Step(s, rnd), body).s, rnd');
      r.pc == After(s, 2) && r.sp == s.sp && r.stack[s.sp] == s.pc
  {
    Flow.CallStep(s, a, rnd);
    var t := Step(s, rnd);
    FrameKept(t, body, s.sp as int);
    var u := Run(t, body).s;
    assert u.stack[s.sp] == s.pc;
    Flow.RetStep(u, rnd');
  }
}
