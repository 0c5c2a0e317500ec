/** The stack machine (vm/src/vm.rs): a program counter into a chunk's code
    and a value stack. `run` decodes the instruction at `pc`, moves `pc` past
    it, then executes it, until `Return`. */
module VmMachine {
  import opened Wrappers
  import opened Num
  import opened VmOpCode

  /** The chunk the machine runs: code bytes and a constant pool. */
  datatype Chunk = Chunk(code: seq<byte>, constants: seq<real>)

  /** How `run` ends: `Return` with the popped value, a decode error that
      propagates, or a Rust panic (an index out of range or an `unwrap` of an
      empty stack). */
  datatype Outcome = Returned(value: real) | Failed(error: RuntimeError) | Panicked

  /** The state after one step: carry on from a new pc and stack, or stop. */
  datatype Step = Next(pc: nat, stack: seq<real>) | Halt(outcome: Outcome)

  /** How many values `op` pops from the stack and how many it pushes. */
  function Pops(op: OpCode): nat {
    match op
    case Return => 1
    case Constant(_) => 0
    case Negate => 1
    case _ => 2
  }

  function Pushes(op: OpCode): nat {
    if op.Return? then 0 else 1
  }

  /** The binary operator an arithmetic instruction applies to `a` (second
      from top) and `b` (top). */
  function Arith(op: OpCode, a: real, b: real): (r: real)
    requires op.Add? || op.Subtract? || op.Multiply? || op.Divide?
    ensures op.Add? ==> r == a + b
    ensures op.Subtract? ==> r == a - b
    ensures op.Multiply? ==> r == a * b
    ensures op.Divide? ==> r == Div(a, b)
    ensures op.Divide? && b != 0.0 ==> r * b == a
  {
    match op
    case Add => a + b
    case Subtract => a - b
    case Multiply => a * b
    case Divide => Div(a, b)
  }

  /** Execute `op`, already decoded, with `pc` already advanced past it. */
  function Execute(chunk: Chunk, op: OpCode, pc: nat, stack: seq<real>): (s: Step)
    ensures s.Halt? && s.outcome.Panicked? <==>
              |stack| < Pops(op) || (op.Constant? && (op.index as nat) >= |chunk.constants|)
    ensures s.Halt? && !s.outcome.Panicked? ==> op.Return? && s.outcome == Returned(stack[|stack| - 1])
    ensures s.Next? ==> !op.Return? && s.pc == pc
    ensures s.Next? ==> |s.stack| == |stack| - Pops(op) + Pushes(op)
    ensures s.Next? ==> s.stack[..|stack| - Pops(op)] == stack[..|stack| - Pops(op)]
    ensures s.Next? && op.Constant? ==> s.stack == stack + [chunk.constants[op.index]]
    ensures s.Next? && op.Negate? ==> s.stack == stack[..|stack| - 1] + [-stack[|stack| - 1]]
    ensures s.Next? && (op.Add? || op.Subtract? || op.Multiply? || op.Divide?) ==>
              s.stack == stack[..|stack| - 2] + [Arith(op, stack[|stack| - 2], stack[|stack| - 1])]
  {
    if |stack| < Pops(op) then Halt(Panicked)
    else
      match op
      case Return => Halt(Returned(stack[|stack| - 1]))
      case Constant(i) =>
        if (i as nat) < |chunk.constants| then Next(pc, stack + [chunk.constants[i]]) else Halt(Panicked)
      case Negate => Next(pc, stack[..|stack| - 1] + [-stack[|stack| - 1]])
      case _ =>
        var b := stack[|stack| - 1];
        var a := stack[|stack| - 2];
        Next(pc, stack[..|stack| - 2] + [Arith(op, a, b)])
  }

  /** One iteration of `run`'s loop. */
  function StepAt(chunk: Chunk, pc: nat, stack: seq<real>): (s: Step)
    ensures s.Next? ==> pc < s.pc <= |chunk.code|
    ensures !Decodable(chunk.code, pc) ==> s == Halt(Panicked)
    ensures Decodable(chunk.code, pc) && TryFrom(chunk.code, pc).Err? ==> s == Halt(Failed(TryFrom(chunk.code, pc).error))
    ensures Decodable(chunk.code, pc) && TryFrom(chunk.code, pc).Ok? ==>
              var op := TryFrom(chunk.code, pc).value;
              s == Execute(chunk, op, pc + Size(op), stack)
  {
    if !Decodable(chunk.code, pc) then Halt(Panicked)
    else match TryFrom(chunk.code, pc)
      case Err(e) => Halt(Failed(e))
      case Ok(op) => Execute(chunk, op, pc + Size(op), stack)
  }

  /** What `run` computes from `pc` and `stack`. Every step moves `pc` forward
      and there are no jumps, so the loop always ends. A decode error names
      an unknown byte of the code at or after `pc`. */
  function RunFrom(chunk: Chunk, pc: nat, stack: seq<real>): (r: Outcome)
    ensures r.Failed? ==> exists k :: pc <= k < |chunk.code| && chunk.code[k] > 6 && r.error == UnknownOpcode(chunk.code[k])
    decreases |chunk.code| - pc
  {
    match StepAt(chunk, pc, stack)
    case Halt(o) => o
    case Next(pc', stack') => RunFrom(chunk, pc', stack')
  }

  class VM {
    const chunk: Chunk
    var pc: nat
    var stack: seq<real>

    /** `VM::new`: an empty stack at the given pc. */
    constructor (chunk: Chunk, pc: nat)
      ensures this.chunk == chunk && this.pc == pc && stack == []
    {
      this.chunk := chunk;
      this.pc := pc;
      stack := [];
    }

    /** `run`, without its tracing output. */
    method Run() returns (r: Outcome)
      modifies this
      ensures r == RunFrom(chunk, old(pc), old(stack))
    {
      while true
        invariant RunFrom(chunk, pc, stack) == RunFrom(chunk, old(pc), old(stack))
        decreases |chunk.code| - pc
      {
        var halt := StepOnce();
        if halt.Some? {
          return halt.value;
        }
      }
    }

    /** One pass of the loop: decode at `pc`, advance `pc`, execute. */
    method StepOnce() returns (halt: Option<Outcome>)
      modifies this
      ensures var s := StepAt(chunk, old(pc), old(stack));
              if s.Halt? then halt == Some(s.outcome)
              else halt == None && pc == s.pc && stack == s.stack
    {
      if !Decodable(chunk.code, pc) {
        return Some(Panicked);
      }
      var decoded := TryFrom(chunk.code, pc);
      if decoded.Err? {
        return Some(Failed(decoded.error));
      }
      var insn := decoded.value;
      pc := pc + Size(insn);
      halt := ExecuteInsn(insn);
    }

    /** The `match insn` arm of the loop, over the stack. */
    method ExecuteInsn(insn: OpCode) returns (halt: Option<Outcome>)
      modifies this`stack
      ensures var s := Execute(chunk, insn, pc, old(stack));
              if s.Halt? then halt == Some(s.outcome)
              else halt == None && stack == s.stack
    {
      if |stack| < Pops(insn) {
        return Some(Panicked);
      }
      match insn {
        case Return =>
          var v := stack[|stack| - 1];
          stack := stack[..|stack| - 1];
          return Some(Returned(v));
        case Constant(i) =>
          if (i as nat) >= |chunk.constants| {
            return Some(Panicked);
          }
          stack := stack + [chunk.constants[i]];
        case Negate =>
          var v := -stack[|stack| - 1];
          stack := stack[..|stack| - 1];
          stack := stack + [v];
        case _ =>
          var b := stack[|stack| - 1];
          stack := stack[..|stack| - 1];
          var a := stack[|stack| - 1];
          stack := stack[..|stack| - 1];
          stack := stack + [Arith(insn, a, b)];
      }
      halt := None;
    }
  }

  /** Decoding a well-formed program: written instructions are executed in
      order; a `Return` reached with a value on the stack returns it. */
  lemma RunReturnsTop(chunk: Chunk, before: seq<byte>, stack: seq<real>, after: seq<byte>)
    requires chunk.code == before + Encode(Return) + after && |stack| >= 1
    ensures RunFrom(chunk, |before|, stack) == Returned(stack[|stack| - 1])
  {
    RoundTrip(Return, before, after);
  }

  /** `Return` on an empty stack panics in `unwrap`. */
  lemma ReturnOnEmptyPanics(chunk: Chunk, before: seq<byte>, after: seq<byte>)
    requires chunk.code == before + Encode(Return) + after
    ensures RunFrom(chunk, |before|, []) == Panicked
  {
    RoundTrip(Return, before, after);
  }

  /** Running off the end of the code is an index out of range. */
  lemma RunPastEndPanics(chunk: Chunk, pc: nat, stack: seq<real>)
    requires pc >= |chunk.code|
    ensures RunFrom(chunk, pc, stack) == Panicked
  {
  }

  /** The instruction sequence for `-((a + b) / c)` followed by `Return`:
      three constants, `Add`, `Divide`, `Negate`. */
  function ArithmeticChunk(a: real, b: real, c: real): Chunk {
    Chunk([1, 0, 1, 1, 3, 1, 2, 6, 2, 0], [a, b, c])
  }

  lemma ArithmeticFirstSteps(a: real, b: real, c: real)
    ensures StepAt(ArithmeticChunk(a, b, c), 0, []) == Next(2, [a])
    ensures StepAt(ArithmeticChunk(a, b, c), 2, [a]) == Next(4, [a, b])
    ensures StepAt(ArithmeticChunk(a, b, c), 4, [a, b]) == Next(5, [a + b])
  {
    var ch := ArithmeticChunk(a, b, c);
    assert StepAt(ch, 0, []) == Next(2, [a]);
    assert StepAt(ch, 2, [a]) == Next(4, [a, b]);
  }

  lemma ArithmeticLastSteps(a: real, b: real, c: real)
    requires c != 0.0
    ensures StepAt(ArithmeticChunk(a, b, c), 5, [a + b]) == Next(7, [a + b, c])
    ensures StepAt(ArithmeticChunk(a, b, c), 7, [a + b, c]) == Next(8, [(a + b) / c])
    ensures StepAt(ArithmeticChunk(a, b, c), 8, [(a + b) / c]) == Next(9, [-((a + b) / c)])
  {
    var ch := ArithmeticChunk(a, b, c);
    assert StepAt(ch, 5, [a + b]) == Next(7, [a + b, c]);
    assert StepAt(ch, 7, [a + b, c]) == Next(8, [(a + b) / c]);
  }

  /** Running that chunk leaves the value of the expression. */
  lemma ArithmeticProgram(a: real, b: real, c: real)
    requires c != 0.0
    ensures RunFrom(ArithmeticChunk(a, b, c), 0, []) == Returned(-((a + b) / c))
  {
    var ch := ArithmeticChunk(a, b, c);
    var v := -((a + b) / c);
    ArithmeticFirstSteps(a, b, c);
    ArithmeticLastSteps(a, b, c);
    assert RunFrom(ch, 9, [v]) == Returned(v);
    assert RunFrom(ch, 8, [(a + b) / c]) == Returned(v);
    assert RunFrom(ch, 7, [a + b, c]) == Returned(v);
    assert RunFrom(ch, 5, [a + b]) == Returned(v);
    assert RunFrom(ch, 4, [a, b]) == Returned(v);
    assert RunFrom(ch, 2, [a]) == Returned(v);
  }
}
