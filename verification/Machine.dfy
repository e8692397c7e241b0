/** The block machine the lowering targets: basic blocks over virtual registers, stack slots, and
    the heap record that survives between two calls of a generator. Around the program stands a
    caller that calls a generator again and again, each time with other contents on the stack. */
module Machine {
  import opened Wrappers
  import opened Ast
  import opened Semantics

  datatype Value = Imm(n: Int64) | Reg(r: nat)

  datatype Instr =
    | Calc(dst: nat, aop: ArithOp, a: Value, b: Value)
    | Compare(dst: nat, cop: CmpOp, a: Value, b: Value)
    | Invert(dst: nat, a: Value)
    | Phi(dst: nat, pred0: nat, v0: Value, pred1: nat, v1: Value)
    | Load(dst: nat, slot: nat)
    | Store(slot: nat, a: Value)
    | LoadSaved(dst: nat, i: nat)
    | StoreSaved(i: nat, a: Value)
    | SetState(state: int)

  datatype Term =
    | Br(to: nat)
    | CondBr(on: Value, yes: nat, no: nat)
    | Ret(result: Option<Value>)
    | Dispatch(done: nat)

  datatype Block = Block(instrs: seq<Instr>, term: Option<Term>)

  const EmptyBlock := Block([], None)

  // The end-of-iteration value a generator returns once it is exhausted.
  const SENTINEL: Int64 := -TWO_63

  /** `resume[k]` is the block the dispatch switch selects in state `k`. */
  datatype Program = Program(blocks: seq<Block>, resume: seq<nat>, gen: bool)

  /** A program with the caller around it: `junk(k)` is what the stack slots hold, before
      anything is stored in them, in the call made after `k` values were returned. */
  datatype Machine = Machine(prog: Program, junk: nat -> map<nat, Int64>)

  // The state number and the saved slots of a generator record.
  datatype Record = Record(state: int, saved: map<nat, Int64>)

  /** `out` collects what the calls of a generator returned. */
  datatype Config =
    | Run(block: nat, pc: nat, prev: nat, regs: map<nat, Int64>, mem: map<nat, Int64>, rec: Record, out: seq<Int64>)
    | Idle(out: seq<Int64>)            // exhausted: every further call returns the sentinel
    | Halt(result: Option<Int64>)
    | Wrong

  function Get(m: map<nat, Int64>, k: nat): Int64 {
    if k in m then m[k] else 0
  }

  function ValueIn(v: Value, regs: map<nat, Int64>): Int64 {
    match v
    case Imm(n) => n
    case Reg(r) => Get(regs, r)
  }

  function Bit(b: bool): Int64 {
    if b then 1 else 0
  }

  function Perform(i: Instr, c: Config): Config
    requires c.Run?
  {
    var d := c.(pc := c.pc + 1);
    match i
    case Calc(r, op, a, b) => d.(regs := c.regs[r := ArithValue(op, ValueIn(a, c.regs), ValueIn(b, c.regs))])
    case Compare(r, op, a, b) => d.(regs := c.regs[r := Bit(CmpHolds(op, ValueIn(a, c.regs), ValueIn(b, c.regs)))])
    case Invert(r, a) => d.(regs := c.regs[r := Bit(ValueIn(a, c.regs) == 0)])
    case Phi(r, p0, v0, p1, v1) =>
      if c.prev == p0 then d.(regs := c.regs[r := ValueIn(v0, c.regs)])
      else if c.prev == p1 then d.(regs := c.regs[r := ValueIn(v1, c.regs)])
      else Wrong
    case Load(r, s) => d.(regs := c.regs[r := Get(c.mem, s)])
    case Store(s, a) => d.(mem := c.mem[s := ValueIn(a, c.regs)])
    case LoadSaved(r, k) => d.(regs := c.regs[r := Get(c.rec.saved, k)])
    case StoreSaved(k, a) => d.(rec := c.rec.(saved := c.rec.saved[k := ValueIn(a, c.regs)]))
    case SetState(n) => d.(rec := c.rec.(state := n))
  }

  function Goto(c: Config, b: nat): Config
    requires c.Run?
  {
    c.(block := b, pc := 0, prev := c.block)
  }

  /** The next call of a generator: nothing but the record survives from the last one. */
  function Call(m: Machine, rec: Record, out: seq<Int64>): Config {
    if rec.state < 0 then Idle(out) else Run(0, 0, 0, map[], m.junk(|out|), rec, out)
  }

  function Leave(m: Machine, t: Term, c: Config): Config
    requires c.Run?
  {
    match t
    case Br(b) => Goto(c, b)
    case CondBr(v, yes, no) => Goto(c, if ValueIn(v, c.regs) != 0 then yes else no)
    case Ret(v) =>
      if !m.prog.gen then Halt(if v.None? then None else Some(ValueIn(v.value, c.regs)))
      else if v.None? then Wrong
      else Call(m, c.rec, c.out + [ValueIn(v.value, c.regs)])
    case Dispatch(done) => Goto(c, if 0 <= c.rec.state < |m.prog.resume| then m.prog.resume[c.rec.state] else done)
  }

  function Step(m: Machine, c: Config): Config {
    match c
    case Run(b, pc, _, _, _, _, _) =>
      if b >= |m.prog.blocks| then Wrong
      else
        var block := m.prog.blocks[b];
        if pc < |block.instrs| then Perform(block.instrs[pc], c)
        else if block.term.Some? then Leave(m, block.term.value, c)
        else Wrong
    case Idle(out) => Idle(out + [SENTINEL])
    case _ => c
  }

  function Steps(m: Machine, c: Config, n: nat): Config
    decreases n
  {
    if n == 0 then c else Steps(m, Step(m, c), n - 1)
  }

  lemma {:induction false} StepsAdd(m: Machine, c: Config, i: nat, j: nat)
    ensures Steps(m, c, i + j) == Steps(m, Steps(m, c, i), j)
    decreases i
  {
    if i > 0 {
      StepsAdd(m, Step(m, c), i - 1, j);
    }
  }
}
