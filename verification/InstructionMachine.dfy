// The core seen one instruction at a time: a whole instruction (or interrupt entry)
// takes effect in its first cycle, and the core is then busy for the rest of them.
module InstructionMachine {
  import opened Words
  import opened CpuTypes
  import opened Isa

  // s is the architectural state at the end of the work in progress, busy the number of
  // cycles until then, nmi whether an NMI edge is waiting.
  datatype Core = Core(s: Outcome, busy: int, nmi: bool)

  // What the core turns to when it is free.
  datatype Work = ServeNmi | ServeIrq | Execute

  function Choose(c: Core, irq: bool): Work {
    if c.nmi then ServeNmi else if irq && !c.s.r.status.i then ServeIrq else Execute
  }

  function Start(w: Work, s: Outcome): Outcome {
    match w
    case ServeNmi => Interrupt(NMI_VEC, s)
    case ServeIrq => Interrupt(IRQ_VEC, s)
    case Execute => Exec(s)
  }

  function Duration(w: Work, s: Outcome): nat {
    if w.Execute? then Cycles(s) else ENTRY_TICKS
  }

  // One clock tick; held says that some device holds RDY.
  function NextTick(c: Core, held: bool, irq: bool): Core {
    if held then c
    else if c.busy > 0 then c.(busy := c.busy - 1)
    else
      var w := Choose(c, irq);
      Core(Start(w, c.s), Duration(w, c.s) - 1, false)
  }
}
