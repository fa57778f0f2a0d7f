/** The register file of SwiftNes's `CPU` struct: its registers, its 64 KiB
    memory, the guarded stack pointer, the stack operations and the three
    vector loaders. */
module Cpu {
  import opened CpuSpec

  /** The two flags of the status register that the handlers touch:
      interrupt-disable (`i`) and break (`b`). */
  datatype Status = Status(i: bool, b: bool)

  class Cpu {
    /** `Memory` is not declared in Cpu.swift; it is taken to be a flat
        64 KiB byte array owned by this one `Cpu`. */
    const mem: array<UInt8>

    /** `memory.read2byte(at:)`: how a word is assembled from memory is not
        part of this model, so it is a function of the memory contents and
        the address, fixed when the CPU is created. */
    const read2byte: (seq<UInt8>, UInt16) -> UInt16

    var a: UInt8
    var x: UInt8
    var y: UInt8
    var s: UInt8
    var p: Status
    var pc: UInt16

    /** The object invariant: the memory spans the address space and the
        stack pointer is never 0 (the `willSet` guard aborts first). */
    ghost predicate Valid()
      reads this
    {
      mem.Length == MemorySize && s != 0
    }

    /** The state the stack operations act on, as a value. */
    ghost function StackView(): (st: Stack)
      reads this, mem
      requires Valid()
      ensures WellFormed(st) && st.s != 0
    {
      Stack(s, mem[..])
    }

    /** `init(with:)`: the registers start at 0, the stack pointer at 0xFF.
        `status` stands for the value of `StatusRegister()`. */
    constructor (memory: seq<UInt8>, read2: (seq<UInt8>, UInt16) -> UInt16, status: Status)
      requires |memory| == MemorySize
      ensures Valid() && fresh(mem)
      ensures mem[..] == memory && read2byte == read2
      ensures a == 0 && x == 0 && y == 0 && s == 0xFF && pc == 0 && p == status
    {
      mem := new UInt8[MemorySize](k requires 0 <= k < MemorySize => memory[k]);
      read2byte := read2;
      a, x, y := 0, 0, 0;
      s := 0xFF;
      p := status;
      pc := 0;
    }

    /** Assignment to `s` through its `willSet` observer, which aborts on 0:
        callers must not assign 0. */
    method SetS(newValue: UInt8)
      requires GuardS(newValue).Ok?
      modifies this`s
      ensures s == newValue && s != 0
    {
      s := newValue;
    }

    /** NMI: load `pc` from the vector at 0xFFFA, set `i`, clear `b`.
        Nothing is pushed; memory, `a`, `x`, `y` and `s` are untouched. */
    method NmiHandler()
      requires Valid()
      modifies this`pc, this`p
      ensures Valid()
      ensures pc == read2byte(mem[..], NmiVector)
      ensures p == Status(true, false)
      ensures StackView() == old(StackView())
      ensures a == old(a) && x == old(x) && y == old(y)
    {
      pc := read2byte(mem[..], NmiVector);
      p := p.(i := true);
      p := p.(b := false);
    }

    /** RESET: load `pc` from the vector at 0xFFFC and set `i`; `b`, `s`,
        the other registers and memory are untouched. */
    method ResetHandler()
      requires Valid()
      modifies this`pc, this`p
      ensures Valid()
      ensures pc == read2byte(mem[..], ResetVector)
      ensures p == old(p).(i := true)
      ensures StackView() == old(StackView())
      ensures a == old(a) && x == old(x) && y == old(y)
    {
      pc := read2byte(mem[..], ResetVector);
      p := p.(i := true);
    }

    /** IRQ: load `pc` from the vector at 0xFFFE and set `i`, whatever `i`
        was before; `b`, `s`, the other registers and memory are untouched. */
    method IrqHandler()
      requires Valid()
      modifies this`pc, this`p
      ensures Valid()
      ensures pc == read2byte(mem[..], IrqVector)
      ensures p == old(p).(i := true)
      ensures StackView() == old(StackView())
      ensures a == old(a) && x == old(x) && y == old(y)
    {
      pc := read2byte(mem[..], IrqVector);
      p := p.(i := true);
    }

    /** `push(value)`: write `value` at 0x100 + s, then decrement `s`.
        The decrement traps at s = 0 and the guard aborts at s = 1, so the
        push is permitted exactly when s >= 2. */
    method Push(value: UInt8)
      requires Valid() && s >= 2
      modifies mem, this`s
      ensures Valid()
      ensures s == old(s) - 1
      ensures mem[StackAddress(old(s))] == value
      ensures forall k :: 0 <= k < MemorySize && k != StackAddress(old(s)) ==> mem[k] == old(mem[k])
      ensures CpuSpec.Push(old(StackView()), value) == Ok(StackView())
      ensures a == old(a) && x == old(x) && y == old(y) && pc == old(pc) && p == old(p)
    {
      mem[StackPage + s] := value;
      SetS(s - 1);
    }

    /** `pop()`: increment `s`, then read 0x100 + s. The increment traps
        at s = 0xFF, so the pop is permitted exactly when s <= 0xFE. */
    method Pop() returns (value: UInt8)
      requires Valid() && s <= 0xFE
      modifies this`s
      ensures Valid()
      ensures s == old(s) + 1
      ensures value == mem[StackAddress(s)]
      ensures CpuSpec.Pop(old(StackView())) == Ok((StackView(), value))
      ensures mem[..] == old(mem[..])
      ensures a == old(a) && x == old(x) && y == old(y) && pc == old(pc) && p == old(p)
    {
      SetS(s + 1);
      value := mem[StackPage + s];
    }
  }
}
