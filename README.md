# SwiftNes CPU register file, in Dafny

This project models the `CPU` struct of SwiftNes, a NES emulator written in
Swift. The struct holds the 6502 register file: the accumulator `a`, the
index registers `x` and `y`, the stack pointer `s`, the status register `p`
and the program counter `pc`. It also holds a `memory` field of type
`Memory`. `Memory` is not declared in Cpu.swift; the model treats it as a
flat 64 KiB byte array owned by one `Cpu`.
Its operations are:

- the initialiser;
- a `willSet` observer on `s` that aborts the program if 0 is ever assigned;
- the three vector loaders for NMI, RESET and IRQ;
- `push` and `pop` on page 0x01 of memory.

The model has two modules.

- `CpuSpec` (`cpu_spec.dfy`) works on values.
  - It models Swift's trapping `UInt8` subtraction and addition.
  - It models the stack-pointer guard.
  - It defines push and pop on a `Stack` value (the stack pointer and the memory contents), with an `Outcome` that records the trap.
  - It proves the push/pop round trips and last-in first-out order for any number of bytes.
- `Cpu` (`cpu.dfy`) is a class with the struct's fields.
  - `mem` is an `array` of 0x10000 bytes.
  - Its methods change the fields in place.
  - Each method states its new state directly.
  - Each stack method also ties its new state to the matching `CpuSpec` function through `StackView()`.

The model follows the code as written, not idealised 6502 hardware. In
the source, `s - 1` and `s + 1` are Swift `UInt8` operations, which trap on
overflow instead of wrapping. Assigning 0 to `s` calls `fatalError`. So a
push is only possible when `s >= 2`, and a pop only when `s <= 0xFE`. The
class methods take these as preconditions, and the `CpuSpec` functions
return `Trap` outside them. Real 6502 hardware wraps the stack pointer
modulo 256 and never aborts; the code does not do that, and the model
follows the code. Likewise, the code's NMI and IRQ handlers push nothing,
and its reset handler leaves `s` alone.

## Model

| member | source | states |
|---|---|---|
| `CpuSpec.CheckedSub` | Sources/SwiftNes/Cpu.swift:88 | `UInt8` subtraction succeeds exactly when it does not underflow, and then gives the difference; otherwise it traps |
| `CpuSpec.CheckedAdd` | Sources/SwiftNes/Cpu.swift:92 | `UInt8` addition succeeds exactly when the sum is below 0x100, and then gives the sum; otherwise it traps |
| `CpuSpec.GuardS` | Sources/SwiftNes/Cpu.swift:42-48 | assigning to `s` aborts with the stack-overflow error exactly when the new value is 0; otherwise the value is stored unchanged |
| `CpuSpec.StackAddress` | Sources/SwiftNes/Cpu.swift:87 | every stack access address `0x100 + s` lies in page 0x01 (0x100..0x1FF), and its low byte is `s` |
| `CpuSpec.Push` | Sources/SwiftNes/Cpu.swift:86-89 | push succeeds exactly when `s >= 2`; at `s = 0` it traps on the subtraction, at `s = 1` on the guard; on success the new `s` is the old `s - 1` and never 0; memory at `0x100 + old s` holds the value; no other cell changes |
| `CpuSpec.Pop` | Sources/SwiftNes/Cpu.swift:91-94 | pop succeeds exactly when `s <= 0xFE`, and otherwise traps on the addition; on success the new `s` is the old `s + 1` and never 0; memory is unchanged; the result is the byte at `0x100 + new s` |
| `CpuSpec.PushPop` | Sources/SwiftNes/Cpu.swift:86-94 | whenever a push is permitted (`s >= 2`), push then pop returns the pushed byte and restores `s`; the pushed byte stays in memory |
| `CpuSpec.PopPush` | Sources/SwiftNes/Cpu.swift:86-94 | for `1 <= s <= 0xFE`, pop then a push of the popped byte restores the stack state exactly, memory included |
| `CpuSpec.PushAll` | Sources/SwiftNes/Cpu.swift:86-89 | pushing `n` bytes in sequence succeeds exactly when `n = 0` or `s >= n + 1`; the new `s` is `s - n`; the j-th byte pushed sits at `0x100 + s - j`; all memory outside those `n` cells is unchanged |
| `CpuSpec.PopN` | Sources/SwiftNes/Cpu.swift:91-94 | popping `n` bytes in sequence succeeds exactly when `s + n <= 0xFF`; the new `s` is `s + n`; memory is unchanged; the j-th byte popped is the byte at `0x100 + s + 1 + j` |
| `CpuSpec.LastInFirstOut` | Sources/SwiftNes/Cpu.swift:86-94 | pushing any `n` bytes with `s >= n + 1` and then popping `n` returns them in reverse order and restores `s` |
| `Cpu.Cpu.constructor` | Sources/SwiftNes/Cpu.swift:56-66 | `init(with:)` copies the given memory and sets `a = x = y = 0`, `s = 0xFF` and `pc = 0`; the status register takes its initial value; the invariant `s != 0` holds |
| `Cpu.Cpu.SetS` | Sources/SwiftNes/Cpu.swift:42-48 | an assignment to `s` that the `willSet` guard lets through stores the new value, which is never 0 |
| `Cpu.Cpu.NmiHandler` | Sources/SwiftNes/Cpu.swift:69-73 | `pc` is the word read at 0xFFFA; `i` is set and `b` is cleared; `s`, memory, `a`, `x` and `y` are unchanged, and nothing is pushed |
| `Cpu.Cpu.ResetHandler` | Sources/SwiftNes/Cpu.swift:75-78 | `pc` is the word read at 0xFFFC and `i` is set; `b`, `s`, memory, `a`, `x` and `y` are unchanged |
| `Cpu.Cpu.IrqHandler` | Sources/SwiftNes/Cpu.swift:80-83 | `pc` is the word read at 0xFFFE and `i` is set, whatever its previous value; `b`, `s`, memory, `a`, `x` and `y` are unchanged |
| `Cpu.Cpu.Push` | Sources/SwiftNes/Cpu.swift:86-89 | with `s >= 2`, the value is written at `0x100 + old s`, `s` becomes old `s - 1`, and no other memory cell or register changes; the new stack state is what `CpuSpec.Push` gives |
| `Cpu.Cpu.Pop` | Sources/SwiftNes/Cpu.swift:91-94 | with `s <= 0xFE`, `s` becomes old `s + 1` and the byte at `0x100 + new s` is returned; memory and the other registers are unchanged; the result is what `CpuSpec.Pop` gives |

## Left out

- Memory internals: `Memory`'s `read1byte`, `write`, mirroring and the memory map are not part of this model. Memory is a flat array of 0x10000 bytes, read and written directly.
- `memory.read2byte(at:)` is not part of this model. It is the constructor parameter `read2`, a function of the memory contents and the address, so no byte order is assumed.
- `StatusRegister` is not part of this model. Only the flags `i` and `b` that the handlers touch are kept. The initial value of `StatusRegister()` is a constructor parameter.
- `Decoder` is not part of this model. The struct creates one in its initialiser but never uses it in `Cpu.swift`, so the model has no decoding and no instruction execution.
- Aborts: a Swift trap or `fatalError` ends the process. The class methods therefore take the conditions that avoid them as preconditions. The `CpuSpec` functions return `Trap` and record which abort would happen.
- Ownership of memory: Cpu.swift does not say whether `Memory` is a value or a reference type. The model assumes one array owned by one `Cpu` object, so it does not model copies of a `Cpu` or memory shared between copies.
