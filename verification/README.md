# KaguOS, modelled and verified

KaguOS is a small machine built in layers. An assembler lowers named source to numbered cells of
text. A CPU with RAM, disks, a user and a kernel mode and a tick timer runs them. A kernel written
in that assembly provides a call stack, system calls, process memory, a round-robin scheduler and a
block file system, and a chain of boot images loads it. This project models these layers on cells
that are texts, as the emulator keeps them, and proves what they promise each other.

| file | contents |
|---|---|
| `Text.dfy`, `Columns.dfy` | numbers as text; the column operations and their lens laws |
| `Hardware.dfy`, `Cpu.dfy` | the machine as functions; the emulator's objects with their loops, proved against them |
| `Instructions.dfy`, `Operations.dfy` | what every instruction and every operation does to cells, energy and disks, written out |
| `Isolation.dfy`, `Runs.dfy`, `Timer.dfy` | memory isolation, mode discipline and the time quantum over whole runs |
| `Syscalls.dfy`, `Relocation.dfy` | the system call round trip; programs cannot see where they are |
| `Assembler.dfy`, `Compiler.dfy` | the two passes as functions; the compiler object that fills its tables in place |
| `Grammar.dfy` | the language written out, and that the compiler accepts exactly its programs |
| `Layout.dfy`, `Encoding.dfy`, `Simulation.dfy` | addresses, instruction texts, and what the CPU does at a compiled line |
| `AddressMap.dfy`, `SourceMachine.dfy`, `SourceRuns.dfy` | where things live, read off the source lines; the source machine with its lines and named variables; correctness of the compiler over runs that change modes |
| `Stepping.dfy`, `MachineCode.dfy` | reasoning about machine code, one instruction or a few at a time |
| `Firmware.dfy`, `Boot.dfy`, `BootImages.dfy` | the disk-copy loop and the boot chain, as machine code; the images written out |
| `Stack.dfy`, `Dispatch.dfy`, `KernelImages.dfy` | the kernel's call stack and system call handler, as machine code; both written out |
| `KernelSource.dfy` | the stack routines as assembler lines, and their code derived from them |
| `Files.dfy`, `FileSystem.dfy` | the file system: its meaning, and its routines with their loops |
| `Ring.dfy`, `Turns.dfy`, `Pool.dfy`, `Pcb.dfy`, `Numbers.dfy`, `Scheduler.dfy` | round robin, runs of the process table, process memory, control blocks and process numbers: their meaning, and the routines |
| `Preemption.dfy`, `Kernel.dfy`, `Quantum.dfy` | the timer handler and dispatcher: their meaning, the routines, and the time that a dispatched process gets |
| `ProcessSteps.dfy`, `Processes.dfy` | the turns of one process; transparency of preemption for all processes together, from their start to their end |

How the model reads the source:

- A cell is a text. A conversion that `std::stoi` refuses is `None` and stops the machine, because
  that exception leaves the step; so does a fault of the fetch, which is outside the `try`. Only
  access violations and CPU exceptions of an executed instruction are traps.
- The program counter advances before the fetch and `jump(a)` stores `a - 1`. Jump targets are
  resolved even when the jump is not taken.
- In `write(stoi(dest), read(stoi(src)))` (cpu.cpp:338) the order of the two arguments is the
  compiler's choice; the model converts the destination first.
- Keyboard, input lines, background colours and floating-point results are inputs of a step.
- Firmware, boot record and bootloader are modelled as the instruction lines they consist of, each
  with any comment behind it. The boot theorem holds for every disk name, kernel location, kernel
  and bootloader picture.
- The kernel routines for the stack and for system calls are taken as machine code at any addresses
  a linker may choose; that of the stack routines is also derived from their source lines. The
  scheduler, the allocator and the file system are taken as the loops and assignments they are,
  over control blocks, lists and headers that are texts.

Where the code and its comments disagree, the model follows the code: the name column of a process
loses the second argument (04_sched.kga:606-619); cleaning stops before the last cell of a block
(04_sched.kga:1064-1077); a failed load does not return its block (04_sched.kga:561-567, 716-719);
the scan for a mount point looks at one cell too many (02_fs.kga:824-831); reading and writing take
line numbers below 1 (02_fs.kga:589-770).

## Model

| member | source | states |
|---|---|---|
| Text.ReadPrinted | tools/kagu_boot/src/cpu.cpp:206-214 | printing a number of the range of `int` and reading it back gives the number and leaves the text behind it, so the program counter and every number kept in a cell survive the trip through text |
| Text.ReadSigned | tools/kagu_boot/src/cpu.cpp:244-255 | the value read from a sign and digits, with the range check that makes `std::stoi` throw, whatever non-digit text follows |
| Text.StoiIff | tools/kagu_boot/src/cpu.cpp:206-214 | the conversion gives a value exactly for the texts that begin with white space, an optional sign and digits of that value, in the range of `int`; all others are refused |
| Columns.JoinOfFields | tools/kagu_boot/src/cpu.cpp:595-629 | splitting a cell at blanks and joining it again gives the cell back, for every text: a replacement touches nothing but its column |
| Columns.FieldsOfJoin | tools/kagu_boot/src/cpu.cpp:595-629 | joining blank-free columns and splitting the result gives the columns back, empty ones included |
| Columns.FieldsSplit | tools/kagu_boot/src/cpu.cpp:610-622 | for any delimiters: the columns with their delimiters between them are the text, and no column holds a delimiter |
| Columns.SplitIsFields | tools/kagu_boot/src/cpu.cpp:610-622 | and there is no other such cut of the text |
| Columns.ReplaceIsJoin | tools/kagu_boot/src/cpu.cpp:595-629 | a replacement gives the columns with one changed and the whole delimiter text between all of them |
| Columns.CharacterColumns | tools/kagu_boot/src/cpu.cpp:561-604 | with an empty delimiter the columns are the characters: one is read, one is replaced, by a blank if the new text is empty, and a column outside the text is empty and replaces nothing |
| Columns.GetOfJoin | tools/kagu_boot/src/cpu.cpp:561-593 | column i of a record of words is its i-th word, and the empty text behind the last one |
| Columns.ColumnLens | tools/kagu_boot/src/cpu.cpp:561-629 | on records of words get and replace obey the lens laws, although get drops empty columns and replace keeps them; other columns do not change |
| CpuObject.SplitTokens | tools/kagu_boot/src/cpu.cpp:575-592 | the scanning loop of get-column yields the non-empty columns |
| CpuObject.SplitFields | tools/kagu_boot/src/cpu.cpp:610-622 | the scanning loop of replace-column yields all columns, empty ones included |
| CpuObject.GetColumnOf | tools/kagu_boot/src/cpu.cpp:561-593 | get-column with both of its branches (characters for an empty delimiter) as the specified column function |
| CpuObject.ReplaceColumnOf | tools/kagu_boot/src/cpu.cpp:595-629 | replace-column with both of its branches as the specified column function |
| CpuObject.Ram.Place | tools/kagu_boot/src/ram.cpp:104-139 | which cell an address reaches: directly in kernel mode and for registers 1-11, shifted by the process start and refused behind the process end otherwise |
| CpuObject.Ram.WriteCell | tools/kagu_boot/src/ram.cpp:146-183 | a write changes exactly that cell, or nothing when the access is refused |
| Instructions.AddressesDenote | tools/kagu_boot/src/ram.cpp:104-183 | an address that denotes a cell, by itself in kernel mode and for registers 1-11, and else that far behind the process start and not behind its end, reads and writes that cell alone; every other access is refused and changes nothing |
| CpuObject.Disk.ReadBlock | tools/kagu_boot/src/disk.cpp:22-57 | the line-by-line scan returns line n for 1 <= n <= block count, and nothing when the file is missing, shorter, or n is out of range |
| CpuObject.Disk.WriteBlock | tools/kagu_boot/src/disk.cpp:59-116 | a write changes line n alone for 2 <= n < block count, padding a short file, and nothing otherwise |
| CpuObject.Cpu.LoadFirmware | tools/kagu_boot/src/cpu.cpp:56-84 | the reset vector puts image line i in cell i and the RAM size in FREE_MEMORY_END, and refuses an image that does not fit |
| Instructions.CodeTable | tools/kagu_boot/src/cpu.cpp:261-325 | the instruction codes: 0 an operation, 1 a copy, 2 to 5 the four jumps, 6 tracing, and nothing else |
| CpuObject.Cpu.ExecuteCopy | tools/kagu_boot/src/cpu.cpp:327-339 | the copy instruction with indirect and literal operands, in the order its addresses are resolved and its errors raised |
| Instructions.CopyCopies | tools/kagu_boot/src/cpu.cpp:327-339 | a copy writes the text that its first operand gives to the address that its second one names, in both modes |
| CpuObject.Cpu.ExecuteJump | tools/kagu_boot/src/cpu.cpp:216-313 | the target is resolved even when the jump is not taken; a taken jump stores the target minus one |
| Instructions.JumpJumps | tools/kagu_boot/src/cpu.cpp:216-313 | a jump is taken always, on BOOL "1", on BOOL "0" or on a non-empty ERROR, and then the program counter is the target minus one; nothing else changes |
| CpuObject.Cpu.SaveRegisters | tools/kagu_boot/src/cpu.cpp:726-737 | the loop that saves registers 1-11 behind the process start |
| CpuObject.Cpu.LoadRegisters | tools/kagu_boot/src/cpu.cpp:761-771 | the loop that restores registers 1-11 |
| CpuObject.Cpu.ExecuteSysReturn | tools/kagu_boot/src/cpu.cpp:759-792 | the return to user mode: registers, result registers unless the record says to ignore them, PC, cleared record, mode |
| Instructions.CallEnters | tools/kagu_boot/src/cpu.cpp:719-748 | a system call: registers in the window, the record "0 pc 0", control at the address in the call handler cell |
| Instructions.TrapsWithoutProcess | tools/kagu_boot/src/cpu.cpp:719-792 | without a process start, calls and returns save and restore no register; a return hands on RES and ERROR unless the flag of the record is 1 |
| CpuObject.Cpu.ExecuteOperation | tools/kagu_boot/src/cpu.cpp:341-413 | privilege check, energy, cleared ERROR, then the operation; what each operation does is stated in `Operations.dfy` |
| Operations.RunsPaid | tools/kagu_boot/src/cpu.cpp:341-413 | an operation that the mode permits runs on the machine that has paid its energy and cleared ERROR |
| Operations.Refusals | tools/kagu_boot/src/cpu.cpp:341-356 | no code, no operation; a code that is no number throws; a user program may only compute and call the system, and everything else is a fault that changes nothing |
| Operations.ProductAndQuotient | tools/kagu_boot/src/cpu.cpp:451-482 | products; quotients truncated toward zero, by the equation of quotient and remainder |
| Operations.Remainder | tools/kagu_boot/src/cpu.cpp:464-472 | the remainder of that division, with the sign of the dividend, also for operands with a decimal point |
| Operations.FloatsAnswer | tools/kagu_boot/src/cpu.cpp:419-525 | the floating-point unit answers exactly for sums, differences, products, quotients and orders of operands of which one holds a point |
| Operations.NumberPattern | tools/kagu_boot/src/cpu.cpp:486-495 | the number test accepts an optional minus, digits, an optional point and at least one digit behind, and nothing else |
| Operations.FirstOccurrence | tools/kagu_boot/src/cpu.cpp:527-540 | the search finds the first occurrence, or there is none |
| Operations.LengthAndPrefix | tools/kagu_boot/src/cpu.cpp:542-559 | the length; the rest behind a prefix and a flag that tells whether it is one |
| Operations.ConcatIsText | tools/kagu_boot/src/cpu.cpp:631-638 | joining puts REG_A, the delimiter in REG_C and REG_B one behind the other |
| Operations.BlockIsWritten | tools/kagu_boot/src/cpu.cpp:673-683 | the write operation: line REG_B of disk REG_A is REG_C and every other line and disk as before for 2 <= n < count, and otherwise no disk changes and ERROR says so |
| Operations.WriteStepThenReadStep | tools/kagu_boot/src/cpu.cpp:664-683 | a kernel step that writes a block, any steps that leave the disks alone, and a step that reads it: the text is in RES |
| Operations.WriteStepRefused | tools/kagu_boot/src/cpu.cpp:673-683 | a kernel step that writes outside the writable blocks changes no disk and leaves an error |
| CpuObject.Cpu.CheckTimer | tools/kagu_boot/src/interrupt_handler.cpp:62-104 | the timer counts down in user mode only, and fires when it finds zero |
| Instructions.TimerEnters | tools/kagu_boot/src/interrupt_handler.cpp:62-104 | the timer at zero switches itself off and enters the interrupt handler with the record "1 pc 1"; a positive one counts down and a negative one stands still |
| CpuObject.Cpu.RaiseFault | tools/kagu_boot/src/cpu.cpp:819-868 | a fault stops a kernel and becomes the exit system call of a user program |
| Operations.ExitCodes | tools/kagu_boot/src/cpu.cpp:819-868 | the exit call of a faulting program carries 139 for a memory access and 1 for the CPU, in REG_A and in its saved copy |
| CpuObject.Cpu.Step | tools/kagu_boot/src/cpu.cpp:87-171 | a whole step: the program counter advances before the fetch, a fetch fault or a conversion failure stops the machine, faults of the instruction are handled, then the timer is checked |
| Isolation.UserStep | tools/kagu_boot/src/cpu.cpp:87-171 | a user step changes only registers 1-11, the window, PC, energy and timer, and the interrupt record when it enters the kernel; it enters the kernel exactly when it calls the system, faults or is interrupted |
| Runs.UserRunConfined | tools/kagu_boot/src/ram.cpp:104-222 | the same over a whole user-mode run |
| Runs.ChangeHasOwner | tools/kagu_boot/src/ram.cpp:52-222 | in any run, mixing modes, a cell that changed was changed by a kernel step or by the program that owned it at that step |
| Runs.KernelStep | tools/kagu_boot/src/cpu.cpp:759-792 | kernel mode is left by one step only: a system return executed by the kernel |
| Runs.UserModeIsGranted | tools/kagu_boot/src/cpu.cpp:261-868 | every run that goes from kernel to user mode contains such a return |
| Timer.UserKeepsTimer | tools/kagu_boot/src/ram.cpp:146-222 | user instructions cannot write the timer |
| Timer.TimerStep | tools/kagu_boot/src/interrupt_handler.cpp:62-104 | a step counts the timer down exactly when it is a tick, and fires exactly on a tick at zero |
| Timer.TimerCountsDown | tools/kagu_boot/src/interrupt_handler.cpp:62-104 | over any run that leaves the timer alone and does not fire, quantum minus ticks is what the timer shows |
| Timer.QuantumIsExact | tools/kagu_boot/src/cpu.cpp:872-880 | dispatched with quantum q, the timer fires at tick q + 1 and not before |
| Quantum.FirstTick | src/kernel/04_sched.kga:165-174 | the dispatcher puts the quantum in the timer, and the tick of its own return takes one off, or fires when it was zero |
| Quantum.DispatchedForQuantum | src/kernel/04_sched.kga:165-174 | a process dispatched with quantum q is interrupted at tick q + 1, counting the tick of the return, and not before |
| Syscalls.RecordParses | tools/kagu_boot/src/cpu.cpp:773-786 | the interrupt record reads back as the kind, the program counter and the flag it was made of |
| Syscalls.EntrySaves | tools/kagu_boot/src/cpu.cpp:719-748 | a system call stores registers 1-11 in the window, notes PC and continues at the handler in kernel mode |
| Syscalls.ExitRestores | tools/kagu_boot/src/cpu.cpp:759-792 | a system return loads registers 1-11 from the window, except RES and ERROR unless flagged, and PC from the record; nothing else changes |
| Syscalls.SyscallRoundTrip | tools/kagu_boot/src/cpu.cpp:719-792 | call, any kernel run that keeps the backup, the process start and the record, and return: the program goes on behind its call with its registers, except RES and ERROR, which hold what the kernel left |
| Relocation.TwinStep | tools/kagu_boot/src/ram.cpp:104-222 | two machines with equal user views at different process starts have equal views after one step, whether it stays in user mode, traps or stops the machine |
| Relocation.RelocationBisimulation | tools/kagu_boot/src/ram.cpp:104-222 | and over whole runs, leaving user mode at the same step |
| CompilerObject.Compiler.ProcessLine | tools/kagu_asm/src/compiler.cpp:291-449 | one line updates the tables: symbol, label or variable, pooled literal and instruction, or a counted error |
| Grammar.LineErrors | tools/kagu_asm/src/compiler.cpp:291-380 | with the eleven commands and their argument forms written out: a line adds an error exactly when it is outside the language or declares a name again |
| CompilerObject.Compiler.FirstPass | tools/kagu_asm/src/compiler.cpp:238-263 | the first pass over all lines |
| Grammar.CleanPass | tools/kagu_asm/src/compiler.cpp:238-263 | the first pass finds no error exactly when every line is of the language and no name is declared twice |
| CompilerObject.Compiler.CalculateAddresses | tools/kagu_asm/src/compiler.cpp:451-475 | constants follow the code, variables follow the constants, labels fill the constants that name them |
| CompilerObject.Compiler.EmitLine | tools/kagu_asm/src/compiler.cpp:488-528 | the text of one instruction, with or without its source comment |
| CompilerObject.Compiler.Compile | tools/kagu_asm/src/compiler.cpp:477-548 | an image exactly when every line is of the language, no name is declared twice, there is an instruction, every variable used is declared and every label jumped to is defined; and what the image is |
| Grammar.AcceptedIffWellFormed | tools/kagu_asm/src/compiler.cpp:29-41 | the conditions of both passes together are those of the written-out language |
| Layout.FirstPassInvariant | tools/kagu_asm/src/compiler.cpp:291-449 | through accepted and rejected lines alike the next address is the first plus the number of instructions, variables are distinct and in order, and every written literal is in the pool |
| Layout.AcceptedPass | tools/kagu_asm/src/compiler.cpp:363-449 | without errors, the code is the instruction lines and every label is at the number of instructions before it |
| Layout.RawDetermines | tools/kagu_asm/src/compiler.cpp:408-448 | literals that share a pool entry have the same text: the pool never merges different values |
| Layout.LayoutCorrect | tools/kagu_asm/src/compiler.cpp:451-475 | code, constants and variables tile the range from the first address to the next free one; each label, literal and variable is where its address says |
| Encoding.EmitDecodes | tools/kagu_asm/src/compiler.cpp:550-644 | what the CPU decodes from an emitted line is the intended instruction with its operands, for every form |
| Encoding.CopyForms | tools/kagu_asm/src/compiler.cpp:550-644 | the CPU decodes a `copy` to a copy of its operands in order, and a `write` to a copy from the pool cell of its value; a star goes through the cell, an at sign gives the address |
| Encoding.JumpForms | tools/kagu_asm/src/compiler.cpp:550-583 | each of the four jump commands decodes to the jump with the condition of its name |
| Encoding.OutputDecodes | tools/kagu_asm/src/compiler.cpp:488-528 | the same with the source comment and its column padding |
| Encoding.CommentIsWritten | tools/kagu_asm/src/compiler.cpp:498-528 | with debug information a line is the instruction, blanks up to column 15 or at least one, and the source line as a comment |
| Encoding.DebugIsTransparent | tools/kagu_asm/src/compiler.cpp:511-528 | so images with and without source comments decode alike |
| Encoding.AcceptedIffDefined | tools/kagu_asm/src/compiler.cpp:550-644 | the second pass accepts a line exactly when its variables are declared and the labels it jumps to are defined; the label of a `write` is not looked at |
| Simulation.StepSimulates | tools/kagu_asm/src/compiler.cpp:477-548 | one step of the CPU on the image does what the line at the program counter means, with its literal at hand instead of fetched from the pool |
| Simulation.LabelJumpCompiled | tools/kagu_asm/src/compiler.cpp:613-629 | in every accepted program a jump to a label, with or without a star, decodes to a direct jump to the number of instruction lines before the line that defines it |
| Simulation.LabelWriteCompiled | tools/kagu_asm/src/compiler.cpp:613-629 | in every accepted program a `write` of a label decodes to a copy from a pool cell that holds the address of the defining line; the cell is empty exactly when no line defines the label, which is not reported |
| AddressMap.TablesAgree | tools/kagu_asm/src/compiler.cpp:451-475 | every label, every variable and the sizes in the compiler's tables are those of an address map computed from the source lines alone: lines of code, distinct literals, declarations in order |
| AddressMap.PoolIsLiterals | tools/kagu_asm/src/compiler.cpp:408-448 | the pool holds exactly the distinct literals of the source, in order of first use |
| SourceMachine.StepIsSourceStep | tools/kagu_asm/src/compiler.cpp:177-200 | one step of the CPU on the image is one step of the source machine, which is in front of a source line, keeps variables in a store of names, goes to labels as lines and has literals as values |
| SourceMachine.CounterFindsLine | tools/kagu_asm/src/compiler.cpp:177-200 | a program counter one before the k-th instruction is the place in front of its source line, and that line runs next |
| SourceMachine.Moves | tools/kagu_asm/src/compiler.cpp:550-644 | `copy` and `write` between names, registers and cells, also through pointers that reach variables by number, act on the store of names as the compiled copy acts on memory, errors included |
| SourceMachine.GoesToLabel | tools/kagu_asm/src/compiler.cpp:613-629 | a jump to a label continues in front of the line that defines it |
| SourceRuns.StepSpares | tools/kagu_boot/src/cpu.cpp:87-171 | a step in either mode, mode changes, traps and interrupts included, keeps every cell range that its instruction does not write and that is behind the backup area |
| SourceRuns.TameSpares | tools/kagu_asm/src/compiler.cpp:457-462 | a named variable never lies in code or literals: only writes through pointers and numeric addresses can hit the image |
| SourceRuns.CompiledRun | tools/kagu_asm/src/compiler.cpp:177-200 | over whole runs that change modes any number of times the machine that runs the image goes through the states of the source run, and the image stays in place, as long as source lines spare it and steps of others leave the block alone |
| SourceRuns.KernelRun | tools/kagu_asm/src/compiler.cpp:177-200 | for a compiled kernel the second condition is proved: across system calls, returns, traps and timer interrupts the whole system goes through the states of the source run, and while a user program runs no kernel variable changes |
| MachineCode.LineDecodes | hw/cpu_firmware.bin:23-40 | an instruction line of an image, with any comment behind it, decodes to its instruction |
| Firmware.ReadPhase | hw/cpu_firmware.bin:23-28 | cells 23 to 28 read the current block and store it at the target address |
| Firmware.CountPhase | hw/cpu_firmware.bin:29-35 | cells 29 to 35 advance the target address and the block number |
| Firmware.CheckPhase | hw/cpu_firmware.bin:36-40 | cells 36 to 40 loop while blocks remain |
| Firmware.LoopCorrect | hw/cpu_firmware.bin:20-40 | total correctness of the copy loop: after 18 steps a block the machine is at cell 41 with the blocks in memory, REG_D and REG_F advanced past their ranges and every other non-scratch cell unchanged |
| Boot.MbrRuns | hw/samples/mbr.data:1-49 | the 34 instructions of the boot record find the bootloader and set the copy loop up for it |
| Boot.LoaderRuns | hw/samples/bootloader.data:1-86 | the bootloader, skipping its header, finds the kernel and sets the copy loop up for it |
| Boot.Stage | hw/cpu_firmware.bin:20-40 | a stage of the boot: the loop loads an image to cell 41, over the one that set it up, and runs it |
| Boot.BootChain | hw/samples/bootloader.data:1-86 | from power-on, with a bootable disk and enough RAM, the machine reaches cell 41 with the kernel lines from there on, REG_F behind them and FREE_MEMORY_END the RAM size |
| BootImages.EveryKernelBoots | hw/samples/bootloader.data:1-126 | with the images written out, the shipped picture or any other included, every kernel that fits the RAM has a disk from which power-on reaches its first line |
| Stack.PushRuns | src/kernel/01_stack.kga:27-59 | the push routine: pointer and FREE_MEMORY_END down by one, return address plus two on top, control two behind the caller's copy instruction, nothing else changed but OP and the counting registers |
| Stack.PopRuns | src/kernel/01_stack.kga:66-92 | the pop routine, 16 instructions: pointer and FREE_MEMORY_END up by one, control at the popped address, REG_A, RES, ERROR and everything beside the routine's variables as before |
| Stack.CallRuns | src/kernel/01_stack.kga:1-59 | a call through the convention enters the routine with the address behind the call site on top of the stack |
| Stack.NestedCallsReturn | src/kernel/01_stack.kga:27-92 | in any properly nested run of calls and stack-respecting work each call returns behind its call site, with stack pointer, FREE_MEMORY_END and outer stack cells as before |
| Stack.CallKeepsResults | src/kernel/01_stack.kga:66-92 | the caller finds registers A to F, RES, BOOL_RES and ERROR as the routine left them |
| KernelSource.StackIsLinked | src/kernel/01_stack.kga:27-92 | in every accepted program that holds the lines of push and pop, compiled and in place, the two routines are what the stack statements are about: the code is derived from the source lines |
| KernelSource.CallIsCompiled | src/kernel/01_stack.kga:1-26 | so are a call site and the entry of a called routine written by the calling convention; labels are at the lines that define them |
| KernelImages.StackIsReady | src/kernel/09_kernel_base.kga:12-19 | push and pop written out, with the pointer one behind the RAM, are what the stack statements are about |
| Dispatch.DispatchOutcome | src/kernel/03_syscalls.kga:37-78 | for every text in REG_E the fate of the call, with its step: the handler in the table cell, with REG_A to REG_D kept as arguments; the unknown-call exit; a machine that stops; or, for a number with a decimal point, wherever the number in the cell that the sum names leads |
| Dispatch.IntegerFate | src/kernel/03_syscalls.kga:46-66 | an integer text, printed or not ("007"), reaches its handler exactly when its value is below the table size, takes the unknown-call exit when it is negative or too large, and stops the machine when it exceeds `int` |
| Dispatch.TableIsContiguous | tools/kagu_asm/src/compiler.cpp:457-462 | variables declared one after the other get consecutive addresses, as the table lookup assumes |
| KernelImages.HandlerIsInstalled | src/kernel/03_syscalls.kga:37-78 | the handler written out, with any table of handler addresses, is what the dispatch statements are about |
| Files.SizeIsCount | src/kernel/02_fs.kga:878-965 | the computed size of a file is the number of blocks in its intervals |
| Files.BlockIsIndexed | src/kernel/02_fs.kga:977-1074 | line i is in the i-th block of the intervals laid end to end, and any line behind the last one ends in the error exit |
| FileSystemObject.CalcSize | src/kernel/02_fs.kga:878-965 | the size loop terminates on every header with the specified reply, and counts the blocks of a well-formed one |
| FileSystemObject.FileLineToBlock | src/kernel/02_fs.kga:977-1074 | the line-to-block loop terminates on every header with the specified reply, and indexes the blocks of a well-formed one |
| Files.ReadIsContents | src/kernel/02_fs.kga:589-673 | reading line i of an open file gives the i-th of its lines, and fails behind the last |
| Files.WriteIsUpdate | src/kernel/02_fs.kga:682-770 | writing line i replaces one line of the disk file, and fails behind the last line without changing the disk |
| Files.WriteUpdatesContents | src/kernel/02_fs.kga:682-770 | as sequences of lines: the written file is updated in one place, files that share no block with it are unchanged, all files stay well-formed |
| Files.WriteThenRead | src/kernel/02_fs.kga:589-770 | write, then read: the new line where it was written, the old one elsewhere and in every other file |
| Files.WritesRefine | src/kernel/02_fs.kga:682-770 | any sequence of writes through any descriptors, several to one file and free cells included, does to the disk what it does to abstract line sequences, one per file, and stops the machine at the same write |
| Files.ReadAfterWrites | src/kernel/02_fs.kga:589-770 | so a read gives the line last written there, through whichever descriptor of the file |
| Files.AccessBelowFirst | src/kernel/02_fs.kga:589-770 | line numbers below 1 are not refused: reading and writing act on the block that far in front of the first one, so the promise holds for line numbers from 1 on only |
| Files.LineZeroIsHeader | src/kernel/02_fs.kga:589-673 | line 0 of a file whose blocks follow its header is the header |
| Files.FreeCellStops | src/kernel/02_fs.kga:589-770 | a read or write through a free descriptor cell stops the machine: its size column is empty, and comparing it with a number throws |
| Files.MountFor | src/kernel/02_fs.kga:813-869 | the mount entry found is the first whose mount point is a prefix of the path |
| Files.SearchHeader | src/kernel/02_fs.kga:385-433 | the header found is the first with the name; none is found when the end mark, an unreadable block or the first usable block comes first |
| Files.OpenThenRead | src/kernel/02_fs.kga:303-518 | opening a path fills the first free descriptor cell and no other, and reading through it gives the lines of the file with that path |
| Files.OpenMissing | src/kernel/02_fs.kga:303-518 | opening fails, and takes no descriptor, when no mount point is a prefix of the path or the headers of the volume end without the name |
| Files.OpenThenClose | src/kernel/02_fs.kga:497-579 | closing restores the descriptor table |
| FileSystemObject.FileSystem.FindMountPoint | src/kernel/02_fs.kga:813-869 | the scan of the mount entries |
| FileSystemObject.FileSystem.FindHeader | src/kernel/02_fs.kga:385-433 | the scan of the header blocks |
| FileSystemObject.FileSystem.Open | src/kernel/02_fs.kga:303-518 | open as a whole: a path that begins with a slash is opened as it is, any other behind the work directory; the file that the tables name for it is opened in the first free cell and read from there; a file that is not there fails and changes nothing |
| FileSystemObject.FileSystem.Close | src/kernel/02_fs.kga:557-579 | close: one cell freed, or an error and no change |
| FileSystemObject.FileSystem.Read | src/kernel/02_fs.kga:589-673 | read as a whole, changing nothing |
| FileSystemObject.FileSystem.Write | src/kernel/02_fs.kga:682-770 | write as a whole: the disk after it and the reply |
| Ring.FirstReadyIsFirst | src/kernel/04_sched.kga:216-263 | the chosen slot is ready and no slot before it in ring order is; none is chosen only when none is ready |
| Ring.WokenIsReady | src/kernel/04_sched.kga:960-980 | waking changes the state column of a control block and no other |
| Ring.SelectionIsLive | src/kernel/04_sched.kga:189-278 | a process is found exactly when one is ready or paused; paused ones are woken only when none is ready, and then all are |
| Ring.SelectionIsDecision | src/kernel/04_sched.kga:189-278 | the whole decision: the first ready slot behind the current one; with none ready every paused process is woken and the lowest of their slots is chosen; else nobody runs |
| Ring.CurrentIsLast | src/kernel/04_sched.kga:194-214 | the current process is chosen again only when no other is ready |
| Ring.GetsCloser | src/kernel/04_sched.kga:189-278 | while a ready slot is passed over, each decision brings the ring closer to it |
| Ring.BoundedWaiting | src/kernel/04_sched.kga:189-278 | a slot that stays ready is chosen within as many decisions as there are slots, whatever happens to the others |
| Turns.WaitingBoundedByExits | src/kernel/04_sched.kga:189-278 | in any run of timer decisions, exits, loads, pauses and kills, a ready slot that is not killed is chosen once the decisions exceed (e + 1) * (n - 1), with e exits and n slots |
| Turns.WaitsInBound | src/kernel/04_sched.kga:189-278 | while it waits the decisions are bounded by the exits, with what the ring has still to go |
| Turns.ExitsStarve | src/kernel/04_sched.kga:722-735 | an exit restarts the ring at slot 0, so the bound must grow with the exits: for every number of rounds of load, timer and exit between slots 0 and 1, no slot behind them is ever chosen |
| Numbers.TurnKeepsNumbers | src/kernel/04_sched.kga:588-688 | decisions, wakings, pauses, exits and kills keep the process numbers in the table apart |
| Numbers.LoadKeepsNumbers | src/kernel/04_sched.kga:579-688 | a load hands out a number that no process in the table has, and the number finds its slot |
| Numbers.NumberFinds | src/kernel/04_sched.kga:852-894 | the number of a process in the table finds its slot, for every priority text |
| SchedulerObject.Scheduler.PauseToReady | src/kernel/04_sched.kga:951-998 | the waking loop |
| SchedulerObject.Scheduler.FindReady | src/kernel/04_sched.kga:216-263 | the search loop around the ring |
| SchedulerObject.Scheduler.SelectNext | src/kernel/04_sched.kga:189-278 | the decision, with its restart at the first slot after waking |
| SchedulerObject.Scheduler.Pause | src/kernel/04_sched.kga:921-947 | a process gives up its turn: its state column changes, no other column of a sound block, no other slot, and the timer is set to fire |
| Pool.ListIsStack | src/kernel/04_sched.kga:385-413 | the free list, a text with a trailing blank, is a stack under the column operations of allocation and release |
| Pool.BlocksAreDisjoint | src/kernel/04_sched.kga:415-437 | two blocks in different places share no cell and lie between the table end and the start of free memory |
| Pool.LoadKeepsTiling | src/kernel/04_sched.kga:385-449 | a load keeps the blocks on their grid and their number accounted for, and loses a block exactly when it fails after allocating |
| Pool.CleanKeepsTiling | src/kernel/04_sched.kga:1108-1119 | releasing a block keeps them too and loses none |
| Pool.AllRunsTiled | src/kernel/04_sched.kga:340-1119 | so in every state reached by loads, failed loads and releases |
| Pcb.NewRecord | src/kernel/04_sched.kga:588-688 | a control block loaded with a word for its priority reads back its state, bounds and program counter, and lists its descriptors |
| Pcb.PcbIsText | src/kernel/04_sched.kga:588-681 | the control block of a new process as one text |
| Pcb.ReadsBackIff | src/kernel/04_sched.kga:635-688 | for every priority text: bounds and program counter read back exactly when it has one non-empty column, or at least seven of which three happen to be the right values |
| Pcb.PcIsSettableIff | src/kernel/04_sched.kga:635-688 | storing the program counter replaces its column and nothing else exactly when the priority holds no blank |
| Pcb.StateIsSafe | src/kernel/04_sched.kga:588-634 | the state column, in front of the priority, is read and replaced correctly whatever the priority |
| Pcb.SoundIffWord | src/kernel/04_sched.kga:635-688 | so, with fewer than seven columns in it, a priority is harmless exactly when it is one word |
| Pcb.ReleasesIff | src/kernel/04_sched.kga:1039-1106 | for every priority text: the release routine can read the bounds and the descriptors of a new control block exactly when the priority has one column; otherwise a label among them stops the machine |
| SchedulerObject.PrepareMemory | src/kernel/06_memory.kga:6-36 | the descriptor table and the process table are laid out one behind the other from the start of free memory, and the kernel goes on exactly when more than 50 cells remain |
| SchedulerObject.Scheduler.Allocate | src/kernel/04_sched.kga:385-449 | the head of the list; with an empty list the start of free memory, which moves behind the block, if the block ends at or before FREE_MEMORY_END; and otherwise nothing |
| SchedulerObject.Scheduler.LoadLines | src/kernel/04_sched.kga:530-559 | program lines go to the block from its cell 12 on and never behind its end; a program that fills the block to its last cell is refused as well |
| SchedulerObject.Scheduler.Load | src/kernel/04_sched.kga:340-719 | the whole load, for every priority text: exactly when it finds no slot, no memory, no file or no room, the block, arguments, lines and note in it, the control block with its number and name, every other cell and slot unchanged, and the lost block of a failed load |
| SchedulerObject.Scheduler.CloseAll | src/kernel/04_sched.kga:1079-1106 | the loop over the descriptor columns closes the descriptors that the control block lists and no others |
| SchedulerObject.Scheduler.Clean | src/kernel/04_sched.kga:1039-1119 | cells of the block are cleared up to, not including, its last one; the listed descriptors are closed; the slot is free and the block in front of the free list |
| SchedulerObject.Scheduler.Stop | src/kernel/04_sched.kga:722-735 | the exit of the current process: timer off, its memory, descriptors and slot released, bounds cleared, no current process |
| SchedulerObject.Scheduler.FindPid | src/kernel/04_sched.kga:852-894 | the scan for the first control block with a process number |
| SchedulerObject.Scheduler.Kill | src/kernel/04_sched.kga:1000-1033 | the process with the given number is released unless it is the caller or does not exist, in which cases nothing changes |
| SchedulerObject.Scheduler.ProcessesAreSeparate | src/kernel/06_memory.kga:12-28 | live processes share no cell and stay behind the process table, which ends where memory preparation puts it |
| KernelObject.Kernel.SaveContext | src/kernel/04_sched.kga:13-113 | the timer handler: timer off, registers kept in the kernel's variables and stored in the block, PC in the control block, the scratch values and the energy it leaves behind, panic on any other interrupt |
| Preemption.HandlerState | src/kernel/04_sched.kga:13-113 | the cells that the timer handler leaves: registers kept and saved, the program counter in column 14 of the control block, timer off; it panics exactly on a record that is not of kind 1 or an unreadable energy counter |
| KernelObject.Kernel.Dispatch | src/kernel/04_sched.kga:115-174 | the dispatcher: the pointer and its copies, bounds, return address and quantum from the control block, its registers and its energy, then the return to user mode |
| Preemption.SharedCore | tools/kagu_boot/src/cpu.cpp:87-171 | a step of the running process, up to the timer check, is the step of its uninterrupted run |
| Preemption.Suspended | src/kernel/04_sched.kga:13-113 | after a step that the timer interrupts and the handler, the state behind that step is saved |
| Preemption.TickSettles | tools/kagu_boot/src/interrupt_handler.cpp:62-104 | the timer check either leaves the process running in that state, or the handler saves that state and changes nothing outside the process |
| Preemption.ResumedActive | src/kernel/04_sched.kga:115-174 | dispatching a suspended process continues it in its saved state, with the quantum in the timer and the kernel's variables naming its control block |
| Preemption.SuspendedHasRun | src/kernel/04_sched.kga:115-174 | every suspended process has such a run |
| Processes.OwnTurn | tools/kagu_boot/src/cpu.cpp:87-171 | with any number of processes in disjoint blocks, a step of the running one, with the timer interrupt and handler it may end in, keeps every process in the state of its own uninterrupted run |
| Processes.CallTurn | tools/kagu_boot/src/cpu.cpp:719-792 | so does a system call with its return, whose uninterrupted counterpart takes the answer at once; the kernel may load and end other processes meanwhile |
| Processes.ExitTurn | src/kernel/03_syscalls.kga:97-110 | so does the exit of the running process by a call or a fault, which frees its slot and flags the record, so that the next process finds its own registers |
| Processes.SwitchTurn | src/kernel/04_sched.kga:115-278 | so does a scheduling decision, with the waking of paused processes and the dispatch of the chosen one, or an idle kernel when none is ready |
| Processes.EveryProcessFollows | src/kernel/04_sched.kga:13-278 | preemption is transparent: along every run of own steps, system calls, timer interrupts, exits, loads, decisions and dispatches, every live process shows at all times the registers, the program counter and the block of its own uninterrupted run, running or suspended; that processes leave each other alone is proved |
| Processes.NewRecordStarts | src/kernel/04_sched.kga:588-688 | a control block that the loader writes for a priority of one word makes a process that starts suspended |
| Processes.AllocatedApart | src/kernel/04_sched.kga:415-437 | the blocks that the allocator hands out meet the condition on blocks |

## Left out

- Terminal output, the keyboard driver, the debug server, RAM dumps, sleeping and drawing: input and output. Display operations change no cell; drawing only checks its arguments.
- Line tokenising and lexing of source files, the built-in symbol names, the source map and the limit on reported errors: the assembler starts from lexed lines and takes the symbol names as a parameter.
- Floating-point arithmetic: its results are inputs of a step or an unspecified function, so nothing is claimed about them. Signed overflow of `int`, which C++ leaves undefined, prints the mathematical result.
- Cells that hold line breaks: a written disk line is one line.
- Files.SearchHeader: block numbers are integers; a mount entry or volume header with a decimal point, which the kernel would hand to the floating-point unit, is answered by the machine stop.
- Files.WriteThenRead: the disk file holds as many lines as its header says. Line numbers are at least 1; what smaller ones do is stated by `Files.AccessBelowFirst`.
- FileSystemObject.FileSystem.Read: descriptors are not negative.
- Initialisation of the mount table, file attributes and `sys_fs_create`, which is not implemented in the kernel.
- Isolation.UserStep: user addresses are not negative and the process end lies in RAM; the emulator checks neither.
- SourceRuns.CompiledRun: runs that overwrite code or literals are excluded. A program counter written as a text that the CPU would not print ("057") counts as being elsewhere. For a user program, that the kernel leaves its block alone between two of its steps is a condition.
- Dispatch.DispatchOutcome: a call number with a decimal point whose sum with the table address names the cell of the program counter or of the last key; the handler would jump to the number there.
- SchedulerObject.Scheduler.Load: the text of the program file is a parameter (what opening and reading a file gives is proved in `Files.dfy`), and the command line is taken as already single-spaced.
- SchedulerObject.Scheduler.Kill: the process found, like the one that `Clean` and `Stop` release, was loaded with a word for its priority. For other priorities the routine stops the machine (`Pcb.ReleasesIff`); the cells that it may have cleared before are not modelled. A process number is not the empty text.
- Processes.EveryProcessFollows: for programs that do not read REG_F or LAST_KEY, which the handler does not save, between two system calls. Kernel services leave alone the blocks and control blocks of the processes that stay, and the record; new processes get blocks of their own (`Processes.AllocatedApart`).
- KernelObject.Kernel.SaveContext: the handler and the dispatcher are taken as assignments in the order of their lines; unlike the stack routines they are not derived from compiled code.
- Stack.NestedCallsReturn: the energy counter is assumed readable at calls and returns, and the stack to stay above the kernel's variables; a process block that is flush against FREE_MEMORY_END and a growing stack may overlap.
- SchedulerObject.Scheduler.SelectNext: control blocks are proper records, as the loader writes them; with doubled blanks before the state column waking would not take effect.
- Space removal in command lines, removal of single descriptors from control blocks, the process listing and the kernel shell.
