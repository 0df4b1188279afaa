/** The boot chain: firmware, master boot record and bootloader, each loaded over the previous
    one by the firmware's copy loop, up to the first instruction of the kernel. */
module Boot {
  import opened Wrappers
  import opened Text
  import opened Hardware
  import opened Runs
  import opened Stepping
  import opened MachineCode
  import opened Firmware

  // ---- Images ----

  /** Line n of an image holds an instruction; images are loaded to cell 41, line n to 40 + n. */
  ghost predicate Has(img: seq<string>, n: int, i: Instr) {
    1 <= n <= |img| && IsLine(img[n - 1], i)
  }

  ghost predicate MbrCode(g: seq<string>) {
    && Has(g, 1, Cp(75, 12)) && Has(g, 2, Cp(76, 7)) && Has(g, 3, Exec)
    && Has(g, 4, Cp(88, 1)) && Has(g, 5, Cp(89, 2)) && Has(g, 6, Cp(79, 7)) && Has(g, 7, Exec)
    && Has(g, 8, Jump(IfError, Direct(75)))
    && Has(g, 9, Cp(8, 1)) && Has(g, 10, Cp(80, 2)) && Has(g, 11, Cp(81, 7)) && Has(g, 12, Exec)
    && Has(g, 13, Jump(IfFalse, Direct(75)))
    && Has(g, 14, Cp(89, 1)) && Has(g, 15, Cp(77, 7)) && Has(g, 16, Exec) && Has(g, 17, Cp(8, 89))
  }

  ghost predicate MbrSetup(g: seq<string>) {
    && Has(g, 18, Cp(88, 1)) && Has(g, 19, Cp(89, 2)) && Has(g, 20, Cp(79, 7)) && Has(g, 21, Exec)
    && Has(g, 22, Jump(IfError, Direct(75)))
    && Has(g, 23, Cp(8, 1)) && Has(g, 24, Cp(89, 2)) && Has(g, 25, Cp(82, 7)) && Has(g, 26, Exec)
    && Has(g, 27, Cp(8, 5)) && Has(g, 28, Cp(78, 6))
    && Has(g, 29, Cp(89, 1)) && Has(g, 30, Cp(77, 7)) && Has(g, 31, Exec) && Has(g, 32, Cp(8, 4))
    && Has(g, 33, Cp(88, 3)) && Has(g, 34, Jump(Always, Direct(23)))
  }

  ghost predicate MbrImage(g: seq<string>, disk: string) {
    && |g| == 50 && MbrCode(g) && MbrSetup(g)
    && g[35] == "20" && g[36] == "2" && g[37] == PrintInt(41) && g[38] == "21" && g[39] == "KAGU BOOTLOADER"
    && g[40] == "8" && g[41] == "0" && g[47] == disk && g[48] == PrintInt(52)
  }

  // ---- Loaded images ----

  /** The image is in memory, except for the cells in `own`, which it rewrites itself. */
  ghost predicate Resident(v: Cells, g: seq<string>, own: set<int>) {
    && |v| > MIN_RAM_SIZE && 40 + |g| < |v| && InInt(|v|)
    && forall c :: 41 <= c <= 40 + |g| && c !in own ==> v[c] == g[c - 41]
  }

  lemma ImageHolds(v: Cells, g: seq<string>, own: set<int>)
    requires Resident(v, g, own)
    ensures forall n, i :: Has(g, n, i) && 40 + n !in own ==> Holds(v, 40 + n, i)
  {
    hide Decode, IsLine;
    forall n, i | Has(g, n, i) && 40 + n !in own
      ensures Holds(v, 40 + n, i)
    {
      LineDecodes(g[n - 1], i);
    }
  }

  /** The firmware's routine and data cells are untouched. */
  ghost predicate LowKept(v: Cells, w: Cells) {
    |w| == |v| && |v| > MIN_RAM_SIZE && forall i :: SYS_ENERGY < i <= 40 ==> w[i] == v[i]
  }

  // ---- Instruction sequences at step k of a run ----

  /** Two copies into REG_A and REG_B. */
  lemma LoadAt(m: Machine, ins: seq<Inputs>, k: nat, pc: int, v: Cells, disks: Disks, x: int, y: int)
    requires Valid(m) && k + 2 <= |ins| && Poised(State(m, ins, k), pc, v, disks)
    requires pc > 40 && Holds(v, pc, Cp(x, REG_A)) && Holds(v, pc + 1, Cp(y, REG_B))
    requires Plain(v, x) && Plain(v, y) && y != REG_A
    ensures Poised(State(m, ins, k + 2), pc + 2, v[REG_A := v[x]][REG_B := v[y]], disks)
  {
    hide Decode, Poised, State;
    CopyAt(m, ins, k, pc, v, disks, x, REG_A);
    CopyAt(m, ins, k + 1, pc + 1, v[REG_A := v[x]], disks, y, REG_B);
  }

  /** Reading a block: load the code, execute, and the error jump, which is not taken. */
  lemma ReadAt(m: Machine, ins: seq<Inputs>, k: nat, pc: int, v: Cells, disks: Disks, z: int, target: int, e: int,
               n: int, text: string)
      returns (w: Cells)
    requires Valid(m) && k + 3 <= |ins| && Poised(State(m, ins, k), pc, v, disks) && |v| > MIN_RAM_SIZE
    requires pc > 40 && Holds(v, pc, Cp(z, REG_OP)) && Holds(v, pc + 1, Exec) && Plain(v, z)
    requires Holds(v, pc + 2, Jump(IfError, Direct(target))) && 0 < target <= 1000
    requires OpIsText(v[z], OP_READ_BLOCK) && EnergyIn(v) == Some(e) && InInt(e + 10)
    requires Stoi(v[REG_B]) == Some(n) && ReadBlock(disks, v[REG_A], n) == Block(text)
    ensures Poised(State(m, ins, k + 3), pc + 3, w, disks) && Kept(v, w)
    ensures EnergyIn(w) == Some(e + 10) && w[REG_RES] == text
  {
    hide Decode, Poised, State, Step, Stoi, ReadBlock;
    CopyAt(m, ins, k, pc, v, disks, z, REG_OP);
    var u := v[REG_OP := v[z]];
    RunStates(m, ins);
    ReadBlockStep(State(m, ins, k + 1), ins[k + 1], pc + 1, u, disks, e, n, text);
    EnergyAfter(u, e, OP_READ_BLOCK);
    w := Charged(u, e, OP_READ_BLOCK)[REG_RES := text];
    JumpAt(m, ins, k + 2, pc + 2, w, disks, IfError, target);
  }

  /** Printing: load the code and execute. */
  lemma ShowAt(m: Machine, ins: seq<Inputs>, k: nat, pc: int, v: Cells, disks: Disks, z: int, op: int, e: int)
      returns (w: Cells)
    requires Valid(m) && k + 2 <= |ins| && Poised(State(m, ins, k), pc, v, disks) && |v| > MIN_RAM_SIZE
    requires pc > 40 && Holds(v, pc, Cp(z, REG_OP)) && Holds(v, pc + 1, Exec) && Plain(v, z)
    requires OpIsText(v[z], op) && (op == OP_DISPLAY || op == OP_DISPLAY_LN) && EnergyIn(v) == Some(e) && InInt(e + 5)
    ensures Poised(State(m, ins, k + 2), pc + 2, w, disks) && Kept(v, w) && EnergyIn(w) == Some(e + 5)
  {
    hide Decode, Poised, State, Step, Stoi;
    CopyAt(m, ins, k, pc, v, disks, z, REG_OP);
    var u := v[REG_OP := v[z]];
    RunStates(m, ins);
    OutputStep(State(m, ins, k + 1), ins[k + 1], pc + 1, u, disks, e, op);
    EnergyAfter(u, e, op);
    w := Charged(u, e, op);
  }

  // ---- The boot disk ----

  /** The blocks that the chain reads: boot record, bootloader and kernel, each of the latter
      two behind a signature and a line count. */
  ghost predicate BootDisk(disks: Disks, disk: string, mbr: seq<string>, boot: seq<string>, q: int,
                           kernel: seq<string>)
  {
    && Blocks(disks, disk, 2, mbr)
    && ReadBlock(disks, disk, 52) == Block("KAGU BOOTLOADER") && ReadBlock(disks, disk, 53) == Block(PrintInt(|boot|))
    && Blocks(disks, disk, 54, boot)
    && ReadBlock(disks, disk, q) == Block("KAGU KERNEL") && ReadBlock(disks, disk, q + 1) == Block(PrintInt(|kernel|))
    && Blocks(disks, disk, q + 2, kernel)
  }

  // ---- The master boot record ----

  /** The state between the parts of the boot record: `b` is the block index in cell 89. */
  ghost predicate MbrState(m: Machine, pc: int, v: Cells, disks: Disks, g: seq<string>, disk: string, b: int, e: int) {
    && Poised(m, pc, v, disks) && Resident(v, g, {89}) && MbrImage(g, disk)
    && v[89] == PrintInt(b) && EnergyIn(v) == Some(e)
  }

  /** Lines 1 to 3: the greeting. */
  lemma MbrGreeting(m: Machine, ins: seq<Inputs>, k: nat, v: Cells, disks: Disks, g: seq<string>, disk: string, e: int)
      returns (w: Cells)
    requires Valid(m) && k + 3 <= |ins| && MbrState(State(m, ins, k), 41, v, disks, g, disk, 52, e) && InInt(e + 5)
    ensures MbrState(State(m, ins, k + 3), 44, w, disks, g, disk, 52, e + 5) && LowKept(v, w)
  {
    hide Decode, Poised, State, Stoi, IsLine, PrintInt, MbrSetup;
    CodeTexts();
    ImageHolds(v, g, {89});
    CopyAt(m, ins, k, 41, v, disks, 75, 12);
    w := ShowAt(m, ins, k + 1, 42, v[12 := v[75]], disks, 76, OP_DISPLAY_LN, e);
  }

  /** Lines 4 to 13: the signature check. */
  lemma MbrSignature(m: Machine, ins: seq<Inputs>, k: nat, v: Cells, disks: Disks, g: seq<string>, disk: string, e: int)
      returns (w: Cells)
    requires Valid(m) && k + 10 <= |ins| && MbrState(State(m, ins, k), 44, v, disks, g, disk, 52, e) && InInt(e + 11)
             && 0 <= e
    requires ReadBlock(disks, disk, 52) == Block("KAGU BOOTLOADER")
    ensures MbrState(State(m, ins, k + 10), 54, w, disks, g, disk, 52, e + 11)
    ensures LowKept(v, w)
  {
    hide Decode, Poised, State, Stoi, ReadBlock, IsLine, PrintInt, MbrSetup;
    CodeTexts();
    StoiPrint(52);
    ImageHolds(v, g, {89});
    LoadAt(m, ins, k, 44, v, disks, 88, 89);
    var v1 := v[1 := v[88]][2 := v[89]];
    var v2 := ReadAt(m, ins, k + 2, 46, v1, disks, 79, 75, e, 52, "KAGU BOOTLOADER");
    LoadAt(m, ins, k + 5, 49, v2, disks, 8, 80);
    var v3 := v2[1 := v2[8]][2 := v2[80]];
    w := ComputeAt(m, ins, k + 7, 51, v3, disks, 81, OP_CMP_EQ, e + 10, FlagOf(true));
    JumpAt(m, ins, k + 9, 53, w, disks, IfFalse, 75);
  }

  /** Lines 14 to 17: the block index goes up by one. */
  lemma MbrAdvance(m: Machine, ins: seq<Inputs>, k: nat, v: Cells, disks: Disks, g: seq<string>, disk: string, e: int)
      returns (w: Cells)
    requires Valid(m) && k + 4 <= |ins| && MbrState(State(m, ins, k), 54, v, disks, g, disk, 52, e) && InInt(e + 1)
    ensures MbrState(State(m, ins, k + 4), 58, w, disks, g, disk, 53, e + 1) && LowKept(v, w)
  {
    hide Decode, Poised, State, Stoi, IsLine, PrintInt, MbrSetup, Compute;
    CodeTexts();
    ImageHolds(v, g, {89});
    CopyAt(m, ins, k, 54, v, disks, 89, 1);
    var v1 := v[1 := v[89]];
    IncreaseOf(52, ins[k + 2]);
    var v2 := ComputeAt(m, ins, k + 1, 55, v1, disks, 77, OP_INCR, e, ResultOf(PrintInt(53)));
    CopyAt(m, ins, k + 3, 57, v2, disks, 8, 89);
    w := v2[89 := v2[8]];
  }

  /** Lines 18 to 22: the size of the bootloader. */
  lemma MbrSize(m: Machine, ins: seq<Inputs>, k: nat, v: Cells, disks: Disks, g: seq<string>, disk: string, e: int,
                size: string)
      returns (w: Cells)
    requires Valid(m) && k + 5 <= |ins| && MbrState(State(m, ins, k), 58, v, disks, g, disk, 53, e) && InInt(e + 10)
    requires ReadBlock(disks, disk, 53) == Block(size)
    ensures MbrState(State(m, ins, k + 5), 63, w, disks, g, disk, 53, e + 10) && LowKept(v, w) && w[REG_RES] == size
  {
    hide Decode, Poised, State, Stoi, ReadBlock, IsLine, PrintInt, MbrCode;
    CodeTexts();
    StoiPrint(53);
    ImageHolds(v, g, {89});
    LoadAt(m, ins, k, 58, v, disks, 88, 89);
    var v1 := v[1 := v[88]][2 := v[89]];
    w := ReadAt(m, ins, k + 2, 60, v1, disks, 79, 75, e, 53, size);
  }

  /** Lines 23 to 28: the last block of the bootloader and the target address. */
  lemma MbrRange(m: Machine, ins: seq<Inputs>, k: nat, v: Cells, disks: Disks, g: seq<string>, disk: string, e: int,
                 size: int)
      returns (w: Cells)
    requires Valid(m) && k + 6 <= |ins| && MbrState(State(m, ins, k), 63, v, disks, g, disk, 53, e) && InInt(e + 1)
    requires v[REG_RES] == PrintInt(size) && InInt(size)
    ensures MbrState(State(m, ins, k + 6), 69, w, disks, g, disk, 53, e + 1) && LowKept(v, w)
    ensures w[REG_E] == PrintInt(size + 53) && w[REG_F] == PrintInt(41)
  {
    hide Decode, Poised, State, Stoi, IsLine, PrintInt, MbrCode, Compute;
    CodeTexts();
    ImageHolds(v, g, {89});
    LoadAt(m, ins, k, 63, v, disks, 8, 89);
    var v1 := v[1 := v[8]][2 := v[89]];
    SumOf(size, 53, ins[k + 3]);
    var v2 := ComputeAt(m, ins, k + 2, 65, v1, disks, 82, OP_ADD, e, ResultOf(PrintInt(size + 53)));
    CopyAt(m, ins, k + 4, 67, v2, disks, 8, 5);
    var v3 := v2[5 := v2[8]];
    CopyAt(m, ins, k + 5, 68, v3, disks, 78, 6);
    w := v3[6 := v3[78]];
  }

  /** Lines 29 to 34: the first block, the disk, and the jump into the copy loop. */
  lemma MbrLaunch(m: Machine, ins: seq<Inputs>, k: nat, v: Cells, disks: Disks, g: seq<string>, disk: string, e: int)
      returns (w: Cells)
    requires Valid(m) && k + 6 <= |ins| && MbrState(State(m, ins, k), 69, v, disks, g, disk, 53, e) && InInt(e + 1)
    ensures Poised(State(m, ins, k + 6), 23, w, disks) && LowKept(v, w) && EnergyIn(w) == Some(e + 1)
    ensures w[REG_C] == disk && w[REG_D] == PrintInt(54) && w[REG_E] == v[REG_E] && w[REG_F] == v[REG_F]
  {
    hide Decode, Poised, State, Stoi, IsLine, PrintInt, MbrCode, Compute;
    CodeTexts();
    ImageHolds(v, g, {89});
    CopyAt(m, ins, k, 69, v, disks, 89, 1);
    var v1 := v[1 := v[89]];
    IncreaseOf(53, ins[k + 2]);
    var v2 := ComputeAt(m, ins, k + 1, 70, v1, disks, 77, OP_INCR, e, ResultOf(PrintInt(54)));
    CopyAt(m, ins, k + 3, 72, v2, disks, 8, 4);
    var v3 := v2[4 := v2[8]];
    CopyAt(m, ins, k + 4, 73, v3, disks, 88, 3);
    w := v3[3 := v3[88]];
    JumpAt(m, ins, k + 5, 74, w, disks, Always, 23);
  }

  /** The boot record sets the copy loop up for the bootloader. */
  lemma MbrRuns(m: Machine, ins: seq<Inputs>, k: nat, v: Cells, disks: Disks, g: seq<string>, disk: string, e: int,
                size: int)
      returns (w: Cells)
    requires Valid(m) && k + 34 <= |ins| && MbrState(State(m, ins, k), 41, v, disks, g, disk, 52, e) && 0 <= e
             && InInt(e + 29)
    requires ReadBlock(disks, disk, 52) == Block("KAGU BOOTLOADER")
    requires ReadBlock(disks, disk, 53) == Block(PrintInt(size)) && InInt(size)
    ensures Poised(State(m, ins, k + 34), 23, w, disks) && LowKept(v, w) && EnergyIn(w) == Some(e + 29)
    ensures w[REG_C] == disk && w[REG_D] == PrintInt(54) && w[REG_E] == PrintInt(size + 53) && w[REG_F] == PrintInt(41)
  {
    hide MbrState, State, PrintInt, ReadBlock, EnergyIn, Poised;
    var v0 := MbrGreeting(m, ins, k, v, disks, g, disk, e);
    var v1 := MbrSignature(m, ins, k + 3, v0, disks, g, disk, e + 5);
    var v2 := MbrAdvance(m, ins, k + 13, v1, disks, g, disk, e + 16);
    var v3 := MbrSize(m, ins, k + 17, v2, disks, g, disk, e + 17, PrintInt(size));
    var v4 := MbrRange(m, ins, k + 22, v3, disks, g, disk, e + 27, size);
    w := MbrLaunch(m, ins, k + 28, v4, disks, g, disk, e + 28);
  }

  // ---- The bootloader ----

  ghost predicate LoaderGreets(g: seq<string>) {
    && Has(g, 1, Jump(Always, Direct(44))) && Has(g, 4, Cp(3, 105))
    && Has(g, 5, Cp(106, 1)) && Has(g, 6, Cp(107, 2)) && Has(g, 7, Cp(108, 3)) && Has(g, 8, Cp(109, 4))
    && Has(g, 9, Cp(110, 7)) && Has(g, 10, Exec)
    && Has(g, 11, Cp(111, 12)) && Has(g, 12, Cp(112, 13)) && Has(g, 13, Cp(113, 7)) && Has(g, 14, Exec)
    && Has(g, 15, Cp(42, 12)) && Has(g, 16, Cp(114, 13)) && Has(g, 17, Cp(115, 7)) && Has(g, 18, Exec)
  }

  ghost predicate LoaderChecks(g: seq<string>) {
    && Has(g, 19, Cp(43, 1)) && Has(g, 20, Cp(116, 7)) && Has(g, 21, Exec) && Has(g, 22, Jump(IfFalse, Direct(99)))
    && Has(g, 23, Cp(1, 2)) && Has(g, 24, Cp(105, 1)) && Has(g, 25, Cp(117, 7)) && Has(g, 26, Exec)
    && Has(g, 27, Jump(IfError, Direct(99)))
    && Has(g, 28, Cp(8, 1)) && Has(g, 29, Cp(118, 2)) && Has(g, 30, Cp(119, 7)) && Has(g, 31, Exec)
    && Has(g, 32, Jump(IfFalse, Direct(99)))
    && Has(g, 33, Cp(43, 1)) && Has(g, 34, Cp(120, 7)) && Has(g, 35, Exec) && Has(g, 36, Cp(8, 43))
  }

  ghost predicate LoaderSizes(g: seq<string>) {
    && Has(g, 37, Cp(105, 1)) && Has(g, 38, Cp(43, 2)) && Has(g, 39, Cp(117, 7)) && Has(g, 40, Exec)
    && Has(g, 41, Jump(IfError, Direct(99)))
    && Has(g, 42, Cp(8, 1)) && Has(g, 43, Cp(116, 7)) && Has(g, 44, Exec) && Has(g, 45, Jump(IfFalse, Direct(99)))
    && Has(g, 46, Cp(1, 121))
  }

  ghost predicate LoaderLaunches(g: seq<string>) {
    && Has(g, 47, Cp(43, 1)) && Has(g, 48, Cp(120, 7)) && Has(g, 49, Exec)
    && Has(g, 50, Cp(105, 3)) && Has(g, 51, Cp(8, 4)) && Has(g, 52, Cp(122, 6))
    && Has(g, 53, Cp(43, 1)) && Has(g, 54, Cp(121, 2)) && Has(g, 55, Cp(123, 7)) && Has(g, 56, Exec)
    && Has(g, 57, Cp(8, 5)) && Has(g, 58, Jump(Always, Direct(23)))
  }

  /** A bootloader for a kernel that starts at block `q`; the lines behind its data are the
      picture it draws. */
  ghost predicate LoaderImage(g: seq<string>, q: int)
    ensures LoaderImage(g, q) ==> |g| >= 86
  {
    && |g| >= 86 && LoaderGreets(g) && LoaderChecks(g) && LoaderSizes(g) && LoaderLaunches(g)
    && LoaderData(g, q)
  }

  ghost predicate LoaderData(g: seq<string>, q: int)
    requires |g| >= 86
  {
    && g[2] == PrintInt(q) && g[65] == PrintInt(127) && g[66] == PrintInt(167) && g[67] == PrintInt(0)
    && g[68] == PrintInt(0)
    && g[69] == "24" && g[72] == "19" && g[74] == "20" && g[75] == "7" && g[76] == "21" && g[77] == "KAGU KERNEL"
    && g[78] == "8" && g[79] == "2" && g[81] == PrintInt(41) && g[82] == "0"
  }

  /** The state between the parts of the bootloader: `b` is the block index in cell 43. */
  ghost predicate LoaderState(m: Machine, pc: int, v: Cells, disks: Disks, g: seq<string>, b: int, q: int, e: int) {
    && Poised(m, pc, v, disks) && Resident(v, g, {43, 105, 121}) && LoaderImage(g, q)
    && v[43] == PrintInt(b) && EnergyIn(v) == Some(e)
  }

  /** Lines 1 and 4: skip the header and keep the disk name. */
  lemma LoaderEntry(m: Machine, ins: seq<Inputs>, k: nat, v: Cells, disks: Disks, g: seq<string>, q: int, e: int)
      returns (w: Cells)
    requires Valid(m) && k + 2 <= |ins| && LoaderState(State(m, ins, k), 41, v, disks, g, q, q, e)
    ensures LoaderState(State(m, ins, k + 2), 45, w, disks, g, q, q, e) && LowKept(v, w) && w[105] == v[REG_C]
  {
    hide Decode, Poised, State, Stoi, IsLine, PrintInt, LoaderChecks, LoaderSizes, LoaderLaunches;
    ImageHolds(v, g, {43, 105, 121});
    JumpAt(m, ins, k, 41, v, disks, Always, 44);
    CopyAt(m, ins, k + 1, 44, v, disks, 3, 105);
    w := v[105 := v[3]];
  }

  /** Lines 5 to 8: the range and the position of the picture. */
  lemma LoaderPlaces(m: Machine, ins: seq<Inputs>, k: nat, v: Cells, disks: Disks, g: seq<string>, q: int, e: int)
      returns (w: Cells)
    requires Valid(m) && k + 4 <= |ins| && LoaderState(State(m, ins, k), 45, v, disks, g, q, q, e)
    ensures LoaderState(State(m, ins, k + 4), 49, w, disks, g, q, q, e) && LowKept(v, w) && w[105] == v[105]
    ensures w[1] == PrintInt(127) && w[2] == PrintInt(167) && w[3] == PrintInt(0) && w[4] == PrintInt(0)
  {
    hide Decode, Poised, State, Stoi, IsLine, PrintInt, LoaderChecks, LoaderSizes, LoaderLaunches;
    ImageHolds(v, g, {43, 105, 121});
    LoadAt(m, ins, k, 45, v, disks, 106, 107);
    var v1 := v[1 := v[106]][2 := v[107]];
    CopyAt(m, ins, k + 2, 47, v1, disks, 108, 3);
    var v2 := v1[3 := v1[108]];
    CopyAt(m, ins, k + 3, 48, v2, disks, 109, 4);
    w := v2[4 := v2[109]];
  }

  lemma PictureCode(v: Cells, g: seq<string>, q: int)
    requires Resident(v, g, {43, 105, 121}) && LoaderImage(g, q)
    ensures Holds(v, 49, Cp(110, 7)) && Holds(v, 50, Exec) && OpIsText(v[110], OP_RENDER_BITMAP)
  {
    hide Decode, IsLine, PrintInt, Holds, LoaderChecks, LoaderSizes, LoaderLaunches, OpIsText;
    CodeTexts();
    ImageHolds(v, g, {43, 105, 121});
  }

  /** Lines 9 and 10: the picture. */
  lemma LoaderPicture(m: Machine, ins: seq<Inputs>, k: nat, v: Cells, disks: Disks, g: seq<string>, q: int, e: int)
      returns (w: Cells)
    requires Valid(m) && k + 2 <= |ins| && LoaderState(State(m, ins, k), 49, v, disks, g, q, q, e) && InInt(e + 20)
    requires v[1] == PrintInt(127) && v[2] == PrintInt(167) && v[3] == PrintInt(0) && v[4] == PrintInt(0) && |v| >= 167
    ensures LoaderState(State(m, ins, k + 2), 51, w, disks, g, q, q, e + 20) && LowKept(v, w) && w[105] == v[105]
  {
    hide Decode, Poised, State, Stoi, PrintInt, LoaderImage;
    PictureCode(v, g, q);
    StoiPrint(0);
    StoiPrint(127);
    StoiPrint(167);
    CopyAt(m, ins, k, 49, v, disks, 110, 7);
    var v1 := v[7 := v[110]];
    RunStates(m, ins);
    RenderStep(State(m, ins, k + 1), ins[k + 1], 50, v1, disks, e, 127, 167);
    EnergyAfter(v1, e, OP_RENDER_BITMAP);
    w := Charged(v1, e, OP_RENDER_BITMAP);
  }

  /** Lines 11 to 18: the greeting and the kernel's name. */
  lemma LoaderGreeting(m: Machine, ins: seq<Inputs>, k: nat, v: Cells, disks: Disks, g: seq<string>, q: int, e: int)
      returns (w: Cells)
    requires Valid(m) && k + 8 <= |ins| && LoaderState(State(m, ins, k), 51, v, disks, g, q, q, e) && InInt(e + 10)
             && 0 <= e
    ensures LoaderState(State(m, ins, k + 8), 59, w, disks, g, q, q, e + 10) && LowKept(v, w) && w[105] == v[105]
  {
    hide Decode, Poised, State, Stoi, IsLine, PrintInt, LoaderChecks, LoaderSizes, LoaderLaunches;
    CodeTexts();
    ImageHolds(v, g, {43, 105, 121});
    CopyAt(m, ins, k, 51, v, disks, 111, 12);
    var v1 := v[12 := v[111]];
    CopyAt(m, ins, k + 1, 52, v1, disks, 112, 13);
    var v2 := v1[13 := v1[112]];
    var v3 := ShowAt(m, ins, k + 2, 53, v2, disks, 113, OP_DISPLAY, e);
    CopyAt(m, ins, k + 4, 55, v3, disks, 42, 12);
    var v4 := v3[12 := v3[42]];
    CopyAt(m, ins, k + 5, 56, v4, disks, 114, 13);
    var v5 := v4[13 := v4[114]];
    w := ShowAt(m, ins, k + 6, 57, v5, disks, 115, OP_DISPLAY_LN, e + 5);
  }

  /** Lines 19 to 22: the kernel location is a number. */
  lemma LoaderValidates(m: Machine, ins: seq<Inputs>, k: nat, v: Cells, disks: Disks, g: seq<string>, q: nat, e: int)
      returns (w: Cells)
    requires Valid(m) && k + 4 <= |ins| && LoaderState(State(m, ins, k), 59, v, disks, g, q, q, e) && InInt(e + 1)
    ensures LoaderState(State(m, ins, k + 4), 63, w, disks, g, q, q, e + 1) && LowKept(v, w)
    ensures w[105] == v[105] && w[REG_A] == PrintInt(q)
  {
    hide Decode, Poised, State, Stoi, IsLine, PrintInt, LoaderGreets, LoaderSizes, LoaderLaunches, Compute;
    CodeTexts();
    ImageHolds(v, g, {43, 105, 121});
    CopyAt(m, ins, k, 59, v, disks, 43, 1);
    var v1 := v[1 := v[43]];
    IsNumOf(q, ins[k + 2]);
    w := ComputeAt(m, ins, k + 1, 60, v1, disks, 116, OP_IS_NUM, e, FlagOf(true));
    JumpAt(m, ins, k + 3, 62, w, disks, IfFalse, 99);
  }

  /** Lines 23 to 27: the kernel's first block is read. */
  lemma LoaderLocates(m: Machine, ins: seq<Inputs>, k: nat, v: Cells, disks: Disks, g: seq<string>, disk: string,
                      q: nat, e: int, text: string)
      returns (w: Cells)
    requires Valid(m) && k + 5 <= |ins| && LoaderState(State(m, ins, k), 63, v, disks, g, q, q, e) && InInt(e + 10)
             && 0 <= e
    requires v[105] == disk && v[REG_A] == PrintInt(q) && ReadBlock(disks, disk, q) == Block(text) && InInt(q)
    ensures LoaderState(State(m, ins, k + 5), 68, w, disks, g, q, q, e + 10) && LowKept(v, w) && w[105] == disk
            && w[REG_RES] == text
  {
    hide Decode, Poised, State, Stoi, IsLine, PrintInt, LoaderGreets, LoaderSizes, LoaderLaunches, ReadBlock, Compute;
    CodeTexts();
    StoiPrint(q);
    ImageHolds(v, g, {43, 105, 121});
    CopyAt(m, ins, k, 63, v, disks, 1, 2);
    var v1 := v[2 := v[1]];
    CopyAt(m, ins, k + 1, 64, v1, disks, 105, 1);
    var v2 := v1[1 := v1[105]];
    w := ReadAt(m, ins, k + 2, 65, v2, disks, 117, 99, e, q, text);
  }

  /** Lines 28 to 32: the signature. */
  lemma LoaderSignature(m: Machine, ins: seq<Inputs>, k: nat, v: Cells, disks: Disks, g: seq<string>, q: nat, e: int)
      returns (w: Cells)
    requires Valid(m) && k + 5 <= |ins| && LoaderState(State(m, ins, k), 68, v, disks, g, q, q, e) && InInt(e + 1)
    requires v[REG_RES] == "KAGU KERNEL"
    ensures LoaderState(State(m, ins, k + 5), 73, w, disks, g, q, q, e + 1) && LowKept(v, w) && w[105] == v[105]
  {
    hide Decode, Poised, State, Stoi, IsLine, PrintInt, LoaderGreets, LoaderSizes, LoaderLaunches;
    CodeTexts();
    ImageHolds(v, g, {43, 105, 121});
    LoadAt(m, ins, k, 68, v, disks, 8, 118);
    var v1 := v[1 := v[8]][2 := v[118]];
    w := ComputeAt(m, ins, k + 2, 70, v1, disks, 119, OP_CMP_EQ, e, FlagOf(true));
    JumpAt(m, ins, k + 4, 72, w, disks, IfFalse, 99);
  }

  lemma AdvanceCode(v: Cells, g: seq<string>, q: int)
    requires Resident(v, g, {43, 105, 121}) && LoaderImage(g, q)
    ensures Holds(v, 73, Cp(43, 1)) && Holds(v, 74, Cp(120, 7)) && Holds(v, 75, Exec) && Holds(v, 76, Cp(8, 43))
    ensures OpIsText(v[120], OP_INCR)
  {
    hide Decode, IsLine, PrintInt, Holds, LoaderGreets, LoaderSizes, LoaderLaunches, OpIsText;
    CodeTexts();
    ImageHolds(v, g, {43, 105, 121});
  }

  /** Lines 33 to 36: the block index goes up by one. */
  lemma LoaderAdvances(m: Machine, ins: seq<Inputs>, k: nat, v: Cells, disks: Disks, g: seq<string>, q: nat, e: int)
      returns (w: Cells)
    requires Valid(m) && k + 4 <= |ins| && LoaderState(State(m, ins, k), 73, v, disks, g, q, q, e) && InInt(e + 1)
             && InInt(q)
    ensures LoaderState(State(m, ins, k + 4), 77, w, disks, g, q + 1, q, e + 1) && LowKept(v, w) && w[105] == v[105]
  {
    hide Decode, Poised, State, Stoi, PrintInt, LoaderImage, Compute, OpIsText;
    AdvanceCode(v, g, q);
    CopyAt(m, ins, k, 73, v, disks, 43, 1);
    var v1 := v[1 := v[43]];
    IncreaseOf(q, ins[k + 2]);
    var v2 := ComputeAt(m, ins, k + 1, 74, v1, disks, 120, OP_INCR, e, ResultOf(PrintInt(q + 1)));
    CopyAt(m, ins, k + 3, 76, v2, disks, 8, 43);
    w := v2[43 := v2[8]];
  }

  /** Lines 37 to 46: the kernel size. */
  lemma LoaderSize(m: Machine, ins: seq<Inputs>, k: nat, v: Cells, disks: Disks, g: seq<string>, disk: string, q: nat,
                   e: int, size: nat)
      returns (w: Cells)
    requires Valid(m) && k + 10 <= |ins| && LoaderState(State(m, ins, k), 77, v, disks, g, q + 1, q, e) && InInt(e + 11)
             && 0 <= e
    requires v[105] == disk && ReadBlock(disks, disk, q + 1) == Block(PrintInt(size)) && InInt(q + 1)
    ensures LoaderState(State(m, ins, k + 10), 87, w, disks, g, q + 1, q, e + 11) && LowKept(v, w)
    ensures w[105] == disk && w[121] == PrintInt(size)
  {
    hide Decode, Poised, State, Stoi, IsLine, PrintInt, LoaderGreets, LoaderChecks, LoaderLaunches, ReadBlock,
      Compute;
    CodeTexts();
    StoiPrint(q + 1);
    ImageHolds(v, g, {43, 105, 121});
    LoadAt(m, ins, k, 77, v, disks, 105, 43);
    var v1 := v[1 := v[105]][2 := v[43]];
    var v2 := ReadAt(m, ins, k + 2, 79, v1, disks, 117, 99, e, q + 1, PrintInt(size));
    CopyAt(m, ins, k + 5, 82, v2, disks, 8, 1);
    var v3 := v2[1 := v2[8]];
    IsNumOf(size, ins[k + 7]);
    var v4 := ComputeAt(m, ins, k + 6, 83, v3, disks, 116, OP_IS_NUM, e + 10, FlagOf(true));
    JumpAt(m, ins, k + 8, 85, v4, disks, IfFalse, 99);
    CopyAt(m, ins, k + 9, 86, v4, disks, 1, 121);
    w := v4[121 := v4[1]];
  }

  /** Lines 47 to 52: the first kernel block, the disk and the target address. */
  lemma LoaderFirst(m: Machine, ins: seq<Inputs>, k: nat, v: Cells, disks: Disks, g: seq<string>, q: nat, e: int)
      returns (w: Cells)
    requires Valid(m) && k + 6 <= |ins| && LoaderState(State(m, ins, k), 87, v, disks, g, q + 1, q, e) && InInt(e + 1)
    requires InInt(q + 1)
    ensures LoaderState(State(m, ins, k + 6), 93, w, disks, g, q + 1, q, e + 1) && LowKept(v, w) && w[121] == v[121]
    ensures w[REG_C] == v[105] && w[REG_D] == PrintInt(q + 2) && w[REG_F] == PrintInt(41)
  {
    hide Decode, Poised, State, Stoi, IsLine, PrintInt, LoaderGreets, LoaderChecks, LoaderSizes, Compute;
    CodeTexts();
    ImageHolds(v, g, {43, 105, 121});
    CopyAt(m, ins, k, 87, v, disks, 43, 1);
    var v1 := v[1 := v[43]];
    IncreaseOf(q + 1, ins[k + 2]);
    var v2 := ComputeAt(m, ins, k + 1, 88, v1, disks, 120, OP_INCR, e, ResultOf(PrintInt(q + 2)));
    CopyAt(m, ins, k + 3, 90, v2, disks, 105, 3);
    var v3 := v2[3 := v2[105]];
    CopyAt(m, ins, k + 4, 91, v3, disks, 8, 4);
    var v4 := v3[4 := v3[8]];
    CopyAt(m, ins, k + 5, 92, v4, disks, 122, 6);
    w := v4[6 := v4[122]];
  }

  /** Lines 53 to 58: the last kernel block, and the jump into the copy loop. */
  lemma LoaderLast(m: Machine, ins: seq<Inputs>, k: nat, v: Cells, disks: Disks, g: seq<string>, q: nat, e: int,
                   size: nat)
      returns (w: Cells)
    requires Valid(m) && k + 6 <= |ins| && LoaderState(State(m, ins, k), 93, v, disks, g, q + 1, q, e) && InInt(e + 1)
    requires InInt(q + 1) && InInt(size) && v[121] == PrintInt(size)
    ensures Poised(State(m, ins, k + 6), 23, w, disks) && LowKept(v, w) && EnergyIn(w) == Some(e + 1)
    ensures w[REG_C] == v[REG_C] && w[REG_D] == v[REG_D] && w[REG_E] == PrintInt(q + 1 + size) && w[REG_F] == v[REG_F]
  {
    hide Decode, Poised, State, Stoi, IsLine, PrintInt, LoaderGreets, LoaderChecks, LoaderSizes, Compute;
    CodeTexts();
    ImageHolds(v, g, {43, 105, 121});
    LoadAt(m, ins, k, 93, v, disks, 43, 121);
    var v1 := v[1 := v[43]][2 := v[121]];
    SumOf(q + 1, size, ins[k + 3]);
    var v2 := ComputeAt(m, ins, k + 2, 95, v1, disks, 123, OP_ADD, e, ResultOf(PrintInt(q + 1 + size)));
    CopyAt(m, ins, k + 4, 97, v2, disks, 8, 5);
    w := v2[5 := v2[8]];
    JumpAt(m, ins, k + 5, 98, w, disks, Always, 23);
  }

  /** The bootloader sets the copy loop up for the kernel. */
  lemma LoaderRuns(m: Machine, ins: seq<Inputs>, k: nat, v: Cells, disks: Disks, g: seq<string>, disk: string, q: nat,
                   e: int, size: nat)
      returns (w: Cells)
    requires Valid(m) && k + 56 <= |ins| && LoaderState(State(m, ins, k), 41, v, disks, g, q, q, e) && 0 <= e
             && InInt(e + 56)
    requires v[REG_C] == disk && |v| >= 167 && InInt(q + 1) && InInt(size)
    requires ReadBlock(disks, disk, q) == Block("KAGU KERNEL") && ReadBlock(disks, disk, q + 1) == Block(PrintInt(size))
    ensures Poised(State(m, ins, k + 56), 23, w, disks) && LowKept(v, w) && EnergyIn(w) == Some(e + 56)
    ensures w[REG_C] == disk && w[REG_D] == PrintInt(q + 2) && w[REG_E] == PrintInt(q + 1 + size)
            && w[REG_F] == PrintInt(41)
  {
    hide LoaderState, State, PrintInt, ReadBlock, EnergyIn, Poised;
    var v1 := LoaderEntry(m, ins, k, v, disks, g, q, e);
    var v0 := LoaderPlaces(m, ins, k + 2, v1, disks, g, q, e);
    var v2 := LoaderPicture(m, ins, k + 6, v0, disks, g, q, e);
    var v3 := LoaderGreeting(m, ins, k + 8, v2, disks, g, q, e + 20);
    var u := LoaderValidates(m, ins, k + 16, v3, disks, g, q, e + 30);
    var v4 := LoaderLocates(m, ins, k + 20, u, disks, g, disk, q, e + 31, "KAGU KERNEL");
    var t := LoaderSignature(m, ins, k + 25, v4, disks, g, q, e + 41);
    var v5 := LoaderAdvances(m, ins, k + 30, t, disks, g, q, e + 42);
    var v6 := LoaderSize(m, ins, k + 34, v5, disks, g, disk, q, e + 43, size);
    var v7 := LoaderFirst(m, ins, k + 44, v6, disks, g, q, e + 54);
    w := LoaderLast(m, ins, k + 50, v7, disks, g, q, e + 55, size);
  }

  // ---- From power-on to the kernel ----

  /** The firmware image: the copy routine, its operation codes, and register values that make
      it copy blocks 2 to 51 to cell 41, starting at cell 23. */
  ghost predicate FirmwareImage(image: seq<string>, disk: string)
    ensures FirmwareImage(image, disk) ==> |image| == 40
  {
    && |image| == 40 && InPlace([""] + image + seq(61, i => ""))
    && image[2] == disk && image[3] == PrintInt(2) && image[4] == PrintInt(51) && image[5] == PrintInt(41)
    && image[15] == PrintInt(22) && image[16] == ""
  }

  /** The machine has the copy loop set up for the blocks d.. of the disk. */
  ghost predicate CopyReady(m: Machine, v: Cells, disks: Disks, disk: string, d: int, count: int, e: int) {
    && Poised(m, 23, v, disks) && LoopCells(v, d, d + count - 1, 41, e) && v[REG_C] == disk
  }

  lemma PowerOnReady(size: nat, image: seq<string>, disks: Disks, disk: string) returns (v: Cells)
    requires size > MIN_RAM_SIZE && FirmwareImage(image, disk)
    ensures CopyReady(PowerOn(size, image, disks).value, v, disks, disk, 2, 50, 0)
    ensures |v| == size + 1 && v[FREE_MEMORY_END] == PrintInt(size)
  {
    hide PrintInt, ReadCode, CountCode, CheckCode, PowerOn;
    var m := PowerOn(size, image, disks).value;
    v := Visible(m);
    StaysInPlace([""] + image + seq(61, i => ""), v[..102]);
    StaysInPlaceLonger(v[..102], v);
  }

  lemma StaysInPlaceLonger(v: Cells, w: Cells)
    requires InPlace(v) && |w| > MIN_RAM_SIZE && forall i :: 20 <= i <= 40 ==> w[i] == v[i]
    ensures InPlace(w)
  {
    hide IsLine;
  }

  lemma LoopKept(v: Cells, w: Cells, d: int, last: int, e: int)
    requires InPlace(v) && LowKept(v, w)
    requires w[REG_D] == PrintInt(d) && w[REG_E] == PrintInt(last) && w[REG_F] == PrintInt(41) && EnergyIn(w) == Some(e)
    ensures LoopCells(w, d, last, 41, e)
  {
    hide PrintInt, EnergyIn;
    StaysInPlace(v, w);
  }

  /** One stage: the copy loop loads an image to cell 41 and falls into it. */
  lemma Stage(m: Machine, ins: seq<Inputs>, k: nat, v: Cells, disks: Disks, disk: string, d: int, e: int,
              g: seq<string>)
      returns (w: Cells)
    requires Valid(m) && k + 18 * |g| <= |ins| && CopyReady(State(m, ins, k), v, disks, disk, d, |g|, e)
    requires |g| >= 1 && Blocks(disks, disk, d, g) && InInt(d) && InInt(d + |g|) && 41 + |g| <= |v| && InInt(|v|)
    requires 0 <= e && InInt(e + 13 * |g|)
    ensures Poised(State(m, ins, k + 18 * |g|), 41, w, disks) && LowKept(v, w) && InPlace(w)
    ensures Resident(w, g, {}) && w[REG_C] == disk && w[REG_F] == PrintInt(41 + |g|)
            && EnergyIn(w) == Some(e + 13 * |g|)
  {
    hide Poised, State, PrintInt, EnergyIn, ReadBlock, ReadCode, CountCode, CheckCode;
    w := LoopCorrect(State(m, ins, k), ins[k..k + 18 * |g|], v, disks, d, d + |g| - 1, 41, e, g);
    SplitRun(m, ins, k, ins[k..k + 18 * |g|]);
  }

  /** Steps from power-on to the kernel's first instruction. */
  function BootSteps(boot: seq<string>, kernel: seq<string>): nat {
    18 * 50 + 34 + 18 * |boot| + 56 + 18 * |kernel|
  }

  function BootEnergy(boot: seq<string>, kernel: seq<string>): nat {
    13 * 50 + 29 + 13 * |boot| + 56 + 13 * |kernel|
  }

  /** The numbers that the chain computes fit. */
  predicate Fits(size: nat, boot: seq<string>, q: nat, kernel: seq<string>) {
    && InInt(size + 1) && 166 <= size && 40 + |boot| <= size && 40 + |kernel| <= size
    && InInt(q + 2 + |kernel|) && InInt(54 + |boot|) && InInt(BootEnergy(boot, kernel))
  }

  /** The firmware loads the boot record, and the boot record sets up the bootloader. */
  lemma FirstStage(size: nat, image: seq<string>, disks: Disks, disk: string, mbr: seq<string>, boot: seq<string>,
                   q: nat, kernel: seq<string>, ins: seq<Inputs>) returns (w: Cells)
    requires FirmwareImage(image, disk) && MbrImage(mbr, disk) && |boot| >= 86 && Fits(size, boot, q, kernel)
    requires BootDisk(disks, disk, mbr, boot, q, kernel) && |ins| == BootSteps(boot, kernel)
    ensures |image| < size
    ensures CopyReady(State(PowerOn(size, image, disks).value, ins, 934), w, disks, disk, 54, |boot|, 679)
    ensures |w| == size + 1 && w[FREE_MEMORY_END] == PrintInt(size)
  {
    hide Poised, State, PrintInt, EnergyIn, ReadBlock, Resident, MbrCode, MbrSetup, ReadCode, CountCode, CheckCode,
      PowerOn;
    var m := PowerOn(size, image, disks).value;
    RunStates(m, ins);
    var v0 := PowerOnReady(size, image, disks, disk);
    var v1 := Stage(m, ins, 0, v0, disks, disk, 2, 0, mbr);
    assert Resident(v1, mbr, {89}) && v1[89] == PrintInt(52) by { MbrLoaded(v1, mbr, disk); }
    w := MbrRuns(m, ins, 900, v1, disks, mbr, disk, 650, |boot|);
    LoopKept(v1, w, 54, 53 + |boot|, 679);
  }

  lemma MbrLoaded(v: Cells, g: seq<string>, disk: string)
    requires Resident(v, g, {}) && MbrImage(g, disk)
    ensures Resident(v, g, {89}) && v[89] == PrintInt(52)
  {
    hide MbrCode, MbrSetup, PrintInt;
    assert v[89] == g[48];
  }

  lemma LoaderLoaded(v: Cells, g: seq<string>, q: int)
    requires Resident(v, g, {}) && LoaderImage(g, q)
    ensures Resident(v, g, {43, 105, 121}) && v[43] == PrintInt(q)
  {
    hide LoaderGreets, LoaderChecks, LoaderSizes, LoaderLaunches, PrintInt;
    assert v[43] == g[2];
  }

  /** The bootloader replaces the boot record and sets up the kernel. */
  lemma SecondStage(m: Machine, ins: seq<Inputs>, v: Cells, disks: Disks, disk: string, mbr: seq<string>,
                    boot: seq<string>, q: nat, kernel: seq<string>) returns (w: Cells)
    requires Valid(m) && |ins| == BootSteps(boot, kernel)
             && CopyReady(State(m, ins, 934), v, disks, disk, 54, |boot|, 679)
    requires LoaderImage(boot, q) && Fits(|v| - 1, boot, q, kernel) && BootDisk(disks, disk, mbr, boot, q, kernel)
    ensures |w| == |v| && w[FREE_MEMORY_END] == v[FREE_MEMORY_END]
    ensures CopyReady(State(m, ins, 990 + 18 * |boot|), w, disks, disk, q + 2, |kernel|, 735 + 13 * |boot|)
  {
    hide Poised, State, PrintInt, EnergyIn, ReadBlock, Resident, LoaderGreets, LoaderChecks, LoaderSizes,
      LoaderLaunches, LoaderData, ReadCode, CountCode, CheckCode;
    var v1 := Stage(m, ins, 934, v, disks, disk, 54, 679, boot);
    LoaderLoaded(v1, boot, q);
    w := LoaderRuns(m, ins, 934 + 18 * |boot|, v1, disks, boot, disk, q, 679 + 13 * |boot|, |kernel|);
    LoopKept(v1, w, q + 2, q + 1 + |kernel|, 735 + 13 * |boot|);
  }

  /** The boot chain: with a bootable disk and enough RAM, power-on leads to cell 41 with the
      kernel's lines in the cells from there on, REG_F behind them, and the RAM size still in
      FREE_MEMORY_END, although each stage overwrites the one before. */
  lemma BootChain(size: nat, image: seq<string>, disks: Disks, disk: string, mbr: seq<string>, boot: seq<string>,
                  q: nat, kernel: seq<string>, ins: seq<Inputs>) returns (w: Cells)
    requires FirmwareImage(image, disk) && MbrImage(mbr, disk) && LoaderImage(boot, q) && |kernel| >= 1
    requires BootDisk(disks, disk, mbr, boot, q, kernel) && Fits(size, boot, q, kernel)
             && |ins| == BootSteps(boot, kernel)
    ensures |image| < size
    ensures Poised(Run(PowerOn(size, image, disks).value, ins), KERNEL_START, w, disks)
    ensures |w| == size + 1 && forall i :: 0 <= i < |kernel| ==> w[KERNEL_START + i] == kernel[i]
    ensures w[REG_F] == PrintInt(KERNEL_START + |kernel|) && w[FREE_MEMORY_END] == PrintInt(size)
  {
    hide Poised, State, PrintInt, EnergyIn, ReadBlock, PowerOn, LoopCells, FirmwareImage, MbrImage, LoaderImage,
      Blocks, InPlace;
    var m := PowerOn(size, image, disks).value;
    RunStates(m, ins);
    var v1 := FirstStage(size, image, disks, disk, mbr, boot, q, kernel, ins);
    var v2 := SecondStage(m, ins, v1, disks, disk, mbr, boot, q, kernel);
    w := Stage(m, ins, 990 + 18 * |boot|, v2, disks, disk, q + 2, 735 + 13 * |boot|, kernel);
  }
}
