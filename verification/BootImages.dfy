/** The images of the boot chain written out, and a disk that holds them: every kernel that fits
    can be booted. */
module BootImages {
  import opened Text
  import opened Hardware
  import opened Runs
  import opened Stepping
  import opened MachineCode
  import opened Firmware
  import opened Boot

  /** The instruction in line n of the boot record, for n up to 34. */
  function MbrInstr(n: int): Instr {
    if n == 1 then Cp(75, 12) else if n == 2 then Cp(76, 7) else if n == 3 then Exec else
    if n == 4 then Cp(88, 1) else if n == 5 then Cp(89, 2) else if n == 6 then Cp(79, 7) else if n == 7 then Exec else
    if n == 8 then Jump(IfError, Direct(75)) else if n == 9 then Cp(8, 1) else if n == 10 then Cp(80, 2) else
    if n == 11 then Cp(81, 7) else if n == 12 then Exec else if n == 13 then Jump(IfFalse, Direct(75)) else
    if n == 14 then Cp(89, 1) else if n == 15 then Cp(77, 7) else if n == 16 then Exec else
    if n == 17 then Cp(8, 89) else if n == 18 then Cp(88, 1) else if n == 19 then Cp(89, 2) else
    if n == 20 then Cp(79, 7) else if n == 21 then Exec else if n == 22 then Jump(IfError, Direct(75)) else
    if n == 23 then Cp(8, 1) else if n == 24 then Cp(89, 2) else if n == 25 then Cp(82, 7) else
    if n == 26 then Exec else if n == 27 then Cp(8, 5) else if n == 28 then Cp(78, 6) else
    if n == 29 then Cp(89, 1) else if n == 30 then Cp(77, 7) else if n == 31 then Exec else
    if n == 32 then Cp(8, 4) else if n == 33 then Cp(88, 3) else if n == 34 then Jump(Always, Direct(23)) else
    Exec
  }

  function MbrLine(n: int, disk: string): string {
    if n <= 34 then TextOf(MbrInstr(n)) else if n == 35 then "Kagu MBR execution started"
    else if n == 36 then "20" else if n == 37 then "2" else if n == 38 then PrintInt(41) else if n == 39 then "21"
    else if n == 40 then "KAGU BOOTLOADER" else if n == 41 then "8" else if n == 42 then "0"
    else if n == 48 then disk else if n == 49 then PrintInt(52) else ""
  }

  function Mbr(disk: string): (g: seq<string>)
    ensures |g| == 50 && forall k :: 0 <= k < 50 ==> g[k] == MbrLine(k + 1, disk)
  {
    seq(50, k => MbrLine(k + 1, disk))
  }

  /** The instruction in line n of the bootloader, for n up to 64 but 2 and 3. */
  function LoaderInstr(n: int): Instr {
    if n < 37 then LoaderSearch(n) else LoaderLoad(n)
  }

  function LoaderSearch(n: int): Instr {
    if n == 1 then Jump(Always, Direct(44)) else if n == 4 then Cp(3, 105) else if n == 5 then Cp(106, 1) else
    if n == 6 then Cp(107, 2) else if n == 7 then Cp(108, 3) else if n == 8 then Cp(109, 4) else
    if n == 9 then Cp(110, 7) else if n == 11 then Cp(111, 12) else if n == 12 then Cp(112, 13) else
    if n == 13 then Cp(113, 7) else if n == 15 then Cp(42, 12) else if n == 16 then Cp(114, 13) else
    if n == 17 then Cp(115, 7) else if n == 19 then Cp(43, 1) else if n == 20 then Cp(116, 7) else
    if n == 22 then Jump(IfFalse, Direct(99)) else if n == 23 then Cp(1, 2) else if n == 24 then Cp(105, 1) else
    if n == 25 then Cp(117, 7) else if n == 27 then Jump(IfError, Direct(99)) else if n == 28 then Cp(8, 1) else
    if n == 29 then Cp(118, 2) else if n == 30 then Cp(119, 7) else if n == 32 then Jump(IfFalse, Direct(99)) else
    if n == 33 then Cp(43, 1) else if n == 34 then Cp(120, 7) else if n == 36 then Cp(8, 43) else
    Exec
  }

  function LoaderLoad(n: int): Instr {
    if n == 37 then Cp(105, 1) else if n == 38 then Cp(43, 2) else if n == 39 then Cp(117, 7) else
    if n == 41 then Jump(IfError, Direct(99)) else if n == 42 then Cp(8, 1) else if n == 43 then Cp(116, 7) else
    if n == 45 then Jump(IfFalse, Direct(99)) else if n == 46 then Cp(1, 121) else if n == 47 then Cp(43, 1) else
    if n == 48 then Cp(120, 7) else if n == 50 then Cp(105, 3) else if n == 51 then Cp(8, 4) else
    if n == 52 then Cp(122, 6) else if n == 53 then Cp(43, 1) else if n == 54 then Cp(121, 2) else
    if n == 55 then Cp(123, 7) else if n == 57 then Cp(8, 5) else if n == 58 then Jump(Always, Direct(23)) else
    if n == 59 then Cp(125, 12) else if n == 60 then Cp(124, 13) else if n == 61 then Cp(115, 7) else
    if n == 63 then Cp(126, 7) else
    Exec
  }

  function LoaderLine(n: int, q: int): string {
    if n == 2 then "Simple kernel for KaguOS" else if n == 3 then PrintInt(q)
    else if n <= 64 then TextOf(LoaderInstr(n))
    else if n == 65 then "VAR: DISK NAME PLACEHOLDER"
      else if n == 71 then "Welcome to Kagu bootloader! Trying to load kernel "
    else if n == 72 then "5" else if n == 74 then "1" else if n == 81 then "VAR: KERNEL SIZE PLACEHOLDER"
    else if n == 84 then "3" else if n == 85 then "Fail to load kernel!" else if n == 86 then "30"
    else if n == 66 then PrintInt(127) else if n == 67 then PrintInt(167) else if n == 68 then PrintInt(0)
    else if n == 69 then PrintInt(0) else if n == 70 then "24" else if n == 73 then "19" else if n == 75 then "20"
    else if n == 76 then "7" else if n == 77 then "21" else if n == 78 then "KAGU KERNEL" else if n == 79 then "8"
    else if n == 80 then "2" else if n == 82 then PrintInt(41) else if n == 83 then "0" else ""
  }

  /** The bootloader with the lines of its picture. */
  function Loader(q: int, picture: seq<string>): (g: seq<string>)
    ensures |g| == 86 + |picture| && forall k :: 0 <= k < 86 ==> g[k] == LoaderLine(k + 1, q)
  {
    seq(86, k => LoaderLine(k + 1, q)) + picture
  }

  /** The instruction in line n of the firmware, for n from 23. */
  function FirmwareInstr(n: int): Instr {
    if n == 23 then Cp(3, 1) else if n == 24 then Cp(4, 2) else if n == 25 then Cp(20, 7) else if n == 27 then
      Jump(IfError, Direct(41))
    else if n == 28 then Copy(Direct(8), Indirect(6)) else if n == 29 then Cp(6, 1) else if n == 30 then Cp(21, 7)
    else if n == 32 then Cp(8, 6) else if n == 33 then Cp(4, 1) else if n == 35 then Cp(8, 4)
      else if n == 36 then Cp(4, 1)
    else if n == 37 then Cp(5, 2) else if n == 38 then Cp(22, 7) else if n == 40 then Jump(IfTrue, Direct(23))
    else Exec
  }

  function FirmwareLine(n: int, disk: string): string {
    if n == 3 then disk else if n == 4 then PrintInt(2) else if n == 5 then PrintInt(51)
      else if n == 6 then PrintInt(41)
    else if n == 16 then PrintInt(22) else if n == 20 then "21" else if n == 21 then "2" else if n == 22 then "11"
    else if n >= 23 then TextOf(FirmwareInstr(n)) else ""
  }

  function FirmwareText(disk: string): (g: seq<string>)
    ensures |g| == 40 && forall k :: 0 <= k < 40 ==> g[k] == FirmwareLine(k + 1, disk)
  {
    seq(40, k => FirmwareLine(k + 1, disk))
  }

  lemma MbrHas(disk: string, n: int)
    requires 1 <= n <= 34
    ensures Has(Mbr(disk), n, MbrInstr(n))
  {
    hide TextOf, IsLine, PrintInt;
    TextIsLine(MbrInstr(n));
  }

  lemma MbrHasAll(disk: string)
    ensures forall n, i :: 1 <= n <= 34 && i == MbrInstr(n) ==> Has(Mbr(disk), n, i)
  {
    hide Has, MbrInstr;
    forall n, i | 1 <= n <= 34 && i == MbrInstr(n)
      ensures Has(Mbr(disk), n, i)
    {
      MbrHas(disk, n);
    }
  }

  lemma MbrCodeWritten(disk: string)
    ensures MbrCode(Mbr(disk))
  {
    hide Has, Mbr, PrintInt, TextOf;
    MbrHasAll(disk);
  }

  lemma MbrSetupWritten(disk: string)
    ensures MbrSetup(Mbr(disk))
  {
    hide Has, Mbr, PrintInt, TextOf;
    MbrHasAll(disk);
  }

  lemma MbrIsImage(disk: string)
    ensures MbrImage(Mbr(disk), disk)
  {
    hide MbrCode, MbrSetup, PrintInt;
    MbrCodeWritten(disk);
    MbrSetupWritten(disk);
  }

  lemma LoaderHas(q: int, picture: seq<string>, n: int)
    requires 1 <= n <= 58 && n != 2 && n != 3
    ensures Has(Loader(q, picture), n, LoaderInstr(n))
  {
    hide TextOf, IsLine, PrintInt;
    TextIsLine(LoaderInstr(n));
  }

  lemma LoaderHasAll(q: int, picture: seq<string>)
    ensures forall n, i :: 1 <= n <= 58 && n != 2 && n != 3 && i == LoaderInstr(n) ==> Has(Loader(q, picture), n, i)
  {
    hide Has, LoaderInstr;
    forall n, i | 1 <= n <= 58 && n != 2 && n != 3 && i == LoaderInstr(n)
      ensures Has(Loader(q, picture), n, i)
    {
      LoaderHas(q, picture, n);
    }
  }

  lemma LoaderGreetsWritten(q: int, picture: seq<string>)
    ensures LoaderGreets(Loader(q, picture))
  {
    hide Has, Loader, PrintInt, TextOf;
    LoaderHasAll(q, picture);
  }

  lemma LoaderChecksWritten(q: int, picture: seq<string>)
    ensures LoaderChecks(Loader(q, picture))
  {
    hide Has, Loader, PrintInt, TextOf;
    LoaderHasAll(q, picture);
  }

  lemma LoaderSizesWritten(q: int, picture: seq<string>)
    ensures LoaderSizes(Loader(q, picture))
  {
    hide Has, Loader, PrintInt, TextOf;
    LoaderHasAll(q, picture);
  }

  lemma LoaderLaunchesWritten(q: int, picture: seq<string>)
    ensures LoaderLaunches(Loader(q, picture))
  {
    hide Has, Loader, PrintInt, TextOf;
    LoaderHasAll(q, picture);
  }

  lemma LoaderIsImage(q: int, picture: seq<string>)
    ensures LoaderImage(Loader(q, picture), q)
  {
    hide LoaderGreets, LoaderChecks, LoaderSizes, LoaderLaunches, PrintInt;
    LoaderGreetsWritten(q, picture);
    LoaderChecksWritten(q, picture);
    LoaderSizesWritten(q, picture);
    LoaderLaunchesWritten(q, picture);
  }

  /** The memory that the firmware text fills. */
  function FirmwareCells(disk: string): (v: seq<string>)
    ensures |v| == 102
  {
    [""] + FirmwareText(disk) + seq(61, i => "")
  }

  lemma FirmwareHas(disk: string, n: int)
    requires 23 <= n <= 40
    ensures Line(FirmwareCells(disk), n, FirmwareInstr(n))
  {
    hide IsLine, TextOf, PrintInt;
    TextIsLine(FirmwareInstr(n));
  }

  lemma FirmwareHasAll(disk: string)
    ensures forall n :: 23 <= n <= 40 ==> IsLine(FirmwareCells(disk)[n], FirmwareInstr(n))
  {
    forall n | 23 <= n <= 40
      ensures IsLine(FirmwareCells(disk)[n], FirmwareInstr(n))
    {
      FirmwareHas(disk, n);
    }
  }

  lemma FirmwareReads(disk: string)
    ensures ReadCode(FirmwareCells(disk))
  {
    hide IsLine, FirmwareCells;
    FirmwareHasAll(disk);
  }

  lemma FirmwareCounts(disk: string)
    ensures CountCode(FirmwareCells(disk)) && CheckCode(FirmwareCells(disk))
  {
    hide IsLine, FirmwareCells;
    FirmwareHasAll(disk);
  }

  lemma FirmwareIsImage(disk: string)
    ensures FirmwareImage(FirmwareText(disk), disk)
  {
    hide ReadCode, CountCode, CheckCode, PrintInt, FirmwareText;
    FirmwareReads(disk);
    FirmwareCounts(disk);
  }

  // ---- A disk for every kernel ----

  /** The kernel's first block on the disk below: 180 for a picture of forty lines. */
  function KernelBlock(picture: seq<string>): nat {
    140 + |picture|
  }

  /** Block count, boot record, bootloader and kernel, each of the latter two behind its signature
      and its size. */
  function DiskLines(disk: string, picture: seq<string>, kernel: seq<string>): (lines: seq<string>)
    ensures |lines| == 141 + |picture| + |kernel|
  {
    [PrintInt(141 + |picture| + |kernel|)] + Mbr(disk) + ["KAGU BOOTLOADER", PrintInt(86 + |picture|)]
    + Loader(KernelBlock(picture), picture) + ["KAGU KERNEL", PrintInt(|kernel|)] + kernel
  }

  lemma BlockIsLine(disk: string, picture: seq<string>, kernel: seq<string>, n: int)
    requires 1 <= n <= 141 + |picture| + |kernel| && InInt(141 + |picture| + |kernel|)
    ensures ReadBlock(map[disk := DiskLines(disk, picture, kernel)], disk, n) ==
              Block(DiskLines(disk, picture, kernel)[n - 1])
  {
    hide PrintInt, Stoi, Mbr, Loader;
    StoiPrint(141 + |picture| + |kernel|);
    assert DiskLines(disk, picture, kernel)[0] == PrintInt(141 + |picture| + |kernel|);
  }

  lemma DiskIsBootable(disk: string, picture: seq<string>, kernel: seq<string>)
    requires InInt(141 + |picture| + |kernel|)
    ensures BootDisk(map[disk := DiskLines(disk, picture, kernel)], disk, Mbr(disk),
                     Loader(KernelBlock(picture), picture), KernelBlock(picture), kernel)
  {
    hide PrintInt, ReadBlock, MbrLine, LoaderLine;
    forall n | 1 <= n <= 141 + |picture| + |kernel|
      ensures ReadBlock(map[disk := DiskLines(disk, picture, kernel)], disk, n) ==
                Block(DiskLines(disk, picture, kernel)[n - 1])
    {
      BlockIsLine(disk, picture, kernel, n);
    }
  }

  /** Every kernel that fits the RAM and the number range can be booted, with a bootloader that
      draws any picture: with this firmware and this disk, power-on leads to its first line. */
  lemma EveryKernelBoots(size: nat, disk: string, picture: seq<string>, kernel: seq<string>, ins: seq<Inputs>)
      returns (w: Cells)
    requires |kernel| >= 1 && Fits(size, Loader(KernelBlock(picture), picture), KernelBlock(picture), kernel)
    requires |ins| == BootSteps(Loader(KernelBlock(picture), picture), kernel)
    ensures 40 < size
    ensures var disks := map[disk := DiskLines(disk, picture, kernel)];
            Poised(Run(PowerOn(size, FirmwareText(disk), disks).value, ins), KERNEL_START, w, disks)
    ensures |w| == size + 1 && forall i :: 0 <= i < |kernel| ==> w[KERNEL_START + i] == kernel[i]
    ensures w[REG_F] == PrintInt(KERNEL_START + |kernel|)
  {
    hide Poised, PrintInt, Mbr, Loader, FirmwareText, Run, BootDisk, LoaderImage, MbrImage, FirmwareImage, PowerOn;
    FirmwareIsImage(disk);
    MbrIsImage(disk);
    LoaderIsImage(KernelBlock(picture), picture);
    DiskIsBootable(disk, picture, kernel);
    w := BootChain(size, FirmwareText(disk), map[disk := DiskLines(disk, picture, kernel)], disk, Mbr(disk),
                   Loader(KernelBlock(picture), picture), KernelBlock(picture), kernel, ins);
  }
}
