/** The kernel's file system as values: descriptors, file headers and the disk blocks that hold
    the lines of a file. `FileSystem.dfy` holds the routines with their loops. */
module Files {
  import opened Wrappers
  import opened Text
  import opened Columns
  import opened Hardware

  /** What a routine leaves in RES and ERROR. `Stopped` is an operand that the CPU refuses with
      an exception, which stops the machine. */
  datatype Reply = Answer(text: string) | Failed | NoDescriptors | Stopped

  /** The floating-point unit, for operands with a decimal point. */
  datatype Fpu = Fpu(text: (int, string, string) -> Option<string>, test: (int, string, string) -> Option<bool>)

  /** An arithmetic operation of the CPU; `None` where it throws. */
  function Number(fpu: Fpu, op: int, a: string, b: string): Option<string>
    requires op == OP_ADD || op == OP_SUB || op == OP_INCR || op == OP_DECR
  {
    Compute(op, a, b, "", "", Inputs(0, None, "", fpu.text(op, a, b), None)).res
  }

  /** An order comparison of the CPU. */
  function Test(fpu: Fpu, op: int, a: string, b: string): Option<bool>
    requires op == OP_CMP_LT || op == OP_CMP_LE
  {
    match Compute(op, a, b, "", "", Inputs(0, None, "", None, fpu.test(op, a, b))).flag
    case None => None
    case Some(flag) => Some(flag == "1")
  }

  /** The length of the interval with the given bounds: last - first + 1. */
  function Span(fpu: Fpu, first: string, last: string): Option<string> {
    match Number(fpu, OP_SUB, last, first)
    case None => None
    case Some(d) => Number(fpu, OP_INCR, d, "")
  }

  // ---- File headers: "name r w x user group BLOCKS first last first last ..." ----

  /** The number of lines of a file, summed up from the given header column on. */
  function SizeFrom(fpu: Fpu, header: string, column: nat, result: string): Reply
    requires column >= 1
    decreases |Tokens(header, " ")| + 1 - column
  {
    var first, last := GetColumn(header, column, " "), GetColumn(header, column + 1, " ");
    if first == "" then Answer(result)
    else if !IsNum(first) || !IsNum(last) then Failed
    else
      match Span(fpu, first, last)
      case None => Stopped
      case Some(n) =>
        match Number(fpu, OP_ADD, result, n)
        case None => Stopped
        case Some(sum) => SizeFrom(fpu, header, column + 2, sum)
  }

  /** The block that holds a line, counted from the interval in the given header column on. */
  function BlockFrom(fpu: Fpu, header: string, column: nat, index: string): Reply
    requires column >= 1
    decreases |Tokens(header, " ")| + 1 - column
  {
    var first, last := GetColumn(header, column, " "), GetColumn(header, column + 1, " ");
    if !IsNum(first) || !IsNum(last) then Failed
    else
      match Span(fpu, first, last)
      case None => Stopped
      case Some(n) =>
        match Test(fpu, OP_CMP_LE, index, n)
        case None => Stopped
        case Some(true) =>
          (match Number(fpu, OP_ADD, first, index)
           case None => Stopped
           case Some(sum) =>
             match Number(fpu, OP_DECR, sum, "") case None => Stopped case Some(block) => Answer(block))
        case Some(false) =>
          match Number(fpu, OP_SUB, index, n)
          case None => Stopped
          case Some(left) => BlockFrom(fpu, header, column + 2, left)
  }

  const FIRST_INTERVAL := 8

  // ---- Intervals of blocks ----

  datatype Interval = Interval(first: nat, last: nat)

  function Range(first: nat, last: nat): (r: seq<nat>)
    ensures |r| == if first <= last then last - first + 1 else 0
    ensures forall i :: 0 <= i < |r| ==> r[i] == first + i
  {
    if first <= last then seq(last - first + 1, i requires 0 <= i => first + i) else []
  }

  /** The blocks of a file in line order: its intervals laid end to end. */
  function BlocksOf(ivs: seq<Interval>): seq<nat> {
    if ivs == [] then [] else Range(ivs[0].first, ivs[0].last) + BlocksOf(ivs[1..])
  }

  /** A header that lists the given intervals behind its seven leading columns. */
  ghost predicate HeaderFor(header: string, ivs: seq<Interval>) {
    var ts := Tokens(header, " ");
    && |ts| == 7 + 2 * |ivs|
    && (forall k :: 0 <= k < |ivs| ==> ListsInterval(ts, ivs, k))
    && InInt(|BlocksOf(ivs)|)
  }

  ghost predicate ListsInterval(ts: seq<string>, ivs: seq<Interval>, k: int)
    requires 0 <= k < |ivs| && |ts| == 7 + 2 * |ivs|
  {
    && ts[7 + 2 * k] == PrintInt(ivs[k].first) && ts[8 + 2 * k] == PrintInt(ivs[k].last)
    && ivs[k].first <= ivs[k].last && InInt(ivs[k].last + 1)
  }

  lemma NotFloat(n: int)
    ensures !IsFloat(PrintInt(n))
  {
    PrintChars(n);
  }

  lemma NumberOfPrinted(fpu: Fpu, a: int, b: int)
    requires InInt(a) && InInt(b)
    ensures Number(fpu, OP_ADD, PrintInt(a), PrintInt(b)) == Some(PrintInt(a + b))
    ensures Number(fpu, OP_SUB, PrintInt(a), PrintInt(b)) == Some(PrintInt(a - b))
    ensures Test(fpu, OP_CMP_LE, PrintInt(a), PrintInt(b)) == Some(a <= b)
    ensures Test(fpu, OP_CMP_LT, PrintInt(a), PrintInt(b)) == Some(a < b)
  {
    hide PrintInt, Stoi;
    StoiPrint(a);
    StoiPrint(b);
    NotFloat(a);
    NotFloat(b);
  }

  lemma StepOfPrinted(fpu: Fpu, a: int)
    requires InInt(a)
    ensures Number(fpu, OP_INCR, PrintInt(a), "") == Some(PrintInt(a + 1))
    ensures Number(fpu, OP_DECR, PrintInt(a), "") == Some(PrintInt(a - 1))
  {
    hide PrintInt, Stoi;
    StoiPrint(a);
    NotFloat(a);
  }

  /** The header columns of interval k. */
  lemma IntervalColumns(fpu: Fpu, header: string, ivs: seq<Interval>, k: nat)
    requires HeaderFor(header, ivs) && k < |ivs|
    ensures var i := ivs[k];
            var first, last := GetColumn(header, FIRST_INTERVAL + 2 * k, " "),
                GetColumn(header, FIRST_INTERVAL + 2 * k + 1, " ");
            && first == PrintInt(i.first) && last == PrintInt(i.last) && first != "" && IsNum(first) && IsNum(last)
            && Span(fpu, first, last) == Some(PrintInt(i.last - i.first + 1))
            && i.first <= i.last && InInt(i.first) && InInt(i.last + 1)
  {
    hide Tokens, PrintInt, IsNum, Number;
    var ts := Tokens(header, " ");
    assert ListsInterval(ts, ivs, k);
    var i := ivs[k];
    PrintedIsNum(i.first);
    PrintedIsNum(i.last);
    NumberOfPrinted(fpu, i.last, i.first);
    StepOfPrinted(fpu, i.last - i.first);
  }

  lemma NoMoreColumns(header: string, ivs: seq<Interval>)
    requires HeaderFor(header, ivs)
    ensures GetColumn(header, FIRST_INTERVAL + 2 * |ivs|, " ") == ""
  {
  }

  lemma BlocksFrom(ivs: seq<Interval>, k: nat)
    requires k < |ivs|
    ensures BlocksOf(ivs[k..]) == Range(ivs[k].first, ivs[k].last) + BlocksOf(ivs[k + 1..])
  {
    assert ivs[k..][1..] == ivs[k + 1..] && ivs[k..][0] == ivs[k];
  }

  /** The size of a file is the number of blocks in its intervals. */
  lemma {:induction false} SizeIsCount(fpu: Fpu, header: string, ivs: seq<Interval>, k: nat, sum: nat)
    requires HeaderFor(header, ivs) && k <= |ivs| && InInt(sum + |BlocksOf(ivs[k..])|)
    ensures SizeFrom(fpu, header, FIRST_INTERVAL + 2 * k, PrintInt(sum)) == Answer(PrintInt(sum + |BlocksOf(ivs[k..])|))
    decreases |ivs| - k
  {
    hide HeaderFor, GetColumn, PrintInt, IsNum, Number, Span, Tokens;
    if k == |ivs| {
      NoMoreColumns(header, ivs);
    } else {
      var n := ivs[k].last - ivs[k].first + 1;
      IntervalColumns(fpu, header, ivs, k);
      BlocksFrom(ivs, k);
      NumberOfPrinted(fpu, sum, n);
      SizeIsCount(fpu, header, ivs, k + 1, sum + n);
    }
  }

  /** The block of line i is the i-th of the file's blocks; beyond the last line there is none. */
  lemma {:induction false} BlockIsIndexed(fpu: Fpu, header: string, ivs: seq<Interval>, k: nat, i: int)
    requires HeaderFor(header, ivs) && k <= |ivs| && 1 <= i && InInt(i)
    ensures BlockFrom(fpu, header, FIRST_INTERVAL + 2 * k, PrintInt(i)) ==
              if i <= |BlocksOf(ivs[k..])| then Answer(PrintInt(BlocksOf(ivs[k..])[i - 1])) else Failed
    decreases |ivs| - k
  {
    hide HeaderFor, GetColumn, PrintInt, IsNum, Number, Span, Test, Tokens;
    if k == |ivs| {
      NoMoreColumns(header, ivs);
      NothingIsNoNum();
    } else {
      var f := ivs[k].first;
      var n := ivs[k].last - f + 1;
      IntervalColumns(fpu, header, ivs, k);
      BlocksFrom(ivs, k);
      NumberOfPrinted(fpu, i, n);
      if i <= n {
        NumberOfPrinted(fpu, f, i);
        BlockInRange(fpu, f, i);
      } else {
        BlockIsIndexed(fpu, header, ivs, k + 1, i - n);
      }
    }
  }

  lemma NothingIsNoNum()
    ensures !IsNum("")
  {
  }

  lemma BlockInRange(fpu: Fpu, f: int, i: int)
    requires InInt(f + i)
    ensures Number(fpu, OP_DECR, PrintInt(f + i), "") == Some(PrintInt(f + i - 1))
  {
    hide Number, PrintInt;
    StepOfPrinted(fpu, f + i);
  }

  // ---- Reading and writing lines ----

  type Disks = map<string, seq<string>>

  /** OP_READ_BLOCK with a block number in text form. */
  function BlockText(disks: Disks, disk: string, number: string): Reply {
    match Stoi(number)
    case None => Stopped
    case Some(n) =>
      match ReadBlock(disks, disk, n)
      case Block(text) => Answer(text)
      case NoBlock => Failed
      case BadHeader => Stopped
  }

  /** The block of a line of an open file. A descriptor is "path disk headerBlock size". */
  function LineBlock(fpu: Fpu, disks: Disks, descriptor: string, line: int): Reply {
    match Test(fpu, OP_CMP_LT, GetColumn(descriptor, 4, " "), PrintInt(line))
    case None => Stopped
    case Some(true) => Failed
    case Some(false) =>
      match BlockText(disks, GetColumn(descriptor, 2, " "), GetColumn(descriptor, 3, " "))
      case Answer(header) => BlockFrom(fpu, header, FIRST_INTERVAL, PrintInt(line))
      case Failed => Failed
      case NoDescriptors => NoDescriptors
      case Stopped => Stopped
  }

  function ReadLine(fpu: Fpu, disks: Disks, table: seq<string>, fd: nat, line: int): Reply {
    if fd >= |table| then Failed
    else
      match LineBlock(fpu, disks, table[fd], line)
      case Answer(block) => BlockText(disks, GetColumn(table[fd], 2, " "), block)
      case Failed => Failed
      case NoDescriptors => NoDescriptors
      case Stopped => Stopped
  }

  /** OP_WRITE_BLOCK with a block number in text form; the reply keeps that number in RES. */
  function PutBlock(disks: Disks, disk: string, number: string, data: string): (Reply, Disks) {
    match Stoi(number)
    case None => (Stopped, disks)
    case Some(n) =>
      match WriteBlock(disks, disk, n, data)
      case Written(after) => (Answer(number), after)
      case NotWritten => (Failed, disks)
      case BadDisk => (Stopped, disks)
  }

  function WriteLine(fpu: Fpu, disks: Disks, table: seq<string>, fd: nat, line: int, data: string): (Reply, Disks) {
    if fd >= |table| then (Failed, disks)
    else
      match LineBlock(fpu, disks, table[fd], line)
      case Answer(block) => PutBlock(disks, GetColumn(table[fd], 2, " "), block, data)
      case Failed => (Failed, disks)
      case NoDescriptors => (NoDescriptors, disks)
      case Stopped => (Stopped, disks)
  }

  // ---- Files as line sequences ----

  /** Where a file lives: its disk, the block of its header, and its intervals. */
  datatype FileInfo = FileInfo(disk: string, header: nat, ivs: seq<Interval>)

  function BlockCount(disks: Disks, disk: string): (n: int)
    requires disk in disks && |disks[disk]| > 0 && Stoi(disks[disk][0]).Some?
  {
    Stoi(disks[disk][0]).value
  }

  /** The disk file has a readable block count and holds that many lines. */
  ghost predicate GoodDisk(disks: Disks, disk: string) {
    disk in disks && |disks[disk]| > 0 && Stoi(disks[disk][0]).Some? && BlockCount(disks, disk) == |disks[disk]|
  }

  /** Data blocks are 2 to count - 1: those that can be written. */
  ghost predicate GoodFile(disks: Disks, f: FileInfo) {
    && GoodDisk(disks, f.disk) && InInt(|disks[f.disk]|)
    && 2 <= f.header <= |disks[f.disk]| && HeaderFor(disks[f.disk][f.header - 1], f.ivs)
    && forall p :: 0 <= p < |BlocksOf(f.ivs)| ==> 2 <= BlocksOf(f.ivs)[p] < |disks[f.disk]|
  }

  /** The lines of a file. */
  function Contents(disks: Disks, f: FileInfo): (lines: seq<string>)
    requires GoodFile(disks, f)
    ensures |lines| == |BlocksOf(f.ivs)|
  {
    var bs := BlocksOf(f.ivs);
    seq(|bs|, p requires 0 <= p < |bs| => disks[f.disk][bs[p] - 1])
  }

  /** The descriptor of an open file. */
  ghost predicate DescriptorFor(descriptor: string, f: FileInfo) {
    && GetColumn(descriptor, 2, " ") == f.disk && GetColumn(descriptor, 3, " ") == PrintInt(f.header)
    && GetColumn(descriptor, 4, " ") == PrintInt(|BlocksOf(f.ivs)|)
  }

  /** No block is used twice: not within a file, not by two files, and not as a header. */
  ghost predicate Disjoint(f: FileInfo, g: FileInfo) {
    && (f.disk == g.disk && f != g ==> forall p, q :: 0 <= p < |BlocksOf(f.ivs)| && 0 <= q < |BlocksOf(g.ivs)| ==>
          BlocksOf(f.ivs)[p] != BlocksOf(g.ivs)[q])
    && (forall p, q :: 0 <= p < q < |BlocksOf(f.ivs)| ==> BlocksOf(f.ivs)[p] != BlocksOf(f.ivs)[q])
    && (f.disk == g.disk ==> g.header !in BlocksOf(f.ivs))
  }

  lemma LineBlockIs(fpu: Fpu, disks: Disks, descriptor: string, f: FileInfo, i: int)
    requires GoodFile(disks, f) && DescriptorFor(descriptor, f) && 1 <= i && InInt(i)
    ensures LineBlock(fpu, disks, descriptor, i) ==
              if i <= |BlocksOf(f.ivs)| then Answer(PrintInt(BlocksOf(f.ivs)[i - 1])) else Failed
  {
    hide PrintInt, Stoi, GetColumn, BlockFrom, Test, BlocksOf, HeaderFor;
    SizeInInt(disks, f);
    NumberOfPrinted(fpu, |BlocksOf(f.ivs)|, i);
    StoiPrint(f.header);
    BlockIsIndexed(fpu, disks[f.disk][f.header - 1], f.ivs, 0, i);
    assert f.ivs[0..] == f.ivs;
  }

  lemma SizeInInt(disks: Disks, f: FileInfo)
    requires GoodFile(disks, f)
    ensures InInt(|BlocksOf(f.ivs)|)
  {
    hide BlocksOf, Tokens;
  }

  /** Reading line i gives the i-th line; there is nothing behind the last line. */
  lemma ReadIsContents(fpu: Fpu, disks: Disks, table: seq<string>, fd: nat, f: FileInfo, i: int)
    requires fd < |table| && GoodFile(disks, f) && DescriptorFor(table[fd], f) && 1 <= i && InInt(i)
    ensures ReadLine(fpu, disks, table, fd, i) ==
              if i <= |Contents(disks, f)| then Answer(Contents(disks, f)[i - 1]) else Failed
  {
    hide PrintInt, Stoi, GetColumn, BlocksOf, HeaderFor, LineBlock;
    LineBlockIs(fpu, disks, table[fd], f, i);
    if i <= |BlocksOf(f.ivs)| {
      StoiPrint(BlocksOf(f.ivs)[i - 1]);
    }
  }

  lemma WriteIsUpdate(fpu: Fpu, disks: Disks, table: seq<string>, fd: nat, f: FileInfo, i: int, data: string)
    requires fd < |table| && GoodFile(disks, f) && DescriptorFor(table[fd], f) && 1 <= i && InInt(i)
    ensures WriteLine(fpu, disks, table, fd, i, data) ==
              if i <= |BlocksOf(f.ivs)|
              then var b := BlocksOf(f.ivs)[i - 1];
                   (Answer(PrintInt(b)), disks[f.disk := disks[f.disk][b - 1 := data]])
              else (Failed, disks)
  {
    hide PrintInt, Stoi, GetColumn, BlocksOf, HeaderFor, LineBlock;
    LineBlockIs(fpu, disks, table[fd], f, i);
    if i <= |BlocksOf(f.ivs)| {
      StoiPrint(BlocksOf(f.ivs)[i - 1]);
      PadNothing(disks[f.disk], BlocksOf(f.ivs)[i - 1]);
    }
  }

  /** A line number below 1 is not refused: it gives the block that far in front of the first. */
  function BlockBelow(f: FileInfo, i: int): int
    requires |f.ivs| > 0
  {
    f.ivs[0].first + i - 1
  }

  lemma LineBelowFirst(fpu: Fpu, disks: Disks, descriptor: string, f: FileInfo, i: int)
    requires GoodFile(disks, f) && DescriptorFor(descriptor, f) && i <= 0 && InInt(i - 1)
    ensures LineBlock(fpu, disks, descriptor, i) ==
              if |f.ivs| > 0 then Answer(PrintInt(BlockBelow(f, i))) else Failed
  {
    hide PrintInt, Stoi, GetColumn, BlockFrom, Test, BlocksOf, HeaderFor;
    SizeInInt(disks, f);
    NumberOfPrinted(fpu, |BlocksOf(f.ivs)|, i);
    StoiPrint(f.header);
    BlockBelowFirst(fpu, disks[f.disk][f.header - 1], f.ivs, i);
  }

  lemma BlockBelowFirst(fpu: Fpu, header: string, ivs: seq<Interval>, i: int)
    requires HeaderFor(header, ivs) && i <= 0 && InInt(i)
    ensures BlockFrom(fpu, header, FIRST_INTERVAL, PrintInt(i)) ==
              if |ivs| > 0 then Answer(PrintInt(ivs[0].first + i - 1)) else Failed
  {
    hide HeaderFor, GetColumn, PrintInt, IsNum, Number, Span, Test, Tokens;
    if ivs == [] {
      NoMoreColumns(header, ivs);
      NothingIsNoNum();
    } else {
      IntervalColumns(fpu, header, ivs, 0);
      NumberOfPrinted(fpu, i, ivs[0].last - ivs[0].first + 1);
      NumberOfPrinted(fpu, ivs[0].first, i);
      BlockInRange(fpu, ivs[0].first, i);
    }
  }

  /** So reading and writing at a line number below 1 leave the file: they act on block `BlockBelow`
      of the disk, if it can be read or written. */
  lemma AccessBelowFirst(fpu: Fpu, disks: Disks, table: seq<string>, fd: nat, f: FileInfo, i: int, data: string)
    requires fd < |table| && GoodFile(disks, f) && DescriptorFor(table[fd], f) && i <= 0 && InInt(i - 1)
    requires |f.ivs| > 0
    ensures var b, lines := BlockBelow(f, i), disks[f.disk];
            && ReadLine(fpu, disks, table, fd, i) == (if 1 <= b <= |lines| then Answer(lines[b - 1]) else Failed)
            && WriteLine(fpu, disks, table, fd, i, data) ==
                 (if 2 <= b < |lines| then (Answer(PrintInt(b)), disks[f.disk := lines[b - 1 := data]])
                  else (Failed, disks))
  {
    hide PrintInt, Stoi, GetColumn, BlocksOf, HeaderFor, LineBlock;
    FirstInRange(disks, f);
    LineBelowFirst(fpu, disks, table[fd], f, i);
    StoiPrint(BlockBelow(f, i));
    if 2 <= BlockBelow(f, i) < |disks[f.disk]| {
      PadNothing(disks[f.disk], BlockBelow(f, i));
    }
  }

  lemma FirstInRange(disks: Disks, f: FileInfo)
    requires GoodFile(disks, f) && |f.ivs| > 0
    ensures 2 <= f.ivs[0].first < |disks[f.disk]| && InInt(f.ivs[0].first)
  {
    hide Tokens;
    var header := disks[f.disk][f.header - 1];
    assert ListsInterval(Tokens(header, " "), f.ivs, 0);
    assert BlocksOf(f.ivs)[0] == f.ivs[0].first;
  }

  /** In particular, line 0 of a file whose blocks follow its header is the header. */
  lemma LineZeroIsHeader(fpu: Fpu, disks: Disks, table: seq<string>, fd: nat, f: FileInfo)
    requires fd < |table| && GoodFile(disks, f) && DescriptorFor(table[fd], f)
    requires |f.ivs| > 0 && f.ivs[0].first == f.header + 1
    ensures ReadLine(fpu, disks, table, fd, 0) == Answer(disks[f.disk][f.header - 1])
  {
    hide ReadLine, WriteLine, HeaderFor, BlocksOf, DescriptorFor;
    AccessBelowFirst(fpu, disks, table, fd, f, 0, "");
  }

  lemma PadNothing(lines: seq<string>, n: nat)
    requires n <= |lines|
    ensures PadTo(lines, n) == lines
  {
  }

  /** A write to file f replaces one of its lines and leaves every line of another file alone;
      all files stay well-formed. */
  lemma WriteUpdatesContents(fpu: Fpu, disks: Disks, table: seq<string>, fd: nat, f: FileInfo, i: int, data: string,
                             g: FileInfo)
    requires fd < |table| && DescriptorFor(table[fd], f) && 1 <= i <= |BlocksOf(f.ivs)|
    requires GoodFile(disks, f) && GoodFile(disks, g) && Disjoint(f, g)
    ensures var r := WriteLine(fpu, disks, table, fd, i, data);
            && r.0.Answer? && GoodFile(r.1, g)
            && Contents(r.1, g) == if g == f then Contents(disks, f)[i - 1 := data] else Contents(disks, g)
  {
    hide PrintInt, Stoi, BlocksOf, HeaderFor, WriteLine;
    SizeInInt(disks, f);
    WriteIsUpdate(fpu, disks, table, fd, f, i, data);
    var after := WriteLine(fpu, disks, table, fd, i, data).1;
    var b := BlocksOf(f.ivs)[i - 1];
    assert after == disks[f.disk := disks[f.disk][b - 1 := data]];
    assert f.disk == g.disk ==> g.header != b;
    assert GoodFile(after, g);
    assert Contents(after, g) == if g == f then Contents(disks, f)[i - 1 := data] else Contents(disks, g);
  }

  /** Write, then read: the line just written, or the old line of this or any other open file. */
  lemma WriteThenRead(fpu: Fpu, disks: Disks, table: seq<string>, fd: nat, f: FileInfo, i: int, data: string,
                      fd2: nat, g: FileInfo, j: int)
    requires fd < |table| && DescriptorFor(table[fd], f) && fd2 < |table| && DescriptorFor(table[fd2], g)
    requires GoodFile(disks, f) && GoodFile(disks, g) && Disjoint(f, g)
    requires 1 <= i <= |BlocksOf(f.ivs)| && 1 <= j && InInt(j)
    ensures ReadLine(fpu, WriteLine(fpu, disks, table, fd, i, data).1, table, fd2, j) ==
              if f == g && i == j then Answer(data) else ReadLine(fpu, disks, table, fd2, j)
  {
    hide ReadLine, WriteLine, GoodFile, Disjoint, Contents, DescriptorFor, BlocksOf;
    WriteUpdatesContents(fpu, disks, table, fd, f, i, data, g);
    ReadIsContents(fpu, disks, table, fd2, g, j);
    ReadIsContents(fpu, WriteLine(fpu, disks, table, fd, i, data).1, table, fd2, g, j);
  }

  // ---- Any sequence of writes to any descriptors ----

  /** Line `line` of the file behind descriptor `fd` gets new text. */
  datatype WriteOp = WriteOp(fd: nat, line: int, data: string)

  /** The disks after a sequence of writes, and whether the machine still runs: a write through a
      free descriptor cell stops it, and what comes behind does not happen. */
  datatype Session<T> = Session(state: T, running: bool)

  function AllWritten(fpu: Fpu, disks: Disks, table: seq<string>, ops: seq<WriteOp>): Session<Disks> {
    if ops == [] then Session(disks, true)
    else
      var before, last := AllWritten(fpu, disks, table, ops[..|ops| - 1]), ops[|ops| - 1];
      if !before.running then before
      else
        var r := WriteLine(fpu, before.state, table, last.fd, last.line, last.data);
        Session(r.1, !r.0.Stopped?)
  }

  /** The abstract file system: one line sequence per file, and the file that each open descriptor
      is for; several may be for the same one. */
  function Updated(files: seq<seq<string>>, open: map<nat, nat>, op: WriteOp): (r: seq<seq<string>>)
    ensures |r| == |files| && forall k :: 0 <= k < |r| ==> |r[k]| == |files[k]|
  {
    if op.fd in open && open[op.fd] < |files| && 1 <= op.line <= |files[open[op.fd]]|
    then files[open[op.fd] := files[open[op.fd]][op.line - 1 := op.data]]
    else files
  }

  /** Descriptors below `count` exist; using one that is not open stops the machine, using one
      that does not exist changes nothing, and so does a line behind the last one. */
  function AllUpdated(files: seq<seq<string>>, open: map<nat, nat>, count: nat, ops: seq<WriteOp>)
      : (r: Session<seq<seq<string>>>)
    ensures |r.state| == |files| && forall k :: 0 <= k < |files| ==> |r.state[k]| == |files[k]|
  {
    if ops == [] then Session(files, true)
    else
      var before, last := AllUpdated(files, open, count, ops[..|ops| - 1]), ops[|ops| - 1];
      if !before.running then before
      else Session(Updated(before.state, open, last), last.fd in open || last.fd >= count)
  }

  /** Files are well-formed and share no block; open descriptors are for files, possibly for the
      same one, and every other cell is free. */
  ghost predicate Mounted(disks: Disks, table: seq<string>, files: seq<FileInfo>, open: map<nat, nat>) {
    && (forall k :: 0 <= k < |files| ==> GoodFile(disks, files[k]))
    && (forall k, l :: 0 <= k < |files| && 0 <= l < |files| ==> Disjoint(files[k], files[l]))
    && (forall k, l :: 0 <= k < |files| && 0 <= l < |files| && k != l ==> files[k] != files[l])
    && (forall fd :: fd in open ==> fd < |table| && open[fd] < |files| && DescriptorFor(table[fd], files[open[fd]]))
    && (forall fd :: 0 <= fd < |table| && fd !in open ==> table[fd] == "0")
  }

  ghost predicate Shows(disks: Disks, files: seq<FileInfo>, lines: seq<seq<string>>) {
    && |lines| == |files|
    && forall k :: 0 <= k < |files| ==> GoodFile(disks, files[k]) && Contents(disks, files[k]) == lines[k]
  }

  /** A free cell: its size column is empty, and comparing it stops the machine. */
  lemma FreeCellStops(fpu: Fpu, disks: Disks, table: seq<string>, fd: nat, line: int, data: string)
    requires fd < |table| && table[fd] == "0"
    ensures ReadLine(fpu, disks, table, fd, line) == Stopped
    ensures WriteLine(fpu, disks, table, fd, line, data) == (Stopped, disks)
  {
    hide PrintInt, Stoi, GetColumn;
    FreeColumn();
    NothingIsNoInt();
    NotFloat(line);
  }

  lemma FreeColumn()
    ensures GetColumn("0", 4, " ") == ""
  {
    assert Join(["0"], " ") == "0";
    GetOfJoin(["0"], 4);
  }

  lemma NothingIsNoInt()
    ensures Stoi("") == None
  {
  }

  lemma WriteNowhere(fpu: Fpu, disks: Disks, table: seq<string>, op: WriteOp)
    requires op.fd >= |table|
    ensures WriteLine(fpu, disks, table, op.fd, op.line, op.data) == (Failed, disks)
  {
  }

  lemma ContentsLength(disks: Disks, f: FileInfo)
    requires GoodFile(disks, f)
    ensures |Contents(disks, f)| == |BlocksOf(f.ivs)|
  {
  }

  /** A write through an open descriptor. */
  lemma OpenWriteRefines(fpu: Fpu, disks: Disks, table: seq<string>, files: seq<FileInfo>, open: map<nat, nat>,
                         lines: seq<seq<string>>, op: WriteOp)
    requires Mounted(disks, table, files, open) && Shows(disks, files, lines) && 1 <= op.line && InInt(op.line)
             && op.fd in open
    ensures var r := WriteLine(fpu, disks, table, op.fd, op.line, op.data);
            !r.0.Stopped? && Mounted(r.1, table, files, open) && Shows(r.1, files, Updated(lines, open, op))
  {
    hide WriteLine, GoodFile, Disjoint, Contents, DescriptorFor, BlocksOf;
    var a := open[op.fd];
    var f := files[a];
    ContentsLength(disks, f);
    var r := WriteLine(fpu, disks, table, op.fd, op.line, op.data);
    if op.line > |BlocksOf(f.ivs)| {
      WriteIsUpdate(fpu, disks, table, op.fd, f, op.line, op.data);
    } else {
      forall k | 0 <= k < |files|
        ensures r.0.Answer? && GoodFile(r.1, files[k])
        ensures Contents(r.1, files[k]) == if k == a then lines[k][op.line - 1 := op.data] else lines[k]
      {
        WriteUpdatesContents(fpu, disks, table, op.fd, f, op.line, op.data, files[k]);
      }
    }
  }

  lemma OneWriteRefines(fpu: Fpu, disks: Disks, table: seq<string>, files: seq<FileInfo>, open: map<nat, nat>,
                        lines: seq<seq<string>>, op: WriteOp)
    requires Mounted(disks, table, files, open) && Shows(disks, files, lines) && 1 <= op.line && InInt(op.line)
    ensures var r := WriteLine(fpu, disks, table, op.fd, op.line, op.data);
            && Mounted(r.1, table, files, open) && Shows(r.1, files, Updated(lines, open, op))
            && (r.0.Stopped? <==> op.fd < |table| && op.fd !in open)
  {
    hide WriteLine, GoodFile, Disjoint, Contents, DescriptorFor, BlocksOf;
    if op.fd >= |table| {
      WriteNowhere(fpu, disks, table, op);
    } else if op.fd !in open {
      FreeCellStops(fpu, disks, table, op.fd, op.line, op.data);
    } else {
      OpenWriteRefines(fpu, disks, table, files, open, lines, op);
    }
  }

  /** The block file system refines the abstract one over every sequence of writes through any
      descriptors, open or not, and stops the machine at the same write. */
  lemma {:induction false} WritesRefine(fpu: Fpu, disks: Disks, table: seq<string>, files: seq<FileInfo>,
                                        open: map<nat, nat>, lines: seq<seq<string>>, ops: seq<WriteOp>)
    requires Mounted(disks, table, files, open) && Shows(disks, files, lines)
    requires forall n :: 0 <= n < |ops| ==> 1 <= ops[n].line && InInt(ops[n].line)
    ensures var r, a := AllWritten(fpu, disks, table, ops), AllUpdated(lines, open, |table|, ops);
            r.running == a.running && Mounted(r.state, table, files, open) && Shows(r.state, files, a.state)
  {
    hide Mounted, Shows, WriteLine, Updated;
    if ops != [] {
      var before := ops[..|ops| - 1];
      WritesRefine(fpu, disks, table, files, open, lines, before);
      var r, a := AllWritten(fpu, disks, table, before), AllUpdated(lines, open, |table|, before);
      if r.running {
        OneWriteRefines(fpu, r.state, table, files, open, a.state, ops[|ops| - 1]);
        OpenIsBelow(r.state, table, files, open);
      }
    }
  }

  lemma OpenIsBelow(disks: Disks, table: seq<string>, files: seq<FileInfo>, open: map<nat, nat>)
    requires Mounted(disks, table, files, open)
    ensures forall fd :: fd in open ==> fd < |table|
  {
  }

  /** So a read through an open descriptor gives the line last written there, through whichever
      descriptor of the file; a read through a free cell stops the machine. */
  lemma ReadAfterWrites(fpu: Fpu, disks: Disks, table: seq<string>, files: seq<FileInfo>, open: map<nat, nat>,
                        lines: seq<seq<string>>, ops: seq<WriteOp>, fd: nat, j: int)
    requires Mounted(disks, table, files, open) && Shows(disks, files, lines)
    requires forall n :: 0 <= n < |ops| ==> 1 <= ops[n].line && InInt(ops[n].line)
    requires fd < |table| && 1 <= j && InInt(j)
    ensures var r, a := AllWritten(fpu, disks, table, ops), AllUpdated(lines, open, |table|, ops);
            ReadLine(fpu, r.state, table, fd, j) ==
              if fd !in open then Stopped
              else if open[fd] < |lines| && j <= |lines[open[fd]]| then Answer(a.state[open[fd]][j - 1]) else Failed
  {
    hide ReadLine, GoodFile, DescriptorFor, AllUpdated, AllWritten, Disjoint;
    WritesRefine(fpu, disks, table, files, open, lines, ops);
    var after := AllWritten(fpu, disks, table, ops).state;
    if fd !in open {
      FreeCellStops(fpu, after, table, fd, j, "");
    } else {
      ReadIsContents(fpu, after, table, fd, files[open[fd]], j);
    }
  }

  // ---- Opening and closing ----

  function AbsolutePath(workDir: string, path: string): string {
    if StartsWith(path, "/") then path else workDir + path
  }

  /** The first mount entry whose mount point is a prefix of the path. The scan covers the cell
      behind the last entry too, so `mounts` includes that cell. */
  function MountFor(mounts: seq<string>, path: string, k: nat): (r: Option<nat>)
    requires k <= |mounts|
    ensures match r
            case Some(n) => k <= n < |mounts| && StartsWith(path, GetColumn(mounts[n], 1, " ")) &&
                            forall l :: k <= l < n ==> !StartsWith(path, GetColumn(mounts[l], 1, " "))
            case None => forall l :: k <= l < |mounts| ==> !StartsWith(path, GetColumn(mounts[l], 1, " "))
    decreases |mounts| - k
  {
    if k == |mounts| then None
    else if StartsWith(path, GetColumn(mounts[k], 1, " ")) then Some(k)
    else MountFor(mounts, path, k + 1)
  }

  datatype Found = Entry(block: int, header: string) | Missing | Broken

  /** The block holds a header that is not the one looked for, or none. */
  predicate Skipped(disks: Disks, disk: string, b: int, name: string) {
    match ReadBlock(disks, disk, b)
    case Block(text) => text == "" || (text != "FS_HEADER_END" && GetColumn(text, 1, " ") != name)
    case _ => false
  }

  predicate IsHeaderOf(disks: Disks, disk: string, b: int, name: string, header: string) {
    && ReadBlock(disks, disk, b) == Block(header)
    && header != "" && header != "FS_HEADER_END" && GetColumn(header, 1, " ") == name
  }

  /** The scan from block n ends at block e without a match. */
  ghost predicate EndsAt(disks: Disks, disk: string, n: int, e: int, usable: int, name: string) {
    && n < e
    && (e >= usable || ReadBlock(disks, disk, e).NoBlock? || ReadBlock(disks, disk, e) == Block("FS_HEADER_END"))
    && forall c :: n < c < e && c < usable ==> Skipped(disks, disk, c, name)
  }

  /** Scans the header blocks behind block n: the first header with the given name, unless the
      end mark, an unreadable block or the first usable block comes before. */
  function SearchHeader(disks: Disks, disk: string, n: int, usable: int, name: string): (r: Found)
    requires InInt(n) && InInt(usable)
    ensures match r
            case Entry(b, header) => n < b < usable && IsHeaderOf(disks, disk, b, name, header) &&
                                     forall c :: n < c < b ==> Skipped(disks, disk, c, name)
            case Missing => exists e :: EndsAt(disks, disk, n, e, usable, name)
            case Broken => n == INT_MAX || exists e :: n < e < usable && ReadBlock(disks, disk, e) == BadHeader
    decreases usable - n
  {
    if n == INT_MAX then Broken
    else if usable <= n + 1 then
      assert EndsAt(disks, disk, n, n + 1, usable, name);
      Missing
    else
      match ReadBlock(disks, disk, n + 1)
      case NoBlock =>
        assert EndsAt(disks, disk, n, n + 1, usable, name);
        Missing
      case BadHeader => Broken
      case Block(text) =>
        if text == "FS_HEADER_END" then
          assert EndsAt(disks, disk, n, n + 1, usable, name);
          Missing
        else if text != "" && GetColumn(text, 1, " ") == name then Entry(n + 1, text)
        else
          assert Skipped(disks, disk, n + 1, name);
          var r := SearchHeader(disks, disk, n + 1, usable, name);
          assert r.Missing? ==> exists e :: EndsAt(disks, disk, n, e, usable, name) by {
            if r.Missing? {
              var e :| EndsAt(disks, disk, n + 1, e, usable, name);
              assert EndsAt(disks, disk, n, e, usable, name);
            }
          }
          r
  }

  /** What opening a path yields before a descriptor cell is chosen: the descriptor text. */
  function DescriptorOf(fpu: Fpu, disks: Disks, mounts: seq<string>, path: string): Reply {
    match MountFor(mounts, path, 0)
    case None => Failed
    case Some(k) =>
      var name := path[|GetColumn(mounts[k], 1, " ")|..];
      var disk, start := GetColumn(mounts[k], 2, " "), GetColumn(mounts[k], 4, " ");
      match BlockText(disks, disk, start)
      case Answer(volume) => DescriptorIn(fpu, disks, path, name, disk, start, volume)
      case Failed => Failed
      case NoDescriptors => NoDescriptors
      case Stopped => Stopped
  }

  /** Looks for the file in the volume whose first block is `volume`. */
  function DescriptorIn(fpu: Fpu, disks: Disks, path: string, name: string, disk: string, start: string,
                        volume: string): Reply {
    var usable := GetColumn(volume, 4, " ");
    if GetColumn(volume, 1, " ") != "FS_HEADER" || !IsNum(usable) then Failed
    else
      match (Stoi(start), Stoi(usable))
      case (Some(n), Some(u)) =>
        StoiInInt(start);
        StoiInInt(usable);
        (match SearchHeader(disks, disk, n, u, name)
         case Missing => Failed
         case Broken => Stopped
         case Entry(b, header) =>
           match SizeFrom(fpu, header, FIRST_INTERVAL, "0")
           case Answer(size) => Answer(path + " " + disk + " " + PrintInt(b) + " " + size)
           case Failed => Failed
           case NoDescriptors => NoDescriptors
           case Stopped => Stopped)
      case _ => Stopped
  }

  /** The first free descriptor cell; a free cell holds "0". */
  function FreeSlot(table: seq<string>, k: nat): (r: nat)
    requires k <= |table|
    ensures k <= r <= |table| && (r < |table| ==> table[r] == "0")
    ensures forall l :: k <= l < r ==> table[l] != "0"
    decreases |table| - k
  {
    if k == |table| || table[k] == "0" then k else FreeSlot(table, k + 1)
  }

  /** Opening: the reply is the index of the descriptor cell that now holds the descriptor. */
  function OpenFile(fpu: Fpu, disks: Disks, table: seq<string>, mounts: seq<string>, path: string)
      : (Reply, seq<string>)
  {
    match DescriptorOf(fpu, disks, mounts, path)
    case Answer(d) =>
      var slot := FreeSlot(table, 0);
      if slot == |table| then (NoDescriptors, table) else (Answer(PrintInt(slot)), table[slot := d])
    case Failed => (Failed, table)
    case NoDescriptors => (NoDescriptors, table)
    case Stopped => (Stopped, table)
  }

  function CloseFile(table: seq<string>, fd: nat): (Reply, seq<string>) {
    if fd < |table| then (Answer(""), table[fd := "0"]) else (Failed, table)
  }

  /** File f is the one that the mount table and the volume's header blocks give for a path. */
  ghost predicate Names(disks: Disks, mounts: seq<string>, path: string, k: nat, volume: string, n: int, u: int,
                        f: FileInfo)
  {
    && MountFor(mounts, path, 0) == Some(k)
    && GetColumn(mounts[k], 2, " ") == f.disk
    && BlockText(disks, f.disk, GetColumn(mounts[k], 4, " ")) == Answer(volume)
    && Stoi(GetColumn(mounts[k], 4, " ")) == Some(n) && GetColumn(volume, 1, " ") == "FS_HEADER"
    && IsNum(GetColumn(volume, 4, " ")) && Stoi(GetColumn(volume, 4, " ")) == Some(u)
    && FirstHeader(disks, f.disk, n, u, path[|GetColumn(mounts[k], 1, " ")|..], f.header)
  }

  /** Block b holds the first header of the given name behind block n. */
  ghost predicate FirstHeader(disks: Disks, disk: string, n: int, u: int, name: string, b: int) {
    && n < b < u && (forall c :: n < c < b ==> Skipped(disks, disk, c, name))
    && exists header :: IsHeaderOf(disks, disk, b, name, header)
  }

  lemma SearchFinds(disks: Disks, disk: string, n: int, u: int, name: string, b: int)
    requires InInt(n) && InInt(u) && FirstHeader(disks, disk, n, u, name, b)
    ensures SearchHeader(disks, disk, n, u, name).Entry? && SearchHeader(disks, disk, n, u, name).block == b
    ensures ReadBlock(disks, disk, b) == Block(SearchHeader(disks, disk, n, u, name).header)
    decreases u - n
  {
    hide GetColumn, ReadBlock;
    if b != n + 1 {
      assert Skipped(disks, disk, n + 1, name);
      SearchFinds(disks, disk, n + 1, u, name, b);
    }
  }

  /** Columns of a descriptor built from blank-free parts. */
  lemma DescriptorColumns(path: string, disk: string, header: string, size: string)
    requires IsWord(path) && IsWord(disk) && IsWord(header) && IsWord(size)
    ensures var d := path + " " + disk + " " + header + " " + size;
            GetColumn(d, 2, " ") == disk && GetColumn(d, 3, " ") == header && GetColumn(d, 4, " ") == size
  {
    hide GetColumn, Tokens;
    var ws := [path, disk, header, size];
    assert Join(ws, " ") == path + " " + disk + " " + header + " " + size by { JoinFour(path, disk, header, size); }
    GetOfJoin(ws, 2);
    GetOfJoin(ws, 3);
    GetOfJoin(ws, 4);
  }

  lemma JoinFour(a: string, b: string, c: string, d: string)
    ensures Join([a, b, c, d], " ") == a + " " + b + " " + c + " " + d
  {
    assert [a, b, c, d][..3] == [a, b, c] && [a, b, c][..2] == [a, b] && [a, b][..1] == [a];
    assert Join([a, b], " ") == a + " " + b;
    assert Join([a, b, c], " ") == a + " " + b + " " + c;
  }

  /** A file that the tables name gets its descriptor. */
  lemma DescriptorFound(fpu: Fpu, disks: Disks, mounts: seq<string>, path: string, k: nat, volume: string, n: int,
                        u: int, f: FileInfo)
    requires GoodFile(disks, f) && IsWord(path) && IsWord(f.disk) && Names(disks, mounts, path, k, volume, n, u, f)
    ensures var r := DescriptorOf(fpu, disks, mounts, path);
            r.Answer? && DescriptorFor(r.text, f)
  {
    hide PrintInt, Stoi, GetColumn, BlocksOf, HeaderFor, IsNum, Tokens, SizeFrom, BlockText, MountFor;
    StoiInInt(GetColumn(mounts[k], 4, " "));
    StoiInInt(GetColumn(volume, 4, " "));
    var name := path[|GetColumn(mounts[k], 1, " ")|..];
    SearchFinds(disks, f.disk, n, u, name, f.header);
    var header := SearchHeader(disks, f.disk, n, u, name).header;
    assert header == disks[f.disk][f.header - 1];
    SizeInInt(disks, f);
    assert f.ivs[0..] == f.ivs;
    assert PrintInt(0) == "0" by { ZeroPrinted(); }
    SizeIsCount(fpu, header, f.ivs, 0, 0);
    PrintIsWord(f.header);
    PrintIsWord(|BlocksOf(f.ivs)|);
    DescriptorColumns(path, f.disk, PrintInt(f.header), PrintInt(|BlocksOf(f.ivs)|));
  }

  lemma ZeroPrinted()
    ensures PrintInt(0) == "0"
  {
  }

  /** Open, then read: the path's file answers line j; every other descriptor is as before. */
  lemma OpenThenRead(fpu: Fpu, disks: Disks, table: seq<string>, mounts: seq<string>, path: string, k: nat,
                     volume: string, n: int, u: int, f: FileInfo, j: int)
    requires GoodFile(disks, f) && IsWord(path) && IsWord(f.disk) && Names(disks, mounts, path, k, volume, n, u, f)
    requires 1 <= j && InInt(j)
    ensures var slot, r := FreeSlot(table, 0), OpenFile(fpu, disks, table, mounts, path);
            if slot == |table| then r == (NoDescriptors, table)
            else && r.0 == Answer(PrintInt(slot)) && |r.1| == |table|
                 && (forall l :: 0 <= l < |table| && l != slot ==> r.1[l] == table[l])
                 && ReadLine(fpu, disks, r.1, slot, j) ==
                    (if j <= |Contents(disks, f)| then Answer(Contents(disks, f)[j - 1]) else Failed)
  {
    hide DescriptorOf, ReadLine, GoodFile, DescriptorFor, Names, Contents, GetColumn;
    DescriptorFound(fpu, disks, mounts, path, k, volume, n, u, f);
    var slot, r := FreeSlot(table, 0), OpenFile(fpu, disks, table, mounts, path);
    if slot < |table| {
      ReadIsContents(fpu, disks, r.1, slot, f, j);
    }
  }

  /** What a reply of open means for a caller: without a free cell nothing changes; otherwise the
      first free cell is taken, no other changes, and reads through it give the lines of the file. */
  ghost predicate OpensFile(fpu: Fpu, disks: Disks, before: seq<string>, reply: Reply, after: seq<string>, f: FileInfo)
    requires GoodFile(disks, f)
  {
    if forall l :: 0 <= l < |before| ==> before[l] != "0" then reply == NoDescriptors && after == before
    else exists slot :: TakesCell(before, reply, after, slot) && ReadsFile(fpu, disks, after, slot, f)
  }

  ghost predicate TakesCell(before: seq<string>, reply: Reply, after: seq<string>, slot: nat) {
    && slot < |before| == |after| && before[slot] == "0" && reply == Answer(PrintInt(slot))
    && (forall l :: 0 <= l < slot ==> before[l] != "0")
    && forall l :: 0 <= l < |before| && l != slot ==> after[l] == before[l]
  }

  ghost predicate ReadsFile(fpu: Fpu, disks: Disks, table: seq<string>, slot: nat, f: FileInfo)
    requires GoodFile(disks, f)
  {
    forall j :: 1 <= j && InInt(j) ==>
                  ReadLine(fpu, disks, table, slot, j) ==
                    if j <= |Contents(disks, f)| then Answer(Contents(disks, f)[j - 1]) else Failed
  }

  lemma OpenOpens(fpu: Fpu, disks: Disks, table: seq<string>, mounts: seq<string>, path: string, k: nat,
                  volume: string, n: int, u: int, f: FileInfo)
    requires GoodFile(disks, f) && IsWord(path) && IsWord(f.disk) && Names(disks, mounts, path, k, volume, n, u, f)
    ensures var r := OpenFile(fpu, disks, table, mounts, path);
            OpensFile(fpu, disks, table, r.0, r.1, f)
  {
    hide DescriptorOf, ReadLine, GoodFile, DescriptorFor, Names, Contents, GetColumn, OpenFile, PrintInt;
    var slot, r := FreeSlot(table, 0), OpenFile(fpu, disks, table, mounts, path);
    forall j | 1 <= j && InInt(j)
      ensures slot == |table|
              || ReadLine(fpu, disks, r.1, slot, j) ==
                   (if j <= |Contents(disks, f)| then Answer(Contents(disks, f)[j - 1]) else Failed)
    {
      OpenThenRead(fpu, disks, table, mounts, path, k, volume, n, u, f, j);
    }
    OpenThenRead(fpu, disks, table, mounts, path, k, volume, n, u, f, 1);
    if slot < |table| {
      assert TakesCell(table, r.0, r.1, slot) && ReadsFile(fpu, disks, r.1, slot, f);
    }
  }

  /** No file of that name: no mount point is a prefix of the path, or the volume's headers end
      without one. */
  ghost predicate NoSuchFile(disks: Disks, mounts: seq<string>, path: string) {
    || (forall k :: 0 <= k < |mounts| ==> !StartsWith(path, GetColumn(mounts[k], 1, " ")))
    || exists k, e :: EndsWithout(disks, mounts, path, k, e)
  }

  /** Mount entry k is the one for the path, and the header scan of its volume ends at block e. */
  ghost predicate EndsWithout(disks: Disks, mounts: seq<string>, path: string, k: nat, e: int) {
    && MountFor(mounts, path, 0) == Some(k)
    && var disk, start := GetColumn(mounts[k], 2, " "), GetColumn(mounts[k], 4, " ");
       var volume := BlockText(disks, disk, start);
       && volume.Answer? && GetColumn(volume.text, 1, " ") == "FS_HEADER" && IsNum(GetColumn(volume.text, 4, " "))
       && Stoi(start).Some? && Stoi(start).value < INT_MAX && Stoi(GetColumn(volume.text, 4, " ")).Some?
       && EndsAt(disks, disk, Stoi(start).value, e, Stoi(GetColumn(volume.text, 4, " ")).value,
                 path[|GetColumn(mounts[k], 1, " ")|..])
  }

  lemma SearchMisses(disks: Disks, disk: string, n: int, e: int, u: int, name: string)
    requires InInt(n) && n < INT_MAX && InInt(u) && EndsAt(disks, disk, n, e, u, name)
    ensures SearchHeader(disks, disk, n, u, name) == Missing
    decreases u - n
  {
    hide GetColumn, ReadBlock;
    if n + 1 < u && n + 1 < e {
      assert Skipped(disks, disk, n + 1, name);
      SearchMisses(disks, disk, n + 1, e, u, name);
    }
  }

  /** Opening a file that is not there fails and takes no descriptor. */
  lemma OpenMissing(fpu: Fpu, disks: Disks, table: seq<string>, mounts: seq<string>, path: string)
    requires NoSuchFile(disks, mounts, path)
    ensures OpenFile(fpu, disks, table, mounts, path) == (Failed, table)
  {
    hide GetColumn, SearchHeader, BlockText, IsNum, Stoi, SizeFrom;
    if k: nat, e: int :| EndsWithout(disks, mounts, path, k, e) {
      var disk, start := GetColumn(mounts[k], 2, " "), GetColumn(mounts[k], 4, " ");
      var usable := GetColumn(BlockText(disks, disk, start).text, 4, " ");
      StoiInInt(start);
      StoiInInt(usable);
      SearchMisses(disks, disk, Stoi(start).value, e, Stoi(usable).value,
                   path[|GetColumn(mounts[k], 1, " ")|..]);
    }
  }

  /** Open, then close: the table is as before. */
  lemma OpenThenClose(fpu: Fpu, disks: Disks, table: seq<string>, mounts: seq<string>, path: string)
    ensures var r := OpenFile(fpu, disks, table, mounts, path);
            r.0.Answer? ==> CloseFile(r.1, FreeSlot(table, 0)).1 == table
  {
    hide DescriptorOf;
  }
}
