/** The kernel's file system routines: loops over header columns, mount entries, header blocks
    and descriptor cells that update their variables, the descriptor table and the disks in place. */
module FileSystemObject {
  import opened Wrappers
  import opened Text
  import opened Columns
  import opened Hardware
  import opened Files
  import C = CpuObject

  /** Sums up the interval lengths of a header, column pair by column pair. */
  method SumIntervals(fpu: Fpu, header: string) returns (r: Reply)
    ensures r == SizeFrom(fpu, header, FIRST_INTERVAL, "0")
  {
    hide IsNum, GetColumn, Tokens, PrintInt, Number, SizeFrom;
    var column, result := FIRST_INTERVAL, "0";
    while true
      invariant column >= 1 && SizeFrom(fpu, header, column, result) == SizeFrom(fpu, header, FIRST_INTERVAL, "0")
      decreases |Tokens(header, " ")| + 1 - column
    {
      ColumnsEnd(header, column);
      SizeTurn(fpu, header, column, result);
      var first := GetColumn(header, column, " ");
      if first == "" {
        return Answer(result);
      }
      if !IsNum(first) {
        return Failed;
      }
      column := column + 1;
      var last := GetColumn(header, column, " ");
      if !IsNum(last) {
        return Failed;
      }
      var difference := Number(fpu, OP_SUB, last, first);
      if difference.None? {
        return Stopped;
      }
      var count := Number(fpu, OP_INCR, difference.value, "");
      if count.None? {
        return Stopped;
      }
      var sum := Number(fpu, OP_ADD, result, count.value);
      if sum.None? {
        return Stopped;
      }
      result := sum.value;
      column := column + 1;
    }
  }

  /** The size of a file, from its header. */
  method CalcSize(fpu: Fpu, header: string) returns (r: Reply)
    ensures r == SizeFrom(fpu, header, FIRST_INTERVAL, "0")
    ensures forall ivs :: HeaderFor(header, ivs) ==> r == Answer(PrintInt(|BlocksOf(ivs)|))
  {
    hide HeaderFor, BlocksOf, PrintInt, SizeFrom;
    SizeOfHeader(fpu, header);
    r := SumIntervals(fpu, header);
  }

  /** One turn of the size loop. */
  lemma SizeTurn(fpu: Fpu, header: string, column: nat, result: string)
    requires column >= 1
    ensures var first, last := GetColumn(header, column, " "), GetColumn(header, column + 1, " ");
            SizeFrom(fpu, header, column, result) ==
              if first == "" then Answer(result)
              else if !IsNum(first) || !IsNum(last) then Failed
              else
                match Span(fpu, first, last)
                case None => Stopped
                case Some(n) =>
                  match Number(fpu, OP_ADD, result, n)
                  case None => Stopped
                  case Some(sum) => SizeFrom(fpu, header, column + 2, sum)
  {
    hide IsNum, GetColumn, Tokens, Number, Span;
    ColumnsEnd(header, column);
  }

  /** One turn of the line-to-block loop. */
  lemma BlockTurn(fpu: Fpu, header: string, column: nat, index: string)
    requires column >= 1
    ensures var first, last := GetColumn(header, column, " "), GetColumn(header, column + 1, " ");
            BlockFrom(fpu, header, column, index) ==
              if !IsNum(first) || !IsNum(last) then Failed
              else
                match Span(fpu, first, last)
                case None => Stopped
                case Some(n) =>
                  match Test(fpu, OP_CMP_LE, index, n)
                  case None => Stopped
                  case Some(true) =>
                    (match Number(fpu, OP_ADD, first, index)
                     case None => Stopped
                     case Some(sum) =>
                       match Number(fpu, OP_DECR, sum, "") case None => Stopped case Some(block) => Answer(block))
                  case Some(false) =>
                    match Number(fpu, OP_SUB, index, n)
                    case None => Stopped
                    case Some(left) => BlockFrom(fpu, header, column + 2, left)
  {
    hide IsNum, GetColumn, Tokens, Number, Span, Test;
    ColumnsEnd(header, column);
    NothingIsNoNum();
  }

  lemma ColumnsEnd(header: string, column: nat)
    ensures GetColumn(header, column, " ") != "" ==> column <= |Tokens(header, " ")|
  {
  }

  lemma SizeOfHeader(fpu: Fpu, header: string)
    ensures forall ivs :: HeaderFor(header, ivs) ==>
              SizeFrom(fpu, header, FIRST_INTERVAL, "0") == Answer(PrintInt(|BlocksOf(ivs)|))
  {
    hide SizeFrom, PrintInt, BlocksOf;
    ZeroPrinted();
    forall ivs | HeaderFor(header, ivs)
      ensures SizeFrom(fpu, header, FIRST_INTERVAL, "0") == Answer(PrintInt(|BlocksOf(ivs)|))
    {
      assert ivs[0..] == ivs;
      SizeIsCount(fpu, header, ivs, 0, 0);
    }
  }

  /** Finds the interval that holds a line, subtracting the lengths of those before it. */
  method ScanIntervals(fpu: Fpu, header: string, line: string) returns (r: Reply)
    ensures r == BlockFrom(fpu, header, FIRST_INTERVAL, line)
  {
    hide IsNum, GetColumn, Tokens, PrintInt, Number, Test, BlockFrom;
    var column, index := FIRST_INTERVAL, line;
    while true
      invariant column >= 1 && BlockFrom(fpu, header, column, index) == BlockFrom(fpu, header, FIRST_INTERVAL, line)
      decreases |Tokens(header, " ")| + 1 - column
    {
      ColumnsEnd(header, column);
      NothingIsNoNum();
      BlockTurn(fpu, header, column, index);
      var first := GetColumn(header, column, " ");
      if !IsNum(first) {
        return Failed;
      }
      column := column + 1;
      var last := GetColumn(header, column, " ");
      if !IsNum(last) {
        return Failed;
      }
      var difference := Number(fpu, OP_SUB, last, first);
      if difference.None? {
        return Stopped;
      }
      var count := Number(fpu, OP_INCR, difference.value, "");
      if count.None? {
        return Stopped;
      }
      var inside := Test(fpu, OP_CMP_LE, index, count.value);
      if inside.None? {
        return Stopped;
      }
      if inside.value {
        var sum := Number(fpu, OP_ADD, first, index);
        if sum.None? {
          return Stopped;
        }
        var block := Number(fpu, OP_DECR, sum.value, "");
        return if block.None? then Stopped else Answer(block.value);
      }
      column := column + 1;
      var left := Number(fpu, OP_SUB, index, count.value);
      if left.None? {
        return Stopped;
      }
      index := left.value;
    }
  }

  /** The block of a line of a file, from its header. */
  method FileLineToBlock(fpu: Fpu, header: string, line: int) returns (r: Reply)
    ensures r == BlockFrom(fpu, header, FIRST_INTERVAL, PrintInt(line))
    ensures forall ivs :: HeaderFor(header, ivs) && 1 <= line && InInt(line) ==>
              r == if line <= |BlocksOf(ivs)| then Answer(PrintInt(BlocksOf(ivs)[line - 1])) else Failed
  {
    hide HeaderFor, BlocksOf, PrintInt, BlockFrom;
    BlockOfHeader(fpu, header, line);
    r := ScanIntervals(fpu, header, PrintInt(line));
  }

  lemma BlockOfHeader(fpu: Fpu, header: string, line: int)
    ensures forall ivs :: HeaderFor(header, ivs) && 1 <= line && InInt(line) ==>
              BlockFrom(fpu, header, FIRST_INTERVAL, PrintInt(line)) ==
                if line <= |BlocksOf(ivs)| then Answer(PrintInt(BlocksOf(ivs)[line - 1])) else Failed
  {
    hide BlockFrom, PrintInt, BlocksOf, HeaderFor;
    forall ivs | HeaderFor(header, ivs) && 1 <= line && InInt(line)
      ensures BlockFrom(fpu, header, FIRST_INTERVAL, PrintInt(line)) ==
                if line <= |BlocksOf(ivs)| then Answer(PrintInt(BlocksOf(ivs)[line - 1])) else Failed
    {
      assert ivs[0..] == ivs;
      BlockIsIndexed(fpu, header, ivs, 0, line);
    }
  }

  class FileSystem {
    const fpu: Fpu
    const drive: C.Disk
    const table: array<string>
    const mounts: seq<string>
    var workDir: string

    constructor (fpu: Fpu, drive: C.Disk, count: nat, mounts: seq<string>)
      ensures this.fpu == fpu && this.drive == drive && this.mounts == mounts && workDir == "/"
      ensures fresh(table) && table[..] == seq(count, i => "0")
    {
      this.fpu := fpu;
      this.drive := drive;
      this.mounts := mounts;
      workDir := "/";
      table := new string[count](i => "0");
    }

    method MakeAbsolute(path: string) returns (r: string)
      ensures r == AbsolutePath(workDir, path)
    {
      r := path;
      if !StartsWith(path, "/") {
        r := workDir + path;
      }
    }

    /** Scans the mount entries for one whose mount point is a prefix of the path. */
    method FindMountPoint(path: string) returns (r: Option<nat>)
      ensures r == MountFor(mounts, path, 0)
    {
      var counter := 0;
      while counter < |mounts|
        invariant 0 <= counter <= |mounts| && MountFor(mounts, path, counter) == MountFor(mounts, path, 0)
      {
        if StartsWith(path, GetColumn(mounts[counter], 1, " ")) {
          return Some(counter);
        }
        counter := counter + 1;
      }
      r := None;
    }

    /** Reads the header blocks behind `start` one by one. */
    method FindHeader(disk: string, start: int, usable: int, name: string) returns (r: Found)
      requires InInt(start) && InInt(usable)
      ensures r == SearchHeader(drive.files, disk, start, usable, name)
    {
      hide GetColumn;
      var counter := start;
      while true
        invariant InInt(counter)
        invariant SearchHeader(drive.files, disk, counter, usable, name) ==
                    SearchHeader(drive.files, disk, start, usable, name)
        decreases usable - counter
      {
        if counter == INT_MAX {
          return Broken;
        }
        if usable <= counter + 1 {
          return Missing;
        }
        counter := counter + 1;
        var block := drive.ReadBlock(disk, counter);
        if block.NoBlock? {
          return Missing;
        }
        if block.BadHeader? {
          return Broken;
        }
        if block.text == "FS_HEADER_END" {
          return Missing;
        }
        if block.text != "" && GetColumn(block.text, 1, " ") == name {
          return Entry(counter, block.text);
        }
      }
    }

    method ReadText(disk: string, number: string) returns (r: Reply)
      ensures r == BlockText(drive.files, disk, number)
    {
      var n := Stoi(number);
      if n.None? {
        return Stopped;
      }
      var block := drive.ReadBlock(disk, n.value);
      r := match block case Block(text) => Answer(text) case NoBlock => Failed case BadHeader => Stopped;
    }

    /** The descriptor text for a path. */
    method Describe(path: string) returns (r: Reply)
      ensures r == DescriptorOf(fpu, drive.files, mounts, path)
    {
      hide SearchHeader, SizeFrom, HeaderFor, GetColumn, BlocksOf, IsNum;
      var k := FindMountPoint(path);
      if k.None? {
        return Failed;
      }
      var info := mounts[k.value];
      var name := path[|GetColumn(info, 1, " ")|..];
      var disk, start := GetColumn(info, 2, " "), GetColumn(info, 4, " ");
      var volume := ReadText(disk, start);
      if !volume.Answer? {
        return volume;
      }
      var usable := GetColumn(volume.text, 4, " ");
      if GetColumn(volume.text, 1, " ") != "FS_HEADER" || !IsNum(usable) {
        return Failed;
      }
      StoiInInt(start);
      StoiInInt(usable);
      if Stoi(start).None? || Stoi(usable).None? {
        return Stopped;
      }
      var found := FindHeader(disk, Stoi(start).value, Stoi(usable).value, name);
      if !found.Entry? {
        return if found.Missing? then Failed else Stopped;
      }
      var size := CalcSize(fpu, found.header);
      if !size.Answer? {
        return size;
      }
      r := Answer(path + " " + disk + " " + PrintInt(found.block) + " " + size.text);
    }

    /** Opens a file: its descriptor goes to the first free descriptor cell. */
    method Open(path: string) returns (r: Reply)
      modifies table
      ensures var after := OpenFile(fpu, drive.files, old(table[..]), mounts, AbsolutePath(workDir, path));
              r == after.0 && table[..] == after.1
      ensures var absolute := if path != "" && path[0] == '/' then path else workDir + path;
              && (forall k, volume, n, u, f ::
                    GoodFile(drive.files, f) && IsWord(absolute) && IsWord(f.disk)
                    && Names(drive.files, mounts, absolute, k, volume, n, u, f) ==>
                      OpensFile(fpu, drive.files, old(table[..]), r, table[..], f))
              && (NoSuchFile(drive.files, mounts, absolute) ==> r == Failed && table[..] == old(table[..]))
    {
      OpensWhatIsNamed(path);
      hide DescriptorOf, GoodFile, Names, OpensFile, NoSuchFile;
      var absolute := MakeAbsolute(path);
      var descriptor := Describe(absolute);
      if !descriptor.Answer? {
        return descriptor;
      }
      var slot := 0;
      while slot < table.Length && table[slot] != "0"
        invariant 0 <= slot <= table.Length && FreeSlot(table[..], slot) == FreeSlot(table[..], 0)
      {
        slot := slot + 1;
      }
      if slot == table.Length {
        return NoDescriptors;
      }
      table[slot] := descriptor.text;
      r := Answer(PrintInt(slot));
    }

    /** What the tables name for the path: itself if it begins with a slash, and else the work
        directory with the path behind it. */
    lemma OpensWhatIsNamed(path: string)
      ensures var absolute := if path != "" && path[0] == '/' then path else workDir + path;
              var after := OpenFile(fpu, drive.files, table[..], mounts, AbsolutePath(workDir, path));
              && (forall k, volume, n, u, f ::
                    GoodFile(drive.files, f) && IsWord(absolute) && IsWord(f.disk)
                    && Names(drive.files, mounts, absolute, k, volume, n, u, f) ==>
                      OpensFile(fpu, drive.files, table[..], after.0, after.1, f))
              && (NoSuchFile(drive.files, mounts, absolute) ==> after == (Failed, table[..]))
    {
      hide OpenFile, GoodFile, Names, OpensFile, NoSuchFile;
      var absolute := if path != "" && path[0] == '/' then path else workDir + path;
      forall k, volume, n, u, f
        | GoodFile(drive.files, f) && IsWord(absolute) && IsWord(f.disk)
          && Names(drive.files, mounts, absolute, k, volume, n, u, f)
        ensures var after := OpenFile(fpu, drive.files, table[..], mounts, AbsolutePath(workDir, path));
                OpensFile(fpu, drive.files, table[..], after.0, after.1, f)
      {
        OpenOpens(fpu, drive.files, table[..], mounts, absolute, k, volume, n, u, f);
      }
      if NoSuchFile(drive.files, mounts, absolute) {
        OpenMissing(fpu, drive.files, table[..], mounts, absolute);
      }
    }

    method DescriptorInfo(fd: nat) returns (r: Reply)
      ensures r == if fd < table.Length then Answer(table[fd]) else Failed
    {
      r := if fd < table.Length then Answer(table[fd]) else Failed;
    }

    method Close(fd: nat) returns (r: Reply)
      modifies table
      ensures (r, table[..]) == CloseFile(old(table[..]), fd)
      ensures if fd < table.Length then r == Answer("") && table[..] == old(table[..])[fd := "0"]
              else r == Failed && table[..] == old(table[..])
    {
      if fd >= table.Length {
        return Failed;
      }
      table[fd] := "0";
      r := Answer("");
    }

    /** The block of a line of the file behind a descriptor. */
    method Locate(descriptor: string, line: int) returns (r: Reply)
      ensures r == LineBlock(fpu, drive.files, descriptor, line)
    {
      hide BlockFrom, HeaderFor, GetColumn, BlocksOf;
      var behind := Test(fpu, OP_CMP_LT, GetColumn(descriptor, 4, " "), PrintInt(line));
      if behind.None? {
        return Stopped;
      }
      if behind.value {
        return Failed;
      }
      var header := ReadText(GetColumn(descriptor, 2, " "), GetColumn(descriptor, 3, " "));
      if !header.Answer? {
        return header;
      }
      r := FileLineToBlock(fpu, header.text, line);
    }

    method Read(fd: nat, line: int) returns (r: Reply)
      ensures r == ReadLine(fpu, drive.files, table[..], fd, line)
      ensures fd >= table.Length ==> r == Failed
    {
      hide LineBlock, GetColumn;
      if fd >= table.Length {
        return Failed;
      }
      var block := Locate(table[fd], line);
      if !block.Answer? {
        return block;
      }
      r := ReadText(GetColumn(table[fd], 2, " "), block.text);
    }

    method Write(fd: nat, line: int, data: string) returns (r: Reply)
      modifies drive
      ensures (r, drive.files) == WriteLine(fpu, old(drive.files), table[..], fd, line, data)
      ensures fd >= table.Length ==> r == Failed && drive.files == old(drive.files)
    {
      hide LineBlock, GetColumn;
      if fd >= table.Length {
        return Failed;
      }
      var block := Locate(table[fd], line);
      if !block.Answer? {
        return block;
      }
      var n := Stoi(block.text);
      if n.None? {
        return Stopped;
      }
      var w := drive.WriteBlock(GetColumn(table[fd], 2, " "), n.value, data);
      r := match w case Written(_) => block case NotWritten => Failed case BadDisk => Stopped;
    }
  }
}
