/** What each operation of the CPU does to registers, energy and disks, written out operation by
    operation, and what becomes of the ones that fail. */
module Operations {
  import opened Wrappers
  import opened Text
  import opened Columns
  import opened Hardware
  import opened Isolation
  import opened Runs
  import opened Syscalls

  /** The codes that programs write to REG_OP. */
  lemma OpcodeTable()
    ensures OP_ADD == 0 && OP_SUB == 1 && OP_INCR == 2 && OP_DECR == 3 && OP_DIV == 4 && OP_MOD == 5 && OP_MUL == 6
    ensures OP_IS_NUM == 7 && OP_CMP_EQ == 8 && OP_CMP_NEQ == 9 && OP_CMP_LT == 10 && OP_CMP_LE == 11
    ensures OP_CONTAINS == 12 && OP_GET_LENGTH == 13 && OP_STARTS_WITH == 14 && OP_GET_COLUMN == 15
    ensures OP_REPLACE_COLUMN == 16 && OP_CONCAT_WITH == 17 && OP_READ_INPUT == 18 && OP_DISPLAY == 19
    ensures OP_DISPLAY_LN == 20 && OP_READ_BLOCK == 21 && OP_WRITE_BLOCK == 22 && OP_SET_BACKGROUND_COLOR == 23
    ensures OP_RENDER_BITMAP == 24 && OP_SYSCALL == 25 && OP_SYSRETURN == 26 && OP_ENCRYPT_DATA == 27
    ensures OP_DECRYPT_DATA == 28 && OP_NOP == 29 && OP_HALT == 30
  {
  }

  /** REG_OP names the operation, the energy counter reads e, and the mode permits it: user
      programs may compute and call the system. */
  predicate Operates(m: Machine, op: int, e: int) {
    && Valid(m) && m.cells[REG_OP] != "" && Stoi(m.cells[REG_OP]) == Some(op) && EnergyOf(m) == Some(e)
    && (m.kernel || op < 18 || op == 25)
  }

  /** The machine with the energy paid and no error. */
  function Paid(m: Machine, e: int, cost: nat): (r: Machine)
    requires Valid(m)
    ensures Valid(r) && |r.cells| == |m.cells|
  {
    m.(cells := m.cells[SYS_ENERGY := PrintInt(e + cost)][REG_ERROR := ""])
  }

  function WithResult(m: Machine, text: string): (r: Machine)
    requires Valid(m)
    ensures Valid(r)
  {
    m.(cells := m.cells[REG_RES := text])
  }

  function WithFlag(m: Machine, flag: bool): (r: Machine)
    requires Valid(m)
    ensures Valid(r)
  {
    m.(cells := m.cells[REG_BOOL := if flag then "1" else "0"])
  }

  function WithError(m: Machine, text: string): (r: Machine)
    requires Valid(m)
    ensures Valid(r)
  {
    m.(cells := m.cells[REG_ERROR := text])
  }

  // ---- Which operations run ----

  /** No operation runs without a code; a code that is no number throws; a user program may not
      run a privileged operation, which changes nothing. */
  lemma Refusals(m: Machine, input: Inputs)
    requires Valid(m)
    ensures m.cells[REG_OP] == "" ==> ExecOperation(m, input) == Outcome(m, Done)
    ensures m.cells[REG_OP] != "" && Stoi(m.cells[REG_OP]).None? ==> ExecOperation(m, input) == Outcome(m, Thrown)
    ensures forall op :: m.cells[REG_OP] != "" && Stoi(m.cells[REG_OP]) == Some(op) && !m.kernel ==>
                           op < 18 || op == 25 || ExecOperation(m, input) == Outcome(m, CpuFault)
  {
    hide Perform, Stoi;
  }

  /** A permitted operation runs on the machine that has paid for it. */
  lemma RunsPaid(m: Machine, input: Inputs, op: int, e: int, cost: nat)
    requires Operates(m, op, e) && cost == EnergyCost(op)
    ensures ExecOperation(m, input) == Perform(Paid(m, e, cost), op, m.cells[REG_RES], m.cells[REG_ERROR], input)
  {
    hide Perform, Stoi, PrintInt, EnergyCost;
    assert Charge(m, e, op) == Paid(m, e, cost);
  }

  /** A code outside 0 to 30 is a fault. */
  lemma UnknownFaults(m: Machine, input: Inputs, op: int, e: int)
    requires Operates(m, op, e) && !(0 <= op <= 30)
    ensures ExecOperation(m, input).signal == CpuFault
  {
    hide Stoi, PrintInt;
    RunsPaid(m, input, op, e, EnergyCost(op));
  }

  /** The operation ends normally in r. */
  predicate Ends(m: Machine, input: Inputs, r: Machine)
    requires Valid(m)
  {
    ExecOperation(m, input) == Outcome(r, Done)
  }

  /** What the operations cost: 2 for division, remainder and the searches, 3 for the columns,
      joining and the background, 10 for input and the disks, 5 for display, calls and returns, 20
      for drawing, 15 for the placeholders, nothing for the halt, and 1 for all others. */
  lemma CostTable(op: int)
    ensures EnergyCost(op) == if op in {4, 5, 12, 14} then 2 else if op in {15, 16, 17, 23} then 3
                              else if op in {18, 21, 22} then 10 else if op in {19, 20, 25, 26} then 5
                              else if op == 24 then 20 else if op in {27, 28} then 15 else if op == 30 then 0 else 1
  {
  }

  /** The counter starts at 0 when its cell is empty. */
  lemma EnergyReads(m: Machine, e: int)
    requires Valid(m)
    ensures EnergyOf(m) == Some(e) <==> Stoi(m.cells[17]) == Some(e) || (m.cells[17] == "" && e == 0)
  {
    assert Stoi("").None?;
  }

  /** A system call and a system return act on the machine that has paid 5; the return hands on the
      result and the error from before it. */
  lemma TrapsPay(m: Machine, input: Inputs, e: int)
    requires Valid(m)
    ensures Operates(m, 25, e) ==> ExecOperation(m, input) == ExecSysCall(Paid(m, e, 5))
    ensures Operates(m, 26, e) ==> ExecOperation(m, input) == ExecSysReturn(Paid(m, e, 5), m.cells[8], m.cells[10])
  {
    hide Stoi, PrintInt, ExecOperation, ExecSysCall, ExecSysReturn;
    if Operates(m, 25, e) {
      RunsPaid(m, input, 25, e, 5);
    }
    if Operates(m, 26, e) {
      RunsPaid(m, input, 26, e, 5);
    }
  }

  // ---- Numbers ----

  /** REG_A and REG_B hold integers. */
  predicate Integers(m: Machine, x: int, y: int) {
    && Valid(m) && '.' !in m.cells[REG_A] && '.' !in m.cells[REG_B]
    && Stoi(m.cells[REG_A]) == Some(x) && Stoi(m.cells[REG_B]) == Some(y)
  }

  lemma SumAndDifference(m: Machine, input: Inputs, e: int, x: int, y: int)
    requires Integers(m, x, y)
    ensures Operates(m, 0, e) ==> Ends(m, input, WithResult(Paid(m, e, 1), PrintInt(x + y)))
    ensures Operates(m, 1, e) ==> Ends(m, input, WithResult(Paid(m, e, 1), PrintInt(x - y)))
  {
    hide Stoi, PrintInt, ExecOperation;
    if Operates(m, 0, e) {
      RunsPaid(m, input, 0, e, 1);
    }
    if Operates(m, 1, e) {
      RunsPaid(m, input, 1, e, 1);
    }
  }

  /** The quotient q and the remainder r of x by y: truncated. */
  ghost predicate Divides(x: int, y: int, q: int, r: int) {
    && x == y * q + r && (if y < 0 then y < r < -y else -y < r < y) && (x >= 0 ==> r >= 0) && (x <= 0 ==> r <= 0)
  }

  lemma Signs(b: int, q: int)
    ensures (-b) * (-q) == b * q && b * (-q) == -(b * q) && (-b) * q == -(b * q)
  {
  }

  /** Division truncates toward zero, and the remainder has the sign of the dividend. */
  lemma Truncates(x: int, y: int)
    requires y != 0
    ensures Divides(x, y, TruncatedDiv(x, y), x - y * TruncatedDiv(x, y))
  {
    var a, b := if x < 0 then -x else x, if y < 0 then -y else y;
    var q, r := a / b, a % b;
    assert a == b * q + r && 0 <= r < b;
    Signs(b, q);
    var t := TruncatedDiv(x, y);
    assert t == if (x < 0) == (y < 0) then q else -q;
    assert y * t == if x < 0 then -(b * q) else b * q;
  }

  lemma ProductAndQuotient(m: Machine, input: Inputs, e: int, x: int, y: int) returns (q: int, r: int)
    requires Integers(m, x, y)
    ensures Operates(m, 6, e) ==> Ends(m, input, WithResult(Paid(m, e, 1), PrintInt(x * y)))
    ensures y != 0 ==> Divides(x, y, q, r)
    ensures y != 0 && Operates(m, 4, e) ==> Ends(m, input, WithResult(Paid(m, e, 2), PrintInt(q)))
  {
    hide Stoi, PrintInt, ExecOperation, TruncatedDiv;
    q, r := 0, 0;
    if y != 0 {
      Truncates(x, y);
      q := TruncatedDiv(x, y);
      r := x - y * q;
      ZeroText(m.cells[REG_B]);
    }
    if Operates(m, 6, e) {
      RunsPaid(m, input, 6, e, 1);
    }
    if Operates(m, 4, e) {
      RunsPaid(m, input, 4, e, 2);
    }
  }

  /** The remainder takes the numbers that the operands begin with, point or no point. */
  lemma Remainder(m: Machine, input: Inputs, e: int, x: int, y: int) returns (q: int, r: int)
    requires Operates(m, 5, e) && Stoi(m.cells[REG_A]) == Some(x) && Stoi(m.cells[REG_B]) == Some(y) && y != 0
    ensures Divides(x, y, q, r) && Ends(m, input, WithResult(Paid(m, e, 2), PrintInt(r)))
  {
    hide Stoi, PrintInt, ExecOperation, TruncatedDiv;
    Truncates(x, y);
    q := TruncatedDiv(x, y);
    r := x - y * q;
    assert m.cells[REG_B] != "0" by {
      StoiPrint(0);
      assert PrintInt(0) == "0" by { ZeroIsDigit(); }
    }
    RunsPaid(m, input, 5, e, 2);
  }

  lemma ZeroIsDigit()
    ensures PrintInt(0) == "0"
  {
  }

  lemma ZeroText(t: string)
    requires '.' !in t && Stoi(t).Some? && Stoi(t).value != 0
    ensures t != "0" && t != "0.0"
  {
    StoiPrint(0);
    assert "0.0"[1] == '.';
    assert PrintInt(0) == "0";
  }

  /** A divisor written "0" is reported and leaves no result; written otherwise, a zero is undefined. */
  lemma DivisionByZero(m: Machine, input: Inputs, e: int)
    requires Valid(m) && m.cells[REG_B] == "0"
    ensures Operates(m, 4, e) ==> Ends(m, input, WithError(Paid(m, e, 2), "Division by zero"))
    ensures Operates(m, 5, e) ==> Ends(m, input, WithError(Paid(m, e, 2), "Modulo by zero"))
  {
    hide Stoi, PrintInt, ExecOperation;
    if Operates(m, 4, e) {
      RunsPaid(m, input, 4, e, 2);
    }
    if Operates(m, 5, e) {
      RunsPaid(m, input, 5, e, 2);
    }
  }

  lemma OneMoreAndLess(m: Machine, input: Inputs, e: int, x: int)
    requires Valid(m) && '.' !in m.cells[REG_A] && Stoi(m.cells[REG_A]) == Some(x)
    ensures Operates(m, 2, e) ==> Ends(m, input, WithResult(Paid(m, e, 1), PrintInt(x + 1)))
    ensures Operates(m, 3, e) ==> Ends(m, input, WithResult(Paid(m, e, 1), PrintInt(x - 1)))
  {
    hide Stoi, PrintInt, ExecOperation;
    if Operates(m, 2, e) {
      RunsPaid(m, input, 2, e, 1);
    }
    if Operates(m, 3, e) {
      RunsPaid(m, input, 3, e, 1);
    }
  }

  /** Texts that are no numbers stop arithmetic and order comparisons with an exception. */
  lemma NoNumberThrows(m: Machine, input: Inputs, op: int, e: int)
    requires Operates(m, op, e) && '.' !in m.cells[REG_A] && '.' !in m.cells[REG_B]
    requires op in {0, 1, 4, 5, 6, 10, 11} && (Stoi(m.cells[REG_A]).None? || Stoi(m.cells[REG_B]).None?)
    requires m.cells[REG_B] != "0"
    ensures ExecOperation(m, input).signal == Thrown
  {
    hide Stoi, PrintInt, ExecOperation;
    assert m.cells[REG_B] != "0.0" by { assert "0.0"[1] == '.'; }
    RunsPaid(m, input, op, e, EnergyCost(op));
  }

  // ---- The number pattern ----

  /** An optional minus, digits, an optional dot, and at least one digit. */
  ghost predicate NumberShape(s: string, neg: bool, a: string, dot: bool, b: string) {
    && AllDigits(a) && AllDigits(b) && b != ""
    && s == (if neg then "-" else "") + a + (if dot then "." else "") + b
  }

  lemma {:induction false} DigitsThenDigits(a: string, dot: bool, b: string, seen: bool)
    requires AllDigits(a) && AllDigits(b) && (seen ==> !dot)
    ensures DigitsWithDot(a + (if dot then "." else "") + b, seen)
  {
    var s := a + (if dot then "." else "") + b;
    if a != "" {
      assert s[0] == a[0] && s[1..] == a[1..] + (if dot then "." else "") + b;
      DigitsThenDigits(a[1..], dot, b, seen);
    } else if dot {
      assert s[0] == '.' && s[1..] == b;
      DigitsAreNumber(b, true);
    } else {
      assert s == b;
      DigitsAreNumber(b, seen);
    }
  }

  lemma {:induction false} AfterTheDot(s: string)
    requires DigitsWithDot(s, true)
    ensures AllDigits(s)
  {
    if s != "" {
      AfterTheDot(s[1..]);
      assert s == [s[0]] + s[1..];
    }
  }

  lemma {:induction false} DotSplits(s: string) returns (a: string, dot: bool, b: string)
    requires DigitsWithDot(s, false)
    ensures AllDigits(a) && AllDigits(b) && s == a + (if dot then "." else "") + b && (!dot ==> a == "")
  {
    if s == "" {
      a, dot, b := "", false, "";
    } else if IsDigit(s[0]) {
      var x, d, y := DotSplits(s[1..]);
      if d {
        a, dot, b := [s[0]] + x, true, y;
        assert s == [s[0]] + s[1..];
      } else {
        a, dot, b := "", false, s;
        assert s == [s[0]] + y;
      }
    } else {
      AfterTheDot(s[1..]);
      a, dot, b := "", true, s[1..];
      assert s == "." + s[1..];
    }
  }

  lemma NumberSplits(s: string) returns (neg: bool, a: string, dot: bool, b: string)
    requires IsNum(s)
    ensures NumberShape(s, neg, a, dot, b)
  {
    neg := s[0] == '-';
    var u := if neg then s[1..] else s;
    a, dot, b := DotSplits(u);
    assert dot ==> u[|u| - 1] == if b == "" then '.' else b[|b| - 1];
  }

  lemma Unsigned(a: string, dot: bool, b: string)
    requires AllDigits(a) && AllDigits(b) && b != ""
    ensures var u := a + (if dot then "." else "") + b;
            DigitsWithDot(u, false) && u != "" && IsDigit(u[|u| - 1]) && u[0] != '-'
  {
    DigitsThenDigits(a, dot, b, false);
    hide DigitsWithDot;
    var u := a + (if dot then "." else "") + b;
    assert u[|u| - 1] == b[|b| - 1] && !IsDigit('-');
    assert u[0] == if a != "" then a[0] else if dot then '.' else b[0];
  }

  lemma ShapeIsNumber(s: string, neg: bool, a: string, dot: bool, b: string)
    requires NumberShape(s, neg, a, dot, b)
    ensures IsNum(s)
  {
    hide DigitsWithDot, IsDigit;
    var u := a + (if dot then "." else "") + b;
    Unsigned(a, dot, b);
    if neg {
      assert s == "-" + u && s[1..] == u;
    } else {
      assert s == u;
    }
  }

  /** OP_IS_NUM accepts exactly this pattern. */
  lemma NumberPattern(s: string)
    ensures IsNum(s) <==> exists neg, a, dot, b :: NumberShape(s, neg, a, dot, b)
  {
    hide IsNum, NumberShape;
    if IsNum(s) {
      var neg, a, dot, b := NumberSplits(s);
    }
    if neg, a, dot, b :| NumberShape(s, neg, a, dot, b) {
      ShapeIsNumber(s, neg, a, dot, b);
    }
  }

  lemma NumberTest(m: Machine, input: Inputs, e: int)
    requires Operates(m, 7, e)
    ensures Ends(m, input, WithFlag(Paid(m, e, 1), IsNum(m.cells[REG_A])))
  {
    hide Stoi, PrintInt, ExecOperation, IsNum;
    RunsPaid(m, input, 7, e, 1);
  }

  // ---- Comparisons ----

  lemma Equality(m: Machine, input: Inputs, e: int)
    requires Valid(m)
    ensures Operates(m, 8, e) ==>
              Ends(m, input, WithFlag(Paid(m, e, 1), m.cells[REG_A] == m.cells[REG_B]))
    ensures Operates(m, 9, e) ==>
              Ends(m, input, WithFlag(Paid(m, e, 1), m.cells[REG_A] != m.cells[REG_B]))
  {
    hide Stoi, PrintInt, ExecOperation;
    if Operates(m, 8, e) {
      RunsPaid(m, input, 8, e, 1);
    }
    if Operates(m, 9, e) {
      RunsPaid(m, input, 9, e, 1);
    }
  }

  lemma Order(m: Machine, input: Inputs, e: int, x: int, y: int)
    requires Integers(m, x, y)
    ensures Operates(m, 10, e) ==> Ends(m, input, WithFlag(Paid(m, e, 1), x < y))
    ensures Operates(m, 11, e) ==> Ends(m, input, WithFlag(Paid(m, e, 1), x <= y))
  {
    hide Stoi, PrintInt, ExecOperation;
    if Operates(m, 10, e) {
      RunsPaid(m, input, 10, e, 1);
    }
    if Operates(m, 11, e) {
      RunsPaid(m, input, 11, e, 1);
    }
  }

  /** What the floating-point unit answers is the result; without an answer the operation throws. */
  predicate Answers(m: Machine, input: Inputs, text: Option<string>, paid: Machine)
    requires Valid(m) && Valid(paid)
  {
    if text.None? then ExecOperation(m, input) == Outcome(paid, Thrown)
      else Ends(m, input, WithResult(paid, text.value))
  }

  /** With a point in an operand the floating-point unit is asked, except for equality and for the
      remainder. */
  lemma FloatsAnswer(m: Machine, input: Inputs, e: int)
    requires Valid(m) && ('.' in m.cells[REG_A] || '.' in m.cells[REG_B])
    ensures Operates(m, 0, e) || Operates(m, 1, e) || Operates(m, 6, e) ==>
              Answers(m, input, input.floatText, Paid(m, e, 1))
    ensures Operates(m, 4, e) && m.cells[REG_B] != "0" && m.cells[REG_B] != "0.0" ==>
              Answers(m, input, input.floatText, Paid(m, e, 2))
    ensures (Operates(m, 2, e) || Operates(m, 3, e)) && '.' in m.cells[REG_A] ==>
              Answers(m, input, input.floatText, Paid(m, e, 1))
    ensures Operates(m, 10, e) || Operates(m, 11, e) ==>
              if input.floatTest.None? then ExecOperation(m, input) == Outcome(Paid(m, e, 1), Thrown)
              else Ends(m, input, WithFlag(Paid(m, e, 1), input.floatTest.value))
  {
    hide Stoi, PrintInt, ExecOperation;
    if Stoi(m.cells[REG_OP]).Some? {
      var op := Stoi(m.cells[REG_OP]).value;
      if Operates(m, op, e) {
        RunsPaid(m, input, op, e, EnergyCost(op));
      }
    }
  }

  // ---- Texts ----

  /** b is in a from index k on. */
  predicate OccursAt(a: string, b: string, k: nat) {
    k + |b| <= |a| && a[k..][..|b|] == b
  }

  lemma {:induction false} FirstOccurrence(a: string, b: string)
    ensures match IndexOf(a, b)
            case Some(k) => OccursAt(a, b, k) && forall j: nat :: j < k ==> !OccursAt(a, b, j)
            case None => forall j: nat :: !OccursAt(a, b, j)
    decreases |a|
  {
    if |b| <= |a| && a[..|b|] == b {
      assert OccursAt(a, b, 0);
    } else if a != "" {
      FirstOccurrence(a[1..], b);
      assert !OccursAt(a, b, 0);
      forall j: nat | j > 0
        ensures OccursAt(a, b, j) <==> OccursAt(a[1..], b, j - 1)
      {
        if j <= |a| {
          assert a[1..][j - 1..] == a[j..];
        }
      }
    }
  }

  /** OP_CONTAINS gives the position of the first occurrence, counted from 1. */
  lemma Contains(m: Machine, input: Inputs, e: int, k: nat)
    requires Operates(m, 12, e)
    ensures OccursAt(m.cells[REG_A], m.cells[REG_B], k)
            && (forall j: nat :: j < k ==> !OccursAt(m.cells[REG_A], m.cells[REG_B], j)) ==>
              Ends(m, input, WithFlag(WithResult(Paid(m, e, 2), PrintInt(k + 1)), true))
    ensures (forall j: nat :: !OccursAt(m.cells[REG_A], m.cells[REG_B], j)) ==>
              Ends(m, input, WithFlag(WithResult(Paid(m, e, 2), ""), false))
  {
    hide Stoi, PrintInt, ExecOperation, OccursAt, IndexOf;
    RunsPaid(m, input, 12, e, 2);
    FirstOccurrence(m.cells[REG_A], m.cells[REG_B]);
  }

  lemma LengthAndPrefix(m: Machine, input: Inputs, e: int)
    requires Valid(m)
    ensures Operates(m, 13, e) ==>
              Ends(m, input, WithResult(Paid(m, e, 1), PrintInt(|m.cells[REG_A]|)))
    ensures forall rest :: Operates(m, 14, e) && m.cells[REG_A] == m.cells[REG_B] + rest ==>
              Ends(m, input, WithFlag(WithResult(Paid(m, e, 2), rest), true))
    ensures Operates(m, 14, e) && (forall rest :: m.cells[REG_A] != m.cells[REG_B] + rest) ==>
              Ends(m, input, WithFlag(WithResult(Paid(m, e, 2), ""), false))
  {
    hide Stoi, PrintInt, ExecOperation;
    var a, b := m.cells[REG_A], m.cells[REG_B];
    if Operates(m, 13, e) {
      RunsPaid(m, input, 13, e, 1);
    }
    if Operates(m, 14, e) {
      RunsPaid(m, input, 14, e, 2);
      if StartsWith(a, b) {
        assert a == b + a[|b|..];
      }
      forall rest | a == b + rest
        ensures StartsWith(a, b) && a[|b|..] == rest
      {
      }
    }
  }

  /** OP_CONCAT_WITH puts REG_C between REG_A and REG_B; the column operations take the column
      from REG_B, the delimiters from REG_C and the new text from REG_D. */
  lemma ConcatAndColumns(m: Machine, input: Inputs, e: int, column: int)
    requires Valid(m) && Stoi(m.cells[REG_B]) == Some(column)
    ensures Operates(m, 17, e) ==>
              Ends(m, input, WithResult(Paid(m, e, 3), m.cells[REG_A] + m.cells[REG_C] + m.cells[REG_B]))
    ensures Operates(m, 15, e) ==>
              Ends(m, input, WithResult(Paid(m, e, 3), GetColumn(m.cells[REG_A], column, m.cells[REG_C])))
    ensures Operates(m, 16, e) ==>
              Ends(m, input,
                  WithResult(Paid(m, e, 3), ReplaceColumn(m.cells[REG_A], column, m.cells[REG_C], m.cells[REG_D])))
  {
    hide Stoi, PrintInt, ExecOperation, GetColumn, ReplaceColumn;
    if Operates(m, 17, e) {
      RunsPaid(m, input, 17, e, 3);
    }
    if Operates(m, 15, e) {
      RunsPaid(m, input, 15, e, 3);
    }
    if Operates(m, 16, e) {
      RunsPaid(m, input, 16, e, 3);
    }
  }

  /** Concatenation needs no number in REG_B, the column operations do. */
  lemma ConcatIsText(m: Machine, input: Inputs, e: int)
    requires Valid(m)
    ensures Operates(m, 17, e) ==>
              Ends(m, input, WithResult(Paid(m, e, 3), m.cells[REG_A] + m.cells[REG_C] + m.cells[REG_B]))
    ensures Stoi(m.cells[REG_B]).None? && (Operates(m, 15, e) || Operates(m, 16, e)) ==>
              ExecOperation(m, input).signal == Thrown
  {
    hide Stoi, PrintInt, ExecOperation, GetColumn, ReplaceColumn;
    if Operates(m, 17, e) {
      RunsPaid(m, input, 17, e, 3);
    }
    if Operates(m, 15, e) {
      RunsPaid(m, input, 15, e, 3);
    }
    if Operates(m, 16, e) {
      RunsPaid(m, input, 16, e, 3);
    }
  }

  // ---- Devices ----

  /** Input goes to the keyboard buffer, the end of input stops the machine; display changes no
      cell but the energy; the background code goes to its cell; the two placeholders copy REG_A;
      a halt stops the machine. */
  lemma SimpleDevices(m: Machine, input: Inputs, e: int)
    requires Valid(m)
    ensures Operates(m, 18, e) ==>
              Ends(m, input, if input.line.None? then Paid(m, e, 10).(status := Halted)
                else Put(Paid(m, e, 10), 14, input.line.value))
    ensures Operates(m, 19, e) || Operates(m, 20, e) ==> Ends(m, input, Paid(m, e, 5))
    ensures Operates(m, 23, e) ==> Ends(m, input, Put(Paid(m, e, 3), 15, input.background))
    ensures Operates(m, 27, e) || Operates(m, 28, e) ==>
              Ends(m, input, WithResult(Paid(m, e, 15), m.cells[REG_A]))
    ensures Operates(m, 29, e) ==>
              ExecOperation(m, input) ==
                Outcome(Paid(m, e, 1), if m.cells[REG_A] != "" && input.floatText.None? then Thrown else Done)
    ensures Operates(m, 30, e) ==> Ends(m, input, Paid(m, e, 0).(status := Halted))
  {
    hide Stoi, PrintInt, ExecOperation;
    if Valid(m) && Stoi(m.cells[REG_OP]).Some? {
      var op := Stoi(m.cells[REG_OP]).value;
      if Operates(m, op, e) {
        RunsPaid(m, input, op, e, EnergyCost(op));
      }
    }
  }

  /** Drawing reads the cells from the first to the last address, the last excluded. */
  lemma Drawing(m: Machine, input: Inputs, e: int, first: int, last: int)
    requires Operates(m, 24, e) && Stoi(m.cells[REG_A]) == Some(first) && Stoi(m.cells[REG_B]) == Some(last)
    requires (m.cells[REG_C] == "" || Stoi(m.cells[REG_C]).Some?)
             && (m.cells[REG_D] == "" || Stoi(m.cells[REG_D]).Some?)
    ensures 1 <= first <= last && last <= |m.cells| ==> Ends(m, input, Paid(m, e, 20))
    ensures first < last && (first < 1 || last > |m.cells|) ==> ExecOperation(m, input).signal == MemoryFault
  {
    hide Stoi, PrintInt, ExecOperation;
    RunsPaid(m, input, 24, e, 20);
  }

  /** Without numbers, or with the end before the start, drawing throws. */
  lemma DrawingThrows(m: Machine, input: Inputs, e: int)
    requires Operates(m, 24, e)
    requires || Stoi(m.cells[REG_A]).None? || Stoi(m.cells[REG_B]).None?
             || Stoi(m.cells[REG_B]).value < Stoi(m.cells[REG_A]).value
             || (m.cells[REG_C] !in {"", "0"} && Stoi(m.cells[REG_C]).None?)
             || (m.cells[REG_D] !in {"", "0"} && Stoi(m.cells[REG_D]).None?)
    ensures ExecOperation(m, input).signal == Thrown
  {
    hide Stoi, PrintInt, ExecOperation;
    RunsPaid(m, input, 24, e, 20);
  }

  // ---- Disks ----

  /** Both operations throw on a block number that is none, and on a disk without a block count. */
  lemma DiskThrows(m: Machine, input: Inputs, op: int, e: int)
    requires op in {21, 22} && Operates(m, op, e)
    ensures Stoi(m.cells[REG_B]).None? ==> ExecOperation(m, input) == Outcome(Paid(m, e, 10), Thrown)
    ensures Stoi(m.cells[REG_B]).Some? && (op == 21 ==> Stoi(m.cells[REG_B]).value >= 1)
            && m.cells[REG_A] in m.disks && |m.disks[m.cells[REG_A]]| > 0
            && Stoi(m.disks[m.cells[REG_A]][0]).None? ==>
              ExecOperation(m, input) == Outcome(Paid(m, e, 10), Thrown)
  {
    hide Stoi, PrintInt, ExecOperation;
    RunsPaid(m, input, op, e, 10);
  }


  /** The disk has a header line with the number of its blocks. */
  predicate HasDisk(disks: map<string, seq<string>>, name: string, count: int) {
    name in disks && |disks[name]| > 0 && Stoi(disks[name][0]) == Some(count)
  }

  /** OP_WRITE_BLOCK writes REG_C to block REG_B of disk REG_A: line n of that disk, no other line
      and no other disk, for a block from 2 to the last but one; otherwise it reports an error. */
  lemma BlockIsWritten(m: Machine, input: Inputs, e: int, n: int, count: int)
    requires Operates(m, 22, e) && Stoi(m.cells[REG_B]) == Some(n) && HasDisk(m.disks, m.cells[REG_A], count)
    ensures var o, name := ExecOperation(m, input), m.cells[REG_A];
            && o.signal == Done && o.m.kernel == m.kernel && o.m.status == m.status && o.m.disks.Keys == m.disks.Keys
            && (2 <= n < count ==>
                  && o.m.cells == Paid(m, e, 10).cells && n <= |o.m.disks[name]|
                  && o.m.disks[name][n - 1] == m.cells[REG_C]
                  && |m.disks[name]| <= |o.m.disks[name]|
                  && (forall i :: 0 <= i < |m.disks[name]| && i != n - 1 ==> o.m.disks[name][i] == m.disks[name][i])
                  && forall other :: other in m.disks && other != name ==> o.m.disks[other] == m.disks[other])
            && (!(2 <= n < count) ==>
                  o.m.disks == m.disks && o.m.cells == WithError(Paid(m, e, 10), "Failed to write block").cells)
  {
    hide Stoi, PrintInt, ExecOperation;
    RunsPaid(m, input, 22, e, 10);
  }

  /** OP_READ_BLOCK puts block REG_B of disk REG_A in RES: line n, for every block that the disk
      has; otherwise it reports an error. */
  lemma BlockIsRead(m: Machine, input: Inputs, e: int, n: int, count: int)
    requires Operates(m, 21, e) && Stoi(m.cells[REG_B]) == Some(n) && HasDisk(m.disks, m.cells[REG_A], count)
    ensures var o, lines := ExecOperation(m, input), m.disks[m.cells[REG_A]];
            && (1 <= n <= count && n <= |lines| ==>
                  o == Outcome(WithResult(Paid(m, e, 10), lines[n - 1]), Done))
            && (!(1 <= n <= count && n <= |lines|) ==>
                  o == Outcome(WithError(Paid(m, e, 10), "Failed to read block"), Done))
  {
    hide Stoi, PrintInt, ExecOperation;
    RunsPaid(m, input, 21, e, 10);
  }

  /** A disk that does not exist is reported by both operations. */
  lemma NoSuchDisk(m: Machine, input: Inputs, e: int, n: int)
    requires Valid(m) && Stoi(m.cells[REG_B]) == Some(n) && m.cells[REG_A] !in m.disks
    ensures Operates(m, 21, e) ==>
              ExecOperation(m, input) == Outcome(WithError(Paid(m, e, 10), "Failed to read block"), Done)
    ensures Operates(m, 22, e) ==>
              ExecOperation(m, input) == Outcome(WithError(Paid(m, e, 10), "Failed to write block"), Done)
  {
    hide Stoi, PrintInt, ExecOperation;
    if Operates(m, 21, e) {
      RunsPaid(m, input, 21, e, 10);
    }
    if Operates(m, 22, e) {
      RunsPaid(m, input, 22, e, 10);
    }
  }

  /** The step of a kernel that runs an operation that ends normally. */
  lemma KernelOperates(m: Machine, input: Inputs, op: int)
    requires Valid(m) && m.kernel && NextIs(m, input, op)
    requires ExecOperation(Ready(m, input), input).signal.Done? && ExecOperation(Ready(m, input), input).m.kernel
    ensures Step(m, input) == ExecOperation(Ready(m, input), input).m
  {
    hide ExecOperation, Decode, Fetch, Stoi, Advance, Poll;
    assert Ready(m, input) == Poll(Advance(m), input);
    assert Ready(m, input).kernel && m.status.Running? by { NextRuns(m, input, op); }
  }

  lemma NextRuns(m: Machine, input: Inputs, op: int)
    requires Valid(m) && NextIs(m, input, op)
    ensures Ready(m, input).kernel == m.kernel && m.status.Running? && Ready(m, input).disks == m.disks
    ensures EnergyOf(m).Some? && Ready(m, input).status == m.status
    ensures m.kernel ==> Operates(Ready(m, input), op, EnergyOf(m).value)
    ensures forall i :: 0 <= i < |m.cells| && i != PROGRAM_COUNTER && i != LAST_KEY ==>
                      Ready(m, input).cells[i] == m.cells[i]
  {
    hide Fetch, Decode, PrintInt;
  }

  /** A write step, then a read step of the same block: the text is back in RES. */
  lemma WriteStepThenReadStep(m: Machine, input: Inputs, n: int, count: int, r: Machine, again: Inputs)
    requires Valid(m) && m.kernel && NextIs(m, input, OP_WRITE_BLOCK)
    requires Stoi(m.cells[REG_B]) == Some(n) && HasDisk(m.disks, m.cells[REG_A], count) && 2 <= n < count
    requires Valid(r) && r.kernel && NextIs(r, again, OP_READ_BLOCK) && r.disks == Step(m, input).disks
    requires r.cells[REG_A] == m.cells[REG_A] && Stoi(r.cells[REG_B]) == Some(n)
    ensures var s, name := Step(m, input), m.cells[REG_A];
            && s.kernel && s.status.Running? && s.disks.Keys == m.disks.Keys && s.cells[REG_ERROR] == ""
            && n <= |s.disks[name]| && s.disks[name][n - 1] == m.cells[REG_C]
            && (forall i :: 0 <= i < |m.disks[name]| && i != n - 1 ==>
                  i < |s.disks[name]| && s.disks[name][i] == m.disks[name][i])
            && forall other :: other in m.disks && other != name ==> s.disks[other] == m.disks[other]
    ensures Step(r, again).cells[REG_RES] == m.cells[REG_C] && Step(r, again).cells[REG_ERROR] == ""
  {
    hide ExecOperation, Stoi, PrintInt, NextIs, Step, Ready;
    NextRuns(m, input, OP_WRITE_BLOCK);
    var x := Ready(m, input);
    BlockIsWritten(x, input, EnergyOf(m).value, n, count);
    KernelOperates(m, input, OP_WRITE_BLOCK);
    NextRuns(r, again, OP_READ_BLOCK);
    var y := Ready(r, again);
    BlockIsRead(y, again, EnergyOf(r).value, n, count);
    KernelOperates(r, again, OP_READ_BLOCK);
  }

  /** A write step outside the writable blocks changes no disk and reports an error. */
  lemma WriteStepRefused(m: Machine, input: Inputs, n: int, count: int)
    requires Valid(m) && m.kernel && NextIs(m, input, OP_WRITE_BLOCK)
    requires Stoi(m.cells[REG_B]) == Some(n) && HasDisk(m.disks, m.cells[REG_A], count) && !(2 <= n < count)
    ensures Step(m, input).disks == m.disks && Step(m, input).cells[REG_ERROR] != ""
  {
    hide ExecOperation, Stoi, PrintInt, NextIs, Step, Ready;
    NextRuns(m, input, OP_WRITE_BLOCK);
    BlockIsWritten(Ready(m, input), input, EnergyOf(m).value, n, count);
    KernelOperates(m, input, OP_WRITE_BLOCK);
  }

  // ---- Faults of user programs ----

  /** A fault becomes the exit call: number 0 in REG_E and the code in REG_A, where the kernel finds
      them, with the registers saved in the window. */
  lemma FaultCalls(m: Machine, code: string, input: Inputs, lo: int, pc: int)
    requires UserReady(m) && ProcStart(m) == lo && Stoi(m.cells[PROGRAM_COUNTER]) == Some(pc)
    requires EnergyOf(m).Some? && HandlerAddress(m.cells[SYSCALL_HANDLER]).Some?
    ensures var r := HandleFault(m, code, input);
            && r.kernel && r.status.Running? && |r.cells| == |m.cells|
            && r.cells[REG_A] == code && r.cells[REG_E] == "0" && r.cells[lo + REG_A] == code
            && r.cells[lo + REG_E] == "0"
            && r.cells[INTERRUPT_DATA] == InterruptRecord("0", pc, "0")
  {
    hide Stoi, PrintInt, HandlerAddress, ExecSysCall, InterruptRecord, ProcStart, ProcEnd;
    var n := Put(Put(Put(m, REG_A, code), REG_E, "0"), REG_OP, "25");
    SameBounds(m, n);
    TwentyFive();
    var e := EnergyOf(m).value;
    var c := Charge(n, e, OP_SYSCALL);
    SameBounds(n, c);
    assert ExecOperation(n, input) == ExecSysCall(c);
    EntrySaves(c, lo, pc);
    CallKeepsRegisters(c, lo);
  }

  lemma CallKeepsRegisters(c: Machine, lo: int)
    requires UserReady(c) && ProcStart(c) == lo
    ensures var o := ExecSysCall(c);
            o.signal.Done? ==> forall i :: 1 <= i <= USER_SPACE_END ==> o.m.cells[i] == c.cells[i]
  {
    hide BackupRegisters, PrintInt, Stoi, HandlerAddress;
    var k := c.(kernel := true);
    SameStart(c, k);
    SaveIsBackupAt(k, lo);
    BackupFrame(k, lo, 1);
  }

  /** The exit code tells the faults apart: 139 for memory, 1 for the CPU. */
  lemma ExitCodes(o: Outcome, input: Inputs, lo: int, pc: int)
    requires UserReady(o.m) && ProcStart(o.m) == lo && Stoi(o.m.cells[PROGRAM_COUNTER]) == Some(pc)
    requires EnergyOf(o.m).Some? && HandlerAddress(o.m.cells[SYSCALL_HANDLER]).Some?
    ensures |Settle(o, input).cells| == |o.m.cells|
    ensures o.signal == MemoryFault ==>
              Settle(o, input).kernel && Settle(o, input).cells[REG_A] == "139"
                && Settle(o, input).cells[lo + REG_A] == "139"
    ensures o.signal == CpuFault ==>
              Settle(o, input).kernel && Settle(o, input).cells[REG_A] == "1"
                && Settle(o, input).cells[lo + REG_A] == "1"
  {
    hide HandleFault, Stoi, HandlerAddress, ProcStart;
    FaultCalls(o.m, "139", input, lo, pc);
    FaultCalls(o.m, "1", input, lo, pc);
  }
}
