/** Column operations on text cells (OP_GET_COLUMN, OP_REPLACE_COLUMN, OP_STARTS_WITH).
    `OP_GET_COLUMN` drops empty columns and `OP_REPLACE_COLUMN` keeps them. */
module Columns {
  import opened Wrappers
  import opened Text

  /** Splits at every character of `delims`, keeping empty columns. */
  function Fields(s: string, delims: string): (fs: seq<string>)
    ensures |fs| > 0
  {
    if s == "" then [""]
    else
      var before := Fields(s[..|s| - 1], delims);
      var ch := s[|s| - 1];
      if ch in delims then before + [""]
      else before[..|before| - 1] + [before[|before| - 1] + [ch]]
  }

  function NonEmpty(fs: seq<string>): (r: seq<string>)
    ensures forall i :: 0 <= i < |r| ==> r[i] != ""
  {
    if fs == [] then []
    else
      var before := NonEmpty(fs[..|fs| - 1]);
      var last := fs[|fs| - 1];
      if last == "" then before else before + [last]
  }

  function Tokens(s: string, delims: string): (ts: seq<string>)
    ensures forall i :: 0 <= i < |ts| ==> ts[i] != ""
  {
    NonEmpty(Fields(s, delims))
  }

  function Join(fs: seq<string>, sep: string): string {
    if |fs| == 0 then ""
    else if |fs| == 1 then fs[0]
    else Join(fs[..|fs| - 1], sep) + sep + fs[|fs| - 1]
  }

  /** The value of OP_GET_COLUMN. */
  function GetColumn(a: string, column: int, c: string): string {
    if c == "" then
      if 1 <= column <= |a| then [a[column - 1]] else ""
    else
      var ts := Tokens(a, c);
      if 1 <= column <= |ts| then ts[column - 1] else ""
  }

  /** The value of OP_REPLACE_COLUMN. */
  function ReplaceColumn(a: string, column: int, c: string, d: string): string {
    if c == "" then
      if 1 <= column <= |a| then a[column - 1 := if d == "" then ' ' else d[0]] else a
    else
      var fs := Fields(a, c);
      Join(if 1 <= column <= |fs| then fs[column - 1 := d] else fs, c)
  }

  function IndexOf(a: string, b: string): (r: Option<nat>)
    ensures r.Some? ==> r.value + |b| <= |a| && StartsWith(a[r.value..], b)
    decreases |a|
  {
    if |b| <= |a| && a[..|b|] == b then Some(0)
    else if a == "" then None
    else
      match IndexOf(a[1..], b)
      case None => None
      case Some(k) =>
        assert a[1..][k..] == a[k + 1..];
        Some(k + 1)
  }

  predicate StartsWith(a: string, b: string) {
    |b| <= |a| && a[..|b|] == b
  }

  /** A column value: not empty and free of blanks. */
  ghost predicate IsWord(w: string) {
    w != "" && NoBlank(w)
  }

  ghost predicate NoBlank(w: string) {
    forall i :: 0 <= i < |w| ==> w[i] != ' '
  }

  ghost predicate AllWords(fs: seq<string>) {
    forall i :: 0 <= i < |fs| ==> IsWord(fs[i])
  }

  ghost predicate AllNoBlank(fs: seq<string>) {
    forall i :: 0 <= i < |fs| ==> NoBlank(fs[i])
  }

  lemma {:induction false} FieldsOfNoBlank(w: string)
    requires NoBlank(w)
    ensures Fields(w, " ") == [w]
  {
    if w != "" {
      var v := w[..|w| - 1];
      FieldsOfNoBlank(v);
      assert w == v + [w[|w| - 1]];
    }
  }

  lemma {:induction false} FieldsAppend(a: string, w: string)
    requires NoBlank(w)
    ensures Fields(a + " " + w, " ") == Fields(a, " ") + [w]
  {
    var s := a + " " + w;
    if w == "" {
      assert s[..|s| - 1] == a && s[|s| - 1] == ' ';
    } else {
      var v := w[..|w| - 1];
      FieldsAppend(a, v);
      assert s[..|s| - 1] == a + " " + v && s[|s| - 1] == w[|w| - 1];
      var before := Fields(a + " " + v, " ");
      assert before[..|before| - 1] == Fields(a, " ");
      assert w == v + [w[|w| - 1]];
    }
  }

  /** Splitting undoes joining when no column holds the separator. */
  lemma {:induction false} FieldsOfJoin(fs: seq<string>)
    requires |fs| > 0 && AllNoBlank(fs)
    ensures Fields(Join(fs, " "), " ") == fs
  {
    if |fs| == 1 {
      FieldsOfNoBlank(fs[0]);
    } else {
      var init, last := fs[..|fs| - 1], fs[|fs| - 1];
      FieldsOfJoin(init);
      FieldsAppend(Join(init, " "), last);
      assert fs == init + [last];
    }
  }

  /** Joining undoes splitting, for every text. */
  lemma {:induction false} JoinOfFields(s: string)
    ensures Join(Fields(s, " "), " ") == s
  {
    if s != "" {
      var t, ch := s[..|s| - 1], s[|s| - 1];
      JoinOfFields(t);
      var before := Fields(t, " ");
      var fs := Fields(s, " ");
      assert s == t + [ch];
      if ch == ' ' {
        assert fs[..|fs| - 1] == before;
      } else if |before| > 1 {
        assert fs[..|fs| - 1] == before[..|before| - 1];
      }
    }
  }

  lemma {:induction false} NonEmptyOfWords(fs: seq<string>)
    requires forall i :: 0 <= i < |fs| ==> fs[i] != ""
    ensures NonEmpty(fs) == fs
  {
    if fs != [] {
      NonEmptyOfWords(fs[..|fs| - 1]);
      assert fs == fs[..|fs| - 1] + [fs[|fs| - 1]];
    }
  }

  lemma TokensOfJoin(fs: seq<string>)
    requires AllWords(fs)
    ensures Tokens(Join(fs, " "), " ") == fs
  {
    if fs == [] {
      assert Fields("", " ") == [""];
      assert [""][..0] == [];
    } else {
      FieldsOfJoin(fs);
      NonEmptyOfWords(fs);
    }
  }

  /** Reading a column of a record: the i-th word, or nothing behind the last one. */
  lemma GetOfJoin(fs: seq<string>, column: int)
    requires AllWords(fs)
    ensures GetColumn(Join(fs, " "), column, " ") == if 1 <= column <= |fs| then fs[column - 1] else ""
  {
    TokensOfJoin(fs);
  }

  /** Updating a column of a record updates that word and no other. */
  lemma ReplaceOfJoin(fs: seq<string>, column: int, d: string)
    requires |fs| > 0 && AllWords(fs) && 1 <= column <= |fs|
    ensures ReplaceColumn(Join(fs, " "), column, " ", d) == Join(fs[column - 1 := d], " ")
  {
    assert AllNoBlank(fs);
    FieldsOfJoin(fs);
  }

  /** Get and replace form a lens on records of words: put-get, get-put and put-put, and a put
      leaves every other column alone. */
  lemma ColumnLens(fs: seq<string>, i: int, j: int, d: string, e: string)
    requires AllWords(fs) && 1 <= i <= |fs| && 1 <= j <= |fs| && IsWord(d) && IsWord(e)
    ensures var s := Join(fs, " ");
            var t := ReplaceColumn(s, i, " ", d);
            && GetColumn(t, j, " ") == (if i == j then d else GetColumn(s, j, " "))
            && ReplaceColumn(s, i, " ", GetColumn(s, i, " ")) == s
            && ReplaceColumn(t, i, " ", e) == ReplaceColumn(s, i, " ", e)
  {
    hide *;
    var gs, hs := fs[i - 1 := d], fs[i - 1 := e];
    assert AllWords(gs) by { AllWordsUpdate(fs, i, d); }
    ReplaceOfJoin(fs, i, d);
    ReplaceOfJoin(fs, i, e);
    ReplaceOfJoin(gs, i, e);
    GetOfJoin(fs, i);
    GetOfJoin(fs, j);
    GetOfJoin(gs, j);
    ReplaceOfJoin(fs, i, fs[i - 1]);
    assert gs[i - 1 := e] == hs;
    assert fs[i - 1 := fs[i - 1]] == fs;
  }

  lemma AllWordsUpdate(fs: seq<string>, i: int, d: string)
    requires AllWords(fs) && 1 <= i <= |fs| && IsWord(d)
    ensures AllWords(fs[i - 1 := d])
  {
  }

  // ---- Other delimiters ----

  /** The fields with the delimiter characters between them. */
  function Weave(fs: seq<string>, marks: string): string
    requires |fs| == |marks| + 1
  {
    if marks == "" then fs[0] else Weave(fs[..|fs| - 1], marks[..|marks| - 1]) + [marks[|marks| - 1]] + fs[|fs| - 1]
  }

  ghost predicate IsSplit(s: string, fs: seq<string>, marks: string, delims: string) {
    && |fs| == |marks| + 1 && s == Weave(fs, marks)
    && (forall i :: 0 <= i < |marks| ==> marks[i] in delims)
    && forall i, k :: 0 <= i < |fs| && 0 <= k < |fs[i]| ==> fs[i][k] !in delims
  }

  lemma {:induction false} WeaveGrows(fs: seq<string>, marks: string, ch: char)
    requires |fs| == |marks| + 1
    ensures Weave(fs + [""], marks + [ch]) == Weave(fs, marks) + [ch]
    ensures Weave(fs[..|fs| - 1] + [fs[|fs| - 1] + [ch]], marks) == Weave(fs, marks) + [ch]
  {
    assert (fs + [""])[..|fs|] == fs && (marks + [ch])[..|marks|] == marks;
    assert Weave(fs, marks) + [ch] + "" == Weave(fs, marks) + [ch];
    var gs := fs[..|fs| - 1] + [fs[|fs| - 1] + [ch]];
    assert gs[..|gs| - 1] == fs[..|fs| - 1];
  }

  lemma SplitGrows(t: string, fs: seq<string>, marks: string, delims: string, ch: char)
    requires IsSplit(t, fs, marks, delims)
    ensures if ch in delims then IsSplit(t + [ch], fs + [""], marks + [ch], delims)
            else IsSplit(t + [ch], fs[..|fs| - 1] + [fs[|fs| - 1] + [ch]], marks, delims)
  {
    hide Weave;
    WeaveGrows(fs, marks, ch);
  }

  /** Splitting cuts a text at its delimiter characters and nowhere else. */
  lemma {:induction false} FieldsSplit(s: string, delims: string) returns (marks: string)
    ensures IsSplit(s, Fields(s, delims), marks, delims)
  {
    hide IsSplit;
    if s == "" {
      marks := "";
      NothingSplits(delims);
    } else {
      var t, ch := s[..|s| - 1], s[|s| - 1];
      var before := FieldsSplit(t, delims);
      marks := if ch in delims then before + [ch] else before;
      SplitGrows(t, Fields(t, delims), before, delims, ch);
      assert s == t + [ch];
    }
  }

  lemma NothingSplits(delims: string)
    ensures IsSplit("", [""], "", delims)
  {
  }

  lemma {:induction false} CutOnce(w: string, delims: string)
    requires forall k :: 0 <= k < |w| ==> w[k] !in delims
    ensures Fields(w, delims) == [w]
  {
    if w != "" {
      var v := w[..|w| - 1];
      CutOnce(v, delims);
      assert w == v + [w[|w| - 1]];
    }
  }

  lemma {:induction false} CutBehind(a: string, ch: char, w: string, delims: string)
    requires ch in delims && forall k :: 0 <= k < |w| ==> w[k] !in delims
    ensures Fields(a + [ch] + w, delims) == Fields(a, delims) + [w]
  {
    var s := a + [ch] + w;
    if w == "" {
      assert s[..|s| - 1] == a && s[|s| - 1] == ch;
    } else {
      var v := w[..|w| - 1];
      CutBehind(a, ch, v, delims);
      assert s[..|s| - 1] == a + [ch] + v && s[|s| - 1] == w[|w| - 1];
      var before := Fields(a + [ch] + v, delims);
      assert before[..|before| - 1] == Fields(a, delims);
      assert w == v + [w[|w| - 1]];
    }
  }

  /** There is one such cut, so the fields are the ones of any. */
  lemma {:induction false} SplitIsFields(s: string, fs: seq<string>, marks: string, delims: string)
    requires IsSplit(s, fs, marks, delims)
    ensures Fields(s, delims) == fs
    decreases |marks|
  {
    if marks == "" {
      CutOnce(fs[0], delims);
      assert fs == [fs[0]];
    } else {
      var n := |marks| - 1;
      var t := Weave(fs[..n + 1], marks[..n]);
      SplitIsFields(t, fs[..n + 1], marks[..n], delims);
      CutBehind(t, marks[n], fs[n + 1], delims);
      assert fs == fs[..n + 1] + [fs[n + 1]];
    }
  }

  /** Replacing a column of a text cut in any way: the column changes, and the whole delimiter text
      stands between all columns. */
  lemma ReplaceIsJoin(s: string, fs: seq<string>, marks: string, delims: string, column: int, d: string)
    requires delims != "" && IsSplit(s, fs, marks, delims)
    ensures ReplaceColumn(s, column, delims, d) ==
              Join(if 1 <= column <= |fs| then fs[column - 1 := d] else fs, delims)
  {
    hide Fields, Join;
    SplitIsFields(s, fs, marks, delims);
  }

  /** Reading a column of a text whose columns are not empty. */
  lemma GetIsColumn(s: string, fs: seq<string>, marks: string, delims: string, column: int)
    requires delims != "" && IsSplit(s, fs, marks, delims) && forall i :: 0 <= i < |fs| ==> fs[i] != ""
    ensures GetColumn(s, column, delims) == if 1 <= column <= |fs| then fs[column - 1] else ""
  {
    hide Fields;
    SplitIsFields(s, fs, marks, delims);
    NonEmptyOfWords(fs);
  }

  /** Without a delimiter the columns are the characters: reading gives one, replacing changes
      one, to a blank if the new text is empty, and columns outside the text are left alone. */
  lemma CharacterColumns(s: string, column: int, d: string)
    ensures |GetColumn(s, column, "")| == if 0 < column <= |s| then 1 else 0
    ensures 0 < column <= |s| ==> GetColumn(s, column, "")[0] == s[column - 1]
    ensures var r := ReplaceColumn(s, column, "", d);
            && |r| == |s|
            && forall i :: 0 <= i < |s| ==> r[i] == if i + 1 != column then s[i] else if d == "" then ' ' else d[0]
  {
  }

  lemma PrintIsWord(n: int)
    ensures IsWord(PrintInt(n))
  {
    PrintChars(n);
  }
}
