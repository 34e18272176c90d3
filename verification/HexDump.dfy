/** The hex dump printer (qhexoutput in src/debug.c) and a decoder that inverts it. */
module HexDump {
  import opened Common

  type Nibble = x: int | 0 <= x < 16

  const ROW := 16
  const BUFFER := 256

  function Digit(n: Nibble): char { "0123456789abcdef"[n] }

  /** %x */
  function Hex(n: nat): string {
    if n < 16 then [Digit(n)] else Hex(n / 16) + [Digit(n % 16)]
  }

  /** %04x */
  function Hex4(n: nat): string {
    var h := Hex(n);
    seq(if |h| < 4 then 4 - |h| else 0, i => '0') + h
  }

  /** The three columns of position p: " %02x", or blanks past the end. */
  function Cell(data: seq<Byte>, p: nat): string {
    if p < |data| then [' ', Digit(data[p] / 16), Digit(data[p] % 16)] else "   "
  }

  /** The character shown for position p. */
  function Shown(data: seq<Byte>, p: nat): char {
    if p >= |data| then ' '
    else if data[p] < 0x20 || data[p] >= 0x7F then '.'
    else data[p] as char
  }

  function Cells(data: seq<Byte>, i: nat, n: nat): string
    decreases n
  {
    if n == 0 then "" else Cell(data, i) + Cells(data, i + 1, n - 1)
  }

  function Text(data: seq<Byte>, i: nat, n: nat): string { seq(n, j requires 0 <= j => Shown(data, i + j)) }

  function Prefix(i: nat): string { "  0x" + Hex4(i) + ":" }

  /** The character column. */
  function Tail(data: seq<Byte>, i: nat): string { " = '" + Text(data, i, ROW) + "'" }

  function Row(data: seq<Byte>, i: nat): string { Prefix(i) + (Cells(data, i, ROW) + Tail(data, i)) }

  // ---------------------------------------------------------------- the decoder

  function Value(c: char): Option<Nibble> {
    if '0' <= c <= '9' then Some(c as int - '0' as int)
    else if 'a' <= c <= 'f' then Some(c as int - 'a' as int + 10)
    else None
  }

  function Colon(row: string, from: nat): nat
    decreases |row| - from
  {
    if from >= |row| || row[from] == ':' then from else Colon(row, from + 1)
  }

  /** Up to n hex pairs in columns of three, stopping at the first that is not one. */
  function DecodeCells(s: string, n: nat): seq<Byte> {
    if n == 0 || |s| < 3 || Value(s[1]).None? || Value(s[2]).None? then []
    else [Value(s[1]).value * 16 + Value(s[2]).value] + DecodeCells(s[3..], n - 1)
  }

  function DecodeRow(row: string): seq<Byte> {
    var c := Colon(row, 0);
    if c < |row| then DecodeCells(row[c + 1..], ROW) else []
  }

  function DecodeRows(rows: seq<string>): seq<Byte> {
    if rows == [] then [] else DecodeRows(rows[..|rows| - 1]) + DecodeRow(rows[|rows| - 1])
  }

  /** A hexadecimal number; characters that are no digits count as zero. */
  function Number(s: string): nat {
    if s == [] then 0
    else Number(s[..|s| - 1]) * 16 + (match Value(s[|s| - 1]) case Some(v) => v case None => 0)
  }

  /** The offset column: between "  0x" and the colon. */
  function DecodeOffset(row: string): nat {
    var c := Colon(row, 0);
    if 4 <= c <= |row| then Number(row[4..c]) else 0
  }

  // ---------------------------------------------------------------- decoding what was printed

  lemma DigitValue(n: Nibble)
    ensures Value(Digit(n)) == Some(n) && Digit(n) != ':'
  {
  }

  lemma {:induction false} HexFacts(n: nat)
    ensures |Hex(n)| >= 1 && ':' !in Hex(n)
    ensures Number(Hex(n)) == n
  {
    DigitValue(n % 16);
    if n >= 16 {
      HexFacts(n / 16);
      assert Hex(n)[..|Hex(n)| - 1] == Hex(n / 16);
    } else {
      assert Hex(n)[..0] == [];
    }
  }

  lemma {:induction false} ZerosInFront(z: nat, s: string)
    ensures Number(seq(z, i => '0') + s) == Number(s)
    decreases z + |s|
  {
    var zeros := seq(z, i => '0');
    if s != [] {
      ZerosInFront(z, s[..|s| - 1]);
      assert (zeros + s)[..|zeros + s| - 1] == zeros + s[..|s| - 1];
    } else if z > 0 {
      ZerosInFront(z - 1, []);
      assert (zeros + s)[..|zeros + s| - 1] == seq(z - 1, i => '0') + [];
    }
  }

  lemma {:induction false} ColonIs(row: string, from: nat, at: nat)
    requires from <= at < |row| && row[at] == ':'
    requires forall k :: from <= k < at ==> row[k] != ':'
    ensures Colon(row, from) == at
    decreases at - from
  {
    if from < at {
      ColonIs(row, from + 1, at);
    }
  }

  lemma Regroup(x: string, y: string, z: string)
    ensures x + (y + z) == x + y + z
  {
  }

  lemma {:induction false} OneMoreCell(data: seq<Byte>, i: nat, n: nat)
    ensures Cells(data, i, n + 1) == Cells(data, i, n) + Cell(data, i + n)
    decreases n
  {
    hide Cell;
    if n > 0 {
      OneMoreCell(data, i + 1, n - 1);
      Regroup(Cell(data, i), Cells(data, i + 1, n - 1), Cell(data, i + n));
    }
  }

  lemma CellLengths(data: seq<Byte>, p: nat)
    ensures |Cell(data, p)| == 3 && Cells(data, p, 0) == ""
  {
  }

  function Least(a: nat, b: nat): nat { if a < b then a else b }

  /** The first cell of a text decodes to its byte. */
  lemma FirstCell(data: seq<Byte>, i: nat, rest: string, n: nat)
    requires i < |data| && n > 0
    ensures DecodeCells(Cell(data, i) + rest, n) == [data[i]] + DecodeCells(rest, n - 1)
  {
    DigitValue(data[i] / 16);
    DigitValue(data[i] % 16);
    assert (Cell(data, i) + rest)[3..] == rest;
  }

  lemma PaddingEnds(data: seq<Byte>, i: nat, rest: string, n: nat)
    requires i >= |data|
    ensures DecodeCells(Cell(data, i) + rest, n) == []
  {
  }

  lemma TakeOne(data: seq<Byte>, i: nat, j: nat)
    requires i < j <= |data|
    ensures data[i..j] == [data[i]] + data[i + 1..j]
  {
  }

  lemma {:induction false} CellsDecode(data: seq<Byte>, i: nat, n: nat, rest: string)
    requires i <= |data|
    ensures DecodeCells(Cells(data, i, n) + rest, n) == data[i..Least(i + n, |data|)]
    decreases n
  {
    if n > 0 {
      var others := Cells(data, i + 1, n - 1);
      Regroup(Cell(data, i), others, rest);
      if i < |data| {
        hide DecodeCells, Cell;
        CellsDecode(data, i + 1, n - 1, rest);
        FirstCell(data, i, others + rest, n);
        TakeOne(data, i, Least(i + n, |data|));
      } else {
        hide DecodeCells, Cell;
        PaddingEnds(data, i, others + rest, n);
      }
    }
  }

  lemma PrefixFacts(i: nat)
    ensures |Prefix(i)| >= 9 && Prefix(i)[|Prefix(i)| - 1] == ':'
    ensures forall k :: 0 <= k < |Prefix(i)| - 1 ==> Prefix(i)[k] != ':'
    ensures Number(Prefix(i)[4..|Prefix(i)| - 1]) == i
  {
    HexFacts(i);
    var zeros := if |Hex(i)| < 4 then 4 - |Hex(i)| else 0;
    ZerosInFront(zeros, Hex(i));
    assert Prefix(i)[4..|Prefix(i)| - 1] == Hex4(i);
  }

  /** One printed row gives back its offset and its bytes. */
  lemma {:induction false} RowRoundTrip(data: seq<Byte>, i: nat)
    requires i < |data|
    ensures DecodeRow(Row(data, i)) == data[i..Least(i + ROW, |data|)]
    ensures DecodeOffset(Row(data, i)) == i
  {
    hide Prefix, Cells, Tail, Number;
    var prefix, rest := Prefix(i), Cells(data, i, ROW) + Tail(data, i);
    PrefixFacts(i);
    PrefixOf(prefix, rest);
    ColonIs(prefix + rest, 0, |prefix| - 1);
    CellsDecode(data, i, ROW, Tail(data, i));
  }

  lemma PrefixOf(prefix: string, rest: string)
    requires |prefix| >= 5
    ensures forall k :: 0 <= k < |prefix| ==> (prefix + rest)[k] == prefix[k]
    ensures (prefix + rest)[4..|prefix| - 1] == prefix[4..|prefix| - 1]
    ensures (prefix + rest)[|prefix|..] == rest
  {
  }

  /** The rows of a dump: one for every sixteen bytes begun. */
  function Rows(data: seq<Byte>, n: nat): seq<string> {
    if n == 0 then [] else Rows(data, n - 1) + [Row(data, ROW * (n - 1))]
  }

  function RowCount(size: nat): nat { (size + ROW - 1) / ROW }

  lemma NextRow(data: seq<Byte>, i: nat)
    requires i < |data|
    ensures Least(i, |data|) == i && i < Least(i + ROW, |data|) <= |data|
    ensures data[..i] + data[i..Least(i + ROW, |data|)] == data[..Least(i + ROW, |data|)]
  {
  }

  lemma NoRow(data: seq<Byte>)
    ensures Least(0, |data|) == 0
  {
  }

  lemma {:induction false} RowsDecode(data: seq<Byte>, n: nat)
    requires n > 0 ==> ROW * (n - 1) < |data|
    ensures |Rows(data, n)| == n
    ensures DecodeRows(Rows(data, n)) == data[..Least(ROW * n, |data|)]
    ensures forall k :: 0 <= k < n ==> DecodeOffset(Rows(data, n)[k]) == ROW * k
  {
    hide DecodeRow, DecodeOffset, Row, Least;
    if n > 0 {
      var i := ROW * (n - 1);
      RowsDecode(data, n - 1);
      RowRoundTrip(data, i);
      assert Rows(data, n)[..n - 1] == Rows(data, n - 1);
      NextRow(data, i);
    } else {
      NoRow(data);
    }
  }

  /** Printing loses nothing: the dump decodes to the data, in ceil(Size/16) rows. */
  lemma {:induction false} DumpRoundTrip(data: seq<Byte>)
    ensures var rows := Rows(data, RowCount(|data|));
            && |rows| == RowCount(|data|)
            && DecodeRows(rows) == data
            && forall k :: 0 <= k < |rows| ==> DecodeOffset(rows[k]) == ROW * k
  {
    RowsDecode(data, RowCount(|data|));
  }

  // ---------------------------------------------------------------- the printer

  function Pow16(d: nat): nat { if d == 0 then 1 else 16 * Pow16(d - 1) }

  lemma {:induction false} HexLength(n: nat, d: nat)
    requires d >= 1 && n < Pow16(d)
    ensures |Hex(n)| <= d
  {
    assert Pow16(1) == 16;
    if n >= 16 {
      HexLength(n / 16, d - 1);
    }
  }

  /** The offset column widens past four digits, but never past eight. */
  lemma PrefixLength(i: nat)
    requires i <= INT_MAX
    ensures |Prefix(i)| <= 13
  {
    assert Pow16(2) == 0x100 && Pow16(4) == 0x1_0000;
    assert Pow16(6) == 0x100_0000;
    HexLength(i, 8);
  }

  // ---------------------------------------------------------------- the rows, character by character

  /** s spells n in lower-case hexadecimal, whatever zeros there are in front. */
  predicate Spells(s: string, n: nat) {
    if s == [] then n == 0
    else s[|s| - 1] == "0123456789abcdef"[n % 16] && Spells(s[..|s| - 1], n / 16)
  }

  /** With at least four digits, and no more zeros in front than that takes. */
  predicate IsOffset(s: string, n: nat) { |s| >= 4 && (|s| > 4 ==> s[0] != '0') && Spells(s, n) }

  /** The hex column for n positions from i on: a blank and two digits each, or three blanks past the end. */
  predicate IsHexColumn(s: string, data: seq<Byte>, i: nat, n: nat)
    decreases n
  {
    if n == 0 then s == []
    else
      && |s| >= 3 && s[0] == ' '
      && (if i < |data| then
            s[1] == "0123456789abcdef"[data[i] / 16] && s[2] == "0123456789abcdef"[data[i] % 16]
          else s[1] == s[2] == ' ')
      && IsHexColumn(s[3..], data, i + 1, n - 1)
  }

  /** The character column: each byte itself where it is printable, a dot where it is not, a blank past the end. */
  predicate IsCharColumn(s: string, data: seq<Byte>, i: nat) {
    && |s| == 16
    && forall j :: 0 <= j < 16 ==>
         if i + j >= |data| then s[j] == ' '
         else if 0x20 <= data[i + j] <= 0x7E then s[j] == data[i + j] as char
         else s[j] == '.'
  }

  /** The row that shows the sixteen positions from i on, from its two blanks to its closing quote. */
  predicate IsRow(row: string, data: seq<Byte>, i: nat) {
    var n := |row|;
    && n >= 78 && row[..4] == "  0x" && IsOffset(row[4..n - 70], i) && row[n - 70] == ':'
    && IsHexColumn(row[n - 69..n - 21], data, i, 16)
    && row[n - 21..n - 17] == " = '" && IsCharColumn(row[n - 17..n - 1], data, i) && row[n - 1] == '\''
  }

  lemma {:induction false} HexSpells(n: nat)
    ensures Spells(Hex(n), n) && (|Hex(n)| > 1 ==> Hex(n)[0] != '0')
  {
    var h := Hex(n);
    if n >= 16 {
      HexSpells(n / 16);
      assert h[..|h| - 1] == Hex(n / 16);
    } else {
      assert h[..0] == [] && n / 16 == 0;
    }
  }

  lemma {:induction false} ZerosSpell(z: nat, s: string, n: nat)
    requires Spells(s, n)
    ensures Spells(seq(z, k => '0') + s, n)
    decreases |s| + z
  {
    var t := seq(z, k => '0') + s;
    if s != [] {
      ZerosSpell(z, s[..|s| - 1], n / 16);
      assert t[..|t| - 1] == seq(z, k => '0') + s[..|s| - 1];
    } else if z > 0 {
      ZerosSpell(z - 1, [], 0);
      assert t[..|t| - 1] == seq(z - 1, k => '0') + [];
    }
  }

  lemma OffsetSpelled(i: nat)
    ensures IsOffset(Hex4(i), i)
  {
    var h := Hex(i);
    HexSpells(i);
    ZerosSpell(if |h| < 4 then 4 - |h| else 0, h, i);
  }

  lemma {:induction false} CellsSpelled(data: seq<Byte>, i: nat, n: nat)
    ensures |Cells(data, i, n)| == 3 * n && IsHexColumn(Cells(data, i, n), data, i, n)
    decreases n
  {
    if n > 0 {
      CellsSpelled(data, i + 1, n - 1);
      assert Cells(data, i, n)[3..] == Cells(data, i + 1, n - 1);
    }
  }

  lemma TailSpelled(data: seq<Byte>, i: nat)
    ensures var t := Tail(data, i);
            |t| == 21 && t[..4] == " = '" && IsCharColumn(t[4..20], data, i) && t[20] == '\''
  {
    assert Tail(data, i)[4..20] == Text(data, i, ROW);
    TextSpelled(data, i);
  }

  lemma TextSpelled(data: seq<Byte>, i: nat)
    ensures IsCharColumn(Text(data, i, ROW), data, i)
  {
    var t := Text(data, i, ROW);
    forall j | 0 <= j < 16
      ensures if i + j >= |data| then t[j] == ' '
              else if 0x20 <= data[i + j] <= 0x7E then t[j] == data[i + j] as char
              else t[j] == '.'
    {
      assert t[j] == Shown(data, i + j);
    }
  }

  /** Every row is spelled like this. */
  lemma {:induction false} RowSpelled(data: seq<Byte>, i: nat)
    ensures IsRow(Row(data, i), data, i)
  {
    hide Hex4, Cells, Tail, IsHexColumn, IsCharColumn, Spells;
    var a, b, c, row := Prefix(i), Cells(data, i, ROW), Tail(data, i), Row(data, i);
    OffsetSpelled(i);
    CellsSpelled(data, i, ROW);
    TailSpelled(data, i);
    var n := |row|;
    assert row == a + (b + c) && n == |a| + 69;
    assert row[..4] == a[..4] == "  0x" && row[4..n - 70] == Hex4(i);
    assert row[n - 69..n - 21] == b;
    assert row[n - 21..n - 17] == c[..4] && row[n - 17..n - 1] == c[4..20];
  }

  lemma {:induction false} RowsSpelled(data: seq<Byte>, n: nat)
    ensures |Rows(data, n)| == n
    ensures forall k :: 0 <= k < n ==> IsRow(Rows(data, n)[k], data, 16 * k)
  {
    hide Row, IsRow;
    if n > 0 {
      RowsSpelled(data, n - 1);
      RowSpelled(data, ROW * (n - 1));
      assert Rows(data, n)[..n - 1] == Rows(data, n - 1);
    }
  }

  /**
   INT_MAX-15 is the largest Size for which neither the row index i nor any i+j leaves int.
   */
  lemma CounterThreshold(size: int)
    requires 0 < size <= INT_MAX
    ensures (forall i :: 0 <= i < size && i % ROW == 0 ==> IsInt(i + ROW)) <==> size <= INT_MAX - 15
  {
    var i := (size - 1) / ROW * ROW;
    assert i % ROW == 0;
    if size > INT_MAX - 15 {
      assert 0 <= i < size && !IsInt(i + ROW);
    }
  }

  /** sprintf(buffer+pos, ...) with its terminating NUL. */
  method Sprintf(buffer: array<char>, pos: nat, s: string) returns (printed: nat)
    requires pos + |s| < buffer.Length
    modifies buffer
    ensures printed == |s|
    ensures buffer[..pos + |s|] == old(buffer[..pos]) + s && buffer[pos + |s|] == '\0'
  {
    for k := 0 to |s|
      invariant buffer[..pos] == old(buffer[..pos])
      invariant buffer[pos..pos + k] == s[..k]
    {
      buffer[pos + k] := s[k];
    }
    buffer[pos + |s|] := '\0';
    assert buffer[..pos + |s|] == buffer[..pos] + buffer[pos..pos + |s|];
    printed := |s|;
  }

  /** The offset and hex columns, written through the moving position. */
  method FormatCells(buffer: array<char>, data: seq<Byte>, i: nat) returns (pos: nat)
    requires i < |data| <= INT_MAX - 15 && buffer.Length == BUFFER
    modifies buffer
    ensures pos <= 61 && buffer[..pos] == Prefix(i) + Cells(data, i, ROW)
  {
    hide Prefix, Cell, Cells;
    PrefixLength(i);
    CellLengths(data, i);
    pos := Sprintf(buffer, 0, Prefix(i));
    for j := 0 to ROW
      invariant pos == |Prefix(i)| + 3 * j
      invariant buffer[..pos] == Prefix(i) + Cells(data, i, j)
    {
      assert IsInt(i + j);
      OneMoreCell(data, i, j);
      CellLengths(data, i + j);
      Regroup(Prefix(i), Cells(data, i, j), Cell(data, i + j));
      var n := Sprintf(buffer, pos, Cell(data, i + j));
      pos := pos + n;
    }
  }

  /** The character column, byte by byte. */
  method FormatText(buffer: array<char>, start: nat, data: seq<Byte>, i: nat) returns (pos: nat)
    requires start <= 61 && buffer.Length == BUFFER
    modifies buffer
    ensures pos == start + 21 && buffer[..pos] == old(buffer[..start]) + Tail(data, i)
    ensures IsCharColumn(buffer[start + 4..start + 20], data, i) && buffer[start + 3] == '\'' == buffer[start + 20]
  {
    var n := Sprintf(buffer, start, " = '");
    pos := start + n;
    ghost var head := buffer[..pos];
    for j := 0 to ROW
      invariant pos == |head| + j
      invariant buffer[..pos] == head + Text(data, i, j)
    {
      buffer[pos] := Shown(data, i + j);
      assert buffer[..pos + 1] == buffer[..pos] + [Shown(data, i + j)];
      assert Text(data, i, j + 1) == Text(data, i, j) + [Shown(data, i + j)];
      pos := pos + 1;
    }
    n := Sprintf(buffer, pos, "'");
    pos := pos + n;
    TailSpelled(data, i);
    assert buffer[start + 4..start + 20] == buffer[..pos][start..][4..20];
    assert buffer[..pos][start..] == Tail(data, i);
    assert Tail(data, i)[..4][3] == '\'';
  }

  /** The body of the row loop: one row in the 256-byte buffer, as "%.*s" prints it. */
  method FormatRow(data: seq<Byte>, i: nat) returns (line: string)
    requires i < |data| <= INT_MAX - 15
    ensures line == Row(data, i)
  {
    hide Prefix, Cells, Tail;
    var buffer := new char[BUFFER](_ => '\0');
    var pos := FormatCells(buffer, data, i);
    pos := FormatText(buffer, pos, data, i);
    line := buffer[..pos];
  }

  /** The rows of qhexoutput, for a size at which its counters stay int. */
  method PrintRows(data: seq<Byte>) returns (rows: seq<string>)
    requires |data| <= INT_MAX - 15
    ensures rows == Rows(data, RowCount(|data|))
    ensures |rows| == RowCount(|data|) && DecodeRows(rows) == data
    ensures 16 * (|rows| - 1) < |data| <= 16 * |rows|
    ensures forall k :: 0 <= k < |rows| ==> IsRow(rows[k], data, 16 * k)
  {
    hide Row, DecodeRow, DecodeOffset, IsRow;
    rows := [];
    var i := 0;
    while i < |data|
      invariant i == ROW * |rows| && i < |data| + ROW
      invariant rows == Rows(data, |rows|)
    {
      assert IsInt(i + ROW);
      var line := FormatRow(data, i);
      rows := rows + [line];
      i := i + ROW;
    }
    DumpRoundTrip(data);
    RowsSpelled(data, RowCount(|data|));
  }
}
