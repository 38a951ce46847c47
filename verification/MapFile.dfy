/**
 The map file: a count line followed by one number per line, read with fgets and strtol as
 ADnEDFile does, and the text the example script prints. errno is taken to be clear on entry.
 */
module MapFile {
  import opened Base

  /** fgets is given 255 (ADNEDFILE_MAX_STRING - 1), so it returns at most 254 characters. */
  const LINE_LIMIT: nat := 254

  /** Characters fgets takes: up to and including a newline, or the limit, or the end of the file. */
  function LineLength(text: string, pos: nat, limit: nat): (n: nat)
    requires pos <= |text|
    ensures n <= limit && pos + n <= |text|
    ensures n == 0 <==> pos == |text| || limit == 0
    decreases limit
  {
    if pos == |text| || limit == 0 then 0
    else if text[pos] == '\n' then 1
    else 1 + LineLength(text, pos + 1, limit - 1)
  }

  // ---------- strtol, base 10 ----------

  datatype Number = NoDigits | OutOfRange | Value(value: int)

  predicate IsSpace(c: char) {
    c == ' ' || '\t' <= c <= '\r'
  }

  predicate IsDigit(c: char) {
    '0' <= c <= '9'
  }

  function SkipSpace(s: string, i: nat): (j: nat)
    requires i <= |s|
    ensures i <= j <= |s|
    decreases |s| - i
  {
    if i < |s| && IsSpace(s[i]) then SkipSpace(s, i + 1) else i
  }

  function Digits(s: string, i: nat, acc: nat): nat
    requires i <= |s|
    decreases |s| - i
  {
    if i < |s| && IsDigit(s[i]) then Digits(s, i + 1, 10 * acc + (s[i] as int - '0' as int)) else acc
  }

  function Strtol(s: string): Number {
    var i := SkipSpace(s, 0);
    var signed := i < |s| && (s[i] == '-' || s[i] == '+');
    var j := if signed then i + 1 else i;
    if j < |s| && IsDigit(s[j]) then
      var m: int := Digits(s, j, 0);
      var v := if signed && s[i] == '-' then -m else m;
      if -0x8000_0000_0000_0000 <= v < 0x8000_0000_0000_0000 then Value(v) else OutOfRange
    else NoDigits
  }

  /** `static_cast<epicsUInt32>` of a long. */
  function LongToU32(v: int): nat {
    v % 0x1_0000_0000
  }

  /** strpbrk(line, "# \n\t") finds nothing. */
  predicate NoWhitespace(s: string) {
    forall i :: 0 <= i < |s| ==> s[i] != '#' && s[i] != ' ' && s[i] != '\n' && s[i] != '\t'
  }

  // ---------- reading ----------

  /** The constructor: the count on the first line, or None where it throws. */
  function SizeLine(text: string): Option<nat> {
    match Strtol(text[..LineLength(text, 0, LINE_LIMIT)])
    case Value(v) => Some(LongToU32(v))
    case _ => None
  }

  /** The values the read loop stores from `pos` with room for `room` more, or None where it throws.
      The last character of each line is dropped whatever it is. */
  function Entries(text: string, pos: nat, room: nat): (r: Option<seq<nat>>)
    requires pos <= |text|
    ensures r.Some? ==> |r.value| <= room
    decreases |text| - pos
  {
    var n := LineLength(text, pos, LINE_LIMIT);
    if n == 0 || room == 0 then Some([])
    else
      var line := text[pos..pos + n - 1];
      if !NoWhitespace(line) || !Strtol(line).Value? then None
      else
        var rest := Entries(text, pos + n, room - 1);
        if rest.None? then None else Some([LongToU32(Strtol(line).value)] + rest.value)
  }

  /** The loaded array: what was stored, then the zeros of calloc. */
  function Load(text: string, size: nat): Option<seq<nat>> {
    var r := Entries(text, LineLength(text, 0, LINE_LIMIT), size);
    if r.None? then None else Some(r.value + seq(size - |r.value|, _ => 0))
  }

  /** The open file: position and the size read from the first line. */
  class ADnEDFile {
    const text: string
    var pos: nat
    var size: nat

    ghost predicate Valid()
      reads this
    {
      pos <= |text|
    }

    /** The file after a constructor that did not throw. */
    constructor (text: string)
      requires SizeLine(text).Some?
      ensures Valid() && this.text == text && size == SizeLine(text).value
      ensures pos == LineLength(text, 0, LINE_LIMIT)
    {
      this.text := text;
      pos := LineLength(text, 0, LINE_LIMIT);
      size := SizeLine(text).value;
    }

    /** readDataIntoIntArray: `ok` is false where the source throws. */
    method ReadDataIntoIntArray(a: array<nat>) returns (ok: bool)
      requires Valid() && size <= a.Length
      modifies this`pos, a
      ensures Valid()
      ensures ok <==> Entries(text, old(pos), size).Some?
      ensures ok ==> var r := Entries(text, old(pos), size).value;
                     a[..] == r + old(a[..])[|r|..]
    {
      hide Strtol, NoWhitespace, LineLength;
      var index := 0;
      ghost var pos0, was := pos, a[..];
      assert a[..0] == [];
      EmptyPrefix(Entries(text, pos, size));
      while true
        invariant Valid() && index <= size
        invariant var rest := Entries(text, pos, size - index);
                  Entries(text, pos0, size) == if rest.None? then None else Some(a[..index] + rest.value)
        invariant |was| == a.Length && forall k :: index <= k < a.Length ==> a[k] == was[k]
        decreases |text| - pos
      {
        var n := LineLength(text, pos, LINE_LIMIT);
        if n == 0 {
          break;
        }
        if index >= size {
          pos := pos + n;
          break;
        }
        var line := text[pos..pos + n - 1];
        if !NoWhitespace(line) {
          return false;
        }
        var number := Strtol(line);
        if !number.Value? {
          return false;
        }
        ghost var next := Entries(text, pos + n, size - index - 1);
        assert Entries(text, pos, size - index)
            == if next.None? then None else Some([LongToU32(number.value)] + next.value);
        a[index] := LongToU32(number.value);
        assert a[..index + 1] == a[..index] + [LongToU32(number.value)];
        if next.Some? { Assoc(a[..index], [LongToU32(number.value)], next.value); }
        pos := pos + n;
        index := index + 1;
      }
      ok := true;
      ghost var all := Entries(text, pos0, size);
      assert all.value == a[..index];
      assert a[..] == a[..index] + a[index..];
    }
  }

  // ---------- the printer ----------

  function Digit(d: nat): char
    requires d < 10
  {
    ('0' as int + d) as char
  }

  function Decimal(n: nat): (s: string)
    ensures s != [] && forall i :: 0 <= i < |s| ==> IsDigit(s[i])
  {
    if n < 10 then [Digit(n)] else Decimal(n / 10) + [Digit(n % 10)]
  }

  /** A number on a line of its own. */
  function Line(v: nat): string {
    Decimal(v) + "\n"
  }

  function Lines(vs: seq<nat>): string {
    if vs == [] then "" else Line(vs[0]) + Lines(vs[1..])
  }

  function Print(vs: seq<nat>): string {
    Line(|vs|) + Lines(vs)
  }

  /** A decimal inside a text is read back digit by digit. */
  lemma {:induction false} DigitsOfDecimal(n: nat, s: string, i: nat)
    requires i + |Decimal(n)| <= |s| && s[i..i + |Decimal(n)|] == Decimal(n)
    ensures Digits(s, i, 0) == Digits(s, i + |Decimal(n)|, n)
  {
    if n >= 10 {
      var k := |Decimal(n / 10)|;
      assert s[i..i + k] == Decimal(n)[..k] == Decimal(n / 10);
      DigitsOfDecimal(n / 10, s, i);
      assert s[i + k] == Decimal(n)[k] == Digit(n % 10);
    } else {
      assert s[i] == Decimal(n)[0] == Digit(n);
    }
  }

  /** strtol of a decimal, alone or before a newline. */
  lemma StrtolOfDecimal(n: nat, s: string)
    requires n < 0x8000_0000_0000_0000
    requires s == Decimal(n) || s == Decimal(n) + "\n"
    ensures Strtol(s) == Value(n)
  {
    var k := |Decimal(n)|;
    assert s[0..k] == Decimal(n);
    assert s[0] == Decimal(n)[0];
    DigitsOfDecimal(n, s, 0);
    assert SkipSpace(s, 0) == 0;
    assert Digits(s, k, n) == n;
  }

  lemma {:induction false} DecimalLength(n: nat, k: nat, bound: nat)
    requires n < bound && bound == Pow10(k) && 1 <= k
    ensures |Decimal(n)| <= k
  {
    if n >= 10 {
      assert k > 1;
      assert bound == 10 * Pow10(k - 1);
      DecimalLength(n / 10, k - 1, Pow10(k - 1));
    }
  }

  function Pow10(k: nat): nat {
    if k == 0 then 1 else 10 * Pow10(k - 1)
  }

  lemma ShortDecimal(n: nat)
    requires n < 0x1_0000_0000
    ensures |Decimal(n)| <= 10
  {
    assert Pow10(10) == 10_000_000_000 by {
      assert Pow10(2) == 100;
      assert Pow10(4) == 10_000;
      assert Pow10(6) == 1_000_000;
      assert Pow10(8) == 100_000_000;
    }
    DecimalLength(n, 10, 10_000_000_000);
  }

  /** fgets stops at the newline after a short run without one. */
  lemma {:induction false} LineLengthIs(text: string, pos: nat, k: nat, limit: nat)
    requires pos + k < |text| && k < limit
    requires text[pos + k] == '\n' && forall i :: pos <= i < pos + k ==> text[i] != '\n'
    ensures LineLength(text, pos, limit) == k + 1
    decreases k
  {
    if k > 0 { LineLengthIs(text, pos + 1, k - 1, limit - 1); }
  }

  /** The text holds s at `pos`. */
  predicate At(text: string, pos: nat, s: string) {
    pos + |s| <= |text| && text[pos..pos + |s|] == s
  }

  lemma AtMiddle(a: string, s: string, b: string)
    ensures At(a + s + b, |a|, s)
  {
  }

  /** One printed line at `pos` is read back as its number. */
  lemma PrintedLine(text: string, pos: nat, v: nat)
    requires v < 0x1_0000_0000 && At(text, pos, Line(v))
    ensures LineLength(text, pos, LINE_LIMIT) == |Line(v)| == |Decimal(v)| + 1
    ensures At(text, pos, Decimal(v)) && NoWhitespace(Decimal(v))
    ensures Strtol(Decimal(v)) == Value(v) && Strtol(Line(v)) == Value(v)
  {
    var k := |Decimal(v)|;
    ShortDecimal(v);
    hide Decimal;
    assert text[pos..pos + k] == text[pos..pos + k + 1][..k] == Decimal(v);
    forall i | pos <= i < pos + k
      ensures text[i] != '\n'
    {
      assert text[i] == text[pos..pos + k][i - pos];
    }
    assert text[pos + k] == text[pos..pos + k + 1][k] == '\n';
    LineLengthIs(text, pos, k, LINE_LIMIT);
    StrtolOfDecimal(v, Decimal(v));
    StrtolOfDecimal(v, Line(v));
  }

  predicate Storable(vs: seq<nat>) {
    forall i :: 0 <= i < |vs| ==> vs[i] < 0x1_0000_0000
  }

  /** From `pos` to `end` the text spells the values, one a line. */
  predicate Spells(text: string, pos: nat, vs: seq<nat>, end: nat)
    decreases |vs|
  {
    if vs == [] then pos == end <= |text|
    else At(text, pos, Line(vs[0])) && Spells(text, pos + |Line(vs[0])|, vs[1..], end)
  }

  lemma {:induction false} LinesSpell(a: string, vs: seq<nat>, b: string)
    ensures Spells(a + Lines(vs) + b, |a|, vs, |a| + |Lines(vs)|)
    decreases |vs|
  {
    if vs != [] {
      var line, rest := Line(vs[0]), Lines(vs[1..]);
      LinesSpell(a + line, vs[1..], b);
      AtMiddle(a, line, rest + b);
      Regroup(a, line, rest, b);
      hide Line, At;
    }
  }

  lemma Regroup(a: string, line: string, rest: string, b: string)
    ensures a + (line + rest) + b == (a + line) + rest + b == a + line + (rest + b)
  {
  }

  /** Values put in front of what a later read gives. */
  function Before(vs: seq<nat>, r: Option<seq<nat>>): Option<seq<nat>> {
    if r.None? then None else Some(vs + r.value)
  }

  lemma BeforeLaws(vs: seq<nat>, r: Option<seq<nat>>)
    ensures Before([], r) == r
    ensures vs != [] ==> Before([vs[0]], Before(vs[1..], r)) == Before(vs, r)
  {
    if r.Some? {
      assert [] + r.value == r.value;
      if vs != [] { assert [vs[0]] + (vs[1..] + r.value) == vs + r.value; }
    }
  }

  /** A line, up to its last character, that has no comment sign or white space in it and is a number is stored as
      that number modulo 2^32. */
  lemma ReadLine(text: string, pos: nat, line: string, v: int, room: nat)
    requires At(text, pos, line) && LineLength(text, pos, LINE_LIMIT) == |line| + 1
    requires NoWhitespace(line) && Strtol(line) == Value(v)
    ensures pos + |line| + 1 <= |text|
    ensures Entries(text, pos, 1 + room) == Before([v % 0x1_0000_0000], Entries(text, pos + |line| + 1, room))
  {
    hide Strtol, LineLength, NoWhitespace;
  }

  lemma SmallValue(v: nat)
    requires v < 0x1_0000_0000
    ensures v % 0x1_0000_0000 == v
  {
  }

  lemma ReadPrinted(text: string, pos: nat, v: nat, room: nat)
    requires v < 0x1_0000_0000 && At(text, pos, Line(v))
    ensures pos + |Line(v)| <= |text|
    ensures Entries(text, pos, 1 + room) == Before([v], Entries(text, pos + |Line(v)|, room))
  {
    hide *;
    PrintedLine(text, pos, v);
    SmallValue(v);
    ReadLine(text, pos, Decimal(v), v, room);
  }

  /** What is spelt is stored, and reading goes on after it. */
  lemma {:induction false} EntriesOfLines(text: string, pos: nat, vs: seq<nat>, end: nat, room: nat)
    requires Storable(vs) && Spells(text, pos, vs, end)
    ensures pos <= end <= |text|
    ensures Entries(text, pos, |vs| + room) == Before(vs, Entries(text, end, room))
    decreases |vs|
  {
    hide Entries, Line, At, Before;
    if vs == [] {
      BeforeLaws(vs, Entries(text, end, room));
    } else {
      ReadPrinted(text, pos, vs[0], |vs[1..]| + room);
      EntriesOfLines(text, pos + |Line(vs[0])|, vs[1..], end, room);
      BeforeLaws(vs, Entries(text, end, room));
    }
  }

  lemma Assoc<T>(a: seq<T>, b: seq<T>, c: seq<T>)
    ensures (a + b) + c == a + (b + c)
  {
  }

  lemma EmptyPrefix(r: Option<seq<nat>>)
    ensures r.Some? ==> [] + r.value == r.value
  {
  }

  /** A count line is followed by the entries. */
  lemma CountLine(n: nat, body: string)
    requires n < 0x1_0000_0000
    ensures SizeLine(Line(n) + body) == Some(n)
    ensures LineLength(Line(n) + body, 0, LINE_LIMIT) == |Line(n)|
  {
    var text := Line(n) + body;
    assert At(text, 0, Line(n));
    assert text[..|Line(n)|] == Line(n);
    hide Line, Strtol, LineLength;
    PrintedLine(text, 0, n);
    assert LongToU32(n) == n;
  }

  /** A file that spells its values after the count line loads as those values. */
  lemma LoadSpelt(text: string, pos: nat, vs: seq<nat>, end: nat)
    requires Storable(vs) && LineLength(text, 0, LINE_LIMIT) == pos && Spells(text, pos, vs, end)
    ensures Load(text, |vs|) == Some(vs)
  {
    hide *;
    EntriesOfLines(text, pos, vs, end, 0);
    NoRoom(text, end);
    BeforeNone(vs);
    FullLoad(text, pos, |vs|, Some(vs));
  }

  /** Printing and parsing back gives exactly the values; whatever follows them is ignored. */
  lemma RoundTrip(vs: seq<nat>, extra: string)
    requires 0 < |vs| < 0x1_0000_0000 && Storable(vs)
    ensures SizeLine(Print(vs) + extra) == Some(|vs|)
    ensures Load(Print(vs) + extra, |vs|) == Some(vs)
  {
    hide *;
    PrintedText(vs, extra);
    CountLine(|vs|, Lines(vs) + extra);
    LinesSpell(Line(|vs|), vs, extra);
    LoadSpelt(Print(vs) + extra, |Line(|vs|)|, vs, |Line(|vs|)| + |Lines(vs)|);
  }

  lemma PrintedText(vs: seq<nat>, extra: string)
    ensures Print(vs) + extra == Line(|vs|) + (Lines(vs) + extra) == Line(|vs|) + Lines(vs) + extra
  {
    Assoc(Line(|vs|), Lines(vs), extra);
    hide Line, Lines;
  }

  /** A read that fills the array leaves no zeros of calloc. */
  lemma FullLoad(text: string, pos: nat, size: nat, r: Option<seq<nat>>)
    requires pos <= |text| && LineLength(text, 0, LINE_LIMIT) == pos && Entries(text, pos, size) == r
    requires r.Some? ==> |r.value| == size
    ensures Load(text, size) == r
  {
    hide Entries, LineLength;
    if r.Some? { assert r.value + seq(0, _ => 0) == r.value; }
  }

  lemma BeforeNone(vs: seq<nat>)
    ensures Before(vs, Some([])) == Some(vs)
  {
    assert vs + [] == vs;
  }

  lemma NoRoom(text: string, pos: nat)
    requires pos <= |text|
    ensures Entries(text, pos, 0) == Some([])
  {
  }

  // ---------- a missing final newline ----------

  /** The printed text without its final newline. */
  function PrintUnterminated(vs: seq<nat>): string
    requires vs != []
  {
    Line(|vs|) + Lines(vs[..|vs| - 1]) + Decimal(vs[|vs| - 1])
  }

  /** fgets at the last, unterminated line. */
  lemma {:induction false} LastLineLength(text: string, pos: nat, limit: nat)
    requires pos <= |text| <= pos + limit && forall i :: pos <= i < |text| ==> text[i] != '\n'
    ensures LineLength(text, pos, limit) == |text| - pos
    decreases limit
  {
    if pos < |text| { LastLineLength(text, pos + 1, limit - 1); }
  }

  lemma UnterminatedLine(text: string, pos: nat, last: nat)
    requires last < 0x1_0000_0000 && pos <= |text| && text[pos..] == Decimal(last)
    ensures Entries(text, pos, 1) == if last < 10 then None else Some([last / 10])
  {
    var here, n := text[pos..], |Decimal(last)|;
    ShortDecimal(last);
    assert forall i :: pos <= i < |text| ==> text[i] == here[i - pos];
    LastLineLength(text, pos, LINE_LIMIT);
    var line := text[pos..pos + n - 1];
    assert line == here[..n - 1];
    assert line == if last < 10 then "" else Decimal(last / 10);
    assert NoWhitespace(line);
    NoRoom(text, pos + n);
    if last < 10 {
      assert Strtol("") == NoDigits;
      hide Decimal, Strtol, LineLength, NoWhitespace;
    } else {
      assert At(text, pos, line);
      hide *;
      StrtolOfDecimal(last / 10, line);
      SmallValue(last / 10);
      ReadLine(text, pos, line, last / 10, 0);
      BeforeNone([last / 10]);
    }
  }

  lemma LastReplaced(vs: seq<nat>)
    requires vs != []
    ensures var n := |vs| - 1;
            Before(vs[..n], None) == None && Before(vs[..n], Some([vs[n] / 10])) == Some(vs[n := vs[n] / 10])
  {
    var n := |vs| - 1;
    assert vs[..n] + [vs[n] / 10] == vs[n := vs[n] / 10];
  }

  /** A file that spells all values but the last, which ends the file without a newline. */
  lemma LoadUnterminated(text: string, pos: nat, vs: seq<nat>, end: nat)
    requires vs != [] && Storable(vs) && LineLength(text, 0, LINE_LIMIT) == pos
    requires var n := |vs| - 1; Spells(text, pos, vs[..n], end) && end <= |text| && text[end..] == Decimal(vs[n])
    ensures var n := |vs| - 1;
            Load(text, |vs|) == if vs[n] < 10 then None else Some(vs[n := vs[n] / 10])
  {
    var n := |vs| - 1;
    assert Storable(vs[..n]) && vs[n] < 0x1_0000_0000;
    hide *;
    EntriesOfLines(text, pos, vs[..n], end, 1);
    UnterminatedLine(text, end, vs[n]);
    LastReplaced(vs);
    FullLoad(text, pos, |vs|, if vs[n] < 10 then None else Some(vs[n := vs[n] / 10]));
  }

  lemma TailOf(a: string, b: string, c: string)
    ensures (a + b + c)[|a| + |b|..] == c
  {
  }

  /** Without the final newline the last value loses its last digit, or the load throws. */
  lemma MissingNewlineDropsADigit(vs: seq<nat>)
    requires 0 < |vs| < 0x1_0000_0000 && Storable(vs)
    ensures var text, last := PrintUnterminated(vs), vs[|vs| - 1];
            Load(text, |vs|) == if last < 10 then None else Some(vs[|vs| - 1 := last / 10])
  {
    var n := |vs| - 1;
    hide Line, Lines, SizeLine, Load, LineLength, Spells, Storable, Decimal;
    var head, lines, tail := Line(|vs|), Lines(vs[..n]), Decimal(vs[n]);
    Assoc(head, lines, tail);
    CountLine(|vs|, lines + tail);
    LinesSpell(head, vs[..n], tail);
    TailOf(head, lines, tail);
    LoadUnterminated(PrintUnterminated(vs), |head|, vs, |head| + |lines|);
  }

  // ---------- what strtol and the line reader make of other texts ----------

  /** Blanks, tabs, newlines, vertical tabs, form feeds and carriage returns. */
  predicate Blank(s: string) {
    forall i :: 0 <= i < |s| ==> s[i] == ' ' || 9 <= s[i] as int <= 13
  }

  lemma {:induction false} SkipsBlanks(s: string, i: nat, j: nat)
    requires i <= j <= |s| && Blank(s[i..j]) && (j < |s| ==> s[j] != ' ' && !(9 <= s[j] as int <= 13))
    ensures SkipSpace(s, i) == j
    decreases j - i
  {
    if i < j {
      assert s[i] == s[i..j][0];
      assert s[i + 1..j] == s[i..j][1..];
      SkipsBlanks(s, i + 1, j);
    }
  }

  /** A text does not begin with a digit. */
  predicate StopsDigits(rest: string) {
    rest != [] ==> !('0' <= rest[0] <= '9')
  }

  lemma DigitsUpTo(s: string, i: nat, n: nat, rest: string)
    requires i + |Decimal(n)| <= |s| && s[i..] == Decimal(n) + rest && StopsDigits(rest)
    ensures Digits(s, i, 0) == n
  {
    var k := |Decimal(n)|;
    assert s[i..i + k] == s[i..][..k] == Decimal(n);
    DigitsOfDecimal(n, s, i);
    assert i + k < |s| ==> s[i + k] == s[i..][k] == rest[0];
  }

  /** strtol: blanks and one sign may stand before the digits, and anything but a digit after them; a value that
      does not fit a long is an error. */
  lemma StrtolOfText(blank: string, sign: string, n: nat, rest: string)
    requires Blank(blank) && (sign == "" || sign == "+" || sign == "-") && StopsDigits(rest)
    ensures var v := (if sign == "-" then -1 else 1) * n;
            Strtol(blank + sign + Decimal(n) + rest)
            == if -0x8000_0000_0000_0000 <= v < 0x8000_0000_0000_0000 then Value(v) else OutOfRange
  {
    var s := blank + sign + Decimal(n) + rest;
    var b, j := |blank|, |blank| + |sign|;
    assert s[0..b] == blank && s[j..] == Decimal(n) + rest;
    assert s[j] == Decimal(n)[0];
    assert sign != "" ==> s[b] == sign[0];
    SkipsBlanks(s, 0, b);
    DigitsUpTo(s, j, n, rest);
    hide Decimal, SkipSpace, Digits;
  }

  /** Without a digit after the blanks and the sign there is no number. */
  lemma StrtolOfNoDigits(blank: string, sign: string, rest: string)
    requires Blank(blank) && (sign == "" || sign == "+" || sign == "-") && StopsDigits(rest)
    requires sign == "" && rest != [] ==>
               rest[0] != ' ' && !(9 <= rest[0] as int <= 13) && rest[0] != '+' && rest[0] != '-'
    ensures Strtol(blank + sign + rest) == NoDigits
  {
    var s := blank + sign + rest;
    var b := |blank|;
    assert s[0..b] == blank && s[b..] == sign + rest;
    assert b < |s| ==> s[b] == (sign + rest)[0];
    assert b + |sign| < |s| ==> s[b + |sign|] == rest[0];
    SkipsBlanks(s, 0, b);
    hide SkipSpace;
  }

  /** fgets gives up after 254 characters without a newline. */
  lemma LongLineIsCut(text: string, pos: nat)
    requires pos + 254 <= |text| && forall i :: pos <= i < pos + 253 ==> text[i] != '\n'
    ensures LineLength(text, pos, LINE_LIMIT) == 254
  {
    CutAt(text, pos, LINE_LIMIT);
  }

  lemma {:induction false} CutAt(text: string, pos: nat, limit: nat)
    requires 1 <= limit && pos + limit <= |text| && forall i :: pos <= i < pos + limit - 1 ==> text[i] != '\n'
    ensures LineLength(text, pos, limit) == limit
    decreases limit
  {
    if limit > 1 { CutAt(text, pos + 1, limit - 1); }
  }

  /** A count may have blanks and a sign before it and anything but a newline or a digit after it; it is taken
      modulo 2^32. */
  lemma CountOfText(blank: string, sign: string, n: nat, junk: string, body: string)
    requires Blank(blank) && (sign == "" || sign == "+" || sign == "-") && StopsDigits(junk)
             && n < 0x8000_0000_0000_0000
    requires var line := blank + sign + Decimal(n) + junk;
             |line| < 254 && forall i :: 0 <= i < |line| ==> line[i] != '\n'
    ensures SizeLine(blank + sign + Decimal(n) + junk + "\n" + body)
         == Some(((if sign == "-" then -1 else 1) * n) % 0x1_0000_0000)
  {
    var line := blank + sign + Decimal(n) + junk;
    var text := line + "\n" + body;
    assert forall i :: 0 <= i < |line| ==> text[i] == line[i];
    assert text[|line|] == '\n';
    LineLengthIs(text, 0, |line|, LINE_LIMIT);
    assert text[..|line| + 1] == blank + sign + Decimal(n) + (junk + "\n");
    StrtolOfText(blank, sign, n, junk + "\n");
    hide Strtol, Decimal, LineLength;
  }

  /** A file with fewer values than its count is filled up with zeros. */
  lemma ShortFileIsPadded(vs: seq<nat>, n: nat)
    requires |vs| < n < 0x1_0000_0000 && Storable(vs)
    ensures var text := Line(n) + Lines(vs);
            SizeLine(text) == Some(n) && Load(text, n) == Some(vs + seq(n - |vs|, _ => 0))
  {
    hide *;
    var text, pos, end := Line(n) + Lines(vs), |Line(n)|, |Line(n)| + |Lines(vs)|;
    CountLine(n, Lines(vs));
    LinesSpell(Line(n), vs, "");
    assert Line(n) + Lines(vs) + "" == text;
    EntriesOfLines(text, pos, vs, end, n - |vs|);
    AtTheEnd(text, n - |vs|);
    BeforeNone(vs);
    LoadOf(text, pos, n, Some(vs));
  }

  lemma LoadOf(text: string, pos: nat, size: nat, r: Option<seq<nat>>)
    requires pos <= |text| && LineLength(text, 0, LINE_LIMIT) == pos && Entries(text, pos, size) == r
    ensures r.Some? ==> |r.value| <= size
    ensures Load(text, size) == if r.None? then None else Some(r.value + seq(size - |r.value|, _ => 0))
  {
    hide Entries, LineLength;
  }

  lemma AtTheEnd(text: string, room: nat)
    ensures Entries(text, |text|, room) == Some([])
  {
  }

  /** A line with a comment sign, a blank or a tab in it makes the load throw, if it is reached. */
  lemma BadLineThrows(vs: seq<nat>, bad: string, rest: string, n: nat)
    requires |vs| < n < 0x1_0000_0000 && Storable(vs) && |bad| < 254
    requires (forall i :: 0 <= i < |bad| ==> bad[i] != '\n')
             && exists i :: 0 <= i < |bad| && (bad[i] == '#' || bad[i] == ' ' || bad[i] == '\t')
    ensures Load(Line(n) + Lines(vs) + (bad + "\n" + rest), n) == None
  {
    hide *;
    var tail := bad + "\n" + rest;
    var text, pos, end := Line(n) + Lines(vs) + tail, |Line(n)|, |Line(n)| + |Lines(vs)|;
    TailOf(Line(n), Lines(vs), tail);
    Assoc(Line(n), Lines(vs), tail);
    CountLine(n, Lines(vs) + tail);
    LinesSpell(Line(n), vs, tail);
    BadLineFails(text, end, bad, rest, n - |vs|);
    EntriesOfLines(text, pos, vs, end, n - |vs|);
    BeforeNothing(vs);
    LoadOf(text, pos, n, None);
  }

  lemma BeforeNothing(vs: seq<nat>)
    ensures Before(vs, None) == None
  {
  }

  lemma BadLineFails(text: string, pos: nat, bad: string, rest: string, room: nat)
    requires pos <= |text| && text[pos..] == bad + "\n" + rest && |bad| < 254 && 1 <= room
    requires (forall i :: 0 <= i < |bad| ==> bad[i] != '\n')
             && exists i :: 0 <= i < |bad| && (bad[i] == '#' || bad[i] == ' ' || bad[i] == '\t')
    ensures Entries(text, pos, room) == None
  {
    var k := |bad|;
    var tail := text[pos..];
    assert |text| == pos + |tail|;
    assert forall i :: pos <= i < pos + k ==> text[i] == tail[i - pos] == bad[i - pos];
    assert text[pos + k] == tail[k] == '\n';
    LineLengthIs(text, pos, k, LINE_LIMIT);
    assert text[pos..pos + k] == bad;
    hide Strtol, LineLength;
  }
}
