/** The text form of COPY data: the table writer's escaping and the table reader's parsing. */
module CopyText {
  import opened Basics
  import opened StringConversion

  type Byte = c: char | c as int < 256 witness 'a'
  type Text = seq<Byte>

  datatype Defect =
    | EndsInBackslash
    | EndsInOctal
    | BadOctal
    | NullInNonemptyField
    | DataBehindNull
    | EndsInEscapedTab

  /** A field and the index behind its terminator, or why the line is refused. */
  datatype Extracted = Field(value: Text, next: nat) | Refused(why: Defect)

  datatype Tokens = Row(fields: seq<Text>) | BadRow(why: Defect)

  // ---------- Writer ----------

  /** The letter that names a byte in an escape sequence, or NUL if it has none. */
  function EscapeChar(c: Byte): Byte {
    match c as int
    case 8 => 'b'
    case 11 => 'v'
    case 12 => 'f'
    case 10 => 'n'
    case 9 => 't'
    case 13 => 'r'
    case 92 => '\\'
    case _ => '\0'
  }

  predicate Unprintable(c: Byte) {
    c < ' ' || c > '~'
  }

  function ToOctDigit(c: Byte, n: nat): Byte {
    PowPositive(8, n);
    NumberToDigit((c as int / Pow(8, n)) % 8)
  }

  function OctalText(c: Byte): Text {
    [ToOctDigit(c, 2), ToOctDigit(c, 1), ToOctDigit(c, 0)]
  }

  /** The writer has no lossless form for this byte. */
  predicate Octal(c: Byte) {
    EscapeChar(c) == '\0' && Unprintable(c)
  }

  function EscapedByte(c: Byte): Text {
    if EscapeChar(c) != '\0' then ['\\', EscapeChar(c)]
    else if Unprintable(c) then ['\\', '\\'] + OctalText(c)
    else [c]
  }

  function EscapedBytes(s: Text): Text {
    if s == [] then [] else EscapedByte(s[0]) + EscapedBytes(s[1..])
  }

  function Escaped(s: Text, nullStr: Text): Text {
    if s == nullStr then ['\\', 'N'] else EscapedBytes(s)
  }

  lemma {:induction false} EscapedBytesAppend(s: Text, c: Byte)
    ensures EscapedBytes(s + [c]) == EscapedBytes(s) + EscapedByte(c)
  {
    if s == [] {
      assert (s + [c])[1..] == [];
    } else {
      EscapedBytesAppend(s[1..], c);
      assert (s + [c])[1..] == s[1..] + [c];
      ConcatAssociates(EscapedByte(s[0]), EscapedBytes(s[1..]), EscapedByte(c));
    }
  }

  method Escape(s: Text, nullStr: Text) returns (r: Text)
    ensures r == Escaped(s, nullStr)
  {
    if s == nullStr {
      return ['\\', 'N'];
    }
    if s == [] {
      return s;
    }
    r := [];
    var j := 0;
    while j != |s|
      invariant 0 <= j <= |s|
      invariant r == EscapedBytes(s[..j])
    {
      var c := s[j];
      var e := EscapeChar(c);
      ghost var before := r;
      if e != '\0' {
        r := r + ['\\'];
        r := r + [e];
      } else if Unprintable(c) {
        r := r + ['\\', '\\'];
        var n := 2;
        while n >= 0
          invariant -1 <= n <= 2
          invariant r == before + ['\\', '\\'] + OctalText(c)[..2 - n]
        {
          r := r + [ToOctDigit(c, n)];
          n := n - 1;
        }
      } else {
        r := r + [c];
      }
      assert r == before + EscapedByte(c);
      EscapedBytesAppend(s[..j], c);
      assert s[..j] + [c] == s[..j + 1];
      j := j + 1;
    }
    assert s[..j] == s;
  }

  // ---------- Reader ----------

  predicate IsOctalChar(o: Byte) {
    '0' <= o <= '7'
  }

  /** The position of the first tab at or after start, or the line's size. */
  function FindTab(line: Text, start: nat): nat
    decreases |line| - start
  {
    if start >= |line| then |line|
    else if line[start] == '\t' then start
    else FindTab(line, start + 1)
  }

  /** Conversion to char keeps eight bits. */
  function OctalByte(n: Byte, n1: Byte, n2: Byte): Byte
    requires IsOctalChar(n) && IsOctalChar(n1) && IsOctalChar(n2)
  {
    ((64 * DigitToNumber(n) + 8 * DigitToNumber(n1) + DigitToNumber(n2)) % 256) as char
  }

  /** The byte that a named escape stands for. */
  function Unescape(n: Byte): Byte {
    match n
    case 'b' => 8 as char
    case 'v' => 11 as char
    case 'f' => 12 as char
    case 'n' => '\n'
    case 't' => '\t'
    case 'r' => '\r'
    case _ => n
  }

  function Finish(nullStr: Text, acc: Text, isNull: bool, next: nat): Extracted {
    if isNull && |acc| != |nullStr| then Refused(DataBehindNull) else Field(acc, next)
  }

  /** Read a field from position i on, token by token, up to the first tab that is not part of
      an escape sequence.  An unescaped newline ends the field, but the index then skips to two
      places behind the next tab. */
  function Scan(nullStr: Text, line: Text, i: nat, acc: Text, isNull: bool): Extracted
    decreases |line| - i
  {
    if i >= |line| || line[i] == '\t' then Finish(nullStr, acc, isNull, i + 1)
    else if line[i] == '\n' then Finish(nullStr, acc, isNull, FindTab(line, i) + 2)
    else if line[i] != '\\' then Scan(nullStr, line, i + 1, acc + [line[i]], isNull)
    else if i + 1 >= |line| then Refused(EndsInBackslash)
    else if line[i + 1] == 'N' then
      if acc != [] then Refused(NullInNonemptyField) else Scan(nullStr, line, i + 2, nullStr, true)
    else if IsOctalChar(line[i + 1]) then
      if i + 3 >= |line| then Refused(EndsInOctal)
      else if !IsOctalChar(line[i + 2]) || !IsOctalChar(line[i + 3]) then Refused(BadOctal)
      else Scan(nullStr, line, i + 4, acc + [OctalByte(line[i + 1], line[i + 2], line[i + 3])], isNull)
    else if line[i + 1] == '\t' && i + 2 >= |line| then Refused(EndsInEscapedTab)
    else Scan(nullStr, line, i + 2, acc + [Unescape(line[i + 1])], isNull)
  }

  method ExtractField(nullStr: Text, line: Text, start: nat) returns (x: Extracted)
    ensures x == Scan(nullStr, line, start, [], false)
  {
    var r: Text := [];
    var isNull := false;
    var i := start;
    var stop := FindTab(line, i);
    FindTabBounds(line, i);
    ghost var newline := false;
    while i < stop
      invariant !newline ==> stop == FindTab(line, i) <= |line|
      invariant !newline ==> Scan(nullStr, line, start, [], false) == Scan(nullStr, line, i, r, isNull)
      invariant newline ==> i == stop + 1 && stop <= |line|
      invariant newline ==> Scan(nullStr, line, start, [], false) == Finish(nullStr, r, isNull, i + 1)
      decreases |line| + 2 - i
    {
      TabAhead(line, i);
      var c := line[i];
      if c == '\n' {
        i := stop;
        newline := true;
      } else if c == '\\' {
        i := i + 1;
        if i >= |line| {
          return Refused(EndsInBackslash);
        }
        var n := line[i];
        if n != '\t' {
          TabAhead(line, i);
        }
        if n == 'N' {
          if r != [] {
            return Refused(NullInNonemptyField);
          }
          r := nullStr;
          isNull := true;
        } else if IsOctalChar(n) {
          if i + 2 >= |line| {
            return Refused(EndsInOctal);
          }
          i := i + 1;
          var n1 := line[i];
          i := i + 1;
          var n2 := line[i];
          if !IsOctalChar(n1) || !IsOctalChar(n2) {
            return Refused(BadOctal);
          }
          TabAhead(line, i - 1);
          TabAhead(line, i);
          r := r + [OctalByte(n, n1, n2)];
        } else if n == 'b' {
          r := r + [8 as char];
        } else if n == 'v' {
          r := r + [11 as char];
        } else if n == 'f' {
          r := r + [12 as char];
        } else if n == 'n' {
          r := r + ['\n'];
        } else if n == 't' {
          r := r + ['\t'];
        } else if n == 'r' {
          r := r + ['\r'];
        } else {
          r := r + [n];
          if i == stop {
            if i + 1 >= |line| {
              return Refused(EndsInEscapedTab);
            }
            stop := FindTab(line, i + 1);
            FindTabBounds(line, i + 1);
          }
        }
      } else {
        r := r + [c];
      }
      i := i + 1;
    }
    FindTabBounds(line, i);
    i := i + 1;
    if isNull && |r| != |nullStr| {
      return Refused(DataBehindNull);
    }
    return Field(r, i);
  }

  /** Any other character may be passed over in looking for the next tab. */
  lemma TabAhead(line: Text, i: nat)
    requires i < |line| && line[i] != '\t'
    ensures i < FindTab(line, i) <= |line|
    ensures FindTab(line, i) == FindTab(line, i + 1)
  {
    FindTabBounds(line, i + 1);
  }

  lemma {:induction false} FindTabBounds(line: Text, i: nat)
    ensures i <= |line| ==> i <= FindTab(line, i)
    ensures FindTab(line, i) <= |line|
    ensures FindTab(line, i) < |line| ==> line[FindTab(line, i)] == '\t'
    decreases |line| - i
  {
    if i < |line| && line[i] != '\t' {
      FindTabBounds(line, i + 1);
    }
  }

  // ---------- Reading back what was written ----------

  /** What the reader makes of a written byte: a byte without a name and not printable comes back
      as the text of its octal escape, because the writer doubles the backslash. */
  function ShownByte(c: Byte): Text {
    if Octal(c) then ['\\'] + OctalText(c) else [c]
  }

  function ShownBytes(s: Text): Text {
    if s == [] then [] else ShownByte(s[0]) + ShownBytes(s[1..])
  }

  function Shown(s: Text, nullStr: Text): Text {
    if s == nullStr then nullStr else ShownBytes(s)
  }

  predicate AtFieldEnd(line: Text, i: nat) {
    i <= |line| && (i < |line| ==> line[i] == '\t')
  }

  lemma ScanOneByte(nullStr: Text, line: Text, i: nat, c: Byte, acc: Text)
    requires i + |EscapedByte(c)| <= |line| && line[i..i + |EscapedByte(c)|] == EscapedByte(c)
    ensures Scan(nullStr, line, i, acc, false)
            == Scan(nullStr, line, i + |EscapedByte(c)|, acc + ShownByte(c), false)
  {
    var e := EscapedByte(c);
    forall k | 0 <= k < |e| ensures line[i + k] == e[k] {
      assert line[i..i + |e|][k] == e[k];
    }
    assert line[i + 0] == e[0];
    if EscapeChar(c) != '\0' {
      assert line[i + 1] == EscapeChar(c);
      assert Unescape(EscapeChar(c)) == c;
    } else if Unprintable(c) {
      var o := OctalText(c);
      assert line[i + 1] == '\\' && line[i + 2] == o[0] && line[i + 3] == o[1] && line[i + 4] == o[2];
      var acc1 := acc + ['\\'];
      assert Scan(nullStr, line, i, acc, false) == Scan(nullStr, line, i + 2, acc1, false);
      assert Scan(nullStr, line, i + 2, acc1, false) == Scan(nullStr, line, i + 3, acc1 + [o[0]], false);
      assert Scan(nullStr, line, i + 3, acc1 + [o[0]], false)
          == Scan(nullStr, line, i + 4, acc1 + [o[0]] + [o[1]], false);
      assert acc1 + [o[0]] + [o[1]] + [o[2]] == acc + ShownByte(c);
    }
  }

  lemma SplitSlice(line: Text, i: nat, a: Text, b: Text)
    requires i + |a| + |b| <= |line| && line[i..i + |a| + |b|] == a + b
    ensures line[i..i + |a|] == a && line[i + |a|..i + |a| + |b|] == b
  {
    var whole := line[i..i + |a| + |b|];
    assert line[i..i + |a|] == whole[..|a|] == a;
    assert line[i + |a|..i + |a| + |b|] == whole[|a|..] == b;
  }

  lemma {:induction false} ScanEscapedBytes(nullStr: Text, line: Text, i: nat, s: Text, acc: Text)
    requires i + |EscapedBytes(s)| <= |line| && line[i..i + |EscapedBytes(s)|] == EscapedBytes(s)
    requires AtFieldEnd(line, i + |EscapedBytes(s)|)
    ensures Scan(nullStr, line, i, acc, false) == Field(acc + ShownBytes(s), i + |EscapedBytes(s)| + 1)
    decreases |s|
  {
    if s == [] {
      assert acc + ShownBytes(s) == acc;
    } else {
      var c, e, rest := s[0], EscapedByte(s[0]), EscapedBytes(s[1..]);
      var next := i + |e|;
      SplitSlice(line, i, e, rest);
      ScanOneByte(nullStr, line, i, c, acc);
      ScanEscapedBytes(nullStr, line, next, s[1..], acc + ShownByte(c));
      ConcatAssociates(acc, ShownByte(c), ShownBytes(s[1..]));
    }
  }

  /** The reader accepts everything the writer produces, in any place of a line, stops right
      behind its terminator, and yields the text with every byte that the writer cannot name
      replaced by its octal escape; the null string comes back as itself. */
  lemma ExtractAfterEscape(nullStr: Text, line: Text, i: nat, s: Text)
    requires var e := Escaped(s, nullStr); i + |e| <= |line| && line[i..i + |e|] == e && AtFieldEnd(line, i + |e|)
    ensures Scan(nullStr, line, i, [], false) == Field(Shown(s, nullStr), i + |Escaped(s, nullStr)| + 1)
  {
    if s == nullStr {
      assert line[i..i + 2][0] == '\\' && line[i..i + 2][1] == 'N';
      assert Scan(nullStr, line, i, [], false) == Scan(nullStr, line, i + 2, nullStr, true);
    } else {
      ScanEscapedBytes(nullStr, line, i, s, []);
      assert [] + ShownBytes(s) == ShownBytes(s);
    }
  }

  lemma {:induction false} ShownIsIdentityWhen(s: Text)
    ensures |ShownBytes(s)| >= |s|
    ensures ShownBytes(s) == s <==> forall k :: 0 <= k < |s| ==> !Octal(s[k])
  {
    if s != [] {
      ShownIsIdentityWhen(s[1..]);
      assert s == [s[0]] + s[1..];
      if Octal(s[0]) {
        assert |ShownBytes(s)| > |s|;
      } else {
        assert ShownBytes(s)[1..] == ShownBytes(s[1..]);
        assert forall k :: 0 <= k < |s[1..]| ==> s[1..][k] == s[k + 1];
        if forall k :: 0 <= k < |s[1..]| ==> !Octal(s[1..][k]) {
          forall k | 0 <= k < |s| ensures !Octal(s[k]) {
            if k > 0 { assert s[k] == s[1..][k - 1]; }
          }
        }
      }
    }
  }

  /** Writing a field and reading it back is lossless exactly for the null string and for texts
      without a byte that is neither printable nor named. */
  lemma RoundTripExactlyWhen(s: Text, nullStr: Text)
    ensures Scan(nullStr, Escaped(s, nullStr), 0, [], false) == Field(s, |Escaped(s, nullStr)| + 1)
            <==> s == nullStr || forall k :: 0 <= k < |s| ==> !Octal(s[k])
  {
    var e := Escaped(s, nullStr);
    assert e[0..0 + |e|] == e;
    ExtractAfterEscape(nullStr, e, 0, s);
    ShownIsIdentityWhen(s);
  }

  /** A byte and the text that it is shown as have the same written form. */
  lemma OctalTextEscapesAlike(c: Byte)
    ensures EscapedBytes(ShownByte(c)) == EscapedByte(c)
  {
    var w := ShownByte(c);
    if Octal(c) {
      assert w[1..] == OctalText(c) && w[1..][1..] == [w[2], w[3]] && w[1..][1..][1..] == [w[3]];
      assert w[1..][1..][1..][1..] == [];
      assert EscapedBytes([w[3]]) == [w[3]] + EscapedBytes([]);
      assert EscapedBytes(w[1..][1..]) == [w[2]] + [w[3]];
      assert EscapedBytes(w[1..]) == [w[1]] + [w[2], w[3]];
    } else {
      assert w[1..] == [];
    }
  }

  lemma {:induction false} EscapedBytesConcat(a: Text, b: Text)
    ensures EscapedBytes(a + b) == EscapedBytes(a) + EscapedBytes(b)
  {
    if a == [] {
      assert a + b == b;
    } else {
      EscapedBytesConcat(a[1..], b);
      assert (a + b)[1..] == a[1..] + b;
      ConcatAssociates(EscapedByte(a[0]), EscapedBytes(a[1..]), EscapedBytes(b));
    }
  }

  lemma {:induction false} ShownEscapesAlike(s: Text)
    ensures EscapedBytes(ShownBytes(s)) == EscapedBytes(s)
  {
    if s != [] {
      ShownEscapesAlike(s[1..]);
      OctalTextEscapesAlike(s[0]);
      EscapedBytesConcat(ShownByte(s[0]), ShownBytes(s[1..]));
    }
  }

  /** The null string's written form is that of no other text. */
  lemma NullIsUnmistakable(s: Text, nullStr: Text)
    ensures Escaped(s, nullStr) == ['\\', 'N'] <==> s == nullStr
  {
    if s != nullStr && s != [] {
      var e := EscapedByte(s[0]);
      assert EscapedBytes(s)[0] == e[0];
      if |e| > 1 {
        assert EscapedBytes(s)[1] == e[1];
      }
    }
  }

  /** The writer confuses two texts exactly when neither or both are the null string and the reader
      would show them alike; so what the octal form loses is all that it loses. */
  lemma EscapeConfusesExactly(a: Text, b: Text, nullStr: Text)
    ensures Escaped(a, nullStr) == Escaped(b, nullStr) <==>
            (a == nullStr <==> b == nullStr) && Shown(a, nullStr) == Shown(b, nullStr)
  {
    var e := Escaped(a, nullStr);
    assert e[0..0 + |e|] == e;
    NullIsUnmistakable(a, nullStr);
    NullIsUnmistakable(b, nullStr);
    if e == Escaped(b, nullStr) {
      ExtractAfterEscape(nullStr, e, 0, a);
      ExtractAfterEscape(nullStr, e, 0, b);
    }
    ShownEscapesAlike(a);
    ShownEscapesAlike(b);
  }

  /** Such a confusion: the byte 1 and the four characters of its octal escape. */
  lemma EscapeIsNotInjective()
    ensures Escaped([1 as char], []) == Escaped(['\\', '0', '0', '1'], [])
  {
    assert Pow(8, 2) == 8 * Pow(8, 1) && Pow(8, 1) == 8 * Pow(8, 0);
    var w := ShownByte(1 as char);
    assert w == ['\\', '0', '0', '1'];
    OctalTextEscapesAlike(1 as char);
    assert [1 as char][1..] == [];
    assert EscapedBytes([1 as char]) == EscapedByte(1 as char) + [];
  }

  /** The bytes that the writer has no lossless form for: the control characters but for the six that
      have names, and everything from DEL on. */
  lemma OctalExactlyWhen(c: Byte)
    ensures Octal(c) <==> c as int < 8 || 14 <= c as int < 32 || c as int >= 127
  {
  }

  // ---------- Reading what others wrote ----------

  /** Spellings of a byte: as it is, by an escaped letter, or by a number of three octal digits. */
  datatype Token = Literal(c: Byte) | Named(letter: Byte) | Numeric(n: nat)

  predicate Proper(t: Token) {
    match t
    case Literal(c) => c != '\t' && c != '\n' && c != '\\'
    case Named(letter) => letter != 'N' && letter != '\t' && !('0' <= letter <= '7')
    case Numeric(n) => n < 512
  }

  predicate AllProper(ts: seq<Token>) {
    ts == [] || (Proper(ts[0]) && AllProper(ts[1..]))
  }

  /** Three octal digits. */
  function InOctal(n: nat): Text {
    [NumberToDigit(n / 64 % 8), NumberToDigit(n / 8 % 8), NumberToDigit(n % 8)]
  }

  function Spelled(t: Token): Text {
    match t
    case Literal(c) => [c]
    case Named(letter) => ['\\', letter]
    case Numeric(n) => ['\\'] + InOctal(n)
  }

  /** The letters that stand for something else, and what they stand for. */
  const LETTERS: Text := "btnvfr"
  const NAMED: seq<int> := [8, 9, 10, 11, 12, 13]

  /** Of a number, the lowest eight bits count. */
  function Meant(t: Token): Byte {
    match t
    case Literal(c) => c
    case Named(letter) => if letter in LETTERS then NAMED[IndexOf(LETTERS, letter)] as char else letter
    case Numeric(n) => (n % 256) as char
  }

  function Spelling(ts: seq<Token>): Text {
    if ts == [] then [] else Spelled(ts[0]) + Spelling(ts[1..])
  }

  function Meaning(ts: seq<Token>): Text {
    if ts == [] then [] else [Meant(ts[0])] + Meaning(ts[1..])
  }

  lemma OctalIsRead(n: nat)
    requires n < 512
    ensures var o := InOctal(n);
            && IsOctalChar(o[0]) && IsOctalChar(o[1]) && IsOctalChar(o[2])
            && OctalByte(o[0], o[1], o[2]) as int == n % 256
  {
    assert n == 64 * (n / 64 % 8) + 8 * (n / 8 % 8) + n % 8;
  }

  lemma OctalTextIs(c: Byte)
    ensures OctalText(c) == InOctal(c as int)
  {
    assert Pow(8, 2) == 8 * Pow(8, 1) && Pow(8, 1) == 8 * Pow(8, 0);
  }

  lemma LetterIsMeant(letter: Byte)
    ensures Unescape(letter) == Meant(Named(letter))
    ensures letter in LETTERS ==> EscapeChar(Meant(Named(letter))) == letter
  {
    if letter in LETTERS {
      assert LETTERS[IndexOf(LETTERS, letter)] == letter;
    }
  }

  lemma ScanToken(nullStr: Text, line: Text, i: nat, t: Token, acc: Text)
    requires Proper(t) && i + |Spelled(t)| <= |line| && line[i..i + |Spelled(t)|] == Spelled(t)
    ensures Scan(nullStr, line, i, acc, false) == Scan(nullStr, line, i + |Spelled(t)|, acc + [Meant(t)], false)
  {
    forall k | 0 <= k < |Spelled(t)| ensures line[i + k] == Spelled(t)[k] {
      assert line[i..i + |Spelled(t)|][k] == Spelled(t)[k];
    }
    assert line[i + 0] == Spelled(t)[0];
    if t.Named? {
      LetterIsMeant(t.letter);
      assert line[i + 1] == t.letter;
    } else if t.Numeric? {
      OctalIsRead(t.n);
      var o, w := InOctal(t.n), Spelled(t);
      assert w[1] == o[0] && w[2] == o[1] && w[3] == o[2];
    }
  }

  lemma SpellingIs(ts: seq<Token>)
    requires ts != []
    ensures Spelling(ts) == Spelled(ts[0]) + Spelling(ts[1..]) && Meaning(ts) == [Meant(ts[0])] + Meaning(ts[1..])
  {
  }

  lemma {:induction false} SpellingIsScanned(nullStr: Text, line: Text, i: nat, ts: seq<Token>, acc: Text, end: nat)
    requires AllProper(ts) && end == i + |Spelling(ts)| <= |line| && line[i..end] == Spelling(ts)
    ensures Scan(nullStr, line, i, acc, false) == Scan(nullStr, line, end, acc + Meaning(ts), false)
    decreases |ts|
  {
    if ts == [] {
      assert acc + Meaning(ts) == acc;
    } else {
      var here, acc' := i + |Spelled(ts[0])|, acc + [Meant(ts[0])];
      SpellingIs(ts);
      SplitSlice(line, i, Spelled(ts[0]), Spelling(ts[1..]));
      ScanToken(nullStr, line, i, ts[0], acc);
      SpellingIsScanned(nullStr, line, here, ts[1..], acc', end);
      assert acc' + Meaning(ts[1..]) == acc + Meaning(ts) by {
        ConcatAssociates(acc, [Meant(ts[0])], Meaning(ts[1..]));
      }
    }
  }

  /** However a field's bytes are spelled - as they are, by an escaped letter, or by number - they are
      read as what is meant. */
  lemma SpellingIsRead(nullStr: Text, line: Text, i: nat, ts: seq<Token>)
    requires AllProper(ts)
    requires var n := |Spelling(ts)|; AtFieldEnd(line, i + n) && line[i..i + n] == Spelling(ts)
    ensures Scan(nullStr, line, i, [], false) == Field(Meaning(ts), i + |Spelling(ts)| + 1)
  {
    SpellingIsScanned(nullStr, line, i, ts, [], i + |Spelling(ts)|);
    assert [] + Meaning(ts) == Meaning(ts);
  }

  /** What is wrong with a line is said. */
  lemma DefectsAreNamed(nullStr: Text)
    requires nullStr != "a"
    ensures Scan(nullStr, "a\\", 0, [], false) == Refused(EndsInBackslash)
    ensures Scan(nullStr, "\\01", 0, [], false) == Refused(EndsInOctal)
    ensures Scan(nullStr, "\\018", 0, [], false) == Refused(BadOctal)
    ensures Scan(nullStr, "a\\N", 0, [], false) == Refused(NullInNonemptyField)
    ensures Scan(nullStr, "\\Na", 0, [], false) == Refused(DataBehindNull)
    ensures Scan(nullStr, "\\\t", 0, [], false) == Refused(EndsInEscapedTab)
    ensures Scan(nullStr, "\\N\ta", 0, [], false) == Field(nullStr, 3)
  {
    assert Scan(nullStr, "a\\", 0, [], false) == Scan(nullStr, "a\\", 1, ['a'], false);
    assert Scan(nullStr, "a\\N", 0, [], false) == Scan(nullStr, "a\\N", 1, ['a'], false);
    assert Scan(nullStr, "\\Na", 0, [], false) == Scan(nullStr, "\\Na", 2, nullStr, true);
    assert Scan(nullStr, "\\Na", 2, nullStr, true) == Scan(nullStr, "\\Na", 3, nullStr + ['a'], true);
    assert Scan(nullStr, "\\N\ta", 0, [], false) == Scan(nullStr, "\\N\ta", 2, nullStr, true);
  }

  // ---------- Lines ----------

  /** Fields joined by tabs. */
  function Joined(fields: seq<Text>, nullStr: Text): Text {
    if fields == [] then []
    else if |fields| == 1 then Escaped(fields[0], nullStr)
    else Escaped(fields[0], nullStr) + ['\t'] + Joined(fields[1..], nullStr)
  }

  function ShownFields(fields: seq<Text>, nullStr: Text): seq<Text> {
    seq(|fields|, k requires 0 <= k < |fields| => Shown(fields[k], nullStr))
  }

  function Tokenized(nullStr: Text, line: Text, here: nat, row: seq<Text>): Tokens
    decreases |line| - here
  {
    if here >= |line| then Row(row)
    else
      ScanAdvances(nullStr, line, here, [], false);
      match Scan(nullStr, line, here, [], false)
      case Refused(why) => BadRow(why)
      case Field(value, next) => Tokenized(nullStr, line, next, row + [value])
  }

  lemma {:induction false} ScanAdvances(nullStr: Text, line: Text, i: nat, acc: Text, isNull: bool)
    ensures var x := Scan(nullStr, line, i, acc, isNull); x.Field? ==> x.next > i
    decreases |line| - i
  {
    FindTabBounds(line, i);
    if i < |line| && line[i] != '\t' && line[i] != '\n' {
      if line[i] != '\\' {
        ScanAdvances(nullStr, line, i + 1, acc + [line[i]], isNull);
      } else if i + 1 < |line| {
        ScanAdvances(nullStr, line, i + 2, acc + [Unescape(line[i + 1])], isNull);
        ScanAdvances(nullStr, line, i + 2, nullStr, true);
        if i + 3 < |line| && IsOctalChar(line[i + 1]) && IsOctalChar(line[i + 2]) && IsOctalChar(line[i + 3]) {
          ScanAdvances(nullStr, line, i + 4, acc + [OctalByte(line[i + 1], line[i + 2], line[i + 3])], isNull);
        }
      }
    }
  }

  /** Reading the line field by field comes to the field that starts there. */
  ghost predicate ComesTo(nullStr: Text, line: Text, here: nat, start: nat)
    decreases |line| - here
  {
    here < |line| &&
    (here == start
     || (ScanAdvances(nullStr, line, here, [], false);
         var x := Scan(nullStr, line, here, [], false);
         x.Field? && ComesTo(nullStr, line, x.next, start)))
  }

  /** A line is refused exactly if one of the fields is, that reading comes to; and for that reason. */
  lemma {:induction false} RefusedExactlyWhen(nullStr: Text, line: Text, here: nat, row: seq<Text>, why: Defect)
    ensures Tokenized(nullStr, line, here, row) == BadRow(why)
            <==> exists start :: ComesTo(nullStr, line, here, start) && Scan(nullStr, line, start, [], false) == Refused(why)
    decreases |line| - here
  {
    if here < |line| {
      ScanAdvances(nullStr, line, here, [], false);
      match Scan(nullStr, line, here, [], false)
      case Refused(other) =>
        assert ComesTo(nullStr, line, here, here);
      case Field(value, next) =>
        RefusedExactlyWhen(nullStr, line, next, row + [value], why);
        assert forall start :: ComesTo(nullStr, line, next, start) ==> ComesTo(nullStr, line, here, start);
    }
  }

  method Generate(fields: seq<Text>, nullStr: Text) returns (line: Text)
    ensures line == Joined(fields, nullStr)
  {
    line := [];
    if fields != [] {
      line := Escape(fields[0], nullStr);
      assert fields[..1] == [fields[0]];
      var k := 1;
      while k != |fields|
        invariant 1 <= k <= |fields|
        invariant line == Joined(fields[..k], nullStr)
      {
        line := line + ['\t'];
        var e := Escape(fields[k], nullStr);
        line := line + e;
        JoinedAppend(fields[..k], fields[k], nullStr);
        assert fields[..k] + [fields[k]] == fields[..k + 1];
        k := k + 1;
      }
      assert fields[..k] == fields;
    }
  }

  lemma {:induction false} JoinedAppend(fields: seq<Text>, f: Text, nullStr: Text)
    requires fields != []
    ensures Joined(fields + [f], nullStr) == Joined(fields, nullStr) + ['\t'] + Escaped(f, nullStr)
  {
    assert (fields + [f])[0] == fields[0];
    assert (fields + [f])[1..] == fields[1..] + [f];
    if |fields| > 1 {
      JoinedAppend(fields[1..], f, nullStr);
      var a, j, e := Escaped(fields[0], nullStr), Joined(fields[1..], nullStr), Escaped(f, nullStr);
      assert a + ['\t'] + (j + ['\t'] + e) == (a + ['\t'] + j) + ['\t'] + e;
    } else {
      assert fields[1..] + [f] == [f];
    }
  }

  method Tokenize(nullStr: Text, line: Text) returns (t: Tokens)
    ensures t == Tokenized(nullStr, line, 0, [])
  {
    var row: seq<Text> := [];
    var here := 0;
    while here < |line|
      invariant Tokenized(nullStr, line, 0, []) == Tokenized(nullStr, line, here, row)
      decreases |line| - here
    {
      var x := ExtractField(nullStr, line, here);
      match x {
        case Refused(why) => return BadRow(why);
        case Field(value, next) =>
          ScanAdvances(nullStr, line, here, [], false);
          row := row + [value];
          here := next;
      }
    }
    return Row(row);
  }

  /** The fields that reading a generated line recovers: all of them, except that a last field
      with an empty written form is not noticed. */
  function Recovered(fields: seq<Text>, nullStr: Text): seq<Text> {
    if fields != [] && Escaped(fields[|fields| - 1], nullStr) == [] then fields[..|fields| - 1] else fields
  }

  lemma ShownFieldsCons(f: Text, rest: seq<Text>, nullStr: Text)
    ensures ShownFields([f] + rest, nullStr) == [Shown(f, nullStr)] + ShownFields(rest, nullStr)
  {
  }

  lemma RecoveredCons(fields: seq<Text>, nullStr: Text)
    requires |fields| > 1
    ensures Recovered(fields, nullStr) == [fields[0]] + Recovered(fields[1..], nullStr)
  {
    assert fields[1..][|fields| - 2] == fields[|fields| - 1];
  }

  /** Reading the first of several joined fields leaves the join of the others. */
  lemma FirstOfJoined(nullStr: Text, line: Text, here: nat, fields: seq<Text>)
    requires |fields| > 1 && here <= |line| && line[here..] == Joined(fields, nullStr)
    ensures var next := here + |Escaped(fields[0], nullStr)| + 1;
            && next <= |line| && line[next..] == Joined(fields[1..], nullStr)
            && Scan(nullStr, line, here, [], false) == Field(Shown(fields[0], nullStr), next)
  {
    var e, rest := Escaped(fields[0], nullStr), Joined(fields[1..], nullStr);
    var next := here + |e| + 1;
    assert line[here..] == (e + ['\t']) + rest;
    SplitTail(line, here, e + ['\t'], rest);
    SplitSlice(line, here, e, ['\t']);
    assert line[here + |e|..next][0] == '\t';
    ExtractAfterEscape(nullStr, line, here, fields[0]);
  }

  lemma SplitTail(line: Text, i: nat, a: Text, b: Text)
    requires i <= |line| && line[i..] == a + b
    ensures i + |a| + |b| == |line| && line[i..i + |a|] == a && line[i + |a|..] == b
  {
    assert line[i..i + |a|] == line[i..][..|a|];
    assert line[i + |a|..] == line[i..][|a|..];
  }

  lemma TokenizeStep(nullStr: Text, line: Text, here: nat, row: seq<Text>, value: Text, next: nat)
    requires here < |line| && Scan(nullStr, line, here, [], false) == Field(value, next)
    ensures Tokenized(nullStr, line, here, row) == Tokenized(nullStr, line, next, row + [value])
  {
  }

  lemma TokenizeLast(nullStr: Text, line: Text, here: nat, field: Text, row: seq<Text>)
    requires here <= |line| && line[here..] == Escaped(field, nullStr)
    ensures Tokenized(nullStr, line, here, row)
            == Row(if line[here..] == [] then row else row + [Shown(field, nullStr)])
  {
    var e := Escaped(field, nullStr);
    if e != [] {
      assert line[here..here + |e|] == line[here..] == e;
      ExtractAfterEscape(nullStr, line, here, field);
      TokenizeStep(nullStr, line, here, row, Shown(field, nullStr), here + |e| + 1);
    }
  }

  lemma {:induction false} TokenizeJoinedFrom(nullStr: Text, line: Text, here: nat, fields: seq<Text>, row: seq<Text>)
    requires here <= |line| && line[here..] == Joined(fields, nullStr)
    ensures Tokenized(nullStr, line, here, row) == Row(row + ShownFields(Recovered(fields, nullStr), nullStr))
    decreases |fields|
  {
    if fields == [] {
      assert row + ShownFields([], nullStr) == row;
    } else if |fields| == 1 {
      TokenizeLast(nullStr, line, here, fields[0], row);
      assert ShownFields(fields, nullStr) == [Shown(fields[0], nullStr)];
      assert row + ShownFields([], nullStr) == row;
      assert fields[..0] == [];
    } else {
      var next := here + |Escaped(fields[0], nullStr)| + 1;
      var first := Shown(fields[0], nullStr);
      FirstOfJoined(nullStr, line, here, fields);
      TokenizeStep(nullStr, line, here, row, first, next);
      TokenizeJoinedFrom(nullStr, line, next, fields[1..], row + [first]);
      RecoveredCons(fields, nullStr);
      ShownFieldsCons(fields[0], Recovered(fields[1..], nullStr), nullStr);
      ConcatAssociates(row, [first], ShownFields(Recovered(fields[1..], nullStr), nullStr));
    }
  }

  /** Reading a line generated from any fields is never refused, and recovers every field in
      order exactly when the last one, if there is any, does not have an empty written form. */
  lemma TokenizeAfterGenerate(fields: seq<Text>, nullStr: Text)
    ensures Tokenized(nullStr, Joined(fields, nullStr), 0, []) == Row(ShownFields(Recovered(fields, nullStr), nullStr))
    ensures Tokenized(nullStr, Joined(fields, nullStr), 0, []) == Row(ShownFields(fields, nullStr))
            <==> fields == [] || Escaped(fields[|fields| - 1], nullStr) != []
  {
    var line := Joined(fields, nullStr);
    assert line[0..] == line;
    TokenizeJoinedFrom(nullStr, line, 0, fields, []);
    var r := Recovered(fields, nullStr);
    assert [] + ShownFields(r, nullStr) == ShownFields(r, nullStr);
    if r != fields {
      assert |ShownFields(r, nullStr)| < |ShownFields(fields, nullStr)|;
    }
  }

  // ---------- Where a field ends ----------

  /** Number of consecutive backslashes that end right before position e, looking back no
      further than from. */
  function BackslashRun(line: Text, from: nat, e: nat): nat
    requires e <= |line|
  {
    if e <= from || line[e - 1] != '\\' then 0 else 1 + BackslashRun(line, from, e - 1)
  }

  /** A tab behind an odd number of backslashes is part of an escape sequence. */
  predicate Terminator(line: Text, from: nat, e: nat) {
    e < |line| && line[e] == '\t' && BackslashRun(line, from, e) % 2 == 0
  }

  lemma {:induction false} ScanEndsAt(nullStr: Text, line: Text, from: nat, i: nat, acc: Text, isNull: bool)
    requires from <= i <= |line| && '\n' !in line
    requires BackslashRun(line, from, i) % 2 == 0
    requires Scan(nullStr, line, i, acc, isNull).Field?
    ensures var e := Scan(nullStr, line, i, acc, isNull).next - 1;
            && i <= e <= |line|
            && (e == |line| || Terminator(line, from, e))
            && forall k: nat :: i <= k < e ==> !Terminator(line, from, k)
    decreases |line| - i
  {
    if i < |line| && line[i] != '\t' {
      if line[i] != '\\' {
        ScanEndsAt(nullStr, line, from, i + 1, acc + [line[i]], isNull);
      } else if line[i + 1] == 'N' {
        ScanEndsAt(nullStr, line, from, i + 2, nullStr, true);
      } else if IsOctalChar(line[i + 1]) {
        ScanEndsAt(nullStr, line, from, i + 4, acc + [OctalByte(line[i + 1], line[i + 2], line[i + 3])], isNull);
      } else {
        assert BackslashRun(line, from, i + 1) == 1 + BackslashRun(line, from, i);
        ScanEndsAt(nullStr, line, from, i + 2, acc + [Unescape(line[i + 1])], isNull);
      }
    }
  }

  /** On any line without a raw newline, an accepted field ends at the first tab that an even
      number of backslashes precedes, or at the end of the line. */
  lemma FieldEndsAtFirstTerminator(nullStr: Text, line: Text, i: nat)
    requires i <= |line| && '\n' !in line
    requires Scan(nullStr, line, i, [], false).Field?
    ensures var e := Scan(nullStr, line, i, [], false).next - 1;
            && i <= e <= |line|
            && (e == |line| || Terminator(line, i, e))
            && forall k: nat :: i <= k < e ==> !Terminator(line, i, k)
  {
    ScanEndsAt(nullStr, line, i, i, [], false);
  }

  /** The premise is needed: a raw newline makes the reader skip the first character of the
      following field. */
  lemma RawNewlineSkips()
    ensures Scan([], ['a', '\n', '\t', 'b', 'c'], 0, [], false) == Field(['a'], 4)
  {
    var line: Text := ['a', '\n', '\t', 'b', 'c'];
    assert FindTab(line, 1) == FindTab(line, 2) == 2;
    assert Scan([], line, 1, ['a'], false) == Field(['a'], 4);
    assert [] + [line[0]] == ['a'];
  }
}
