/** The files of src/storage/file.rs: one line each for the term, the vote and the snapshot, one line
    per entry for the log. JSON is a pair of functions of which only the round trip is known. */
module FileStorage {
  import opened Types
  import opened CoreSteps
  import opened Crc
  import opened Checksummed
  import opened Storage

  datatype Codec = Codec(encode: Entry -> Text, decode: Text -> Option<Entry>,
                         encodeSnapshot: Snapshot -> Text, decodeSnapshot: Text -> Option<Snapshot>)

  ghost predicate EntryFaithful(codec: Codec, e: Entry) {
    codec.decode(codec.encode(e)) == Some(e) && NEWLINE !in codec.encode(e)
  }

  ghost predicate SnapshotFaithful(codec: Codec, s: Snapshot) {
    && codec.decodeSnapshot(codec.encodeSnapshot(s)) == Some(s)
    && codec.encodeSnapshot(s) != [] && !IsSpace(codec.encodeSnapshot(s)[0])
  }

  /** JSON reads back what it prints, on one line, starting with a brace. */
  ghost predicate Faithful(codec: Codec) {
    (forall e :: EntryFaithful(codec, e)) && (forall s :: SnapshotFaithful(codec, s))
  }

  // ----- the log as text -----

  function FirstNewline(s: Text): (i: nat)
    ensures i <= |s| && NEWLINE !in s[..i]
    ensures i < |s| ==> s[i] == NEWLINE
  {
    if s == [] || s[0] == NEWLINE then 0
    else
      var i := 1 + FirstNewline(s[1..]);
      assert s[..i] == [s[0]] + s[1..][..i - 1];
      i
  }

  function StripReturn(line: Text): Text {
    if line != [] && line[|line| - 1] == RETURN then line[..|line| - 1] else line
  }

  /** The lines of a text, line ends removed. */
  function Lines(s: Text): seq<Text>
    decreases |s|
  {
    var i := FirstNewline(s);
    if s == [] then []
    else if i == |s| then [s]
    else [StripReturn(s[..i])] + Lines(s[i + 1..])
  }

  predicate Blank(line: Text) { forall b <- line :: IsSpace(b) }

  datatype Loaded = Loaded(log: seq<Entry>) | Broken(reason: Reason)

  /** One line of the log. */
  function DecodeLine(codec: Codec, line: Text): Loaded {
    if Blank(line) then Loaded([])
    else
      match ParseLine(line)
      case Corrupt(reason) => Broken(reason)
      case Good(json) =>
        var e := codec.decode(json);
        if e.Some? then Loaded([e.value]) else Broken(BadEntry)
  }

  /** The entries of all lines; the first bad line breaks the log. */
  function DecodeLines(codec: Codec, lines: seq<Text>): Loaded
    decreases |lines|
  {
    if lines == [] then Loaded([])
    else
      match DecodeLines(codec, lines[..|lines| - 1])
      case Broken(reason) => Broken(reason)
      case Loaded(log) =>
        match DecodeLine(codec, lines[|lines| - 1])
        case Broken(reason) => Broken(reason)
        case Loaded(more) => Loaded(log + more)
  }

  function LoadText(codec: Codec, content: Option<Text>): Loaded {
    if content.None? then Loaded([]) else DecodeLines(codec, Lines(content.value))
  }

  function LogText(codec: Codec, log: seq<Entry>): Text {
    if log == [] then []
    else LogText(codec, log[..|log| - 1]) + FormatLine(codec.encode(log[|log| - 1])) + [NEWLINE]
  }

  // ----- the log reads back -----

  function LinesOf(codec: Codec, log: seq<Entry>): (lines: seq<Text>)
    ensures |lines| == |log|
  {
    if log == [] then [] else LinesOf(codec, log[..|log| - 1]) + [FormatLine(codec.encode(log[|log| - 1]))]
  }

  /** A text that ends with its last line. */
  predicate Ended(s: Text) { s == [] || s[|s| - 1] == NEWLINE }

  lemma {:induction false} FirstNewlineOf(line: Text, rest: Text)
    requires NEWLINE !in line
    ensures FirstNewline(line + [NEWLINE] + rest) == |line|
    decreases |line|
  {
    var s := line + [NEWLINE] + rest;
    if line != [] {
      FirstNewlineOf(line[1..], rest);
      assert s[0] == line[0] && line[0] in line;
      assert s[1..] == line[1..] + [NEWLINE] + rest;
    }
  }

  lemma LinesOfFirst(line: Text, rest: Text)
    requires NEWLINE !in line
    ensures Lines(line + [NEWLINE] + rest) == [StripReturn(line)] + Lines(rest)
  {
    var s := line + [NEWLINE] + rest;
    FirstNewlineOf(line, rest);
    assert s[..|line|] == line && s[|line| + 1..] == rest;
  }

  lemma EndedHasLine(s: Text) returns (i: nat)
    requires Ended(s) && s != []
    ensures i < |s| && NEWLINE !in s[..i] && s == s[..i] + [NEWLINE] + s[i + 1..] && Ended(s[i + 1..])
  {
    i := FirstNewline(s);
    assert forall j: nat | j < i :: s[j] == s[..i][j] && s[..i][j] in s[..i];
  }

  lemma Regroup(a: Text, b: Text, c: Text, d: Text)
    ensures a + b + c + d == a + (b + c + d)
  {
  }

  lemma {:induction false} LinesAppend(s: Text, line: Text)
    requires Ended(s) && NEWLINE !in line && StripReturn(line) == line
    ensures Lines(s + line + [NEWLINE]) == Lines(s) + [line]
    decreases |s|
  {
    if s == [] {
      LinesOfFirst(line, []);
      assert s + line + [NEWLINE] == line + [NEWLINE] + [];
    } else {
      var i := EndedHasLine(s);
      var first, rest := s[..i], s[i + 1..];
      assert |rest| < |s|;
      LinesAppend(rest, line);
      LinesAppendFirst(first, rest, line);
    }
  }

  lemma {:induction false} LinesAppendFirst(first: Text, rest: Text, line: Text)
    requires NEWLINE !in first
    requires Lines(rest + line + [NEWLINE]) == Lines(rest) + [line]
    ensures Lines(first + [NEWLINE] + rest + line + [NEWLINE]) == Lines(first + [NEWLINE] + rest) + [line]
  {
    hide Lines, StripReturn;
    LinesOfFirst(first, rest);
    LinesOfFirst(first, rest + line + [NEWLINE]);
    Regroup(first + [NEWLINE], rest, line, [NEWLINE]);
  }

  lemma FormattedIsLine(data: Text)
    requires NEWLINE !in data
    ensures var line := FormatLine(data); NEWLINE !in line && StripReturn(line) == line && !Blank(line)
  {
    var h := Hex(Crc32(data), 8);
    hide Hex, Crc32;
    ChecksumBack(Crc32(data));
    assert FormatLine(data)[|FormatLine(data)| - 1] == h[7];
    assert !IsSpace(h[7]) && IsSpace(NEWLINE) && IsSpace(RETURN);
    assert h[7] in FormatLine(data);
  }

  lemma {:induction false} LogTextLines(codec: Codec, log: seq<Entry>)
    requires Faithful(codec)
    ensures Ended(LogText(codec, log)) && Lines(LogText(codec, log)) == LinesOf(codec, log)
    decreases |log|
  {
    if log != [] {
      var n := |log| - 1;
      LogTextLines(codec, log[..n]);
      assert EntryFaithful(codec, log[n]);
      FormattedIsLine(codec.encode(log[n]));
      LinesAppend(LogText(codec, log[..n]), FormatLine(codec.encode(log[n])));
    }
  }

  lemma {:induction false} LinesDecode(codec: Codec, log: seq<Entry>)
    requires Faithful(codec)
    ensures DecodeLines(codec, LinesOf(codec, log)) == Loaded(log)
    decreases |log|
  {
    hide FormatLine, ParseLine, Blank;
    if log != [] {
      var n := |log| - 1;
      LinesDecode(codec, log[..n]);
      assert EntryFaithful(codec, log[n]);
      FormattedIsLine(codec.encode(log[n]));
      LineRoundTrip(codec.encode(log[n]));
      var lines := LinesOf(codec, log);
      assert lines[..n] == LinesOf(codec, log[..n]);
      assert log[..n] + [log[n]] == log;
    }
  }

  /** Loading the text of a log gives the log. */
  lemma LogTextLoads(codec: Codec, log: seq<Entry>)
    requires Faithful(codec)
    ensures LoadText(codec, Some(LogText(codec, log))) == Loaded(log)
  {
    LogTextLines(codec, log);
    LinesDecode(codec, log);
  }

  lemma {:induction false} LogTextAppend(codec: Codec, a: seq<Entry>, b: seq<Entry>)
    ensures LogText(codec, a + b) == LogText(codec, a) + LogText(codec, b)
    decreases |b|
  {
    hide FormatLine;
    if b == [] {
      assert a + b == a;
    } else {
      var n := |b| - 1;
      LogTextAppend(codec, a, b[..n]);
      var line := FormatLine(codec.encode(b[n])) + [NEWLINE];
      assert (a + b)[..|a + b| - 1] == a + b[..n];
      assert LogText(codec, a + b) == LogText(codec, a + b[..n]) + line;
      assert LogText(codec, b) == LogText(codec, b[..n]) + line;
    }
  }

  lemma {:induction false} BrokenStays(codec: Codec, lines: seq<Text>, n: nat)
    requires n <= |lines| && DecodeLines(codec, lines[..n]).Broken?
    ensures DecodeLines(codec, lines) == DecodeLines(codec, lines[..n])
    decreases |lines|
  {
    if n == |lines| {
      assert lines[..n] == lines;
    } else {
      assert lines[..|lines| - 1][..n] == lines[..n];
      BrokenStays(codec, lines[..|lines| - 1], n);
    }
  }

  // ----- every run of the log file -----

  datatype LogOp = Append(entries: seq<Entry>) | Truncate(fromIndex: nat) | Compact(beforeIndex: nat)

  /** What the storage contract says the log is. */
  function Denoted(ops: seq<LogOp>): seq<Entry> {
    if ops == [] then []
    else
      var log := Denoted(ops[..|ops| - 1]);
      match ops[|ops| - 1]
      case Append(entries) => log + entries
      case Truncate(i) => EntriesBelow(log, i)
      case Compact(i) => EntriesFrom(log, i)
  }

  /** What the file is after one call; a log that does not load is left alone. */
  function FileAfter(codec: Codec, content: Option<Text>, op: LogOp): Option<Text> {
    match op
    case Append(entries) => Some((if content.Some? then content.value else []) + LogText(codec, entries))
    case Truncate(i) =>
      (match LoadText(codec, content)
       case Broken(_) => content
       case Loaded(log) => Some(LogText(codec, EntriesBelow(log, i))))
    case Compact(i) =>
      (match LoadText(codec, content)
       case Broken(_) => content
       case Loaded(log) => Some(LogText(codec, EntriesFrom(log, i))))
  }

  function FileOfRun(codec: Codec, ops: seq<LogOp>): Option<Text> {
    if ops == [] then None else FileAfter(codec, FileOfRun(codec, ops[..|ops| - 1]), ops[|ops| - 1])
  }

  ghost predicate Holds(codec: Codec, content: Option<Text>, log: seq<Entry>) {
    if content.None? then log == [] else content.value == LogText(codec, log)
  }

  lemma HoldsLoads(codec: Codec, content: Option<Text>, log: seq<Entry>)
    requires Faithful(codec) && Holds(codec, content, log)
    ensures LoadText(codec, content) == Loaded(log)
  {
    LogTextLoads(codec, log);
  }

  /** After any run of appends, truncations and compactions the file loads as the log they denote. */
  lemma {:induction false} LogFileRoundTrip(codec: Codec, ops: seq<LogOp>)
    requires Faithful(codec)
    ensures LoadText(codec, FileOfRun(codec, ops)) == Loaded(Denoted(ops))
  {
    RunHolds(codec, ops);
    HoldsLoads(codec, FileOfRun(codec, ops), Denoted(ops));
  }

  lemma {:induction false} RunHolds(codec: Codec, ops: seq<LogOp>)
    requires Faithful(codec)
    ensures Holds(codec, FileOfRun(codec, ops), Denoted(ops))
    decreases |ops|
  {
    hide LogText, LoadText;
    if ops != [] {
      var before := ops[..|ops| - 1];
      RunHolds(codec, before);
      HoldsLoads(codec, FileOfRun(codec, before), Denoted(before));
      match ops[|ops| - 1] {
        case Append(entries) =>
          LogTextAppend(codec, Denoted(before), entries);
          assert Denoted(before) == [] ==> Denoted(before) + entries == entries;
        case _ =>
      }
    }
  }

  lemma {:induction false} LinesConcat(s: Text, t: Text)
    requires Ended(s)
    ensures Lines(s + t) == Lines(s) + Lines(t)
    decreases |s|
  {
    if s == [] {
      assert s + t == t;
    } else {
      var i := EndedHasLine(s);
      var first, rest := s[..i], s[i + 1..];
      assert |rest| < |s|;
      LinesConcat(rest, t);
      LinesConcatFirst(first, rest, t);
    }
  }

  lemma LinesConcatFirst(first: Text, rest: Text, t: Text)
    requires NEWLINE !in first && Lines(rest + t) == Lines(rest) + Lines(t)
    ensures Lines(first + [NEWLINE] + rest + t) == Lines(first + [NEWLINE] + rest) + Lines(t)
  {
    hide Lines, StripReturn;
    LinesOfFirst(first, rest);
    LinesOfFirst(first, rest + t);
    assert first + [NEWLINE] + rest + t == first + [NEWLINE] + (rest + t);
  }

  lemma LinesAround(s: Text, line: Text, t: Text)
    requires Ended(s) && NEWLINE !in line && StripReturn(line) == line
    ensures Lines(s + (line + [NEWLINE] + t)) == Lines(s) + [line] + Lines(t)
  {
    hide Lines, StripReturn;
    LinesConcat(s, line + [NEWLINE] + t);
    LinesOfFirst(line, t);
  }

  /** A bad line breaks the log. */
  lemma BadLineBreaks(codec: Codec, lines: seq<Text>, k: nat)
    requires k < |lines| && DecodeLine(codec, lines[k]).Broken?
    ensures DecodeLines(codec, lines).Broken?
  {
    if DecodeLines(codec, lines[..k]).Broken? {
      BrokenStays(codec, lines, k);
    } else {
      assert lines[..k + 1][..k] == lines[..k];
      BrokenStays(codec, lines, k + 1);
    }
  }

  /** The file of a log around one entry. */
  lemma {:induction false} LogTextAround(codec: Codec, log: seq<Entry>, k: nat)
    requires k < |log|
    ensures LogText(codec, log) == LogText(codec, log[..k])
                                   + (FormatLine(codec.encode(log[k])) + [NEWLINE] + LogText(codec, log[k + 1..]))
  {
    hide FormatLine;
    assert log == log[..k] + ([log[k]] + log[k + 1..]);
    LogTextAppend(codec, log[..k], [log[k]] + log[k + 1..]);
    LogTextAppend(codec, [log[k]], log[k + 1..]);
    assert [log[k]][..0] == [];
    assert LogText(codec, [log[k]]) == [] + FormatLine(codec.encode(log[k])) + [NEWLINE];
  }

  /** The file of a log with `data` in place of the text of entry k and the checksum h in place of its own. */
  function FileWith(codec: Codec, log: seq<Entry>, k: nat, data: Text, h: Text): Text
    requires k < |log|
  {
    LogText(codec, log[..k]) + (data + [SPACE] + h + [NEWLINE] + LogText(codec, log[k + 1..]))
  }

  /** A log file damaged within four consecutive bytes of an entry's text, by anything but a line end,
      never loads. */
  lemma DamagedFileBreaks(codec: Codec, log: seq<Entry>, k: nat, before: Text, x: Text, y: Text, after: Text)
    requires Faithful(codec) && k < |log| && codec.encode(log[k]) == before + x + after
    requires |x| == |y| <= 4 && x != y && NEWLINE !in y
    ensures var h := Hex(Crc32(before + x + after), 8);
            && LogText(codec, log) == FileWith(codec, log, k, before + x + after, h)
            && LoadText(codec, Some(FileWith(codec, log, k, before + y + after, h))).Broken?
  {
    var h := Hex(Crc32(before + x + after), 8);
    LogTextAround(codec, log, k);
    LogTextLines(codec, log[..k]);
    DamagedIsLine(codec, log[k], before, x, y, after);
    DamagedLineBreaks(codec, before + y + after + [SPACE] + h, before, x, y, after);
    hide Hex, Crc32;
    BrokenAround(codec, LogText(codec, log[..k]), before + y + after + [SPACE] + h, LogText(codec, log[k + 1..]));
  }

  lemma BrokenAround(codec: Codec, first: Text, line: Text, rest: Text)
    requires Ended(first) && NEWLINE !in line && StripReturn(line) == line && DecodeLine(codec, line).Broken?
    ensures LoadText(codec, Some(first + (line + [NEWLINE] + rest))).Broken?
  {
    hide Lines, StripReturn, DecodeLine, DecodeLines;
    LinesAround(first, line, rest);
    var lines := Lines(first) + [line] + Lines(rest);
    assert lines[|Lines(first)|] == line;
    BadLineBreaks(codec, lines, |Lines(first)|);
  }

  lemma DamagedIsLine(codec: Codec, e: Entry, before: Text, x: Text, y: Text, after: Text)
    requires Faithful(codec) && codec.encode(e) == before + x + after && NEWLINE !in y
    ensures var line := before + y + after + [SPACE] + Hex(Crc32(before + x + after), 8);
            NEWLINE !in line && StripReturn(line) == line
  {
    assert EntryFaithful(codec, e);
    assert forall b | b in before || b in after :: b in before + x + after;
    ChecksumBack(Crc32(before + x + after));
    hide Hex, Crc32;
    var h := Hex(Crc32(before + x + after), 8);
    assert h[7] in h && IsSpace(NEWLINE) && IsSpace(RETURN);
    var line := before + y + after + [SPACE] + h;
    assert line[|line| - 1] == h[7];
  }

  /** A line end written into a line leaves two lines, and the checksum need not refuse either: "&QK." turned
      into a line end and "!!!" does not break the log by its checksum. */
  lemma NewlineDamagePasses()
    ensures var h := Hex(Crc32([38, 81, 75, 46]), 8);
            && Lines([NEWLINE] + ([33, 33, 33, SPACE] + h) + [NEWLINE]) == [[], [33, 33, 33, SPACE] + h]
            && Blank([]) && ParseLine([33, 33, 33, SPACE] + h) == Good([33, 33, 33])
  {
    SharedChecksum();
    hide Crc32;
    var y: Text := [33, 33, 33];
    LineRoundTrip(y);
    FormattedIsLine(y);
    hide ParseLine;
    var h := Hex(Crc32(y), 8);
    assert FormatLine(y) == [33, 33, 33, SPACE] + h;
    TwoLines([33, 33, 33, SPACE] + h);
  }

  const OLD: Text := [38, 81, 75, 46]
  const NEW: Text := [33, 33, 33]

  /** A codec in which two entries have the texts of NewlineDamagePasses and all others one byte more. */
  function Recoded(base: Codec, e: Entry, f: Entry): Codec {
    base.(encode := (g: Entry) => if g == e then OLD else if g == f then NEW else [120] + base.encode(g),
      decode := (s: Text) => if s == OLD then Some(e) else if s == NEW then Some(f)
        else if s == [] then None else base.decode(s[1..]))
  }

  lemma RecodedFaithful(base: Codec, e: Entry, f: Entry)
    requires Faithful(base) && e != f
    ensures Faithful(Recoded(base, e, f))
  {
    var codec := Recoded(base, e, f);
    forall g ensures EntryFaithful(codec, g) {
      assert EntryFaithful(base, g);
      var s := codec.encode(g);
      if g != e && g != f {
        assert s[1..] == base.encode(g) && s[0] == 120 && OLD[0] != 120 && NEW[0] != 120;
      }
    }
    forall s ensures SnapshotFaithful(codec, s) { assert SnapshotFaithful(base, s); }
  }

  /** So without the condition on line ends DamagedFileBreaks is false: that JSON reads back what it prints
      does not keep four damaged bytes from loading as another entry. */
  lemma NewlineDamageLoads(base: Codec, e: Entry, f: Entry) returns (codec: Codec)
    requires Faithful(base) && e != f
    ensures Faithful(codec) && codec.encode(e) == OLD && |[NEWLINE] + NEW| == |OLD| == 4
    ensures var h := Hex(Crc32(OLD), 8);
            && LogText(codec, [e]) == FileWith(codec, [e], 0, OLD, h)
            && LoadText(codec, Some(FileWith(codec, [e], 0, [NEWLINE] + NEW, h))) == Loaded([f])
  {
    codec := Recoded(base, e, f);
    RecodedFaithful(base, e, f);
    var h := Hex(Crc32(OLD), 8);
    SoleEntry(codec, e, OLD, h);
    SoleEntry(codec, e, [NEWLINE] + NEW, h);
    assert FormatLine(OLD) == OLD + [SPACE] + h;
    DamagedLoads(base, e, f);
    hide Hex, Crc32, LoadText, FormatLine, FileWith, Faithful;
  }

  lemma SoleEntry(codec: Codec, e: Entry, data: Text, h: Text)
    ensures FileWith(codec, [e], 0, data, h) == data + [SPACE] + h + [NEWLINE]
    ensures LogText(codec, [e]) == FormatLine(codec.encode(e)) + [NEWLINE]
  {
    hide FormatLine;
    assert [e][..0] == [] && [e][1..] == [];
    assert LogText(codec, [e]) == [] + FormatLine(codec.encode(e)) + [NEWLINE];
  }

  lemma DamagedLoads(base: Codec, e: Entry, f: Entry)
    requires e != f
    ensures var text := [NEWLINE] + NEW + [SPACE] + Hex(Crc32(OLD), 8) + [NEWLINE];
            LoadText(Recoded(base, e, f), Some(text)) == Loaded([f])
  {
    var h := Hex(Crc32(OLD), 8);
    NewlineDamagePasses();
    hide Hex, Crc32, ParseLine, Lines;
    var line := [33, 33, 33, SPACE] + h;
    NewDecodes(base, e, f, line);
    DamagedText(h);
    hide Recoded, DecodeLine, DecodeLines;
    TwoDecoded(Recoded(base, e, f), line, f);
  }

  lemma DamagedText(h: Text)
    ensures [NEWLINE] + NEW + [SPACE] + h + [NEWLINE] == [NEWLINE] + ([33, 33, 33, SPACE] + h) + [NEWLINE]
  {
  }

  lemma NewDecodes(base: Codec, e: Entry, f: Entry, line: Text)
    requires e != f && line != [] && line[0] == 33 && ParseLine(line) == Good(NEW)
    ensures DecodeLine(Recoded(base, e, f), line) == Loaded([f])
  {
    hide ParseLine;
    assert !IsSpace(33) && line[0] in line;
    assert OLD[0] != NEW[0];
  }

  lemma TwoDecoded(codec: Codec, line: Text, f: Entry)
    requires DecodeLine(codec, line) == Loaded([f])
    ensures DecodeLines(codec, [[], line]) == Loaded([f])
  {
    var first: seq<Text> := [[]];
    assert [[], line][..1] == first && first[..0] == [];
    assert DecodeLine(codec, []) == Loaded([]);
    hide DecodeLine;
    assert DecodeLines(codec, first) == Loaded([]);
  }

  lemma TwoLines(line: Text)
    requires NEWLINE !in line && StripReturn(line) == line
    ensures Lines([NEWLINE] + line + [NEWLINE]) == [[], line]
  {
    assert Lines([]) == [] && StripReturn([]) == [];
    hide Lines, StripReturn;
    LinesOfFirst([], line + [NEWLINE]);
    LinesOfFirst(line, []);
    EmptyAround(line);
  }

  lemma EmptyAround(line: Text)
    ensures [] + [NEWLINE] + (line + [NEWLINE]) == [NEWLINE] + line + [NEWLINE]
    ensures line + [NEWLINE] + [] == line + [NEWLINE]
  {
  }

  lemma DamagedLineBreaks(codec: Codec, line: Text, before: Text, x: Text, y: Text, after: Text)
    requires |x| == |y| <= 4 && x != y
    requires line == before + y + after + [SPACE] + Hex(Crc32(before + x + after), 8)
    ensures DecodeLine(codec, line).Broken?
  {
    var h := Hex(Crc32(before + x + after), 8);
    hide Hex, Crc32;
    BurstRefused(before, x, y, after);
    ChecksumBack(Crc32(before + x + after));
    assert h[7] in line && !IsSpace(h[7]);
  }

  // ----- terms and votes as text -----

  function Digit(k: nat): Byte
    requires k < 10
  {
    (48 + k) as Byte
  }

  predicate IsDigit(b: Byte) { 48 <= b <= 57 }

  function DigitNumber(b: Byte): nat
    requires IsDigit(b)
  {
    (b - 48) as nat
  }

  function Decimal(n: nat): Text {
    if n < 10 then [Digit(n)] else Decimal(n / 10) + [Digit(n % 10)]
  }

  function ParseDecimalDigits(s: Text): Option<nat> {
    if s == [] then Some(0)
    else
      var high := ParseDecimalDigits(s[..|s| - 1]);
      if high.Some? && IsDigit(s[|s| - 1]) then Some(10 * high.value + DigitNumber(s[|s| - 1])) else None
  }

  function ParseDecimal(s: Text): Option<nat> {
    if s == [] || s == [PLUS] then None
    else if s[0] == PLUS then ParseDecimalDigits(s[1..])
    else ParseDecimalDigits(s)
  }

  lemma DigitBack(k: nat)
    requires k < 10
    ensures IsDigit(Digit(k)) && DigitNumber(Digit(k)) == k
  {
  }

  lemma {:induction false} DecimalDigits(n: nat)
    ensures var s := Decimal(n); s != [] && IsDigit(s[0]) && ParseDecimalDigits(s) == Some(n)
  {
    hide Digit, IsDigit, DigitNumber;
    assert ParseDecimalDigits([]) == Some(0);
    DigitBack(n % 10);
    if n < 10 {
      assert [Digit(n)][..0] == [];
    } else {
      DecimalDigits(n / 10);
      var s := Decimal(n / 10);
      assert (s + [Digit(n % 10)])[..|s|] == s;
    }
  }

  const NONE: Text := [110, 111, 110, 101]

  function VoteText(vote: Option<nat>): Text { if vote.Some? then Decimal(vote.value) else NONE }

  function ParseVote(s: Text): Option<Option<nat>> {
    if s == NONE then Some(None)
    else
      var id := ParseDecimal(s);
      if id.Some? then Some(Some(id.value)) else None
  }

  /** Numbers and votes read back from their files. */
  lemma NumbersReadBack(n: nat, vote: Option<nat>)
    ensures ParseDecimal(Decimal(n)) == Some(n) && ReadFile(Some(FileOf(Decimal(n)))) == Read(Decimal(n))
    ensures ParseVote(VoteText(vote)) == Some(vote) && ReadFile(Some(FileOf(VoteText(vote)))) == Read(VoteText(vote))
  {
    hide FileOf, ReadFile;
    DecimalDigits(n);
    DigitsAreNoSpace(Decimal(n)[0]);
    if vote.Some? {
      DecimalDigits(vote.value);
      DigitsAreNoSpace(Decimal(vote.value)[0]);
    }
    assert !IsSpace(NONE[0]);
    hide IsSpace, IsDigit;
    ReadBackIff(Decimal(n));
    ReadBackIff(VoteText(vote));
  }

  lemma {:induction false} DigitsDecided(s: Text)
    ensures ParseDecimalDigits(s).Some? <==> forall b <- s :: IsDigit(b)
    decreases |s|
  {
    if s != [] { DigitsDecided(s[..|s| - 1]); }
  }

  /** A number is digits, at least one, after at most one plus sign; nothing else is. */
  lemma NumberDecided(s: Text, n: nat)
    ensures ParseDecimal(s).Some? <==>
            var digits := if s != [] && s[0] == PLUS then s[1..] else s;
            digits != [] && forall b <- digits :: IsDigit(b)
    ensures ParseDecimal([PLUS] + Decimal(n)) == Some(n)
    ensures ParseVote(s).Some? <==> s == NONE || ParseDecimal(s).Some?
  {
    var digits := if s != [] && s[0] == PLUS then s[1..] else s;
    DigitsDecided(digits);
    DecimalDigits(n);
    assert ([PLUS] + Decimal(n))[1..] == Decimal(n);
    assert |[PLUS] + Decimal(n)| > 1;
  }

  /** A last line without its line end is a line too. */
  lemma UnendedLine(line: Text)
    requires NEWLINE !in line && line != []
    ensures Lines(line) == [line]
  {
  }

  lemma DigitsAreNoSpace(b: Byte)
    requires IsDigit(b)
    ensures !IsSpace(b) && b != PLUS && b != NONE[0]
  {
  }

  // ----- the directory -----

  /** The four files of one node. Loads return None for a corrupt file. */
  class FileStorage {
    const codec: Codec
    var termFile: Option<Text>
    var voteFile: Option<Text>
    var logFile: Option<Text>
    var snapshotFile: Option<Text>
    ghost var disk: Stored

    /** The files hold `disk`, as the storage contract has it. */
    ghost predicate Valid()
      reads this
    {
      && Faithful(codec)
      && termFile == (if termFile.None? && disk.term == 0 then None else Some(FileOf(Decimal(disk.term))))
      && voteFile == (if voteFile.None? && disk.votedFor.None? then None else Some(FileOf(VoteText(disk.votedFor))))
      && Holds(codec, logFile, disk.log)
      && snapshotFile == (if disk.snapshot.None? then None else Some(FileOf(codec.encodeSnapshot(disk.snapshot.value))))
    }

    constructor (codec: Codec)
      requires Faithful(codec)
      ensures Valid() && disk == Stored(0, None, [], None) && this.codec == codec
    {
      this.codec := codec;
      termFile, voteFile, logFile, snapshotFile := None, None, None, None;
      disk := Stored(0, None, [], None);
    }

    method LoadTerm() returns (r: Option<nat>)
      ensures Valid() ==> r == Some(disk.term)
      ensures ReadFile(termFile).Missing? ==> r == Some(0)
      ensures ReadFile(termFile).Damaged? ==> r == None
      ensures ReadFile(termFile).Read? ==> r == ParseDecimal(ReadFile(termFile).text)
    {
      NumbersReadBack(disk.term, None);
      match ReadFile(termFile)
      case Missing => r := Some(0);
      case Read(text) => r := ParseDecimal(text);
      case Damaged(_) => r := None;
    }

    method SaveTerm(term: nat)
      requires Valid()
      modifies this
      ensures Valid() && disk == old(disk).(term := term)
    {
      hide FileOf, Decimal, VoteText, Holds;
      termFile := Some(FileOf(Decimal(term)));
      disk := disk.(term := term);
    }

    method LoadVotedFor() returns (r: Option<Option<nat>>)
      ensures Valid() ==> r == Some(disk.votedFor)
      ensures ReadFile(voteFile).Missing? ==> r == Some(None)
      ensures ReadFile(voteFile).Damaged? ==> r == None
      ensures ReadFile(voteFile).Read? ==> r == ParseVote(ReadFile(voteFile).text)
    {
      NumbersReadBack(0, disk.votedFor);
      match ReadFile(voteFile)
      case Missing => r := Some(None);
      case Read(text) => r := ParseVote(text);
      case Damaged(_) => r := None;
    }

    method SaveVotedFor(votedFor: Option<nat>)
      requires Valid()
      modifies this
      ensures Valid() && disk == old(disk).(votedFor := votedFor)
    {
      hide FileOf, Decimal, VoteText, Holds;
      voteFile := Some(FileOf(VoteText(votedFor)));
      disk := disk.(votedFor := votedFor);
    }

    method LoadSnapshot() returns (r: Option<Option<Snapshot>>)
      ensures Valid() ==> r == Some(disk.snapshot)
      ensures ReadFile(snapshotFile).Missing? ==> r == Some(None)
      ensures ReadFile(snapshotFile).Damaged? ==> r == None
      ensures ReadFile(snapshotFile).Read? ==>
                var s := codec.decodeSnapshot(ReadFile(snapshotFile).text);
                r == if s.Some? then Some(s) else None
    {
      if Valid() && disk.snapshot.Some? {
        assert SnapshotFaithful(codec, disk.snapshot.value);
        ReadBackIff(codec.encodeSnapshot(disk.snapshot.value));
      }
      match ReadFile(snapshotFile)
      case Missing => r := Some(None);
      case Damaged(_) => r := None;
      case Read(text) =>
        var s := codec.decodeSnapshot(text);
        r := if s.Some? then Some(s) else None;
    }

    method SaveSnapshot(snapshot: Snapshot)
      requires Valid()
      modifies this
      ensures Valid() && disk == old(disk).(snapshot := Some(snapshot))
    {
      hide FileOf, Decimal, VoteText, Holds;
      snapshotFile := Some(FileOf(codec.encodeSnapshot(snapshot)));
      disk := disk.(snapshot := Some(snapshot));
    }

    method LoadLog() returns (r: Loaded)
      ensures r == LoadText(codec, logFile)
      ensures Valid() ==> r == Loaded(disk.log)
    {
      if Valid() { HoldsLoads(codec, logFile, disk.log); }
      hide FileOf, Decimal, VoteText, LogText, Holds, Faithful, Lines, Blank, ParseLine;
      if logFile.None? {
        return Loaded([]);
      }
      var lines := Lines(logFile.value);
      var entries := [];
      for i := 0 to |lines|
        invariant DecodeLines(codec, lines[..i]) == Loaded(entries)
      {
        NextLine(codec, lines, i);
        var line := lines[i];
        if Blank(line) {
          continue;
        }
        match ParseLine(line) {
          case Corrupt(reason) => return Broken(reason);
          case Good(json) =>
            var e := codec.decode(json);
            if e.None? {
              return Broken(BadEntry);
            }
            entries := entries + [e.value];
        }
      }
      assert lines[..|lines|] == lines;
      r := Loaded(entries);
    }

    method AppendLogEntries(entries: seq<Entry>)
      requires Valid()
      modifies this
      ensures Valid() && disk == old(disk).(log := old(disk.log) + entries)
      ensures logFile == FileAfter(codec, old(logFile), Append(entries))
    {
      hide FileOf, Decimal, VoteText, LogText, LoadText;
      LogTextAppend(codec, disk.log, entries);
      assert disk.log == [] ==> disk.log + entries == entries;
      var content := WithLines(if logFile.Some? then logFile.value else [], entries);
      logFile := Some(content);
      disk := disk.(log := disk.log + entries);
    }

    /** The lines of some entries after a text. */
    method WithLines(text: Text, entries: seq<Entry>) returns (content: Text)
      ensures content == text + LogText(codec, entries)
    {
      hide FormatLine;
      content := text;
      for i := 0 to |entries|
        invariant content == text + LogText(codec, entries[..i])
      {
        assert entries[..i + 1][..i] == entries[..i];
        content := content + FormatLine(codec.encode(entries[i])) + [NEWLINE];
      }
      assert entries[..|entries|] == entries;
    }

    method Rewrite(keep: seq<Entry>)
      requires Valid()
      modifies this
      ensures Valid() && disk == old(disk).(log := keep) && logFile == Some(LogText(codec, keep))
    {
      hide FileOf, Decimal, VoteText, LogText;
      var content := WithLines([], keep);
      logFile := Some(content);
      disk := disk.(log := keep);
    }

    method TruncateLog(fromIndex: nat)
      requires Valid()
      modifies this
      ensures Valid() && disk == old(disk).(log := EntriesBelow(old(disk.log), fromIndex))
      ensures logFile == FileAfter(codec, old(logFile), Truncate(fromIndex))
    {
      hide FileOf, Decimal, VoteText, LogText;
      var r := LoadLog();
      Rewrite(EntriesBelow(r.log, fromIndex));
    }

    method CompactLog(beforeIndex: nat)
      requires Valid()
      modifies this
      ensures Valid() && disk == old(disk).(log := EntriesFrom(old(disk.log), beforeIndex))
      ensures logFile == FileAfter(codec, old(logFile), Compact(beforeIndex))
    {
      hide FileOf, Decimal, VoteText, LogText;
      var r := LoadLog();
      Rewrite(EntriesFrom(r.log, beforeIndex));
    }
  }

  /** One more line: the log so far grows by it or is broken for good. */
  lemma NextLine(codec: Codec, lines: seq<Text>, i: nat)
    requires i < |lines| && DecodeLines(codec, lines[..i]).Loaded?
    ensures var line := DecodeLine(codec, lines[i]);
            if line.Broken? then DecodeLines(codec, lines) == line
            else DecodeLines(codec, lines[..i + 1]) == Loaded(DecodeLines(codec, lines[..i]).log + line.log)
  {
    assert lines[..i + 1][..i] == lines[..i];
    if DecodeLine(codec, lines[i]).Broken? { BrokenStays(codec, lines, i + 1); }
  }
}
