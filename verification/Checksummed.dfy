/** The text format of src/storage/file.rs:64-117, 187-215: data, a space and eight hexadecimal digits
    of its checksum. A text is a sequence of bytes. */
module Checksummed {
  import opened Types
  import opened Crc

  type Text = seq<Byte>

  const SPACE: Byte := 32
  const NEWLINE: Byte := 10
  const RETURN: Byte := 13
  const PLUS: Byte := 43

  /** White space of one byte. */
  predicate IsSpace(b: Byte) { b == 32 || 9 <= b <= 13 }

  // ----- hexadecimal -----

  function HexDigit(d: bv32): Byte
    requires d <= 15
  {
    if d < 10 then 48 + (d as bv8) else 87 + (d as bv8)
  }

  function DigitValue(b: Byte): Option<bv32> {
    if 48 <= b <= 57 then Some((b - 48) as bv32)
    else if 97 <= b <= 102 then Some((b - 87) as bv32)
    else if 65 <= b <= 70 then Some((b - 55) as bv32)
    else None
  }

  function LowDigit(w: bv32): (d: bv32)
    ensures d <= 15
  {
    w & 15
  }

  function Rest(w: bv32): bv32 { w >> 4 }

  /** The last n hexadecimal digits of w. */
  function Hex(w: bv32, n: nat): Text
    decreases n
  {
    if n == 0 then [] else Hex(Rest(w), n - 1) + [HexDigit(LowDigit(w))]
  }

  /** One more digit; None if the word overflows. */
  function Extend(acc: bv32, d: bv32): Option<bv32> {
    if acc & 0xF0000000 != 0 then None else Some((acc << 4) | d)
  }

  function ParseDigits(s: Text): Option<bv32> {
    if s == [] then Some(0)
    else
      var acc, d := ParseDigits(s[..|s| - 1]), DigitValue(s[|s| - 1]);
      if acc.Some? && d.Some? then Extend(acc.value, d.value) else None
  }

  /** `u32::from_str_radix(_, 16)`: one plus sign is allowed before the digits. */
  function ParseHex(s: Text): Option<bv32> {
    if s == [] || s == [PLUS] then None
    else if s[0] == PLUS then ParseDigits(s[1..])
    else ParseDigits(s)
  }

  // ----- lines -----

  datatype Reason = NoChecksum | BadChecksum | Mismatch | BadEntry

  datatype Parsed = Good(data: Text) | Corrupt(reason: Reason)

  function FormatLine(data: Text): Text { data + [SPACE] + Hex(Crc32(data), 8) }

  /** Position of the last space. */
  function LastSpace(s: Text): (i: Option<nat>)
    ensures i.Some? ==> i.value < |s| && s[i.value] == SPACE && SPACE !in s[i.value + 1..]
    ensures i.None? ==> SPACE !in s
  {
    if s == [] then None
    else if s[|s| - 1] == SPACE then Some(|s| - 1)
    else LastSpace(s[..|s| - 1])
  }

  function ParseLine(line: Text): Parsed {
    match LastSpace(line)
    case None => Corrupt(NoChecksum)
    case Some(i) =>
      var stored := ParseHex(line[i + 1..]);
      if stored.None? then Corrupt(BadChecksum)
      else if stored.value != Crc32(line[..i]) then Corrupt(Mismatch)
      else Good(line[..i])
  }

  // ----- hexadecimal round trip -----

  lemma DigitBack(d: bv32)
    requires d <= 15
    ensures DigitValue(HexDigit(d)) == Some(d)
    ensures !IsSpace(HexDigit(d)) && HexDigit(d) != PLUS
  {
  }

  lemma ExtendBack(w: bv32)
    ensures Extend(Rest(w), LowDigit(w)) == Some(w)
  {
  }

  /** w has at most n digits. */
  predicate HasDigits(w: bv32, n: nat)
    decreases n
  {
    if n == 0 then w == 0 else HasDigits(Rest(w), n - 1)
  }

  lemma AllFit(w: bv32)
    ensures HasDigits(w, 8)
  {
    assert Rest(Rest(Rest(Rest(Rest(Rest(Rest(Rest(w)))))))) == 0;
    hide Rest;
    assert HasDigits(w, 8) == HasDigits(Rest(Rest(w)), 6);
    assert HasDigits(Rest(Rest(w)), 6) == HasDigits(Rest(Rest(Rest(Rest(w)))), 4);
    assert HasDigits(Rest(Rest(Rest(Rest(w)))), 4) == HasDigits(Rest(Rest(Rest(Rest(Rest(Rest(w)))))), 2);
  }

  lemma {:induction false} HexBack(w: bv32, n: nat)
    requires HasDigits(w, n)
    ensures |Hex(w, n)| == n && ParseDigits(Hex(w, n)) == Some(w)
    ensures forall b <- Hex(w, n) :: !IsSpace(b) && b != PLUS
    decreases n
  {
    hide Rest, LowDigit, HexDigit, DigitValue, Extend, IsSpace;
    if n > 0 {
      HexBack(Rest(w), n - 1);
      LowBound(w);
      DigitBack(LowDigit(w));
      ExtendBack(w);
      var s, b := Hex(Rest(w), n - 1), HexDigit(LowDigit(w));
      assert (s + [b])[..|s|] == s;
    }
  }

  lemma LowBound(w: bv32)
    ensures LowDigit(w) <= 15
  {
  }

  lemma ChecksumBack(w: bv32)
    ensures |Hex(w, 8)| == 8 && ParseHex(Hex(w, 8)) == Some(w) && SPACE !in Hex(w, 8)
    ensures forall b <- Hex(w, 8) :: !IsSpace(b)
  {
    hide Hex, ParseDigits;
    AllFit(w);
    HexBack(w, 8);
    var s := Hex(w, 8);
    assert s[0] in s;
    assert s[0] != PLUS;
    assert IsSpace(SPACE);
  }

  // ----- lines round trip -----

  lemma {:induction false} LastSpaceAt(data: Text, rest: Text)
    requires SPACE !in rest
    ensures LastSpace(data + [SPACE] + rest) == Some(|data|)
    decreases |rest|
  {
    var s := data + [SPACE] + rest;
    if rest == [] {
      assert s[|s| - 1] == SPACE;
    } else {
      LastSpaceAt(data, rest[..|rest| - 1]);
      assert s[..|s| - 1] == data + [SPACE] + rest[..|rest| - 1];
    }
  }

  /** What was printed reads back, spaces in the data included. */
  lemma LineRoundTrip(data: Text)
    ensures ParseLine(FormatLine(data)) == Good(data)
  {
    hide Hex, ParseHex, Crc32;
    var h := Hex(Crc32(data), 8);
    ChecksumBack(Crc32(data));
    LastSpaceAt(data, h);
    assert FormatLine(data)[..|data|] == data;
    assert FormatLine(data)[|data| + 1..] == h;
  }

  /** A line is accepted exactly when it is some data, a space and a number that is its checksum. */
  lemma AcceptedIff(line: Text, data: Text)
    ensures ParseLine(line) == Good(data) <==>
            exists h :: line == data + [SPACE] + h && SPACE !in h && ParseHex(h) == Some(Crc32(data))
  {
    hide Hex, ParseHex, Crc32;
    if ParseLine(line) == Good(data) {
      var i := LastSpace(line).value;
      assert line == data + [SPACE] + line[i + 1..];
    }
    if h :| line == data + [SPACE] + h && SPACE !in h && ParseHex(h) == Some(Crc32(data)) {
      LastSpaceAt(data, h);
      assert line[..|data|] == data && line[|data| + 1..] == h;
    }
  }

  /** A line whose data was damaged within four consecutive bytes is refused. */
  lemma BurstRefused(before: Text, x: Text, y: Text, after: Text)
    requires |x| == |y| <= 4 && x != y
    ensures ParseLine(before + y + after + [SPACE] + Hex(Crc32(before + x + after), 8)) == Corrupt(Mismatch)
  {
    hide Hex, ParseHex, Crc32;
    var data, h := before + y + after, Hex(Crc32(before + x + after), 8);
    BurstDetected(before, x, y, after);
    ChecksumBack(Crc32(before + x + after));
    LastSpaceAt(data, h);
    assert (data + [SPACE] + h)[..|data|] == data;
    assert (data + [SPACE] + h)[|data| + 1..] == h;
  }

  // ----- small files: one line -----

  datatype ReadResult = Missing | Read(text: Text) | Damaged(reason: Reason)

  function TrimStart(s: Text): Text { if s != [] && IsSpace(s[0]) then TrimStart(s[1..]) else s }

  function TrimEnd(s: Text): Text { if s != [] && IsSpace(s[|s| - 1]) then TrimEnd(s[..|s| - 1]) else s }

  function FileOf(data: Text): Text { FormatLine(data) + [NEWLINE] }

  function ReadFile(content: Option<Text>): ReadResult {
    if content.None? then Missing
    else
      var text := TrimEnd(TrimStart(content.value));
      if text == [] then Missing
      else
        match ParseLine(text)
        case Good(data) => Read(data)
        case Corrupt(reason) => Damaged(reason)
  }

  lemma {:induction false} TrimStartSuffix(s: Text) returns (k: nat)
    ensures k <= |s| && TrimStart(s) == s[k..]
    ensures (forall j | 0 <= j < k :: IsSpace(s[j])) && (k < |s| ==> !IsSpace(s[k]))
  {
    if s != [] && IsSpace(s[0]) {
      var j := TrimStartSuffix(s[1..]);
      k := j + 1;
      assert s[1..][j..] == s[k..];
      forall i | 0 <= i < k ensures IsSpace(s[i]) {
        if i > 0 { assert s[i] == s[1..][i - 1]; }
      }
    } else {
      k := 0;
    }
  }

  /** A file gives back what was written exactly when the data is not empty and does not start with
      white space. */
  lemma ReadBackIff(data: Text)
    ensures ReadFile(Some(FileOf(data))) == Read(data) <==> data != [] && !IsSpace(data[0])
  {
    hide Hex, ParseHex, Crc32, ParseLine;
    var h, s := Hex(Crc32(data), 8), FileOf(data);
    ChecksumBack(Crc32(data));
    var k := TrimStartSuffix(s);
    assert s[|data| + 1] == h[0];
    assert s[0] == if data == [] then SPACE else data[0];
    var t := FormatLine(data)[k..];
    assert s[k..] == t + [NEWLINE];
    assert t[|t| - 1] == h[7];
    TrimOneEnd(t);
    if k <= |data| {
      assert t == data[k..] + [SPACE] + h;
      CutLine(data, k);
      if k == 0 { LineRoundTrip(data); }
    } else {
      assert t == h;
      ParseNoSpace(t);
    }
  }

  lemma ParseNoSpace(s: Text)
    requires SPACE !in s
    ensures ParseLine(s) == Corrupt(NoChecksum)
  {
  }

  /** A line that lost its first k bytes does not read as the whole line's data. */
  lemma CutLine(data: Text, k: nat)
    requires k <= |data|
    ensures k > 0 ==> ParseLine(data[k..] + [SPACE] + Hex(Crc32(data), 8)) != Good(data)
    ensures k == 0 ==> data[k..] + [SPACE] + Hex(Crc32(data), 8) == FormatLine(data)
  {
    hide Hex, ParseHex, Crc32;
    var h := Hex(Crc32(data), 8);
    ChecksumBack(Crc32(data));
    LastSpaceAt(data[k..], h);
  }

  lemma TrimOneEnd(s: Text)
    requires s != [] && !IsSpace(s[|s| - 1])
    ensures TrimEnd(s + [NEWLINE]) == s
  {
    assert (s + [NEWLINE])[..|s|] == s;
  }

  /** Digits are lower-case, leading zeros included. */
  lemma {:induction false} HexIsLower(w: bv32, n: nat)
    ensures |Hex(w, n)| == n && forall b <- Hex(w, n) :: 48 <= b <= 57 || 97 <= b <= 102
    decreases n
  {
    if n > 0 {
      HexIsLower(Rest(w), n - 1);
      DigitIsLower(LowDigit(w));
    }
  }

  lemma DigitIsLower(d: bv32)
    requires d <= 15
    ensures 48 <= HexDigit(d) <= 57 || 97 <= HexDigit(d) <= 102
  {
  }

  /** A digit is read in either case, and nothing else is. */
  lemma DigitsRead(b: Byte)
    ensures DigitValue(b).Some? <==> 48 <= b <= 57 || 65 <= b <= 70 || 97 <= b <= 102
    ensures 65 <= b <= 70 ==> DigitValue(b) == DigitValue(b + 32)
    ensures DigitValue(b).Some? ==> b == HexDigit(DigitValue(b).value) || b + 32 == HexDigit(DigitValue(b).value)
  {
  }

  /** A number is refused if it has anything in it but digits after at most one plus sign. */
  lemma {:induction false} OnlyDigitsRead(s: Text)
    ensures ParseDigits(s).Some? ==> forall b <- s :: DigitValue(b).Some?
    ensures ParseHex(s).Some? ==> s != [] && s != [PLUS]
    ensures s != [] && s[0] != PLUS ==> ParseHex([PLUS] + s) == ParseHex(s)
    decreases |s|
  {
    if s != [] {
      OnlyDigitsRead(s[..|s| - 1]);
      assert ([PLUS] + s)[1..] == s && ([PLUS] + s)[0] == PLUS;
      assert |[PLUS] + s| != |[PLUS]|;
    }
  }

  lemma {:induction false} TrimEndPrefix(s: Text) returns (k: nat)
    ensures k <= |s| && TrimEnd(s) == s[..k]
    ensures (forall i | k <= i < |s| :: IsSpace(s[i])) && (k > 0 ==> !IsSpace(s[k - 1]))
    decreases |s|
  {
    if s != [] && IsSpace(s[|s| - 1]) {
      k := TrimEndPrefix(s[..|s| - 1]);
      assert s[..|s| - 1][..k] == s[..k];
      assert forall i | 0 <= i < |s| - 1 :: s[..|s| - 1][i] == s[i];
    } else {
      k := |s|;
    }
  }

  lemma Trimmed(s: Text) returns (j: nat, k: nat)
    ensures j <= k <= |s| && TrimEnd(TrimStart(s)) == s[j..k]
    ensures (forall i | 0 <= i < j :: IsSpace(s[i])) && forall i | k <= i < |s| :: IsSpace(s[i])
    ensures j < k ==> !IsSpace(s[j]) && !IsSpace(s[k - 1])
  {
    j := TrimStartSuffix(s);
    var n := TrimEndPrefix(s[j..]);
    k := j + n;
    assert s[j..][..n] == s[j..k];
    assert forall i | k <= i < |s| :: s[j..][i - j] == s[i];
    if n > 0 { assert s[j..][n - 1] == s[k - 1] && s[j..][0] == s[j]; }
    hide IsSpace;
    if n > 0 && j < |s| { assert !IsSpace(s[j]); }
  }

  /** Between its white space the file is the data, a space and the number that is its checksum. */
  ghost predicate Vouched(content: Text, data: Text) {
    exists h :: TrimEnd(TrimStart(content)) == data + [SPACE] + h && SPACE !in h && ParseHex(h) == Some(Crc32(data))
  }

  /** A small file that is not there, or blank, holds nothing; what is read from any other is, between its white
      space, followed by a space and the number that is its checksum; and if that is not there, the file is
      damaged. */
  lemma FileDecided(content: Text)
    ensures ReadFile(None) == Missing
    ensures ReadFile(Some(content)) == Missing <==> forall b <- content :: IsSpace(b)
    ensures forall data :: ReadFile(Some(content)) == Read(data) <==>
                           Vouched(content, data) && exists b <- content :: !IsSpace(b)
    ensures ReadFile(Some(content)).Damaged? <==>
            (exists b <- content :: !IsSpace(b)) && forall data :: !Vouched(content, data)
  {
    var j, k := Trimmed(content);
    hide TrimStart, TrimEnd, ParseLine, ParseHex, Crc32, IsSpace;
    var text := content[j..k];
    if j < k { assert content[j] in content; }
    forall data ensures ParseLine(text) == Good(data) <==> Vouched(content, data) { AcceptedIff(text, data); }
  }

  /** A small file whose data was damaged within four bytes is refused, if it does not then begin with white
      space. */
  lemma DamagedFileRefused(before: Text, x: Text, y: Text, after: Text)
    requires |x| == |y| <= 4 && x != y && !IsSpace((before + y + after)[0])
    ensures ReadFile(Some(before + y + after + [SPACE] + Hex(Crc32(before + x + after), 8) + [NEWLINE]))
         == Damaged(Mismatch)
  {
    BurstRefused(before, x, y, after);
    var h := Hex(Crc32(before + x + after), 8);
    ChecksumBack(Crc32(before + x + after));
    hide Hex, ParseHex, Crc32, ParseLine;
    var line := before + y + after + [SPACE] + h;
    assert line[|line| - 1] == h[7] && h[7] in h;
    assert (line + [NEWLINE])[0] == (before + y + after)[0];
    TrimOneEnd(line);
  }
}
