/**
 * The observation-file reader: every line of the file must hold an
 * identifier followed by three numbers (x, y, z), with blanks or commas as
 * separators. Lines become records in file order; the first line that does
 * not yield a record aborts the whole read with its 1-based line number.
 *
 * The file is given as the sequence of lines `std::getline` would deliver,
 * and whether it could be opened as a flag. The conversion of text to a
 * double (the stream's `operator>>`) is an oracle `scan`: given the text
 * at the read position, it returns the number read and how many characters
 * it consumed, or None when no number can be read there.
 */
module ReadData {
  import opened Numerics

  /** One observation: an identifier and the location and value. */
  datatype DataRecord = DataRecord(id: string, x: real, y: real, z: real)

  /** The two exceptions the reader throws. */
  datatype ReadError =
    | InvalidInputFile(filename: string)
    | InvalidDataRecord(line: nat, filename: string)

  datatype Result<T> = Ok(value: T) | Err(error: ReadError)

  /** The reader's return value: the column headers and the records. */
  datatype InputData = InputData(headers: seq<string>, obs: seq<DataRecord>)

  const HEADERS: seq<string> := ["A", "B", "C", "D"]

  /** The characters the classic locale treats as white space. */
  predicate IsSpace(c: char) {
    c == ' ' || c == '\t' || c == '\n' || c == '\U{0B}' || c == '\U{0C}' || c == '\r'
  }

  /** A separator in the file: white space or a comma. */
  predicate IsSeparator(c: char) {
    IsSpace(c) || c == ','
  }

  // ---------------------------------------------------------------------------
  // Comma replacement
  // ---------------------------------------------------------------------------

  function Blank(c: char): char {
    if c == ',' then ' ' else c
  }

  /** The line with every comma replaced by a blank. */
  function Blanked(line: string): (s: string)
    ensures |s| == |line|
    ensures forall i :: 0 <= i < |line| ==> s[i] != ','
    ensures forall i :: 0 <= i < |line| && line[i] != ',' ==> s[i] == line[i]
    ensures forall i :: 0 <= i < |line| && line[i] == ',' ==> s[i] == ' '
  {
    seq(|line|, i requires 0 <= i < |line| => Blank(line[i]))
  }

  /** `std::replace(line.begin(), line.end(), ',', ' ')`, in place. */
  method ReplaceCommas(a: array<char>)
    modifies a
    ensures a[..] == Blanked(old(a[..]))
  {
    for i := 0 to a.Length
      invariant forall j :: 0 <= j < i ==> a[j] == Blank(old(a[j]))
      invariant forall j :: i <= j < a.Length ==> a[j] == old(a[j])
    {
      if a[i] == ',' {
        a[i] := ' ';
      }
    }
  }

  // ---------------------------------------------------------------------------
  // Stream extraction
  // ---------------------------------------------------------------------------

  /**
   * What the number oracle must satisfy: a successful read consumes at
   * least one and at most all of the characters it is given, and the read
   * stops at white space, so text after a blank cannot change it.
   */
  ghost predicate ScanSound(scan: string -> Option<(real, nat)>) {
    && (forall s :: scan(s).Some? ==> 0 < scan(s).value.1 <= |s|)
    && (forall s, t :: ScanStops(scan, s, t))
  }

  /** The number read from `s` is unchanged by text `t` that starts with white space. */
  ghost predicate ScanStops(scan: string -> Option<(real, nat)>, s: string, t: string) {
    |t| > 0 && IsSpace(t[0]) ==> scan(s + t) == scan(s)
  }

  /** The position of the first non-space character at or after `p`. */
  function SkipSpaces(s: string, p: nat): (q: nat)
    requires p <= |s|
    ensures p <= q <= |s|
    ensures forall i :: p <= i < q ==> IsSpace(s[i])
    ensures q == |s| || !IsSpace(s[q])
    decreases |s| - p
  {
    if p == |s| || !IsSpace(s[p]) then p else SkipSpaces(s, p + 1)
  }

  /** The position of the first space character at or after `p`. */
  function WordEnd(s: string, p: nat): (e: nat)
    requires p <= |s|
    ensures p <= e <= |s|
    ensures forall i :: p <= i < e ==> !IsSpace(s[i])
    ensures e == |s| || IsSpace(s[e])
    decreases |s| - p
  {
    if p == |s| || IsSpace(s[p]) then p else WordEnd(s, p + 1)
  }

  /**
   * `is >> word`: skip white space, then read the longest run of non-space
   * characters; it fails when only white space is left. Yields the word and
   * the position after it.
   */
  function ExtractWord(s: string, p: nat): (r: Option<(string, nat)>)
    requires p <= |s|
    ensures r.None? <==> forall i :: p <= i < |s| ==> IsSpace(s[i])
    ensures r.Some? ==>
      var (w, e) := r.value;
      && p < e <= |s| && 0 < |w| <= e - p
      && w == s[e - |w|..e]
      && (forall i :: p <= i < e - |w| ==> IsSpace(s[i]))
      && (forall i :: 0 <= i < |w| ==> !IsSpace(w[i]))
      && (e == |s| || IsSpace(s[e]))
  {
    var q := SkipSpaces(s, p);
    if q == |s| then None else Some((s[q..WordEnd(s, q)], WordEnd(s, q)))
  }

  /**
   * `is >> number`: skip white space, then let the oracle read a number from
   * the rest; it fails when only white space is left or the oracle fails.
   */
  function ExtractNumber(s: string, p: nat, scan: string -> Option<(real, nat)>): (r: Option<(real, nat)>)
    requires p <= |s| && ScanSound(scan)
    ensures r.Some? ==> p < r.value.1 <= |s|
  {
    var q := SkipSpaces(s, p);
    if q == |s| then None
    else match scan(s[q..])
      case None => None
      case Some((v, n)) => Some((v, q + n))
  }

  /**
   * `is >> ii >> xx >> yy >> zz` on the blanked line `s`: the record and the
   * position after its last number, or None as soon as one extraction fails.
   */
  function Extract(s: string, scan: string -> Option<(real, nat)>): (r: Option<(DataRecord, nat)>)
    requires ScanSound(scan)
    ensures r.Some? ==> r.value.1 <= |s|
  {
    match ExtractWord(s, 0)
    case None => None
    case Some((id, p1)) =>
      match ExtractNumber(s, p1, scan)
      case None => None
      case Some((x, p2)) =>
        match ExtractNumber(s, p2, scan)
        case None => None
        case Some((y, p3)) =>
          match ExtractNumber(s, p3, scan)
          case None => None
          case Some((z, p4)) => Some((DataRecord(id, x, y, z), p4))
  }

  /** The record a line of the file yields, if any. */
  function ParseLine(line: string, scan: string -> Option<(real, nat)>): Option<DataRecord>
    requires ScanSound(scan)
  {
    ParseBlanked(Blanked(line), scan)
  }

  /** The record the four extractions give on a line whose commas are blanked. */
  function ParseBlanked(s: string, scan: string -> Option<(real, nat)>): Option<DataRecord>
    requires ScanSound(scan)
  {
    match Extract(s, scan)
    case None => None
    case Some((rec, _)) => Some(rec)
  }

  /** Skipping white space from position `p` of the character buffer. */
  method SkipBlanks(a: array<char>, p: nat) returns (q: nat)
    requires p <= a.Length
    ensures q == SkipSpaces(a[..], p)
  {
    q := p;
    while q < a.Length && IsSpace(a[q])
      invariant p <= q <= a.Length
      invariant SkipSpaces(a[..], p) == SkipSpaces(a[..], q)
      decreases a.Length - q
    {
      q := q + 1;
    }
  }

  /** Reading a word from position `p` of the character buffer. */
  method ReadWord(a: array<char>, p: nat) returns (r: Option<(string, nat)>)
    requires p <= a.Length
    ensures r == ExtractWord(a[..], p)
  {
    var q := SkipBlanks(a, p);
    if q == a.Length {
      return None;
    }
    var e := q;
    var w: string := [];
    while e < a.Length && !IsSpace(a[e])
      invariant q <= e <= a.Length
      invariant w == a[q..e]
      invariant WordEnd(a[..], q) == WordEnd(a[..], e)
      decreases a.Length - e
    {
      w := w + [a[e]];
      e := e + 1;
    }
    return Some((w, e));
  }

  /** Reading a number from position `p` of the character buffer. */
  method ReadNumber(a: array<char>, p: nat, scan: string -> Option<(real, nat)>) returns (r: Option<(real, nat)>)
    requires p <= a.Length && ScanSound(scan)
    ensures r == ExtractNumber(a[..], p, scan)
  {
    var q := SkipBlanks(a, p);
    if q == a.Length {
      return None;
    }
    var read := scan(a[q..]);
    if read.None? {
      return None;
    }
    return Some((read.value.0, q + read.value.1));
  }

  /**
   * One pass of the reading loop on one line: the commas are blanked in a
   * copy of the line, then the four extractions are made.
   */
  method ParseRecord(line: string, scan: string -> Option<(real, nat)>) returns (r: Option<DataRecord>)
    requires ScanSound(scan)
    ensures r == ParseLine(line, scan)
  {
    var a := new char[|line|](i requires 0 <= i < |line| => line[i]);
    assert a[..] == line;
    ReplaceCommas(a);
    ghost var s := a[..];
    assert ParseLine(line, scan) == ParseBlanked(s, scan);
    var id := ReadWord(a, 0);
    if id.None? {
      return None;
    }
    var x := ReadNumber(a, id.value.1, scan);
    if x.None? {
      return None;
    }
    var y := ReadNumber(a, x.value.1, scan);
    if y.None? {
      return None;
    }
    var z := ReadNumber(a, y.value.1, scan);
    if z.None? {
      return None;
    }
    return Some(DataRecord(id.value.0, x.value.0, y.value.0, z.value.0));
  }

  // ---------------------------------------------------------------------------
  // What a line yields
  // ---------------------------------------------------------------------------

  /** A line of separators only, the empty line included, yields no record. */
  lemma BlankLineRejected(line: string, scan: string -> Option<(real, nat)>)
    requires ScanSound(scan)
    requires forall i :: 0 <= i < |line| ==> IsSeparator(line[i])
    ensures ParseLine(line, scan).None?
  {
    var s := Blanked(line);
    assert forall i :: 0 <= i < |s| ==> IsSpace(s[i]);
    assert ExtractWord(s, 0).None?;
  }

  /**
   * Commas and blanks are interchangeable: two lines that differ only in
   * which of the two stands at some positions yield the same record.
   */
  lemma SeparatorsInterchangeable(line1: string, line2: string, scan: string -> Option<(real, nat)>)
    requires ScanSound(scan) && |line1| == |line2|
    requires forall i :: 0 <= i < |line1| ==>
      line1[i] == line2[i] || (line1[i] in ", " && line2[i] in ", ")
    ensures ParseLine(line1, scan) == ParseLine(line2, scan)
  {
    assert Blanked(line1) == Blanked(line2);
  }

  lemma BlankedConcat(a: string, b: string)
    ensures Blanked(a + b) == Blanked(a) + Blanked(b)
  {
    assert forall i :: 0 <= i < |a| + |b| ==> Blanked(a + b)[i] == (Blanked(a) + Blanked(b))[i];
  }

  lemma SkipSpacesAt(s: string, p: nat, q: nat)
    requires p <= q <= |s|
    requires forall i :: p <= i < q ==> IsSpace(s[i])
    requires q == |s| || !IsSpace(s[q])
    ensures SkipSpaces(s, p) == q
  {
  }

  lemma WordEndAt(s: string, p: nat, e: nat)
    requires p <= e <= |s|
    requires forall i :: p <= i < e ==> !IsSpace(s[i])
    requires e == |s| || IsSpace(s[e])
    ensures WordEnd(s, p) == e
  {
  }

  /** A word is read the same when text starting with white space follows. */
  lemma ExtendWord(s: string, t: string, p: nat)
    requires p <= |s| && |t| > 0 && IsSpace(t[0])
    requires ExtractWord(s, p).Some?
    ensures ExtractWord(s + t, p) == ExtractWord(s, p)
  {
    var q := SkipSpaces(s, p);
    SkipSpacesAt(s + t, p, q);
    var e := WordEnd(s, q);
    WordEndAt(s + t, q, e);
    assert (s + t)[q..e] == s[q..e];
  }

  /** A number is read the same when text starting with white space follows. */
  lemma ExtendNumber(s: string, t: string, p: nat, scan: string -> Option<(real, nat)>)
    requires ScanSound(scan)
    requires p <= |s| && |t| > 0 && IsSpace(t[0])
    requires ExtractNumber(s, p, scan).Some?
    ensures ExtractNumber(s + t, p, scan) == ExtractNumber(s, p, scan)
  {
    var q := SkipSpaces(s, p);
    SkipSpacesAt(s + t, p, q);
    assert (s + t)[q..] == s[q..] + t;
    assert ScanStops(scan, s[q..], t);
  }

  /**
   * Tokens after the fourth are ignored: appending anything that starts with
   * a separator to a line that yields a record yields the same record.
   */
  lemma TrailingIgnored(line: string, rest: string, scan: string -> Option<(real, nat)>)
    requires ScanSound(scan)
    requires ParseLine(line, scan).Some? && |rest| > 0 && IsSeparator(rest[0])
    ensures ParseLine(line + rest, scan) == ParseLine(line, scan)
  {
    var s := Blanked(line);
    var t := Blanked(rest);
    BlankedConcat(line, rest);
    ExtendWord(s, t, 0);
    var (_, p1) := ExtractWord(s, 0).value;
    ExtendNumber(s, t, p1, scan);
    var (_, p2) := ExtractNumber(s, p1, scan).value;
    ExtendNumber(s, t, p2, scan);
    var (_, p3) := ExtractNumber(s, p2, scan).value;
    ExtendNumber(s, t, p3, scan);
  }

  /** A token: non-empty, with no white space and no comma in it. */
  predicate IsToken(w: string) {
    |w| > 0 && forall i :: 0 <= i < |w| ==> !IsSeparator(w[i])
  }

  lemma BlankedToken(w: string)
    requires IsToken(w)
    ensures Blanked(w) == w
  {
  }

  /** A number token after one blank, followed by the end or white space, is read whole. */
  lemma NumberAt(pre: string, blank: char, tok: string, t: string, v: real, scan: string -> Option<(real, nat)>)
    requires ScanSound(scan) && IsSpace(blank)
    requires IsToken(tok) && (|t| == 0 || IsSpace(t[0]))
    requires scan(tok) == Some((v, |tok|))
    ensures ExtractNumber(pre + [blank] + tok + t, |pre|, scan) == Some((v, |pre| + 1 + |tok|))
  {
    var s := pre + [blank] + tok + t;
    var p := |pre|;
    assert s[p + 1] == tok[0];
    SkipSpacesAt(s, p, p + 1);
    assert s[p + 1..] == tok + t;
    if |t| > 0 {
      assert ScanStops(scan, tok, t);
    } else {
      assert tok + t == tok;
    }
  }

  /** The blanked form of a line of four tokens joined by a separator. */
  lemma BlankedFields(id: string, a: string, b: string, c: string, sep: char)
    requires IsSeparator(sep)
    requires IsToken(id) && IsToken(a) && IsToken(b) && IsToken(c)
    ensures
      var sp := [Blank(sep)];
      Blanked(id + [sep] + a + [sep] + b + [sep] + c) == id + sp + a + sp + b + sp + c
  {
    var sp := [Blank(sep)];
    assert Blanked([sep]) == sp;
    BlankedToken(id);
    BlankedToken(a);
    BlankedToken(b);
    BlankedToken(c);
    BlankedConcat(id + [sep] + a + [sep] + b + [sep], c);
    BlankedConcat(id + [sep] + a + [sep] + b, [sep]);
    BlankedConcat(id + [sep] + a + [sep], b);
    BlankedConcat(id + [sep] + a, [sep]);
    BlankedConcat(id + [sep], a);
    BlankedConcat(id, [sep]);
  }

  /** An identifier token followed by white space is read whole. */
  lemma WordAt(id: string, t: string)
    requires IsToken(id) && |t| > 0 && IsSpace(t[0])
    ensures ExtractWord(id + t, 0) == Some((id, |id|))
  {
    var s := id + t;
    SkipSpacesAt(s, 0, 0);
    WordEndAt(s, 0, |id|);
    assert s[0..|id|] == id;
  }

  /** The regroupings of a line of four fields used to read it field by field. */
  lemma Regroup(id: string, sp: string, a: string, b: string, c: string)
    ensures id + sp + a + sp + b + sp + c == id + (sp + a + sp + b + sp + c)
    ensures id + sp + a + sp + b + sp + c == id + sp + a + (sp + b + sp + c)
    ensures id + sp + a + sp + b + sp + c == (id + sp + a) + sp + b + (sp + c)
    ensures id + sp + a + sp + b + sp + c == (id + sp + a + sp + b) + sp + c + []
  {
  }

  /** The record read once the four extractions are known. */
  lemma ExtractOf(s: string, id: string, x: real, y: real, z: real, p1: nat, p2: nat, p3: nat, p4: nat,
                  scan: string -> Option<(real, nat)>)
    requires ScanSound(scan) && p1 <= p2 <= p3 <= |s|
    requires ExtractWord(s, 0) == Some((id, p1))
    requires ExtractNumber(s, p1, scan) == Some((x, p2))
    requires ExtractNumber(s, p2, scan) == Some((y, p3))
    requires ExtractNumber(s, p3, scan) == Some((z, p4))
    ensures Extract(s, scan) == Some((DataRecord(id, x, y, z), p4))
  {
  }

  /** The identifier, the first, second and third number of four tokens joined by blanks. */
  lemma FirstField(id: string, a: string, b: string, c: string, blank: char)
    requires IsSpace(blank) && IsToken(id)
    ensures ExtractWord(id + [blank] + a + [blank] + b + [blank] + c, 0) == Some((id, |id|))
  {
    var sp := [blank];
    Regroup(id, sp, a, b, c);
    WordAt(id, sp + a + sp + b + sp + c);
  }

  lemma SecondField(id: string, a: string, b: string, c: string, blank: char, x: real,
                    scan: string -> Option<(real, nat)>)
    requires ScanSound(scan) && IsSpace(blank) && IsToken(a) && scan(a) == Some((x, |a|))
    ensures ExtractNumber(id + [blank] + a + [blank] + b + [blank] + c, |id|, scan) == Some((x, |id| + 1 + |a|))
  {
    var sp := [blank];
    Regroup(id, sp, a, b, c);
    NumberAt(id, blank, a, sp + b + sp + c, x, scan);
  }

  lemma ThirdField(id: string, a: string, b: string, c: string, blank: char, y: real,
                   scan: string -> Option<(real, nat)>)
    requires ScanSound(scan) && IsSpace(blank) && IsToken(b) && scan(b) == Some((y, |b|))
    ensures ExtractNumber(id + [blank] + a + [blank] + b + [blank] + c, |id| + 1 + |a|, scan)
      == Some((y, |id| + 1 + |a| + 1 + |b|))
  {
    var sp := [blank];
    Regroup(id, sp, a, b, c);
    NumberAt(id + sp + a, blank, b, sp + c, y, scan);
  }

  lemma FourthField(id: string, a: string, b: string, c: string, blank: char, z: real,
                    scan: string -> Option<(real, nat)>)
    requires ScanSound(scan) && IsSpace(blank) && IsToken(c) && scan(c) == Some((z, |c|))
    ensures ExtractNumber(id + [blank] + a + [blank] + b + [blank] + c, |id| + 1 + |a| + 1 + |b|, scan)
      == Some((z, |id| + 1 + |a| + 1 + |b| + 1 + |c|))
  {
    var sp := [blank];
    Regroup(id, sp, a, b, c);
    NumberAt(id + sp + a + sp + b, blank, c, [], z, scan);
  }

  /** The four extractions on four tokens joined by single blanks. */
  lemma ExtractFields(id: string, a: string, b: string, c: string, blank: char,
                      x: real, y: real, z: real, scan: string -> Option<(real, nat)>)
    requires ScanSound(scan) && IsSpace(blank)
    requires IsToken(id) && IsToken(a) && IsToken(b) && IsToken(c)
    requires scan(a) == Some((x, |a|)) && scan(b) == Some((y, |b|)) && scan(c) == Some((z, |c|))
    ensures
      var s := id + [blank] + a + [blank] + b + [blank] + c;
      Extract(s, scan) == Some((DataRecord(id, x, y, z), |s|))
  {
    var s := id + [blank] + a + [blank] + b + [blank] + c;
    FirstField(id, a, b, c, blank);
    SecondField(id, a, b, c, blank, x, scan);
    ThirdField(id, a, b, c, blank, y, scan);
    FourthField(id, a, b, c, blank, z, scan);
    var p4 := |id| + 1 + |a| + 1 + |b| + 1 + |c|;
    ExtractOf(s, id, x, y, z, |id|, |id| + 1 + |a|, |id| + 1 + |a| + 1 + |b|, p4, scan);
    assert |s| == p4;
  }

  /**
   * A well-formed line yields its record: an identifier token and three
   * tokens the number reader consumes whole, each pair joined by one
   * separator, give the record of that identifier and those three numbers.
   */
  lemma WellFormedLine(id: string, a: string, b: string, c: string, sep: char,
                       x: real, y: real, z: real, scan: string -> Option<(real, nat)>)
    requires ScanSound(scan) && IsSeparator(sep)
    requires IsToken(id) && IsToken(a) && IsToken(b) && IsToken(c)
    requires scan(a) == Some((x, |a|)) && scan(b) == Some((y, |b|)) && scan(c) == Some((z, |c|))
    ensures ParseLine(id + [sep] + a + [sep] + b + [sep] + c, scan) == Some(DataRecord(id, x, y, z))
  {
    BlankedFields(id, a, b, c, sep);
    ExtractFields(id, a, b, c, Blank(sep), x, y, z, scan);
  }

  // ---------------------------------------------------------------------------
  // The whole file
  // ---------------------------------------------------------------------------

  /** What the lines of a file amount to: all their records, or the first failing line. */
  datatype Outcome = Records(obs: seq<DataRecord>) | FailedAt(line: nat)

  /** A line parser that accepts every line. */
  ghost predicate Total(parse: string --> Option<DataRecord>) {
    forall line :: parse.requires(line)
  }

  /** The reading loop's outcome for the lines of a file under a line parser. */
  function Parse(lines: seq<string>, parse: string --> Option<DataRecord>): Outcome
    requires Total(parse)
  {
    if |lines| == 0 then Records([])
    else match parse(lines[0])
      case None => FailedAt(1)
      case Some(rec) =>
        match Parse(lines[1..], parse)
        case Records(obs) => Records([rec] + obs)
        case FailedAt(n) => FailedAt(n + 1)
  }

  /** `ParseLine` for a fixed number reader, as a line parser. */
  function LineParser(scan: string -> Option<(real, nat)>): (parse: string --> Option<DataRecord>)
    requires ScanSound(scan)
    ensures Total(parse)
    ensures forall line :: parse(line) == ParseLine(line, scan)
  {
    line requires ScanSound(scan) => ParseLine(line, scan)
  }

  /** The reader's result for a file that opened or not, with the given lines. */
  function ReadResult(isOpen: bool, filename: string, lines: seq<string>,
                      scan: string -> Option<(real, nat)>): Result<InputData>
    requires ScanSound(scan)
  {
    if !isOpen then Err(InvalidInputFile(filename))
    else match Parse(lines, LineParser(scan))
      case Records(obs) => Ok(InputData(HEADERS, obs))
      case FailedAt(n) => Err(InvalidDataRecord(n, filename))
  }

  /**
   * A file parses to records exactly when every line yields one; the records
   * are then one per line, in file order.
   */
  lemma {:induction false} ParseRecords(lines: seq<string>, parse: string --> Option<DataRecord>)
    requires Total(parse)
    ensures Parse(lines, parse).Records? <==> forall j :: 0 <= j < |lines| ==> parse(lines[j]).Some?
    ensures Parse(lines, parse).Records? ==>
      && |Parse(lines, parse).obs| == |lines|
      && forall j :: 0 <= j < |lines| ==> Parse(lines, parse).obs[j] == parse(lines[j]).value
  {
    if |lines| > 0 {
      ParseRecords(lines[1..], parse);
      if parse(lines[0]).Some? && Parse(lines[1..], parse).Records? {
        forall j | 0 < j < |lines|
          ensures parse(lines[j]) == parse(lines[1..][j - 1])
        {
        }
      }
      if parse(lines[0]).Some? && !Parse(lines[1..], parse).Records? {
        var j :| 0 <= j < |lines[1..]| && parse(lines[1..][j]).None?;
        assert parse(lines[j + 1]).None?;
      }
    }
  }

  /**
   * A file fails at line n (1-based) exactly when line n yields no record
   * and every line before it does.
   */
  lemma {:induction false} ParseFailedAt(lines: seq<string>, parse: string --> Option<DataRecord>, n: nat)
    requires Total(parse)
    ensures Parse(lines, parse) == FailedAt(n) <==>
      && 1 <= n <= |lines|
      && parse(lines[n - 1]).None?
      && forall j :: 0 <= j < n - 1 ==> parse(lines[j]).Some?
  {
    if |lines| > 0 && n > 1 {
      var rest := lines[1..];
      ParseFailedAt(rest, parse, n - 1);
      if n - 1 <= |rest| {
        if forall j :: 0 <= j < n - 1 ==> parse(lines[j]).Some? {
          forall j | 0 <= j < n - 2
            ensures parse(rest[j]).Some?
          {
            assert rest[j] == lines[j + 1];
          }
        }
        if parse(lines[0]).Some? && forall j :: 0 <= j < n - 2 ==> parse(rest[j]).Some? {
          forall j | 0 <= j < n - 1
            ensures parse(lines[j]).Some?
          {
            if j > 0 {
              assert lines[j] == rest[j - 1];
            }
          }
        }
        assert rest[n - 2] == lines[n - 1];
      }
    }
  }

  /**
   * Blank lines are not skipped: a file with a line of separators only (or
   * an empty line) at index b fails, at that line or an earlier one.
   */
  lemma BlankLineAborts(filename: string, lines: seq<string>, scan: string -> Option<(real, nat)>, b: nat)
    requires ScanSound(scan) && b < |lines|
    requires forall i :: 0 <= i < |lines[b]| ==> IsSeparator(lines[b][i])
    ensures ReadResult(true, filename, lines, scan).Err?
    ensures ReadResult(true, filename, lines, scan).error.InvalidDataRecord?
    ensures ReadResult(true, filename, lines, scan).error.line <= b + 1
  {
    var parse := LineParser(scan);
    BlankLineRejected(lines[b], scan);
    assert parse(lines[b]).None?;
    ParseRecords(lines, parse);
    var n := Parse(lines, parse).line;
    ParseFailedAt(lines, parse, n);
  }

  /** The loop's exit on a line without a record, after the records `obs` of the earlier lines. */
  lemma StopsAtFirstFailure(lines: seq<string>, parse: string --> Option<DataRecord>, obs: seq<DataRecord>)
    requires Total(parse) && |obs| < |lines|
    requires forall j :: 0 <= j < |obs| ==> parse(lines[j]) == Some(obs[j])
    requires parse(lines[|obs|]).None?
    ensures Parse(lines, parse) == FailedAt(|obs| + 1)
  {
    ParseFailedAt(lines, parse, |obs| + 1);
  }

  /** The loop's step on a line with a record: the record is appended in file order. */
  lemma RecordAppended(lines: seq<string>, parse: string --> Option<DataRecord>, obs: seq<DataRecord>,
                       rec: DataRecord)
    requires Total(parse) && |obs| < |lines|
    requires forall j :: 0 <= j < |obs| ==> parse(lines[j]) == Some(obs[j])
    requires parse(lines[|obs|]) == Some(rec)
    ensures forall j :: 0 <= j < |obs| + 1 ==> parse(lines[j]) == Some((obs + [rec])[j])
  {
  }

  /** The loop's normal exit, with the records `obs` of every line. */
  lemma ReadsEveryLine(lines: seq<string>, parse: string --> Option<DataRecord>, obs: seq<DataRecord>)
    requires Total(parse) && |obs| == |lines|
    requires forall j :: 0 <= j < |obs| ==> parse(lines[j]) == Some(obs[j])
    ensures Parse(lines, parse) == Records(obs)
  {
    ParseRecords(lines, parse);
    assert Parse(lines, parse).obs == obs;
  }

  /**
   * `read_data`: open the file, then read it line by line, appending one
   * record per line and giving up at the first line that yields none.
   */
  method Read(isOpen: bool, filename: string, lines: seq<string>,
              scan: string -> Option<(real, nat)>) returns (r: Result<InputData>)
    requires ScanSound(scan)
    ensures r == ReadResult(isOpen, filename, lines, scan)
    ensures r.Ok? ==> r.value.headers == ["A", "B", "C", "D"] && |r.value.obs| == |lines|
    ensures r.Err? && isOpen ==> r.error.InvalidDataRecord? && 1 <= r.error.line <= |lines|
  {
    if !isOpen {
      return Err(InvalidInputFile(filename));
    }
    ghost var parse := LineParser(scan);
    var headers := HEADERS;
    var obs: seq<DataRecord> := [];
    var i := 0;
    while i < |lines|
      invariant 0 <= i <= |lines| && |obs| == i
      invariant forall j :: 0 <= j < i ==> parse(lines[j]) == Some(obs[j])
    {
      var rec := ParseRecord(lines[i], scan);
      assert rec == parse(lines[i]);
      if rec.None? {
        StopsAtFirstFailure(lines, parse, obs);
        return Err(InvalidDataRecord(|obs| + 1, filename));
      }
      RecordAppended(lines, parse, obs, rec.value);
      obs := obs + [rec.value];
      i := i + 1;
    }
    ReadsEveryLine(lines, parse, obs);
    return Ok(InputData(headers, obs));
  }
}
