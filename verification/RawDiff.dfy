/** The parser of `git diff --raw -z` output, its record validator, and a printer they undo. */
module RawDiff {
  import opened Common
  import opened Utf8
  import NodePath

  datatype ParseError = MissingField | NotUtf8 | UnrecognizedHeader | UnsupportedStatus

  datatype Change = ADD | DELETE | MODIFY | RENAME

  datatype Record = Record(
    sequence: nat, status: string, changeType: Change,
    oldPath: Option<string>, newPath: Option<string>,
    oldBlob: Option<string>, newBlob: Option<string>,
    oldMode: Option<string>, newMode: Option<string>)

  const ZERO_MODE: string := "000000"

  const REPLACEMENT: char := '\U{FFFD}'

  function Repeat(c: char, n: nat): (s: string)
    ensures |s| == n && forall i :: 0 <= i < n ==> s[i] == c
  {
    seq(n, _ => c)
  }

  function ZeroObject(): string { Repeat('0', 40) }

  // ---- fields ----

  /** The fields of NUL-terminated text; an unterminated rest is one more field. */
  function Fields(raw: Bytes): seq<Bytes>
    decreases |raw|
  {
    if raw == [] then []
    else
      var n := FieldLength(raw);
      [raw[..n]] + (if n == |raw| then [] else Fields(raw[n + 1..]))
  }

  function FieldLength(raw: Bytes): (n: nat)
    ensures n <= |raw| && 0 !in raw[..n] && (n < |raw| ==> raw[n] == 0)
  {
    if raw == [] || raw[0] == 0 then 0
    else
      assert raw[..1 + FieldLength(raw[1..])] == [raw[0]] + raw[1..][..FieldLength(raw[1..])];
      1 + FieldLength(raw[1..])
  }

  lemma FieldLengthIs(raw: Bytes, n: nat)
    requires n <= |raw| && 0 !in raw[..n] && (n < |raw| ==> raw[n] == 0)
    ensures FieldLength(raw) == n
  {
  }

  /** The first zero byte ends the first field. */
  lemma FieldEnds(raw: Bytes, n: nat)
    requires n < |raw| && raw[n] == 0 && 0 !in raw[..n]
    ensures Fields(raw) == [raw[..n]] + Fields(raw[n + 1..])
  {
    FieldLengthIs(raw, n);
  }

  lemma LastField(raw: Bytes)
    requires raw != [] && 0 !in raw
    ensures Fields(raw) == [raw]
  {
    assert raw[..|raw|] == raw;
    FieldLengthIs(raw, |raw|);
  }

  /** `splitNul`. */
  method SplitNul(raw: Bytes) returns (fields: seq<Bytes>)
    ensures fields == Fields(raw)
  {
    hide Fields;
    fields := [];
    var start := 0;
    assert raw[0..] == raw;
    for index := 0 to |raw|
      invariant 0 <= start <= index
      invariant 0 !in raw[start..index]
      invariant fields + Fields(raw[start..]) == Fields(raw)
    {
      if raw[index] != 0 {
        assert raw[start..index + 1] == raw[start..index] + [raw[index]];
        continue;
      }
      NextField(raw, start, index);
      assert fields + ([raw[start..index]] + Fields(raw[index + 1..]))
          == fields + [raw[start..index]] + Fields(raw[index + 1..]);
      fields := fields + [raw[start..index]];
      start := index + 1;
    }
    if start < |raw| {
      assert raw[start..] == raw[start..|raw|];
      LastField(raw[start..]);
      fields := fields + [raw[start..]];
    } else {
      assert raw[start..] == [];
      NoFields();
    }
  }

  lemma NoFields()
    ensures Fields([]) == []
  {
  }

  lemma NextField(raw: Bytes, start: nat, index: nat)
    requires start <= index < |raw| && raw[index] == 0 && 0 !in raw[start..index]
    ensures Fields(raw[start..]) == [raw[start..index]] + Fields(raw[index + 1..])
  {
    hide Fields, FieldLength;
    var rest := raw[start..];
    assert rest[..index - start] == raw[start..index];
    assert rest[index - start + 1..] == raw[index + 1..];
    FieldEnds(rest, index - start);
  }

  function Terminated(fields: seq<Bytes>): Bytes
  {
    if fields == [] then [] else fields[0] + [0] + Terminated(fields[1..])
  }

  /** Splitting undoes NUL-terminated concatenation. */
  lemma {:induction false} SplitTerminated(fields: seq<Bytes>)
    requires forall field <- fields :: 0 !in field
    ensures Fields(Terminated(fields)) == fields
  {
    hide Fields, FieldLength;
    if fields == [] {
      NoFields();
    } else {
      var raw := Terminated(fields);
      var n := |fields[0]|;
      assert raw[..n] == fields[0] && raw[n] == 0 && raw[n + 1..] == Terminated(fields[1..]);
      FieldEnds(raw, n);
      SplitTerminated(fields[1..]);
    }
  }

  // ---- headers ----

  predicate Octal(s: string) { |s| == 6 && forall c <- s :: '0' <= c <= '7' }

  predicate Sha1(s: string) { |s| == 40 && forall c <- s :: '0' <= c <= '9' || 'a' <= c <= 'f' }

  predicate Digits(s: string) { forall c <- s :: '0' <= c <= '9' }

  predicate StatusText(s: string) { s != "" && 'A' <= s[0] <= 'Z' && Digits(s[1..]) }

  datatype Header = Header(oldMode: string, newMode: string, oldBlob: string, newBlob: string, status: string)

  /** The regular expression: every group but the last has a fixed place. */
  function MatchHeader(h: string): Option<Header>
  {
    if |h| < 98 then None
    else
      var m := Header(h[1..7], h[8..14], h[15..55], h[56..96], h[97..]);
      if h[0] == ':' && h[7] == ' ' && h[14] == ' ' && h[55] == ' ' && h[96] == ' '
         && Octal(m.oldMode) && Octal(m.newMode) && Sha1(m.oldBlob) && Sha1(m.newBlob) && StatusText(m.status)
      then Some(m) else None
  }

  function HeaderText(m: Header): string
  {
    ":" + m.oldMode + " " + m.newMode + " " + m.oldBlob + " " + m.newBlob + " " + m.status
  }

  predicate HeaderOk(m: Header)
  {
    Octal(m.oldMode) && Octal(m.newMode) && Sha1(m.oldBlob) && Sha1(m.newBlob) && StatusText(m.status)
  }

  lemma MatchText(m: Header)
    requires HeaderOk(m)
    ensures MatchHeader(HeaderText(m)) == Some(m)
  {
    var h := HeaderText(m);
    assert h[1..7] == m.oldMode && h[8..14] == m.newMode && h[15..55] == m.oldBlob;
    assert h[56..96] == m.newBlob && h[97..] == m.status;
  }

  lemma TextMatch(h: string)
    requires MatchHeader(h).Some?
    ensures HeaderOk(MatchHeader(h).value) && HeaderText(MatchHeader(h).value) == h
  {
    assert h == h[..1] + h[1..7] + h[7..8] + h[8..14] + h[14..15] + h[15..55] + h[55..56] + h[56..96] + h[96..97] + h[97..];
    assert h[..1] == ":" && h[7..8] == " " && h[14..15] == " " && h[55..56] == " " && h[96..97] == " ";
  }

  // ---- records ----

  /** `decodePath` on a field that exists. Invalid bytes decode to U+FFFD, so both are refused alike. */
  function DecodeField(field: Bytes): Result<string, ParseError>
  {
    match Decode(field)
    case None => Err(NotUtf8)
    case Some(text) => if REPLACEMENT in text then Err(NotUtf8) else Ok(text)
  }

  function DecodeAt(fields: seq<Bytes>, index: nat): Result<string, ParseError>
  {
    if index < |fields| then DecodeField(fields[index]) else Err(MissingField)
  }

  predicate IsRename(status: string) { |status| > 1 && status[0] == 'R' && Digits(status[1..]) }

  function NullMode(mode: string): Option<string> { if mode == ZERO_MODE then None else Some(mode) }

  function NullBlob(blob: string): Option<string> { if blob == ZeroObject() then None else Some(blob) }

  function MakeRecord(sequence: nat, m: Header, change: Change, oldPath: Option<string>, newPath: Option<string>): Record
  {
    Record(sequence, m.status, change, oldPath, newPath,
           NullBlob(m.oldBlob), NullBlob(m.newBlob), NullMode(m.oldMode), NullMode(m.newMode))
  }

  /** The record whose header has been read, and the fields after it. */
  function ParseBody(m: Header, rest: seq<Bytes>, sequence: nat): Result<(Record, seq<Bytes>), ParseError>
  {
    match DecodeAt(rest, 0)
    case Err(e) => Err(e)
    case Ok(first) =>
      if IsRename(m.status) then
        match DecodeAt(rest, 1)
        case Err(e) => Err(e)
        case Ok(second) => Ok((MakeRecord(sequence, m, RENAME, Some(first), Some(second)), rest[2..]))
      else if m.status == "A" then Ok((MakeRecord(sequence, m, ADD, None, Some(first)), rest[1..]))
      else if m.status == "D" then Ok((MakeRecord(sequence, m, DELETE, Some(first), None), rest[1..]))
      else if m.status == "M" then Ok((MakeRecord(sequence, m, MODIFY, Some(first), Some(first)), rest[1..]))
      else Err(UnsupportedStatus)
  }

  /** The records in the fields, after `done` earlier ones. */
  function ParseFields(fields: seq<Bytes>, done: nat): Result<seq<Record>, ParseError>
    decreases |fields|
  {
    if fields == [] then Ok([])
    else
      match DecodeField(fields[0])
      case Err(e) => Err(e)
      case Ok(header) =>
        if header == "" then ParseFields(fields[1..], done)
        else
          match MatchHeader(header)
          case None => Err(UnrecognizedHeader)
          case Some(m) =>
            match ParseBody(m, fields[1..], done + 1)
            case Err(e) => Err(e)
            case Ok((record, rest)) =>
              match ParseFields(rest, done + 1)
              case Err(e) => Err(e)
              case Ok(records) => Ok([record] + records)
  }

  function Prepended(records: seq<Record>, more: Result<seq<Record>, ParseError>): Result<seq<Record>, ParseError>
  {
    match more case Err(e) => Err(e) case Ok(rest) => Ok(records + rest)
  }

  /** The part of the loop after a matching header: one path, or two for a rename, then the record. */
  method ReadBody(fields: seq<Bytes>, start: nat, m: Header, sequence: nat)
    returns (r: Result<Record, ParseError>, index: nat)
    requires start <= |fields|
    ensures r.Err? ==> ParseBody(m, fields[start..], sequence) == Err(r.error)
    ensures r.Ok? ==>
              start < index <= |fields| && ParseBody(m, fields[start..], sequence) == Ok((r.value, fields[index..]))
  {
    index := start;
    var first := DecodeAt(fields, index);
    index := index + 1;
    if first.Err? { return Err(first.error), index; }
    if IsRename(m.status) {
      var second := DecodeAt(fields, index);
      index := index + 1;
      if second.Err? { return Err(second.error), index; }
      assert fields[start..][2..] == fields[index..];
      return Ok(MakeRecord(sequence, m, RENAME, Some(first.value), Some(second.value))), index;
    }
    assert fields[start..][1..] == fields[index..];
    if m.status == "A" {
      r := Ok(MakeRecord(sequence, m, ADD, None, Some(first.value)));
    } else if m.status == "D" {
      r := Ok(MakeRecord(sequence, m, DELETE, Some(first.value), None));
    } else if m.status == "M" {
      r := Ok(MakeRecord(sequence, m, MODIFY, Some(first.value), Some(first.value)));
    } else {
      r := Err(UnsupportedStatus);
    }
  }

  /** `parseRawDiff`. */
  method ParseRawDiff(raw: Bytes) returns (r: Result<seq<Record>, ParseError>)
    ensures r == ParseFields(Fields(raw), 0)
  {
    hide MatchHeader, ParseBody, DecodeField, Decode, Fields;
    var fields := SplitNul(raw);
    var records: seq<Record> := [];
    var index := 0;
    assert fields[0..] == fields;
    assert forall rest: seq<Record> :: [] + rest == rest;
    while index < |fields|
      invariant 0 <= index <= |fields|
      invariant ParseFields(fields, 0) == Prepended(records, ParseFields(fields[index..], |records|))
      decreases |fields| - index
    {
      ghost var here := fields[index..];
      var header := DecodeField(fields[index]);
      index := index + 1;
      assert here[0] == fields[index - 1] && here[1..] == fields[index..];
      if header.Err? { return Err(header.error); }
      if header.value == "" { continue; }
      var m := MatchHeader(header.value);
      if m.None? { return Err(UnrecognizedHeader); }
      var record, next := ReadBody(fields, index, m.value, |records| + 1);
      if record.Err? { return Err(record.error); }
      index := next;
      AppendOne(records, record.value, ParseFields(fields[index..], |records| + 1));
      records := records + [record.value];
    }
    assert records + [] == records;
    r := Ok(records);
  }

  lemma AppendOne(records: seq<Record>, record: Record, more: Result<seq<Record>, ParseError>)
    ensures Prepended(records, Prepended([record], more)) == Prepended(records + [record], more)
  {
    if more.Ok? { assert records + ([record] + more.value) == records + [record] + more.value; }
  }

  // ---- validation ----

  /** `safePathOrNull` on a path. */
  predicate SafePath(path: string)
  {
    && path != "" && '\0' !in path && path[0] != '/' && '\\' !in path
    && forall segment <- NodePath.Split(path) :: segment != "" && segment != "." && segment != ".."
  }

  predicate SidesPresent(path: Option<string>, blob: Option<string>, mode: Option<string>)
  {
    path.Some? && blob.Some? && mode.Some?
  }

  predicate SidesAbsent(path: Option<string>, blob: Option<string>, mode: Option<string>)
  {
    path.None? && blob.None? && mode.None?
  }

  /** `validateRecord` reports no error. */
  predicate Accepted(r: Record)
  {
    && (r.oldMode.Some? ==> Octal(r.oldMode.value)) && (r.newMode.Some? ==> Octal(r.newMode.value))
    && (r.oldBlob.Some? ==> Sha1(r.oldBlob.value)) && (r.newBlob.Some? ==> Sha1(r.newBlob.value))
    && (r.oldPath.Some? ==> SafePath(r.oldPath.value)) && (r.newPath.Some? ==> SafePath(r.newPath.value))
    && match r.changeType
       case ADD =>
         && r.status == "A" && SidesAbsent(r.oldPath, r.oldBlob, r.oldMode)
         && SidesPresent(r.newPath, r.newBlob, r.newMode)
       case DELETE =>
         && r.status == "D" && SidesPresent(r.oldPath, r.oldBlob, r.oldMode)
         && SidesAbsent(r.newPath, r.newBlob, r.newMode)
       case MODIFY =>
         && r.status == "M" && SidesPresent(r.oldPath, r.oldBlob, r.oldMode)
         && SidesPresent(r.newPath, r.newBlob, r.newMode)
         && r.oldPath == r.newPath && !(r.oldBlob == r.newBlob && r.oldMode == r.newMode)
       case RENAME =>
         && r.status == "R100" && SidesPresent(r.oldPath, r.oldBlob, r.oldMode)
         && SidesPresent(r.newPath, r.newBlob, r.newMode)
         && r.oldPath != r.newPath && r.oldBlob == r.newBlob
  }

  // ---- the printer ----

  function ModeText(mode: Option<string>): string { if mode.Some? then mode.value else ZERO_MODE }

  function BlobText(blob: Option<string>): string { if blob.Some? then blob.value else ZeroObject() }

  function HeaderOf(r: Record): Header
  {
    Header(ModeText(r.oldMode), ModeText(r.newMode), BlobText(r.oldBlob), BlobText(r.newBlob), r.status)
  }

  function PathText(path: Option<string>): string { if path.Some? then path.value else "" }

  /** The paths that Git writes for a record: one, or old and new for a rename. */
  function Paths(r: Record): seq<string>
  {
    if r.changeType == RENAME then [PathText(r.oldPath), PathText(r.newPath)]
    else if r.changeType == ADD then [PathText(r.newPath)]
    else [PathText(r.oldPath)]
  }

  function RecordFields(r: Record): seq<Bytes>
  {
    [EncodeAll(HeaderText(HeaderOf(r)))] + Map(EncodeAll, Paths(r))
  }

  function AllFields(records: seq<Record>): seq<Bytes>
  {
    if records == [] then [] else RecordFields(records[0]) + AllFields(records[1..])
  }

  /** `git diff --raw -z`. */
  function PrintRaw(records: seq<Record>): Bytes { Terminated(AllFields(records)) }

  // ---- parsing what was printed ----

  predicate Readable(r: Record)
  {
    forall path <- Paths(r) :: REPLACEMENT !in path
  }

  /** What the parser makes of a printed record: literal zeros read as absent. */
  function Nulled(r: Record, sequence: nat): Record
  {
    var m := HeaderOf(r);
    r.(sequence := sequence, oldBlob := NullBlob(m.oldBlob), newBlob := NullBlob(m.newBlob),
       oldMode := NullMode(m.oldMode), newMode := NullMode(m.newMode))
  }

  /** No side that is present carries a literal zero. */
  predicate NoLiteralZero(r: Record)
  {
    r.oldMode != Some(ZERO_MODE) && r.newMode != Some(ZERO_MODE)
    && r.oldBlob != Some(ZeroObject()) && r.newBlob != Some(ZeroObject())
  }

  lemma ZerosOk()
    ensures Octal(ZERO_MODE) && Sha1(ZeroObject())
  {
  }

  lemma StatusesOk()
    ensures StatusText("A") && StatusText("D") && StatusText("M") && StatusText("R100")
    ensures IsRename("R100") && !IsRename("A") && !IsRename("D") && !IsRename("M")
  {
    assert "R100"[1..] == "100" && "A"[1..] == "" && "D"[1..] == "" && "M"[1..] == "";
  }

  lemma AcceptedHeader(r: Record)
    requires Accepted(r)
    ensures HeaderOk(HeaderOf(r))
  {
    ZerosOk();
    StatusesOk();
    hide Octal, Sha1, StatusText, SafePath;
  }

  /** Header text has neither a NUL nor a replacement character. */
  lemma HeaderPlain(m: Header)
    requires HeaderOk(m)
    ensures '\0' !in HeaderText(m) && REPLACEMENT !in HeaderText(m) && HeaderText(m) != ""
  {
    assert m.status == [m.status[0]] + m.status[1..];
  }

  lemma DecodeEncoded(text: string)
    ensures DecodeField(EncodeAll(text)) == if REPLACEMENT in text then Err(NotUtf8) else Ok(text)
  {
    DecodeEncode(text);
  }

  lemma NulledSame(r: Record)
    requires Accepted(r)
    ensures Nulled(r, r.sequence) == r <==> NoLiteralZero(r)
  {
    hide Octal, Sha1, SafePath;
  }

  lemma BodyParsed(r: Record, rest: seq<Bytes>, sequence: nat)
    requires Accepted(r)
    ensures ParseBody(HeaderOf(r), Map(EncodeAll, Paths(r)) + rest, sequence) ==
            if Readable(r) then Ok((Nulled(r, sequence), rest)) else Err(NotUtf8)
  {
    var fields := Map(EncodeAll, Paths(r)) + rest;
    StatusesOk();
    hide Octal, Sha1, SafePath, EncodeAll, DecodeField, StatusText, IsRename;
    DecodeEncoded(Paths(r)[0]);
    assert fields[0] == EncodeAll(Paths(r)[0]);
    if r.changeType == RENAME {
      DecodeEncoded(Paths(r)[1]);
      assert fields[1] == EncodeAll(Paths(r)[1]) && fields[2..] == rest;
    } else {
      assert fields[1..] == rest;
    }
  }

  /** One turn of the loop for a header that matches. */
  lemma ParseStep(fields: seq<Bytes>, done: nat, header: string, m: Header)
    requires fields != [] && DecodeField(fields[0]) == Ok(header) && header != "" && MatchHeader(header) == Some(m)
    ensures ParseFields(fields, done) ==
            match ParseBody(m, fields[1..], done + 1)
            case Err(e) => Err(e)
            case Ok(body) => Prepended([body.0], ParseFields(body.1, done + 1))
  {
    hide MatchHeader, ParseBody, DecodeField;
  }

  lemma RecordParsed(r: Record, rest: seq<Bytes>, done: nat)
    requires Accepted(r)
    ensures ParseFields(RecordFields(r) + rest, done) ==
            if Readable(r) then Prepended([Nulled(r, done + 1)], ParseFields(rest, done + 1)) else Err(NotUtf8)
  {
    var fields := RecordFields(r) + rest;
    var m := HeaderOf(r);
    AcceptedHeader(r);
    HeaderPlain(m);
    DecodeEncoded(HeaderText(m));
    MatchText(m);
    BodyParsed(r, rest, done + 1);
    hide *;
    assert fields[0] == EncodeAll(HeaderText(m)) && fields[1..] == Map(EncodeAll, Paths(r)) + rest by { FirstField(r, rest); }
    ParseStep(fields, done, HeaderText(m), m);
  }

  lemma FirstField(r: Record, rest: seq<Bytes>)
    ensures (RecordFields(r) + rest)[0] == EncodeAll(HeaderText(HeaderOf(r)))
    ensures (RecordFields(r) + rest)[1..] == Map(EncodeAll, Paths(r)) + rest
  {
    hide EncodeAll, HeaderText, HeaderOf, Paths, Map;
  }

  function NulledAll(records: seq<Record>, done: nat): seq<Record>
  {
    if records == [] then [] else [Nulled(records[0], done + 1)] + NulledAll(records[1..], done + 1)
  }

  lemma {:induction false} NulledAt(records: seq<Record>, done: nat)
    ensures |NulledAll(records, done)| == |records|
    ensures forall i :: 0 <= i < |records| ==> NulledAll(records, done)[i] == Nulled(records[i], done + i + 1)
  {
    if records != [] { NulledAt(records[1..], done + 1); }
  }

  ghost predicate AllReadable(records: seq<Record>) { forall r <- records :: Readable(r) }

  lemma AllReadableSplit(records: seq<Record>)
    requires records != []
    ensures AllReadable(records) <==> Readable(records[0]) && AllReadable(records[1..])
  {
    hide Readable;
    assert records == [records[0]] + records[1..];
  }

  lemma FirstOfAll(records: seq<Record>, done: nat)
    requires records != []
    ensures AllFields(records) == RecordFields(records[0]) + AllFields(records[1..])
    ensures NulledAll(records, done) == [Nulled(records[0], done + 1)] + NulledAll(records[1..], done + 1)
  {
    hide RecordFields, Nulled;
  }

  lemma PrependOne(record: Record, records: seq<Record>)
    ensures Prepended([record], Ok(records)) == Ok([record] + records)
    ensures Prepended([record], Err(NotUtf8)) == Err(NotUtf8)
  {
  }

  lemma {:induction false} PrintedFieldsParsed(records: seq<Record>, done: nat)
    requires forall r <- records :: Accepted(r)
    ensures ParseFields(AllFields(records), done) ==
            if AllReadable(records) then Ok(NulledAll(records, done)) else Err(NotUtf8)
  {
    if records != [] {
      var head, tail := records[0], records[1..];
      RecordParsed(head, AllFields(tail), done);
      PrintedFieldsParsed(tail, done + 1);
      AllReadableSplit(records);
      hide *;
      assert AllFields(records) == RecordFields(head) + AllFields(tail) && NulledAll(records, done) ==
             [Nulled(head, done + 1)] + NulledAll(tail, done + 1) by { FirstOfAll(records, done); }
      PrependOne(Nulled(head, done + 1), NulledAll(tail, done + 1));
    }
  }

  lemma {:induction false} PrintedZeroFree(records: seq<Record>)
    requires forall r <- records :: Accepted(r)
    ensures forall field <- AllFields(records) :: 0 !in field
  {
    if records != [] {
      PrintedZeroFree(records[1..]);
      RecordZeroFree(records[0]);
    }
  }

  lemma RecordZeroFree(r: Record)
    requires Accepted(r)
    ensures forall field <- RecordFields(r) :: 0 !in field
  {
    AcceptedHeader(r);
    HeaderPlain(HeaderOf(r));
    ZeroFree(HeaderText(HeaderOf(r)));
    forall i | 0 <= i < |Paths(r)| ensures 0 !in EncodeAll(Paths(r)[i]) { ZeroFree(Paths(r)[i]); }
  }

  ghost predicate Numbered(records: seq<Record>)
  {
    forall i :: 0 <= i < |records| ==> records[i].sequence == i + 1
  }

  // ---- main results ----

  /** What the parser returns for a printed list of accepted records, in all cases. */
  lemma ParsePrinted(records: seq<Record>)
    requires forall r <- records :: Accepted(r)
    ensures ParseFields(Fields(PrintRaw(records)), 0) ==
            if AllReadable(records) then Ok(NulledAll(records, 0)) else Err(NotUtf8)
  {
    PrintedZeroFree(records);
    SplitTerminated(AllFields(records));
    PrintedFieldsParsed(records, 0);
  }

  /** Parsing undoes printing exactly for lists without a replacement character or a literal zero. */
  lemma RoundTrip(records: seq<Record>)
    requires (forall r <- records :: Accepted(r)) && Numbered(records)
    ensures ParseFields(Fields(PrintRaw(records)), 0) == Ok(records) <==>
            forall r <- records :: Readable(r) && NoLiteralZero(r)
  {
    ParsePrinted(records);
    hide Accepted, Readable, NoLiteralZero, Nulled, PrintRaw, Fields, ParseFields;
    var parsed := NulledAll(records, 0);
    NulledAt(records, 0);
    forall i | 0 <= i < |records| ensures parsed[i] == records[i] <==> NoLiteralZero(records[i]) {
      NulledSame(records[i]);
    }
    if r :| r in records && !NoLiteralZero(r) {
      var i :| 0 <= i < |records| && records[i] == r;
      assert parsed[i] != records[i];
    } else {
      assert parsed == records;
    }
  }

  function Added(path: string, blob: string, mode: string): Record
  {
    Record(1, "A", ADD, None, Some(path), None, Some(blob), None, Some(mode))
  }

  lemma AddedAccepted(path: string, blob: string, mode: string)
    requires SafePath(path) && Sha1(blob) && Octal(mode)
    ensures Accepted(Added(path, blob, mode))
  {
    hide SafePath, Sha1, Octal;
  }

  lemma NameSafe(c: char)
    requires c != '/' && c != '\0' && c != '\\' && c != '.'
    ensures SafePath([c])
  {
    assert [c][1..] == "" && [""][1..] == [] && [c] + "" == [c];
    assert NodePath.Split([c]) == [[c]];
    assert [c][0] == c && "."[0] == '.' && |".."| == 2;
  }

  lemma NulledAdded(path: string, blob: string, mode: string)
    ensures NulledAll([Added(path, blob, mode)], 0) ==
            [Added(path, blob, mode).(newBlob := NullBlob(blob), newMode := NullMode(mode))]
  {
    hide ZeroObject;
    var r := Added(path, blob, mode);
    assert NulledAll([r], 0) == [Nulled(r, 1)] + [];
  }

  lemma ReadableAdded(path: string, blob: string, mode: string)
    ensures AllReadable([Added(path, blob, mode)]) <==> REPLACEMENT !in path
  {
    var r := Added(path, blob, mode);
    assert Paths(r) == [path];
    AllReadableSplit([r]);
  }

  lemma AddedParsed(path: string, blob: string, mode: string)
    requires SafePath(path) && Sha1(blob) && Octal(mode)
    ensures var r := Added(path, blob, mode);
            ParseFields(Fields(PrintRaw([r])), 0) ==
            if REPLACEMENT in path then Err(NotUtf8) else Ok([r.(newBlob := NullBlob(blob), newMode := NullMode(mode))])
  {
    hide *;
    AddedAccepted(path, blob, mode);
    ParsePrinted([Added(path, blob, mode)]);
    NulledAdded(path, blob, mode);
    ReadableAdded(path, blob, mode);
  }

  /** Both happen to an accepted record: a literal zero comes back as absent, U+FFFD is refused. */
  lemma RoundTripFails() returns (zero: Record, replaced: Record)
    ensures Accepted(zero) && Accepted(replaced)
    ensures ParseFields(Fields(PrintRaw([zero])), 0) == Ok([zero.(newBlob := None, newMode := None)])
    ensures ParseFields(Fields(PrintRaw([replaced])), 0) == Err(NotUtf8)
  {
    zero, replaced := Added("a", ZeroObject(), ZERO_MODE), Added([REPLACEMENT], ZeroObject(), ZERO_MODE);
    NameSafe('a');
    NameSafe(REPLACEMENT);
    ZerosOk();
    hide SafePath, Sha1, Octal, Accepted, PrintRaw, Fields, ParseFields, ZeroObject;
    AddedAccepted("a", ZeroObject(), ZERO_MODE);
    AddedAccepted([REPLACEMENT], ZeroObject(), ZERO_MODE);
    AddedParsed("a", ZeroObject(), ZERO_MODE);
    AddedParsed([REPLACEMENT], ZeroObject(), ZERO_MODE);
  }

  /** The records of any accepted output are numbered from one. */
  lemma {:induction false} ParsedNumbered(fields: seq<Bytes>, done: nat)
    requires ParseFields(fields, done).Ok?
    ensures var records := ParseFields(fields, done).value;
            forall i :: 0 <= i < |records| ==> records[i].sequence == done + i + 1
    decreases |fields|
  {
    if fields != [] {
      var header := DecodeField(fields[0]).value;
      if header == "" {
        ParsedNumbered(fields[1..], done);
      } else {
        var body := ParseBody(MatchHeader(header).value, fields[1..], done + 1).value;
        ParsedNumbered(body.1, done + 1);
      }
    }
  }

  lemma FieldDecoded(field: Bytes)
    requires DecodeField(field).Ok?
    ensures EncodeAll(DecodeField(field).value) == field
  {
    EncodeDecode(field);
  }

  lemma BodyPrinted(m: Header, rest: seq<Bytes>, sequence: nat)
    requires HeaderOk(m) && ParseBody(m, rest, sequence).Ok?
    ensures var (record, after) := ParseBody(m, rest, sequence).value;
            HeaderOf(record) == m && Map(EncodeAll, Paths(record)) + after == rest
  {
    hide HeaderOk, EncodeAll, DecodeField, IsRename;
    FieldDecoded(rest[0]);
    if IsRename(m.status) { FieldDecoded(rest[1]); }
  }

  /** Printing undoes parsing too: no byte of an accepted output without empty fields is lost or invented. */
  lemma {:induction false} ParsedPrints(fields: seq<Bytes>, done: nat)
    requires ParseFields(fields, done).Ok? && forall field <- fields :: field != []
    ensures AllFields(ParseFields(fields, done).value) == fields
    decreases |fields|
  {
    if fields != [] {
      FieldDecoded(fields[0]);
      var header := DecodeField(fields[0]).value;
      assert header != "" by { assert fields[0] in fields; }
      TextMatch(header);
      var m := MatchHeader(header).value;
      var rest := fields[1..];
      BodyPrinted(m, rest, done + 1);
      var (record, after) := ParseBody(m, rest, done + 1).value;
      ParseStep(fields, done, header, m);
      assert after == rest[1..] || after == rest[2..] by { BodyRest(m, rest, done + 1); }
      hide *;
      assert forall field <- after :: field in rest && field in fields;
      ParsedPrints(after, done + 1);
      PrintedFirst(record, Prepended([record], ParseFields(after, done + 1)), ParseFields(after, done + 1));
      assert fields == [fields[0]] + rest;
    }
  }

  lemma BodyRest(m: Header, rest: seq<Bytes>, sequence: nat)
    requires ParseBody(m, rest, sequence).Ok?
    ensures |rest| >= 1
    ensures var after := ParseBody(m, rest, sequence).value.1; after == rest[1..] || (|rest| >= 2 && after == rest[2..])
  {
    hide DecodeField, IsRename;
  }

  lemma PrintedFirst(record: Record, all: Result<seq<Record>, ParseError>, more: Result<seq<Record>, ParseError>)
    requires all == Prepended([record], more) && all.Ok?
    ensures more.Ok? && AllFields(all.value) == [EncodeAll(HeaderText(HeaderOf(record)))]
                                                + (Map(EncodeAll, Paths(record)) + AllFields(more.value))
  {
    hide EncodeAll, HeaderText, HeaderOf, Paths, Map;
    assert all.value[0] == record && all.value[1..] == more.value;
  }

  // ---- what is accepted ----

  /** A safe path is its own normal form: joined to any root it stays below that root, component by component. */
  lemma SafePathExactly(path: string, root: string)
    ensures SafePath(path) <==>
            path != "" && '\0' !in path && '\\' !in path && NodePath.Join(NodePath.Resolved("/" + path)) == path
    ensures SafePath(path) ==>
              && NodePath.Resolved(root + "/" + path) == NodePath.Resolved(root) + NodePath.Split(path)
              && NodePath.IsPathInside(root, root + "/" + path)
  {
    var segments := NodePath.Split(path);
    NodePath.JoinSplit(path);
    assert SafePath(path) <==> '\0' !in path && '\\' !in path && NodePath.AllPlain(segments) by { SafeIsPlain(path); }
    if NodePath.AllPlain(segments) {
      NodePath.ResolvedBelow("", segments);
      assert "" + "/" + path == "/" + path && NodePath.Resolved("") == [];
      NodePath.ResolvedBelow(root, segments);
      NodePath.InsideMeansBelow(root, root + "/" + path);
      PlainNotEmpty(path);
    } else if path != "" && NodePath.Join(NodePath.Resolved("/" + path)) == path {
      NodePath.SplitJoin(NodePath.Resolved("/" + path));
      assert false;
    }
  }

  lemma PlainNotEmpty(path: string)
    requires NodePath.AllPlain(NodePath.Split(path))
    ensures path != ""
  {
    assert NodePath.Plain(NodePath.Split(path)[0]);
  }

  lemma SafeIsPlain(path: string)
    ensures SafePath(path) <==> '\0' !in path && '\\' !in path && NodePath.AllPlain(NodePath.Split(path))
  {
    var segments := NodePath.Split(path);
    if NodePath.AllPlain(segments) {
      PlainNotEmpty(path);
      assert NodePath.Plain(segments[0]);
      forall segment | segment in segments ensures NodePath.Plain(segment) {
        var i :| 0 <= i < |segments| && segments[i] == segment;
      }
    } else {
      var i :| 0 <= i < |segments| && !NodePath.Plain(segments[i]);
      assert segments[i] in segments;
    }
  }

  predicate OneOf(text: string, length: nat, letters: string)
  {
    |text| == length && forall c <- text :: c in letters
  }

  /** A side of a change: nothing, or a safe path with a blob and a mode. */
  predicate SideOk(path: Option<string>, blob: Option<string>, mode: Option<string>)
  {
    if path.None? then blob.None? && mode.None?
    else blob.Some? && mode.Some?
         && SafePath(path.value) && OneOf(blob.value, 40, "0123456789abcdef") && OneOf(mode.value, 6, "01234567")
  }

  lemma Letters(text: string)
    ensures Octal(text) <==> OneOf(text, 6, "01234567")
    ensures Sha1(text) <==> OneOf(text, 40, "0123456789abcdef")
  {
    assert forall c: char :: '0' <= c <= '7' <==> c in "01234567" by { forall c: char { OctalLetter(c); } }
    assert forall c: char :: '0' <= c <= '9' || 'a' <= c <= 'f' <==> c in "0123456789abcdef" by {
      forall c: char { HexLetter(c); }
    }
  }

  lemma OctalLetter(c: char)
    ensures '0' <= c <= '7' <==> c in "01234567"
  {
    var all := "01234567";
    if '0' <= c <= '7' { assert all[c as int - '0' as int] == c; }
  }

  lemma HexLetter(c: char)
    ensures '0' <= c <= '9' || 'a' <= c <= 'f' <==> c in "0123456789abcdef"
  {
    var all := "0123456789abcdef";
    if '0' <= c <= '9' { assert all[c as int - '0' as int] == c; }
    if 'a' <= c <= 'f' { assert all[10 + c as int - 'a' as int] == c; }
  }

  /** Both sides are sound, and status and change are the ones that the two sides determine. */
  lemma AcceptedExactly(r: Record)
    ensures Accepted(r) <==>
            && SideOk(r.oldPath, r.oldBlob, r.oldMode) && SideOk(r.newPath, r.newBlob, r.newMode)
            && (r.oldPath.Some? || r.newPath.Some?)
            && if r.oldPath.None? then r.changeType == ADD && r.status == "A"
               else if r.newPath.None? then r.changeType == DELETE && r.status == "D"
               else if r.oldPath == r.newPath then
                 r.changeType == MODIFY && r.status == "M" && (r.oldBlob != r.newBlob || r.oldMode != r.newMode)
               else r.changeType == RENAME && r.status == "R100" && r.oldBlob == r.newBlob
  {
    forall text: string { Letters(text); }
    hide Octal, Sha1, SafePath, OneOf;
  }

  /** A header is a colon, two modes, two blobs and a status of one capital and digits, with one space between them. */
  lemma HeaderExactly(h: string)
    ensures MatchHeader(h).Some? <==>
            exists m: Header ::
              && h == HeaderText(m)
              && OneOf(m.oldMode, 6, "01234567") && OneOf(m.newMode, 6, "01234567")
              && OneOf(m.oldBlob, 40, "0123456789abcdef") && OneOf(m.newBlob, 40, "0123456789abcdef")
              && StatusText(m.status)
    ensures forall m: Header :: HeaderOk(m) ==> MatchHeader(HeaderText(m)) == Some(m)
  {
    forall text: string { Letters(text); }
    forall m: Header | HeaderOk(m) ensures MatchHeader(HeaderText(m)) == Some(m) { MatchText(m); }
    if MatchHeader(h).Some? { TextMatch(h); }
    hide Octal, Sha1, OneOf, StatusText, MatchHeader, HeaderText;
  }

  predicate IsText(field: Bytes) { DecodeField(field).Ok? }

  /** Which record, or which error, follows a header. */
  lemma BodyExactly(m: Header, rest: seq<Bytes>, sequence: nat)
    ensures var renamed := |m.status| >= 2 && m.status[0] == 'R' && forall i :: 1 <= i < |m.status| ==> '0' <= m.status[i] <= '9';
            var paths := if renamed then 2 else 1;
            var r := ParseBody(m, rest, sequence);
            if rest == [] || (IsText(rest[0]) && |rest| < paths) then r == Err(MissingField)
            else if !IsText(rest[0]) || (renamed && !IsText(rest[1])) then r == Err(NotUtf8)
            else if !renamed && m.status !in {"A", "D", "M"} then r == Err(UnsupportedStatus)
            else
              && r.Ok? && r.value.1 == rest[paths..] && r.value.0.status == m.status && r.value.0.sequence == sequence
              && r.value.0.changeType == (if renamed then RENAME else if m.status == "A" then ADD else if m.status == "D" then DELETE else MODIFY)
              && r.value.0.oldPath == (if m.status == "A" then None else Some(DecodeField(rest[0]).value))
              && r.value.0.newPath == (if m.status == "D" then None else Some(DecodeField(rest[paths - 1]).value))
              && r.value.0.oldMode == (if m.oldMode == "000000" then None else Some(m.oldMode))
              && r.value.0.newMode == (if m.newMode == "000000" then None else Some(m.newMode))
              && r.value.0.oldBlob == (if m.oldBlob == Repeat('0', 40) then None else Some(m.oldBlob))
              && r.value.0.newBlob == (if m.newBlob == Repeat('0', 40) then None else Some(m.newBlob))
  {
    assert IsRename(m.status) <==>
           |m.status| >= 2 && m.status[0] == 'R' && forall i :: 1 <= i < |m.status| ==> '0' <= m.status[i] <= '9' by {
      RenameDigits(m.status);
    }
    hide IsRename, DecodeField, ZeroObject;
    assert ZeroObject() == Repeat('0', 40) by { ZeroIs(); }
  }

  lemma ZeroIs()
    ensures ZeroObject() == Repeat('0', 40)
  {
  }

  lemma RenameDigits(status: string)
    ensures IsRename(status) <==>
            |status| >= 2 && status[0] == 'R' && forall i :: 1 <= i < |status| ==> '0' <= status[i] <= '9'
  {
    if |status| >= 2 {
      var rest := status[1..];
      forall i | 1 <= i < |status| ensures status[i] == rest[i - 1] && status[i] in rest {}
      assert forall i :: 0 <= i < |rest| ==> rest[i] == status[i + 1];
      if !Digits(rest) { var i :| 0 <= i < |rest| && !('0' <= rest[i] <= '9'); assert status[i + 1] == rest[i]; }
    }
  }

  /** An empty field in place of a header is passed over. */
  lemma EmptyFieldSkipped(fields: seq<Bytes>, done: nat)
    ensures ParseFields([[]] + fields, done) == ParseFields(fields, done)
  {
    assert ([[]] + fields)[1..] == fields;
    assert DecodeField([]) == Ok("");
  }

  /** Text in place of a header that is no header stops the parser. */
  lemma OtherFieldRefused(fields: seq<Bytes>, done: nat)
    requires fields != []
    ensures !IsText(fields[0]) ==> ParseFields(fields, done) == Err(NotUtf8)
    ensures IsText(fields[0]) && fields[0] != [] && MatchHeader(DecodeField(fields[0]).value).None? ==>
              ParseFields(fields, done) == Err(UnrecognizedHeader)
  {
    if IsText(fields[0]) { FieldDecoded(fields[0]); }
  }
}
