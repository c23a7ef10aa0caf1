/** The FCEUX FM2 movie parser (covnes/src/fm2_movie_file.rs): a header of
    "key value" lines up to the first line starting with '|', then one input
    record per line, "|commands|port0|port1|port2|" or, with a Four Score,
    "|commands|p1|p2|p3|p4|port2|". The movie is given as its whole text;
    reading it from a file is not modelled. */
module Fm2 {
  import opened Common
  import opened Fm2Text

  datatype Fm2Error =
    | NoInput
    | MalformedHeaderLine(lineNo: int)
    | DuplicateKey(key: string, lineNo: int)
    | RequiredKeyNotFound(key: string)
    | NotAnInteger(key: string, value: string)
    | NotABool(key: string, number: int)
    | BadInputDevice(key: string)
    | BadPort2(key: string)
    | NoBinaryPlease
    | BadInputLine(lineNo: int)
    | BadCommands(lineNo: int)
    | BadGamepadInput(lineNo: int, section: string)
    | BadNoInputInput(lineNo: int, section: string)

  /** A parse result: the value, the parser's error, or an abort
      (`unimplemented!`). */
  datatype Parsed<+T> = Done(value: T) | Fail(error: Fm2Error) | Abort(reason: string) {
    predicate IsFailure() {
      !Done?
    }

    function PropagateFailure<U>(): Parsed<U>
      requires !Done?
    {
      if Fail? then Fail(error) else Abort(reason)
    }

    function Extract(): T
      requires Done?
    {
      value
    }
  }

  /** An input device and the inputs recorded for it so far. */
  datatype Device = NoDevice | Gamepad(inputs: seq<bv8>) | Zapper

  datatype Controllers =
    | Fourscore(frames: seq<seq<bv8>>)
    | Ports(port0: Device, port1: Device)

  datatype Header = Header(
    version: int, emuVersion: int, rerecordCount: Option<int>, palFlag: bool, newPpu: bool, fds: bool,
    controllers: Controllers, binary: bool, length: Option<int>, romFilename: string,
    comment: Option<string>, subtitle: Option<string>, guid: string, romChecksum: string,
    savestate: Option<string>)

  datatype Fm2File = Fm2File(header: Header, commands: seq<bv8>)

  // ---------------------------------------------------------------------
  // Header lines

  /** The header read so far: its fields, the number of the line being
      read, and, once the header has ended, the first input line and the
      text after it. */
  datatype Scanned = Scanned(fields: map<string, string>, lineNo: int, firstInput: string, rest: string)

  predicate StartsInput(line: string) {
    |line| > 0 && line[0] == '|'
  }

  /** Header lines until the first line starting with '|'. Running out of
      lines is `NoInput`; a line without a space is malformed; a key seen
      before is a duplicate. */
  function ScanHeader(text: string, fields: map<string, string>, lineNo: int): (r: Parsed<Scanned>)
    ensures text == [] ==> r == Fail(NoInput)
    ensures r.Done? ==> StartsInput(r.value.firstInput) && |r.value.rest| < |text|
    ensures r.Done? ==> fields.Keys <= r.value.fields.Keys && r.value.lineNo >= lineNo
    decreases |text|
  {
    if text == [] then Fail(NoInput)
    else
      var (raw, rest) := ReadLine(text);
      var line := Trim(raw);
      if StartsInput(line) then Done(Scanned(fields, lineNo, line, rest))
      else
        match SplitKey(line)
        case None => Fail(MalformedHeaderLine(lineNo))
        case Some((k, v)) =>
          if k in fields then Fail(DuplicateKey(k, lineNo))
          else ScanHeader(rest, fields[k := v], lineNo + 1)
  }

  /** A header line as a recorder writes it. */
  predicate WellFormedPair(k: string, v: string) {
    && ' ' !in k && '\n' !in k && (k == [] || k[0] != '|')
    && '\n' !in v && (v == [] || v[|v| - 1] != '\r')
  }

  function HeaderText(pairs: seq<(string, string)>): string
    decreases |pairs|
  {
    if pairs == [] then [] else pairs[0].0 + " " + pairs[0].1 + "\n" + HeaderText(pairs[1..])
  }

  function FieldsOf(pairs: seq<(string, string)>, fields: map<string, string>): map<string, string>
    decreases |pairs|
  {
    if pairs == [] then fields else FieldsOf(pairs[1..], fields[pairs[0].0 := pairs[0].1])
  }

  predicate DistinctKeys(pairs: seq<(string, string)>) {
    forall i, j :: 0 <= i < j < |pairs| ==> pairs[i].0 != pairs[j].0
  }

  /** One written header line scans as its key and value, or as a
      duplicate when the key was seen before. */
  lemma ScanOneLine(k: string, v: string, text: string, fields: map<string, string>, lineNo: int)
    requires WellFormedPair(k, v)
    ensures ScanHeader(k + " " + v + "\n" + text, fields, lineNo)
            == if k in fields then Fail(DuplicateKey(k, lineNo)) else ScanHeader(text, fields[k := v], lineNo + 1)
  {
    var line := k + " " + v;
    assert '\n' !in line by {
      assert forall i :: 0 <= i < |line| ==> line[i] == (if i < |k| then k[i] else if i == |k| then ' ' else v[i - |k| - 1]);
    }
    ReadLineOf(line, text);
    TrimEndings(line);
    SplitKeyOf(k, v);
    assert k != [] ==> line[0] == k[0];
  }

  /** A written header with distinct keys, followed by an input line, scans
      as exactly its fields; the input line is numbered one past the
      header. */
  lemma {:induction false} HeaderRoundTrip(pairs: seq<(string, string)>, input: string, rest: string,
                                           fields: map<string, string>, lineNo: int)
    requires forall i :: 0 <= i < |pairs| ==> WellFormedPair(pairs[i].0, pairs[i].1) && pairs[i].0 !in fields
    requires DistinctKeys(pairs) && StartsInput(input) && '\n' !in input && input[|input| - 1] != '\r'
    ensures ScanHeader(HeaderText(pairs) + (input + "\n" + rest), fields, lineNo)
            == Done(Scanned(FieldsOf(pairs, fields), lineNo + |pairs|, input, rest))
    decreases |pairs|
  {
    var after := input + "\n" + rest;
    if pairs == [] {
      assert HeaderText(pairs) + after == after;
      HeaderEnds(input, rest, fields, lineNo);
      assert ScanHeader(HeaderText(pairs) + after, fields, lineNo) == Done(Scanned(FieldsOf(pairs, fields), lineNo + |pairs|, input, rest));
    } else {
      var k, v, ps := pairs[0].0, pairs[0].1, pairs[1..];
      TailPairs(pairs, fields);
      HeaderConsStep(pairs, after, fields, lineNo);
      HeaderRoundTrip(ps, input, rest, fields[k := v], lineNo + 1);
      assert ScanHeader(HeaderText(pairs) + after, fields, lineNo) == ScanHeader(HeaderText(ps) + after, fields[k := v], lineNo + 1);
      assert FieldsOf(pairs, fields) == FieldsOf(ps, fields[k := v]);
      assert lineNo + 1 + |ps| == lineNo + |pairs|;
      assert ScanHeader(HeaderText(pairs) + after, fields, lineNo) == Done(Scanned(FieldsOf(pairs, fields), lineNo + |pairs|, input, rest));
    }
  }

  /** The first line of a written header adds its pair; the rest of the
      text is scanned from the next line. */
  lemma HeaderConsStep(pairs: seq<(string, string)>, after: string, fields: map<string, string>, lineNo: int)
    requires |pairs| > 0 && WellFormedPair(pairs[0].0, pairs[0].1) && pairs[0].0 !in fields
    ensures ScanHeader(HeaderText(pairs) + after, fields, lineNo)
            == ScanHeader(HeaderText(pairs[1..]) + after, fields[pairs[0].0 := pairs[0].1], lineNo + 1)
  {
    HeaderTextFirst(pairs, after);
    ScanOneLine(pairs[0].0, pairs[0].1, HeaderText(pairs[1..]) + after, fields, lineNo);
  }

  /** A written header followed by more text starts with its first line. */
  lemma HeaderTextFirst(pairs: seq<(string, string)>, after: string)
    requires |pairs| > 0
    ensures HeaderText(pairs) + after == pairs[0].0 + " " + pairs[0].1 + "\n" + (HeaderText(pairs[1..]) + after)
  {
  }

  /** What the header needs of its pairs holds for all but the first, with
      the first one's key added. */
  lemma TailPairs(pairs: seq<(string, string)>, fields: map<string, string>)
    requires |pairs| > 0
    requires forall i :: 0 <= i < |pairs| ==> WellFormedPair(pairs[i].0, pairs[i].1) && pairs[i].0 !in fields
    requires DistinctKeys(pairs)
    ensures var (ps, g) := (pairs[1..], fields[pairs[0].0 := pairs[0].1]);
            && (forall i :: 0 <= i < |ps| ==> WellFormedPair(ps[i].0, ps[i].1) && ps[i].0 !in g)
            && DistinctKeys(ps)
  {
    var ps := pairs[1..];
    forall i | 0 <= i < |ps|
      ensures WellFormedPair(ps[i].0, ps[i].1) && ps[i].0 !in fields[pairs[0].0 := pairs[0].1]
    {
      assert ps[i] == pairs[i + 1];
      assert pairs[0].0 != pairs[i + 1].0;
    }
    forall i, j | 0 <= i < j < |ps|
      ensures ps[i].0 != ps[j].0
    {
      assert ps[i] == pairs[i + 1] && ps[j] == pairs[j + 1];
    }
  }

  /** The first line starting with '|' ends the header. */
  lemma HeaderEnds(input: string, rest: string, fields: map<string, string>, lineNo: int)
    requires StartsInput(input) && '\n' !in input && input[|input| - 1] != '\r'
    ensures ScanHeader(input + "\n" + rest, fields, lineNo) == Done(Scanned(fields, lineNo, input, rest))
  {
    ReadLineOf(input, rest);
    TrimEndings(input);
  }

  // ---------------------------------------------------------------------
  // Header keys
  //
  // Each key is taken out of the header's map when it is read, so a second
  // lookup of the same key finds nothing. The map stays as scanned; the
  // keys taken so far are carried alongside it.

  /** The scanned header and the keys already taken out of it. */
  datatype Fields = Fields(entries: map<string, string>, taken: set<string>) {
    /** The key is there and has not been taken. */
    predicate Has(key: string) {
      key in entries && key !in taken
    }

    function Take(key: string): (g: Fields)
      ensures g.entries == entries && g.taken == taken + {key}
    {
      Fields(entries, taken + {key})
    }
  }

  /** A value taken out of the fields, and the fields left. */
  datatype Taken<+T> = Taken(value: T, fields: Fields)

  /** `optional`: the key's value, taken out. */
  function Optional(f: Fields, key: string): (r: Taken<Option<string>>)
    ensures r.fields == f.Take(key)
    ensures r.value == if f.Has(key) then Some(f.entries[key]) else None
  {
    Taken(if f.Has(key) then Some(f.entries[key]) else None, f.Take(key))
  }

  /** `required`: the key's value, or `RequiredKeyNotFound`. */
  function Required(f: Fields, key: string): (r: Parsed<Taken<string>>)
    ensures r.Done? <==> f.Has(key)
    ensures r.Done? ==> r.value == Taken(f.entries[key], f.Take(key))
    ensures !r.Done? ==> r == Fail(RequiredKeyNotFound(key))
  {
    var t := Optional(f, key);
    match t.value
    case Some(x) => Done(Taken(x, t.fields))
    case None => Fail(RequiredKeyNotFound(key))
  }

  function RequiredInt(f: Fields, key: string): (r: Parsed<Taken<int>>)
    ensures r.Done? <==> f.Has(key) && ParseI32(f.entries[key]).Some?
    ensures r.Done? ==> r.value == Taken(ParseI32(f.entries[key]).value, f.Take(key))
    ensures !f.Has(key) ==> r == Fail(RequiredKeyNotFound(key))
    ensures f.Has(key) && ParseI32(f.entries[key]).None? ==> r == Fail(NotAnInteger(key, f.entries[key]))
  {
    var t :- Required(f, key);
    match ParseI32(t.value)
    case Some(n) => Done(Taken(n, t.fields))
    case None => Fail(NotAnInteger(key, t.value))
  }

  function OptionalInt(f: Fields, key: string): (r: Parsed<Taken<Option<int>>>)
    ensures r.Done? <==> !f.Has(key) || ParseI32(f.entries[key]).Some?
    ensures r.Done? ==> r.value == Taken(if f.Has(key) then ParseI32(f.entries[key]) else None, f.Take(key))
    ensures !r.Done? ==> r == Fail(NotAnInteger(key, f.entries[key]))
  {
    var t := Optional(f, key);
    match t.value
    case None => Done(Taken(None, t.fields))
    case Some(v) =>
      match ParseI32(v)
      case Some(n) => Done(Taken(Some(n), t.fields))
      case None => Fail(NotAnInteger(key, v))
  }

  /** The key holds the integer 1. */
  predicate IsSet(f: Fields, key: string) {
    f.Has(key) && ParseI32(f.entries[key]) == Some(1)
  }

  /** A flag's value: 0 or 1, or absent. */
  predicate IsBool(f: Fields, key: string) {
    !f.Has(key) || ParseI32(f.entries[key]) == Some(0) || ParseI32(f.entries[key]) == Some(1)
  }

  /** `optional_bool_or_false`: absent is false, 0 and 1 are false and
      true, any other integer is `NotABool`. */
  function OptionalBool(f: Fields, key: string): (r: Parsed<Taken<bool>>)
    ensures r.Done? <==> IsBool(f, key)
    ensures r.Done? ==> r.value == Taken(IsSet(f, key), f.Take(key))
    ensures f.Has(key) && ParseI32(f.entries[key]).None? ==> r == Fail(NotAnInteger(key, f.entries[key]))
    ensures f.Has(key) && ParseI32(f.entries[key]).Some? && ParseI32(f.entries[key]).value !in {0, 1} ==>
              r == Fail(NotABool(key, ParseI32(f.entries[key]).value))
  {
    var t :- OptionalInt(f, key);
    match t.value
    case None => Done(Taken(false, t.fields))
    case Some(x) =>
      if x == 0 then Done(Taken(false, t.fields))
      else if x == 1 then Done(Taken(true, t.fields))
      else Fail(NotABool(key, x))
  }

  /** `input_device`: 0 none, 1 gamepad, 2 zapper. */
  function InputDevice(f: Fields, key: string): (r: Parsed<Taken<Device>>)
    ensures r.Done? <==> f.Has(key) && ParseI32(f.entries[key]).Some? && 0 <= ParseI32(f.entries[key]).value <= 2
    ensures r.Done? ==> r.value.fields == f.Take(key)
    ensures r.Done? ==> var n := ParseI32(f.entries[key]).value;
                        r.value.value == if n == 0 then NoDevice else if n == 1 then Gamepad([]) else Zapper
    ensures f.Has(key) && ParseI32(f.entries[key]).Some? && !(0 <= ParseI32(f.entries[key]).value <= 2) ==>
              r == Fail(BadInputDevice(key))
  {
    var t :- RequiredInt(f, key);
    if t.value == 0 then Done(Taken(NoDevice, t.fields))
    else if t.value == 1 then Done(Taken(Gamepad([]), t.fields))
    else if t.value == 2 then Done(Taken(Zapper, t.fields))
    else Fail(BadInputDevice(key))
  }

  const VersionKeys: set<string> := {"version", "emuVersion", "rerecordCount"}
  const SwitchKeys: set<string> := {"palFlag", "NewPPU", "fds", "fourscore"}

  /** The versions and rerecord count. */
  function ReadVersions(f: Fields): (r: Parsed<Taken<(int, int, Option<int>)>>)
    ensures r.Fail? ==> r.error != NoBinaryPlease
    ensures r.Done? ==> r.value.fields == Fields(f.entries, f.taken + VersionKeys)
    ensures r.Done? ==> f.Has("version") && ParseI32(f.entries["version"]) == Some(r.value.value.0)
    ensures !f.Has("version") ==> r == Fail(RequiredKeyNotFound("version"))
  {
    var version :- RequiredInt(f, "version");
    var emuVersion :- RequiredInt(version.fields, "emuVersion");
    var rerecord :- OptionalInt(emuVersion.fields, "rerecordCount");
    assert rerecord.fields.taken == f.taken + VersionKeys;
    Done(Taken((version.value, emuVersion.value, rerecord.value), rerecord.fields))
  }

  /** The four flags, in the order palFlag, NewPPU, fds, fourscore. */
  function ReadSwitches(f: Fields): (r: Parsed<Taken<(bool, bool, bool, bool)>>)
    ensures r.Fail? ==> r.error != NoBinaryPlease
    ensures r.Done? ==> r.value.fields == Fields(f.entries, f.taken + SwitchKeys)
    ensures r.Done? ==> r.value.value.3 == IsSet(f, "fourscore")
  {
    var pal :- OptionalBool(f, "palFlag");
    var newPpu :- OptionalBool(pal.fields, "NewPPU");
    var fds :- OptionalBool(newPpu.fields, "fds");
    var fourscore :- OptionalBool(fds.fields, "fourscore");
    assert fourscore.fields.taken == f.taken + SwitchKeys;
    Done(Taken((pal.value, newPpu.value, fds.value, fourscore.value), fourscore.fields))
  }

  const PortKeys: set<string> := {"port0", "port1", "port2"}

  /** The devices: a Four Score, or the devices of ports 0 and 1; the
      expansion port must hold nothing. */
  function ReadPorts(f: Fields, fourscore: bool): (r: Parsed<Taken<Controllers>>)
    ensures r.Fail? ==> r.error != NoBinaryPlease
    ensures r.Done? ==> r.value.fields.entries == f.entries && r.value.fields.taken <= f.taken + PortKeys
    ensures r.Done? ==> Recorded(r.value.value, 0) && r.value.value.Fourscore? == fourscore
    ensures r.Done? ==> f.Has("port2") && ParseI32(f.entries["port2"]) == Some(0)
    ensures !fourscore && !f.Has("port0") ==> r == Fail(RequiredKeyNotFound("port0"))
  {
    var controllers :- if fourscore then Done(Taken(Fourscore([]), f)) else
      var p0 :- InputDevice(f, "port0");
      var p1 :- InputDevice(p0.fields, "port1");
      Done(Taken(Ports(p0.value, p1.value), p1.fields));
    var port2 :- RequiredInt(controllers.fields, "port2");
    if port2.value != 0 then Fail(BadPort2("port2")) else Done(Taken(controllers.value, port2.fields))
  }

  /** The keys after the binary flag. */
  datatype Names = Names(length: Option<int>, romFilename: string, comment: Option<string>,
                         subtitle: Option<string>, guid: string, romChecksum: string, savestate: Option<string>)

  const NameKeys: set<string> := {"length", "romFilename", "guid", "romChecksum"}

  /** The keys `ReadNames` needs are there, and the length is a number. */
  predicate NamesPresent(f: Fields) {
    (!f.Has("length") || ParseI32(f.entries["length"]).Some?) && f.Has("romFilename") && f.Has("guid")
    && f.Has("romChecksum")
  }

  function ReadNames(f: Fields): (r: Parsed<Names>)
    ensures r.Fail? ==> r.error != NoBinaryPlease
    ensures r.Done? <==> NamesPresent(f)
    ensures r.Done? ==> r.value.romFilename == f.entries["romFilename"] && r.value.guid == f.entries["guid"]
                        && r.value.romChecksum == f.entries["romChecksum"]
    ensures r.Done? ==> r.value.length == if f.Has("length") then ParseI32(f.entries["length"]) else None
  {
    var length :- OptionalInt(f, "length");
    var rom :- Required(length.fields, "romFilename");
    var comment := Optional(rom.fields, "comment");
    var subtitle := Optional(comment.fields, "subtitle");
    var guid :- Required(subtitle.fields, "guid");
    var checksum :- Required(guid.fields, "romChecksum");
    var savestate := Optional(checksum.fields, "savestate");
    Done(Names(length.value, rom.value, comment.value, subtitle.value, guid.value, checksum.value, savestate.value))
  }

  /** The binary flag from `binaryKey`, then the remaining keys. */
  function ReadTail(f: Fields, binaryKey: string): (r: Parsed<(bool, Names)>)
    requires binaryKey !in NameKeys
    ensures r.Fail? ==> r.error != NoBinaryPlease
    ensures r.Done? <==> IsBool(f, binaryKey) && NamesPresent(f)
    ensures r.Done? ==> r.value.0 == IsSet(f, binaryKey)
  {
    var binary :- OptionalBool(f, binaryKey);
    assert NamesPresent(binary.fields) == NamesPresent(f);
    var names :- ReadNames(binary.fields);
    Done((binary.value, names))
  }

  /** The header's keys, in the order they are taken out; a binary movie is
      refused once they all are. `binaryKey` is the key the binary flag is
      read from. */
  function ReadKeysWith(m: map<string, string>, binaryKey: string): (r: Parsed<Header>)
    requires binaryKey !in NameKeys
    ensures r.Done? ==> !r.value.binary && Recorded(r.value.controllers, 0)
    ensures "version" !in m ==> r == Fail(RequiredKeyNotFound("version"))
  {
    var versions :- ReadVersions(Fields(m, {}));
    var switches :- ReadSwitches(versions.fields);
    var ports :- ReadPorts(switches.fields, switches.value.3);
    var tail :- ReadTail(ports.fields, binaryKey);
    var (version, emuVersion, rerecordCount) := versions.value;
    var (palFlag, newPpu, fds, fourscore) := switches.value;
    var (binary, names) := tail;
    if binary then Fail(NoBinaryPlease)
    else
      Done(Header(version, emuVersion, rerecordCount, palFlag, newPpu, fds, ports.value, binary,
                  names.length, names.romFilename, names.comment, names.subtitle, names.guid, names.romChecksum,
                  names.savestate))
  }

  /** As written, the binary flag is read from the key "fds", which has
      already been taken out. */
  function ReadKeysAsWritten(m: map<string, string>): (r: Parsed<Header>) {
    BinaryKeys();
    ReadKeysWith(m, "fds")
  }

  /** Corrected: the binary flag comes from the key "binary". */
  function ReadKeys(m: map<string, string>): (r: Parsed<Header>) {
    BinaryKeys();
    ReadKeysWith(m, "binary")
  }

  /** Which key sets the binary flag's two keys fall in. */
  lemma BinaryKeys()
    ensures "fds" !in NameKeys && "binary" !in NameKeys
    ensures "fds" in SwitchKeys && "binary" !in VersionKeys && "binary" !in SwitchKeys && "binary" !in PortKeys
  {
  }

  /** As written, no header makes the parser refuse a binary movie: the
      flag is looked up after "fds" has been taken out, so it is always
      false. */
  lemma AsWrittenNeverBinary(m: map<string, string>)
    ensures ReadKeysAsWritten(m) != Fail(NoBinaryPlease)
  {
    BinaryKeys();
    var versions := ReadVersions(Fields(m, {}));
    if versions.Done? {
      var switches := ReadSwitches(versions.value.fields);
      if switches.Done? {
        var ports := ReadPorts(switches.value.fields, switches.value.value.3);
        if ports.Done? {
          assert !ports.value.fields.Has("fds");
          var tail := ReadTail(ports.value.fields, "fds");
          assert tail.Done? ==> !tail.value.0;
        }
      }
    }
  }

  /** Corrected, every header the as-written parser accepts whose binary
      flag is set (`binary 1`) is refused. */
  lemma BinaryRefused(m: map<string, string>)
    requires ReadKeysAsWritten(m).Done? && "binary" in m && ParseI32(m["binary"]) == Some(1)
    ensures ReadKeys(m) == Fail(NoBinaryPlease)
  {
    BinaryKeys();
    var versions := ReadVersions(Fields(m, {})).value;
    var switches := ReadSwitches(versions.fields).value;
    var ports := ReadPorts(switches.fields, switches.value.3).value;
    var g := ports.fields;
    assert NamesPresent(g) by {
      assert ReadTail(g, "fds").Done?;
    }
    assert IsSet(g, "binary");
    var tail := ReadTail(g, "binary");
    assert tail.Done? && tail.value.0;
  }

  // ---------------------------------------------------------------------
  // Input records

  /** `parse_gamepad_input`: exactly eight bytes of UTF-8, then one bit
      shifted in per character, so the last character lands in bit 0. Eight
      ASCII characters fill the byte, first character in bit 7; fewer,
      wider characters leave the high bits clear. */
  function ParseGamepad(input: string, lineNo: int, section: string): (r: Parsed<bv8>)
    ensures Utf8Len(input) != 8 ==> r == Fail(BadGamepadInput(lineNo, section))
    ensures Utf8Len(input) == 8 ==>
              r.Done? && |input| <= 8
              && forall j :: 0 <= j < 8 ==> (Bit(r.value, j) <==> j < |input| && Pressed(input[|input| - 1 - j]))
    ensures !r.Abort?
  {
    if Utf8Len(input) != 8 then Fail(BadGamepadInput(lineNo, section))
    else
      var b := GamepadBits(input);
      assert forall j :: 0 <= j < 8 ==> (Bit(b, j) <==> j < |input| && Pressed(input[|input| - 1 - j])) by {
        forall j | 0 <= j < 8 {
          GamepadBitsAt(input, j);
        }
      }
      Done(b)
  }

  /** The length test counts bytes, not characters: four two-byte
      characters pass it and set the low four bits, while eight characters
      of which one is not ASCII fail it. */
  lemma GamepadLengthInBytes(lineNo: int, section: string)
    ensures ParseGamepad("\U{E9}\U{E9}\U{E9}\U{E9}", lineNo, section) == Done(0x0F)
    ensures ParseGamepad("RLDUTSB\U{E9}", lineNo, section) == Fail(BadGamepadInput(lineNo, section))
  {
    var e := '\U{E9}';
    var wide := "\U{E9}\U{E9}\U{E9}\U{E9}";
    assert Utf8Width(e) == 2;
    assert wide[..3] == [e, e, e] && [e, e, e][..2] == [e, e] && [e, e][..1] == [e] && [e][..0] == [];
    assert Utf8Len([e]) == 2;
    assert Utf8Len([e, e]) == 4;
    assert Utf8Len([e, e, e]) == 6;
    assert Utf8Len(wide) == 8;
    var r := ParseGamepad(wide, lineNo, section);
    BitsDetermine(r.value, 0x0F);
    assert Utf8Len("RLDUTSB\U{E9}") == 9;
  }

  /** A gamepad field written by a recorder parses back to its buttons. */
  lemma GamepadRoundTrip(b: bv8, lineNo: int, section: string)
    ensures ParseGamepad(FormatGamepad(b), lineNo, section) == Done(b)
  {
    var r := ParseGamepad(FormatGamepad(b), lineNo, section);
    forall j | 0 <= j < 8
      ensures Bit(r.value, j) == Bit(b, j)
    {
      assert Pressed(FormatGamepad(b)[7 - j]) <==> Bit(b, 7 - (7 - j));
    }
    BitsDetermine(r.value, b);
  }

  /** The command bits that exist: soft reset 0x01, hard reset 0x02, disk
      insert 0x04, disk select 0x08 and coin 0x16, together 0x1F. */
  const CommandBits: bv8 := 0x01 | 0x02 | 0x04 | 0x08 | 0x16

  /** The commands field: a non-negative `i32`, taken mod 255 and
      truncated to the command bits. */
  function ParseCommand(field: string, lineNo: int): (r: Parsed<bv8>)
    ensures r.Done? <==> ParseI32(field).Some? && ParseI32(field).value >= 0
    ensures r.Done? ==> r.value == ByteOf(ParseI32(field).value % 255) & CommandBits
    ensures !r.Done? ==> r == Fail(BadCommands(lineNo))
  {
    match ParseI32(field)
    case Some(v) => if v >= 0 then Done(ByteOf(v % 255) & CommandBits) else Fail(BadCommands(lineNo))
    case None => Fail(BadCommands(lineNo))
  }

  /** Every command byte a recorder writes parses back. */
  lemma CommandRoundTrip(c: bv8, lineNo: int)
    requires c & CommandBits == c
    ensures ParseCommand(Decimal(c as nat), lineNo) == Done(c)
  {
    var n := c as nat;
    SmallCommand(c);
    ParseDecimal(n);
    assert ParseI32(Decimal(n)) == Some(n);
    assert n % 255 == n;
    ByteOfValue(c);
  }

  lemma SmallCommand(c: bv8)
    requires c & CommandBits == c
    ensures c as nat < 32
  {
  }

  lemma ByteOfValue(c: bv8)
    ensures ByteOf(c as nat) == c
  {
  }

  /** One port's field: empty when nothing is connected, a gamepad field
      appended to the gamepad's inputs, and no zapper support. */
  function ParseDeviceInput(d: Device, input: string, lineNo: int, section: string): (r: Parsed<Device>)
    ensures d.NoDevice? ==> r == (if input == [] then Done(d) else Fail(BadNoInputInput(lineNo, section)))
    ensures d.Zapper? ==> r.Abort?
    ensures d.Gamepad? && r.Done? ==>
              ParseGamepad(input, lineNo, section).Done? && r.value == Gamepad(d.inputs + [ParseGamepad(input, lineNo, section).value])
    ensures d.Gamepad? ==> (r.Done? <==> Utf8Len(input) == 8)
  {
    match d
    case NoDevice => if input == [] then Done(d) else Fail(BadNoInputInput(lineNo, section))
    case Gamepad(entries) =>
      var b :- ParseGamepad(input, lineNo, section);
      Done(Gamepad(entries + [b]))
    case Zapper => Abort("not implemented")
  }

  /** A record's pieces between '|': four with the ports, six with a Four
      Score, plus the empty pieces before the first and after the last
      '|'. */
  function Sections(c: Controllers): nat {
    (if c.Fourscore? then 6 else 4) + 2
  }

  /** The parsed record: its command byte and the controllers with the
      record's inputs appended. */
  datatype Record = Record(command: bv8, controllers: Controllers)

  /** The four players' buttons of a Four Score record. `p4Part` is the
      piece player 4 is read from. */
  function ParseFrame(parts: seq<string>, lineNo: int, p4Part: nat): (r: Parsed<seq<bv8>>)
    requires |parts| == 8 && (p4Part == 4 || p4Part == 5)
    ensures r.Fail? ==> r.error.BadGamepadInput?
    ensures r.Done? <==> Utf8Len(parts[2]) == 8 && Utf8Len(parts[3]) == 8 && Utf8Len(parts[4]) == 8 && Utf8Len(parts[p4Part]) == 8
    ensures r.Done? ==> r.value == [ParseGamepad(parts[2], lineNo, "player1").value,
                                    ParseGamepad(parts[3], lineNo, "player2").value,
                                    ParseGamepad(parts[4], lineNo, "player3").value,
                                    ParseGamepad(parts[p4Part], lineNo, "player4").value]
  {
    var p1 :- ParseGamepad(parts[2], lineNo, "player1");
    var p2 :- ParseGamepad(parts[3], lineNo, "player2");
    var p3 :- ParseGamepad(parts[4], lineNo, "player3");
    var p4 :- ParseGamepad(parts[p4Part], lineNo, "player4");
    Done([p1, p2, p3, p4])
  }

  /** The two ports' fields of a record without a Four Score. */
  function ParseDevices(parts: seq<string>, lineNo: int, port0: Device, port1: Device): (r: Parsed<Controllers>)
    requires |parts| == 6
    ensures r.Done? <==> ParseDeviceInput(port0, parts[2], lineNo, "port0").Done?
                         && ParseDeviceInput(port1, parts[3], lineNo, "port1").Done?
    ensures r.Done? ==> r.value == Ports(ParseDeviceInput(port0, parts[2], lineNo, "port0").value,
                                         ParseDeviceInput(port1, parts[3], lineNo, "port1").value)
  {
    var d0 :- ParseDeviceInput(port0, parts[2], lineNo, "port0");
    var d1 :- ParseDeviceInput(port1, parts[3], lineNo, "port1");
    Done(Ports(d0, d1))
  }

  /** One input record: the right number of pieces, empty at both ends and
      in the expansion port, then the command and the controllers'
      fields. */
  function ParseRecordWith(line: string, lineNo: int, c: Controllers, p4Part: nat): (r: Parsed<Record>)
    requires p4Part == 4 || p4Part == 5
    ensures var parts := Split(line, '|');
            r.Done? <==> && |parts| == Sections(c) && parts[0] == [] && parts[|parts| - 1] == [] && parts[|parts| - 2] == []
                         && ParseCommand(parts[1], lineNo).Done?
                         && (if c.Fourscore? then ParseFrame(parts, lineNo, p4Part).Done?
                             else ParseDevices(parts, lineNo, c.port0, c.port1).Done?)
    ensures r.Done? ==> r.value.command == ParseCommand(Split(line, '|')[1], lineNo).value
    ensures r.Done? && c.Fourscore? ==>
              r.value.controllers == Fourscore(c.frames + [ParseFrame(Split(line, '|'), lineNo, p4Part).value])
    ensures r.Done? && c.Ports? ==> r.value.controllers == ParseDevices(Split(line, '|'), lineNo, c.port0, c.port1).value
    ensures |Split(line, '|')| != Sections(c) ==> r == Fail(BadInputLine(lineNo))
  {
    var parts := Split(line, '|');
    if |parts| != Sections(c) then Fail(BadInputLine(lineNo))
    else if parts[0] != [] || parts[|parts| - 1] != [] || parts[|parts| - 2] != [] then Fail(BadInputLine(lineNo))
    else
      var command :- ParseCommand(parts[1], lineNo);
      match c
      case Fourscore(frames) =>
        var frame :- ParseFrame(parts, lineNo, p4Part);
        Done(Record(command, Fourscore(frames + [frame])))
      case Ports(port0, port1) =>
        var devices :- ParseDevices(parts, lineNo, port0, port1);
        Done(Record(command, devices))
  }

  /** As written, player 4 is read from player 3's piece. */
  function ParseRecordAsWritten(line: string, lineNo: int, c: Controllers): (r: Parsed<Record>) {
    ParseRecordWith(line, lineNo, c, 4)
  }

  /** Corrected: player 4 has the fifth piece of its own. */
  function ParseRecord(line: string, lineNo: int, c: Controllers): (r: Parsed<Record>) {
    ParseRecordWith(line, lineNo, c, 5)
  }

  /** A record as a recorder writes it: "|", the command in decimal, the
      fields separated by '|', and "||" for the empty expansion port. */
  function RecordText(command: bv8, fields: seq<string>): (s: string) {
    Join([[], Decimal(command as nat)] + fields + [[], []], '|')
  }

  /** The pieces of a written record. */
  lemma RecordPieces(command: bv8, fields: seq<string>)
    requires forall i :: 0 <= i < |fields| ==> '|' !in fields[i]
    ensures Split(RecordText(command, fields), '|') == [[], Decimal(command as nat)] + fields + [[], []]
  {
    var pieces := [[], Decimal(command as nat)] + fields + [[], []];
    assert '|' !in Decimal(command as nat) by {
      var d := Decimal(command as nat);
      assert forall i :: 0 <= i < |d| ==> d[i] != '|';
    }
    assert forall i :: 0 <= i < |pieces| ==> '|' !in pieces[i];
    SplitJoin(pieces, '|');
  }

  /** A written Four Score record parses back to its command and the four
      players' buttons. */
  lemma FourscoreRoundTrip(command: bv8, p: seq<bv8>, lineNo: int, frames: seq<seq<bv8>>)
    requires command & CommandBits == command && |p| == 4
    ensures var fields := [FormatGamepad(p[0]), FormatGamepad(p[1]), FormatGamepad(p[2]), FormatGamepad(p[3])];
            ParseRecord(RecordText(command, fields), lineNo, Fourscore(frames))
            == Done(Record(command, Fourscore(frames + [p])))
  {
    var fields := [FormatGamepad(p[0]), FormatGamepad(p[1]), FormatGamepad(p[2]), FormatGamepad(p[3])];
    FourscorePieces(command, p);
    var parts := Split(RecordText(command, fields), '|');
    CommandRoundTrip(command, lineNo);
    FrameRoundTrip(parts, p, lineNo);
  }

  /** The pieces of a written Four Score record: empty ends, the command,
      the four fields and the empty expansion port. */
  lemma FourscorePieces(command: bv8, p: seq<bv8>)
    requires |p| == 4
    ensures var parts := Split(RecordText(command, [FormatGamepad(p[0]), FormatGamepad(p[1]), FormatGamepad(p[2]), FormatGamepad(p[3])]), '|');
            && |parts| == 8 && parts[0] == [] && parts[6] == [] && parts[7] == []
            && parts[1] == Decimal(command as nat)
            && parts[2] == FormatGamepad(p[0]) && parts[3] == FormatGamepad(p[1])
            && parts[4] == FormatGamepad(p[2]) && parts[5] == FormatGamepad(p[3])
  {
    var fields := [FormatGamepad(p[0]), FormatGamepad(p[1]), FormatGamepad(p[2]), FormatGamepad(p[3])];
    NoBarInGamepad(p[0]);
    NoBarInGamepad(p[1]);
    NoBarInGamepad(p[2]);
    NoBarInGamepad(p[3]);
    RecordPieces(command, fields);
  }

  /** Four written gamepad fields in pieces 2-5 parse back to the four
      players' buttons. */
  lemma FrameRoundTrip(parts: seq<string>, p: seq<bv8>, lineNo: int)
    requires |parts| == 8 && |p| == 4
    requires parts[2] == FormatGamepad(p[0]) && parts[3] == FormatGamepad(p[1])
    requires parts[4] == FormatGamepad(p[2]) && parts[5] == FormatGamepad(p[3])
    ensures ParseFrame(parts, lineNo, 5) == Done(p)
  {
    GamepadRoundTrip(p[0], lineNo, "player1");
    GamepadRoundTrip(p[1], lineNo, "player2");
    GamepadRoundTrip(p[2], lineNo, "player3");
    GamepadRoundTrip(p[3], lineNo, "player4");
    assert [p[0], p[1], p[2], p[3]] == p;
  }

  /** A written record for two gamepads parses back to its command, and
      each gamepad gains the buttons written for it. */
  lemma PortsRoundTrip(command: bv8, a: bv8, b: bv8, lineNo: int, xs: seq<bv8>, ys: seq<bv8>)
    requires command & CommandBits == command
    ensures ParseRecord(RecordText(command, [FormatGamepad(a), FormatGamepad(b)]), lineNo, Ports(Gamepad(xs), Gamepad(ys)))
            == Done(Record(command, Ports(Gamepad(xs + [a]), Gamepad(ys + [b]))))
  {
    var fields := [FormatGamepad(a), FormatGamepad(b)];
    NoBarInGamepad(a);
    NoBarInGamepad(b);
    RecordPieces(command, fields);
    var parts := Split(RecordText(command, fields), '|');
    assert |parts| == 6 && parts[0] == [] && parts[4] == [] && parts[5] == [];
    assert parts[1] == Decimal(command as nat) && parts[2] == fields[0] && parts[3] == fields[1];
    CommandRoundTrip(command, lineNo);
    GamepadRoundTrip(a, lineNo, "port0");
    GamepadRoundTrip(b, lineNo, "port1");
    assert ParseDevices(parts, lineNo, Gamepad(xs), Gamepad(ys)) == Done(Ports(Gamepad(xs + [a]), Gamepad(ys + [b])));
  }

  /** A gamepad field holds letters and dots, never the separator. */
  lemma NoBarInGamepad(b: bv8)
    ensures '|' !in FormatGamepad(b)
  {
    var f := FormatGamepad(b);
    assert forall k :: 0 <= k < 8 ==> f[k] == '.' || f[k] == ButtonLetters[k];
  }

  /** The Four Score record "|0|........|........|A.......|.B......||", in
      which player 3 holds A and player 4 holds B. */
  const TwoPlayersDiffer: string := RecordText(0, ["........", "........", "A.......", ".B......"])

  lemma TwoPlayersPieces()
    ensures var parts := Split(TwoPlayersDiffer, '|');
            && |parts| == 8 && parts[0] == [] && parts[6] == [] && parts[7] == [] && parts[1] == Decimal(0)
            && parts[2] == "........" && parts[3] == "........" && parts[4] == "A......." && parts[5] == ".B......"
  {
    var fields := ["........", "........", "A.......", ".B......"];
    assert forall i :: 0 <= i < 4 ==> '|' !in fields[i];
    RecordPieces(0, fields);
  }

  /** The fields of that record are eight ASCII bytes each. */
  lemma FieldBytes()
    ensures Utf8Len("........") == 8 && Utf8Len("A.......") == 8 && Utf8Len(".B......") == 8
  {
    assert forall i :: 0 <= i < 8 ==> "........"[i] as int < 0x80;
    assert forall i :: 0 <= i < 8 ==> "A......."[i] as int < 0x80;
    assert forall i :: 0 <= i < 8 ==> ".B......"[i] as int < 0x80;
  }

  /** As written, player 4 is given player 3's buttons. */
  lemma AsWrittenCopiesPlayer3()
    ensures var r := ParseRecordAsWritten(TwoPlayersDiffer, 1, Fourscore([]));
            r.Done? && r.value.controllers.frames[0][3] == r.value.controllers.frames[0][2]
    ensures var r := ParseRecord(TwoPlayersDiffer, 1, Fourscore([]));
            r.Done? && r.value.controllers.frames[0][3] != r.value.controllers.frames[0][2]
  {
    var parts := Split(TwoPlayersDiffer, '|');
    TwoPlayersPieces();
    CommandRoundTrip(0, 1);
    FieldBytes();
    var a := ParseGamepad(parts[4], 1, "player3");
    var b := ParseGamepad(parts[5], 1, "player4");
    assert a.Done? && Bit(a.value, 7);
    assert b.Done? && !Bit(b.value, 7);
    var asWritten := ParseFrame(parts, 1, 4);
    var corrected := ParseFrame(parts, 1, 5);
    assert asWritten.Done? && asWritten.value[3] == asWritten.value[2];
    assert corrected.Done? && corrected.value[3] != corrected.value[2];
  }

  // ---------------------------------------------------------------------
  // The whole movie

  /** Every device keeps one input per record parsed. */
  predicate Recorded(c: Controllers, n: nat) {
    match c
    case Fourscore(frames) => |frames| == n
    case Ports(p0, p1) => (p0.Gamepad? ==> |p0.inputs| == n) && (p1.Gamepad? ==> |p1.inputs| == n)
  }

  /** The records after the header, one per line, stopping after `length`
      of them when the header gives a length it reaches, at the end of the
      text, or at the first bad line. */
  function ParseRecords(line: string, rest: string, lineNo: int, length: Option<int>, c: Controllers,
                        commands: seq<bv8>, p4Part: nat): (r: Parsed<(seq<bv8>, Controllers)>)
    requires p4Part == 4 || p4Part == 5
    requires Recorded(c, |commands|)
    ensures r.Done? ==> |r.value.0| > |commands| && r.value.0[..|commands|] == commands
    ensures r.Done? ==> Recorded(r.value.1, |r.value.0|) && r.value.1.Fourscore? == c.Fourscore?
    ensures r.Done? && length.Some? && length.value > |commands| ==> |r.value.0| <= length.value
    decreases |rest|
  {
    var record :- ParseRecordWith(line, lineNo, c, p4Part);
    var commands' := commands + [record.command];
    assert Recorded(record.controllers, |commands'|) by {
      RecordAdds(line, lineNo, c, p4Part, |commands|);
    }
    if length.Some? && length.value == |commands'| then Done((commands', record.controllers))
    else if rest == [] then Done((commands', record.controllers))
    else
      var (raw, rest') := ReadLine(rest);
      var r := ParseRecords(Trim(raw), rest', lineNo + 1, length, record.controllers, commands', p4Part);
      assert r.Done? ==> r.value.0[..|commands|] == r.value.0[..|commands'|][..|commands|];
      r
  }

  /** With a length of one, the first record ends the movie whatever text
      follows it. */
  lemma LengthStops(line: string, rest: string, lineNo: int, c: Controllers, p4Part: nat)
    requires p4Part == 4 || p4Part == 5
    requires Recorded(c, 0) && ParseRecordWith(line, lineNo, c, p4Part).Done?
    ensures var record := ParseRecordWith(line, lineNo, c, p4Part).value;
            ParseRecords(line, rest, lineNo, Some(1), c, [], p4Part) == Done(([record.command], record.controllers))
  {
  }

  /** A record adds one input to every device. */
  lemma RecordAdds(line: string, lineNo: int, c: Controllers, p4Part: nat, n: nat)
    requires p4Part == 4 || p4Part == 5
    requires Recorded(c, n) && ParseRecordWith(line, lineNo, c, p4Part).Done?
    ensures Recorded(ParseRecordWith(line, lineNo, c, p4Part).value.controllers, n + 1)
  {
  }

  function ParseWith(text: string, binaryKey: string, p4Part: nat): (r: Parsed<Fm2File>)
    requires binaryKey !in NameKeys && (p4Part == 4 || p4Part == 5)
    ensures text == [] ==> r == Fail(NoInput)
    ensures r.Done? ==> |r.value.commands| >= 1 && Recorded(r.value.header.controllers, |r.value.commands|)
  {
    var scanned :- ScanHeader(text, map[], 1);
    var header :- ReadKeysWith(scanned.fields, binaryKey);
    var records :- ParseRecords(scanned.firstInput, scanned.rest, scanned.lineNo, header.length,
                                header.controllers, [], p4Part);
    Done(Fm2File(header.(controllers := records.1), records.0))
  }

  /** `FM2File::parse` with both corrections. */
  function Parse(text: string): (r: Parsed<Fm2File>)
    ensures text == [] ==> r == Fail(NoInput)
    ensures r.Done? ==> |r.value.commands| >= 1 && Recorded(r.value.header.controllers, |r.value.commands|)
    ensures r.Done? ==> !r.value.header.binary
    ensures r.Done? && r.value.header.length.Some? && r.value.header.length.value >= 1 ==>
              |r.value.commands| <= r.value.header.length.value
  {
    BinaryKeys();
    ParseWith(text, "binary", 5)
  }

  /** `FM2File::parse` as written. */
  function ParseAsWritten(text: string): (r: Parsed<Fm2File>)
    ensures text == [] ==> r == Fail(NoInput)
  {
    BinaryKeys();
    ParseWith(text, "fds", 4)
  }
}
