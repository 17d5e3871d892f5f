/**
 ConfigFromFile: reads the settings of the viewer from `name=value` lines. Each line is trimmed;
 comment lines and empty lines are skipped; the name is matched against the settings ignoring
 case, unknown names are ignored, and a setting given twice keeps its last value. Reading the
 file and Java's parsing of numbers are given as inputs; the comment prefix of the file reader is
 a parameter, its class not being part of this model.
 */
module Configuration {
  import opened Wrappers
  import opened JavaStrings
  import opened Maths
  import opened QRCodes

  /** The separator between a setting's name and its value. */
  const SEPARATOR: char := '='
  /** Points per inch, the unit of the PDF library (`Constants.POINTS_PER_INCH`). */
  const POINTS_PER_INCH: real := 72.0

  /** The settings of the configuration file (`Setting`). */
  datatype Setting =
    | eclipse_date_utc | location_name | location_latitude | location_longitude | location_altitude
    | location_hours_offset_from_ut | location_minutes_offset_from_ut | qr_code_1 | qr_code_2
    | width | height | viewer_width | viewer_height | viewer_top_margin
    | eyehole_width | eyehole_height | eyehole_center | output_directory | font_directory
    | arms_length | totality_advice | produced_by | delta_t | gap_between_partial_phases

  /** The name of a setting (`toString` of the enum constant). */
  function Name(s: Setting): string {
    match s
    case eclipse_date_utc => "eclipse_date_utc"
    case location_name => "location_name"
    case location_latitude => "location_latitude"
    case location_longitude => "location_longitude"
    case location_altitude => "location_altitude"
    case location_hours_offset_from_ut => "location_hours_offset_from_ut"
    case location_minutes_offset_from_ut => "location_minutes_offset_from_ut"
    case qr_code_1 => "qr_code_1"
    case qr_code_2 => "qr_code_2"
    case width => "width"
    case height => "height"
    case viewer_width => "viewer_width"
    case viewer_height => "viewer_height"
    case viewer_top_margin => "viewer_top_margin"
    case eyehole_width => "eyehole_width"
    case eyehole_height => "eyehole_height"
    case eyehole_center => "eyehole_center"
    case output_directory => "output_directory"
    case font_directory => "font_directory"
    case arms_length => "arms_length"
    case totality_advice => "totality_advice"
    case produced_by => "produced_by"
    case delta_t => "delta_t"
    case gap_between_partial_phases => "gap_between_partial_phases"
  }

  /** The settings in the order `processEach` tests them. */
  const CHAIN_ORDER: seq<Setting> := [
    output_directory, width, height, viewer_width, viewer_height, viewer_top_margin,
    eyehole_width, eyehole_height, eyehole_center, location_name, location_latitude,
    location_longitude, location_altitude, location_hours_offset_from_ut,
    location_minutes_offset_from_ut, qr_code_1, qr_code_2, eclipse_date_utc, font_directory,
    arms_length, totality_advice, produced_by, delta_t, gap_between_partial_phases]

  /** `matches`: the name equals the setting's name, ignoring case. */
  predicate Matches(s: Setting, name: string) {
    EqualsIgnoreCase(name, Name(s))
  }

  /** The first setting, in the order of the chain, that the name matches. */
  function FirstMatching(candidates: seq<Setting>, name: string): (r: Option<Setting>)
    ensures r.Some? ==> r.value in candidates && Matches(r.value, name)
    ensures r.None? <==> forall s :: s in candidates ==> !Matches(s, name)
  {
    if candidates == [] then None
    else if Matches(candidates[0], name) then Some(candidates[0])
    else FirstMatching(candidates[1..], name)
  }

  /** The setting a name selects, if any. */
  function SettingNamed(name: string): (r: Option<Setting>)
    ensures r.Some? ==> Matches(r.value, name)
    ensures r.None? <==> forall s :: !Matches(s, name)
  {
    EverySettingInChain();
    FirstMatching(CHAIN_ORDER, name)
  }

  /** `processEach` tests every setting. */
  lemma EverySettingInChain()
    ensures forall s :: s in CHAIN_ORDER
  {
    forall s: Setting ensures s in CHAIN_ORDER {
      match s
      case output_directory => assert CHAIN_ORDER[0] == output_directory;
      case width => assert CHAIN_ORDER[1] == width;
      case height => assert CHAIN_ORDER[2] == height;
      case viewer_width => assert CHAIN_ORDER[3] == viewer_width;
      case viewer_height => assert CHAIN_ORDER[4] == viewer_height;
      case viewer_top_margin => assert CHAIN_ORDER[5] == viewer_top_margin;
      case eyehole_width => assert CHAIN_ORDER[6] == eyehole_width;
      case eyehole_height => assert CHAIN_ORDER[7] == eyehole_height;
      case eyehole_center => assert CHAIN_ORDER[8] == eyehole_center;
      case location_name => assert CHAIN_ORDER[9] == location_name;
      case location_latitude => assert CHAIN_ORDER[10] == location_latitude;
      case location_longitude => assert CHAIN_ORDER[11] == location_longitude;
      case location_altitude => assert CHAIN_ORDER[12] == location_altitude;
      case location_hours_offset_from_ut => assert CHAIN_ORDER[13] == location_hours_offset_from_ut;
      case location_minutes_offset_from_ut => assert CHAIN_ORDER[14] == location_minutes_offset_from_ut;
      case qr_code_1 => assert CHAIN_ORDER[15] == qr_code_1;
      case qr_code_2 => assert CHAIN_ORDER[16] == qr_code_2;
      case eclipse_date_utc => assert CHAIN_ORDER[17] == eclipse_date_utc;
      case font_directory => assert CHAIN_ORDER[18] == font_directory;
      case arms_length => assert CHAIN_ORDER[19] == arms_length;
      case totality_advice => assert CHAIN_ORDER[20] == totality_advice;
      case produced_by => assert CHAIN_ORDER[21] == produced_by;
      case delta_t => assert CHAIN_ORDER[22] == delta_t;
      case gap_between_partial_phases => assert CHAIN_ORDER[23] == gap_between_partial_phases;
    }
  }

  /** Names that differ only in the case of their letters select the same setting. */
  lemma {:induction false} SameSettingIgnoringCase(candidates: seq<Setting>, a: string, b: string)
    requires EqualsIgnoreCase(a, b)
    ensures FirstMatching(candidates, a) == FirstMatching(candidates, b)
  {
    if candidates != [] {
      assert Matches(candidates[0], a) <==> Matches(candidates[0], b);
      SameSettingIgnoringCase(candidates[1..], a, b);
    }
  }

  /** The name and the value of one line. */
  datatype NameValuePair = NameValuePair(name: string, value: string)

  /**
   `parse`: the line split at its first `=`, both parts trimmed; any later `=` stays in the value.
   None (null in the source) when the line has no `=`.
   */
  function Parse(line: string): (r: Option<NameValuePair>)
    ensures r.None? <==> SEPARATOR !in line
    ensures r.Some? ==> SEPARATOR !in r.value.name && IsTrimmed(r.value.name) && IsTrimmed(r.value.value)
  {
    match IndexOf(line, SEPARATOR)
    case None => None
    case Some(first) =>
      var name := line[..first];
      assert forall i :: 0 <= i < |Trim(name)| ==> Trim(name)[i] in name by {
        TrimInfix(name);
      }
      Some(NameValuePair(Trim(name), Trim(line[first + 1..])))
  }

  /** A trimmed string is an infix of the original. */
  lemma TrimInfix(s: string)
    ensures forall i :: 0 <= i < |Trim(s)| ==> Trim(s)[i] in s
  {
    var st := TrimStartIndex(s, 0);
    assert Trim(s) == s[st..TrimEndIndex(s, st, |s|)];
    assert forall i :: 0 <= i < |Trim(s)| ==> Trim(s)[i] == s[st + i];
  }

  /** A line written `name=value`, with no `=` in the name, parses back to its trimmed parts. */
  lemma ParseNameValue(name: string, value: string)
    requires SEPARATOR !in name
    ensures Parse(name + [SEPARATOR] + value) == Some(NameValuePair(Trim(name), Trim(value)))
  {
    var line := name + [SEPARATOR] + value;
    assert line[..|name|] == name && line[|name|] == SEPARATOR && line[|name| + 1..] == value;
    IndexOfFirst(line, SEPARATOR, |name|);
  }

  /** The first occurrence of a character is at `i` when it is there and nowhere before. */
  lemma {:induction false} IndexOfFirst(s: string, c: char, i: nat)
    requires i < |s| && s[i] == c && c !in s[..i]
    ensures IndexOf(s, c) == Some(i)
  {
    if i > 0 {
      assert s[0] != c by { assert s[0] == s[..i][0]; }
      assert s[1..][..i - 1] == s[1..i];
      IndexOfFirst(s[1..], c, i - 1);
    }
  }

  /**
   `asQRCode`: the value split at its first `|`, both parts trimmed; None (null) when there is no
   `|`.
   */
  function AsQRCode(value: string): (r: Option<QRCode>)
    ensures r.None? <==> SEP !in value
    ensures r.Some? ==> SEP !in r.value.text
  {
    match IndexOf(value, SEP)
    case None => None
    case Some(first) =>
      TrimInfix(value[..first]);
      Some(QRCode(Trim(value[..first]), Trim(value[first + 1..])))
  }

  /**
   `toString` and `asQRCode` are inverse on QR codes whose label has no `|` and whose label and
   link have no surrounding white space.
   */
  lemma QRCodeRoundTrip(q: QRCode)
    requires SEP !in q.text && IsTrimmed(q.text) && IsTrimmed(q.url)
    ensures AsQRCode(ToString(q)) == Some(q)
  {
    var s := ToString(q);
    assert s[..|q.text|] == q.text;
    IndexOfFirst(s, SEP, |q.text|);
    TrimOfTrimmed(q.text);
    TrimOfTrimmed(q.url);
  }

  /**
   A value written `label|url`, with no `|` in the label, reads as the QR code of the trimmed label
   and the trimmed link; every value holding a `|` can be written so.
   */
  lemma AsQRCodeSplit(text: string, url: string)
    requires SEP !in text
    ensures AsQRCode(text + [SEP] + url) == Some(QRCode(Trim(text), Trim(url)))
  {
    var value := text + [SEP] + url;
    assert value[..|text|] == text && value[|text|] == SEP && value[|text| + 1..] == url;
    IndexOfFirst(value, SEP, |text|);
  }

  /** The constructor accepts a `|` in the label, and the round trip then splits the label: "a|b" with link "c" reads back as "a" with link "b|c". */
  lemma QRCodeRoundTripFails()
    ensures AsQRCode(ToString(QRCode("a|b", "c"))) == Some(QRCode("a", "b|c"))
  {
    var s := ToString(QRCode("a|b", "c"));
    assert s == "a|b|c";
    IndexOfFirst(s, SEP, 1);
    assert s[..1] == "a" && s[2..] == "b|c";
    TrimOfTrimmed("a");
    TrimOfTrimmed("b|c");
  }

  /** `asStringList`: the value split at every `|` (Java's split, which drops trailing empty parts). */
  function AsStringList(value: string): (r: seq<string>)
    ensures forall i :: 0 <= i < |r| ==> SEP !in r[i]
    ensures value == "" || value[|value| - 1] != SEP ==> Join(r, SEP) == value
  {
    if value == "" || value[|value| - 1] != SEP then
      JoinJavaSplit(value, SEP);
      JavaSplit(value, SEP)
    else JavaSplit(value, SEP)
  }

  /** The parsing the source leaves to Java: `Float.valueOf`, `Double.valueOf` and `Integer.valueOf`. */
  datatype Readers = Readers(float: string -> real, double: string -> real, integer: string -> int)

  /** The value of a builder field; a field never assigned is absent from the map (null, or its initial value). */
  datatype Value =
    | Text(text: string)
    | Number(number: real)
    | Whole(whole: int)
    | Code(code: Option<QRCode>)
    | Texts(texts: seq<string>)

  /** The value a setting's field receives from the text of its line. */
  function ValueOf(s: Setting, value: string, read: Readers): (r: Value)
    ensures s in {width, height, viewer_width, viewer_height, viewer_top_margin} ==> r == Number(read.float(value) * POINTS_PER_INCH)
    ensures s in {location_latitude, location_longitude} ==> r == Number(DegToRads(read.double(value)))
    ensures s in {output_directory, location_name, eclipse_date_utc, font_directory, produced_by} ==> r == Text(value)
    ensures s in {qr_code_1, qr_code_2} ==> r == Code(AsQRCode(value))
    ensures s == totality_advice ==> r == Texts(AsStringList(value))
    ensures s in {eyehole_width, eyehole_height, eyehole_center} ==> r == Number(read.float(value))
    ensures s in {location_altitude, arms_length, delta_t} ==> r == Number(read.double(value))
    ensures s in {location_hours_offset_from_ut, location_minutes_offset_from_ut, gap_between_partial_phases} ==>
      r == Whole(read.integer(value))
  {
    match s
    case output_directory => Text(value)
    case width => Number(read.float(value) * POINTS_PER_INCH)
    case height => Number(read.float(value) * POINTS_PER_INCH)
    case viewer_width => Number(read.float(value) * POINTS_PER_INCH)
    case viewer_height => Number(read.float(value) * POINTS_PER_INCH)
    case viewer_top_margin => Number(read.float(value) * POINTS_PER_INCH)
    case eyehole_width => Number(read.float(value))
    case eyehole_height => Number(read.float(value))
    case eyehole_center => Number(read.float(value))
    case location_name => Text(value)
    case location_latitude => Number(DegToRads(read.double(value)))
    case location_longitude => Number(DegToRads(read.double(value)))
    case location_altitude => Number(read.double(value))
    case location_hours_offset_from_ut => Whole(read.integer(value))
    case location_minutes_offset_from_ut => Whole(read.integer(value))
    case qr_code_1 => Code(AsQRCode(value))
    case qr_code_2 => Code(AsQRCode(value))
    case eclipse_date_utc => Text(value)
    case font_directory => Text(value)
    case arms_length => Number(read.double(value))
    case totality_advice => Texts(AsStringList(value))
    case produced_by => Text(value)
    case delta_t => Number(read.double(value))
    case gap_between_partial_phases => Whole(read.integer(value))
  }

  /** The initial values of the builder fields that are not null: empty texts and an empty list. */
  const INITIAL: map<Setting, Value> := map[
    location_name := Text(""), output_directory := Text(""), font_directory := Text(""),
    produced_by := Text(""), totality_advice := Texts([])]

  /** A line without `=` gives a null pair, which `processEach` then dereferences. */
  datatype ConfigError = NullPair(line: string)

  /** A comment line or an empty one, which `processEach` skips. */
  predicate Ignored(line: string, comment: string) {
    StartsWith(line, comment) || |line| == 0
  }

  /** What `processEach` does to the builder fields for one (already trimmed) line. */
  function Processed(fields: map<Setting, Value>, line: string, comment: string, read: Readers): (r: Result<map<Setting, Value>, ConfigError>)
    ensures Ignored(line, comment) ==> r == Success(fields)
    ensures r.Failure? <==> !Ignored(line, comment) && SEPARATOR !in line
    ensures !Ignored(line, comment) && Parse(line).Some? && SettingNamed(Parse(line).value.name).None? ==> r == Success(fields)
  {
    if Ignored(line, comment) then Success(fields)
    else match Parse(line)
      case None => Failure(NullPair(line))
      case Some(pair) =>
        match SettingNamed(pair.name)
        case None => Success(fields)
        case Some(s) => Success(fields[s := ValueOf(s, pair.value, read)])
  }

  /** The builder fields after every line, each trimmed, in order; the first failing line stops the reading. */
  function ProcessedAll(fields: map<Setting, Value>, lines: seq<string>, comment: string, read: Readers): Result<map<Setting, Value>, ConfigError>
    decreases |lines|
  {
    if lines == [] then Success(fields)
    else match Processed(fields, Trim(lines[0]), comment, read)
      case Failure(e) => Failure(e)
      case Success(next) => ProcessedAll(next, lines[1..], comment, read)
  }

  /** Reading one more line continues from the fields the earlier lines left. */
  lemma {:induction false} ProcessedAllAppend(fields: map<Setting, Value>, lines: seq<string>, line: string, comment: string, read: Readers)
    requires ProcessedAll(fields, lines, comment, read).Success?
    ensures ProcessedAll(fields, lines + [line], comment, read) ==
      Processed(ProcessedAll(fields, lines, comment, read).value, Trim(line), comment, read)
    decreases |lines|
  {
    var longer := lines + [line];
    if lines != [] {
      assert longer[0] == lines[0] && longer[1..] == lines[1..] + [line];
      var next := Processed(fields, Trim(lines[0]), comment, read);
      assert next.Success?;
      assert ProcessedAll(fields, lines, comment, read) == ProcessedAll(next.value, lines[1..], comment, read);
      assert ProcessedAll(fields, longer, comment, read) == ProcessedAll(next.value, longer[1..], comment, read);
      ProcessedAllAppend(next.value, lines[1..], line, comment, read);
    } else {
      assert longer == [line] && longer[1..] == [];
    }
  }

  /**
   The last line for a setting wins: after a line naming setting s, that setting holds the value of
   this line whatever the earlier lines held.
   */
  lemma LastLineWins(fields: map<Setting, Value>, lines: seq<string>, line: string, comment: string, read: Readers, pair: NameValuePair, s: Setting)
    requires ProcessedAll(fields, lines, comment, read).Success?
    requires !Ignored(Trim(line), comment) && Parse(Trim(line)) == Some(pair) && SettingNamed(pair.name) == Some(s)
    ensures var r := ProcessedAll(fields, lines + [line], comment, read);
      r.Success? && s in r.value && r.value[s] == ValueOf(s, pair.value, read)
  {
    var before := ProcessedAll(fields, lines, comment, read).value;
    ProcessedAllAppend(fields, lines, line, comment, read);
    ProcessedSetsNamedSetting(before, Trim(line), comment, read, pair, s);
  }

  /** A line naming a setting replaces that setting's value and leaves every other one as it was. */
  lemma ProcessedSetsNamedSetting(fields: map<Setting, Value>, line: string, comment: string, read: Readers, pair: NameValuePair, s: Setting)
    requires !Ignored(line, comment) && Parse(line) == Some(pair) && SettingNamed(pair.name) == Some(s)
    ensures Processed(fields, line, comment, read) == Success(fields[s := ValueOf(s, pair.value, read)])
  {
  }

  /** The builder of `ConfigFromFile`: one map entry per builder field that holds a value. */
  class ConfigFromFile {
    var fields: map<Setting, Value>
    /** The prefix of comment lines (`DataFileReader.COMMENT`). */
    const comment: string
    const read: Readers

    constructor(comment: string, read: Readers)
      ensures fields == INITIAL && this.comment == comment && this.read == read
    {
      fields := INITIAL;
      this.comment := comment;
      this.read := read;
    }

    /** `processEach`: one trimmed line; a line without `=` raises the null dereference and changes nothing. */
    method ProcessEach(line: string) returns (error: Option<ConfigError>)
      modifies this`fields
      ensures var r := Processed(old(fields), line, comment, read);
        if r.Success? then error.None? && fields == r.value else error == Some(r.error) && fields == old(fields)
    {
      if StartsWith(line, comment) || |line| == 0 {
        assert Processed(old(fields), line, comment, read) == Success(fields);
        error := None;
        return;
      }
      var pair := Parse(line);
      if pair.None? {
        assert Processed(old(fields), line, comment, read) == Failure(NullPair(line));
        error := Some(NullPair(line));
        return;
      }
      var setting := SettingNamed(pair.value.name);
      if setting.Some? {
        fields := fields[setting.value := ValueOf(setting.value, pair.value.value, read)];
      }
      assert Processed(old(fields), line, comment, read) == Success(fields);
      error := None;
    }

    /** The loop of `init` over the lines of the file, each trimmed before it is processed. */
    method Init(lines: seq<string>) returns (error: Option<ConfigError>)
      modifies this`fields
      ensures match ProcessedAll(old(fields), lines, comment, read)
        case Success(m) => error.None? && fields == m
        case Failure(e) => error == Some(e)
    {
      ghost var start := fields;
      for i := 0 to |lines|
        invariant ProcessedAll(start, lines, comment, read) == ProcessedAll(fields, lines[i..], comment, read)
      {
        assert lines[i..][1..] == lines[i + 1..];
        error := ProcessEach(Trim(lines[i]));
        if error.Some? {
          return;
        }
      }
      assert lines[|lines|..] == [];
      error := None;
    }
  }
}
