/** The strings the recorder builds: the recording's file name and full
    path, the elapsed-recording-time overlay text, the truncated detection
    label, and the argument line of the external encoder. */
module Formatting {
  import opened Text

  // ---------------------------------------------------------------------
  // Clock readings

  /** One reading of the local clock, in the fields the format strings use. */
  datatype Stamp = Stamp(year: nat, month: nat, day: nat, hour: nat, minute: nat, second: nat)

  predicate ValidStamp(t: Stamp) {
    1 <= t.year <= 9999 && 1 <= t.month <= 12 && 1 <= t.day <= 31
    && t.hour < 24 && t.minute < 60 && t.second < 60
  }

  const TicksPerSecond: nat := 10_000_000
  const TicksPerMinute: nat := 60 * TicksPerSecond
  const TicksPerHour: nat := 60 * TicksPerMinute

  // ---------------------------------------------------------------------
  // File name and path

  /** `yyyy-MM-dd` */
  function DatePart(t: Stamp): string {
    PadDigits(t.year, 4) + "-" + PadDigits(t.month, 2) + "-" + PadDigits(t.day, 2)
  }

  /** `HH-mm-ss` */
  function TimePart(t: Stamp): string {
    PadDigits(t.hour, 2) + "-" + PadDigits(t.minute, 2) + "-" + PadDigits(t.second, 2)
  }

  /** `{date}_{time}_{code}_{company}.mp4` */
  function RecordingFileName(t: Stamp, code: string, company: string): string {
    DatePart(t) + "_" + TimePart(t) + "_" + code + "_" + company + ".mp4"
  }

  lemma Pow10Values()
    ensures Pow10(2) == 100 && Pow10(4) == 10000
  {
    assert Pow10(1) == 10;
    assert Pow10(3) == 1000;
  }

  /** Three two-digit fields joined by a separator, as in `HH-mm-ss` and
      `hh:mm:ss`: each field reads back from its fixed position. */
  lemma {:induction false} ThreeFieldLayout(a: nat, b: nat, c: nat, sep: string)
    requires a < 100 && b < 100 && c < 100 && |sep| == 1
    ensures var r := PadDigits(a, 2) + sep + PadDigits(b, 2) + sep + PadDigits(c, 2);
      && |r| == 8 && r[2..3] == sep && r[5..6] == sep
      && r[0..2] == PadDigits(a, 2) && r[3..5] == PadDigits(b, 2) && r[6..8] == PadDigits(c, 2)
      && DecimalValue(r[0..2]) == a && DecimalValue(r[3..5]) == b && DecimalValue(r[6..8]) == c
  {
    Pow10Values();
    var x, y, z := PadDigits(a, 2), PadDigits(b, 2), PadDigits(c, 2);
    PadDigitsRoundTrip(a, 2);
    PadDigitsRoundTrip(b, 2);
    PadDigitsRoundTrip(c, 2);
    ConcatParts5(x, sep, y, sep, z);
  }

  /** The date part reads back as the year, month and day. */
  lemma {:induction false} DatePartLayout(t: Stamp)
    requires ValidStamp(t)
    ensures var d := DatePart(t);
      && |d| == 10 && d[4] == '-' && d[7] == '-'
      && AllDigits(d[0..4]) && DecimalValue(d[0..4]) == t.year
      && AllDigits(d[5..7]) && DecimalValue(d[5..7]) == t.month
      && AllDigits(d[8..10]) && DecimalValue(d[8..10]) == t.day
  {
    var y, m, dd := PadDigits(t.year, 4), PadDigits(t.month, 2), PadDigits(t.day, 2);
    assert |y| == 4 && |m| == 2 && |dd| == 2 by {
      Pow10Values();
      PadDigitsRoundTrip(t.year, 4);
      PadDigitsRoundTrip(t.month, 2);
      PadDigitsRoundTrip(t.day, 2);
    }
    assert DecimalValue(y) == t.year && DecimalValue(m) == t.month && DecimalValue(dd) == t.day by {
      PadDigitsRoundTrip(t.year, 4);
      PadDigitsRoundTrip(t.month, 2);
      PadDigitsRoundTrip(t.day, 2);
    }
    assert DatePart(t) == y + "-" + m + "-" + dd;
    DashedLayout(y, m, dd);
  }

  /** Where the fields of `y-m-d` sit when the year has four characters and
      the month and day two. */
  lemma DashedLayout(y: string, m: string, dd: string)
    requires |y| == 4 && |m| == 2 && |dd| == 2
    ensures var d := y + "-" + m + "-" + dd;
      && |d| == 10 && d[4] == '-' && d[7] == '-'
      && d[0..4] == y && d[5..7] == m && d[8..10] == dd
  {
    ConcatParts5(y, "-", m, "-", dd);
    var d := y + "-" + m + "-" + dd;
    assert d[4] == d[4..5][0] && d[7] == d[7..8][0];
  }

  /** The time part reads back as the hour, minute and second. */
  lemma TimePartLayout(t: Stamp)
    requires ValidStamp(t)
    ensures var d := TimePart(t);
      && |d| == 8 && d[2] == '-' && d[5] == '-'
      && AllDigits(d[0..2]) && DecimalValue(d[0..2]) == t.hour
      && AllDigits(d[3..5]) && DecimalValue(d[3..5]) == t.minute
      && AllDigits(d[6..8]) && DecimalValue(d[6..8]) == t.second
  {
    ThreeFieldLayout(t.hour, t.minute, t.second, "-");
  }

  /** The file name is the date part, the time part, the code, the company
      and the extension, each at a fixed position, so every field can be read
      back from it. */
  lemma {:induction false} FileNameLayout(t: Stamp, code: string, company: string)
    requires ValidStamp(t)
    ensures var r := RecordingFileName(t, code, company);
      && |r| == 25 + |code| + |company|
      && r[0..10] == DatePart(t) && r[10] == '_'
      && r[11..19] == TimePart(t) && r[19] == '_'
      && r[20..20 + |code|] == code && r[20 + |code|] == '_'
      && r[21 + |code|..21 + |code| + |company|] == company
      && r[|r| - 4..] == ".mp4"
  {
    var d, tm := DatePart(t), TimePart(t);
    assert |d| == 10 by { DatePartLayout(t); }
    assert |tm| == 8 by { TimePartLayout(t); }
    NameLayout(d, tm, code, company);
  }

  /** Two recordings get the same file name only if they were started in
      the same second: the clock reading can be read back from the name. */
  lemma {:induction false} FileNameDeterminesStamp(t1: Stamp, code1: string, company1: string,
                                                   t2: Stamp, code2: string, company2: string)
    requires ValidStamp(t1) && ValidStamp(t2)
    requires RecordingFileName(t1, code1, company1) == RecordingFileName(t2, code2, company2)
    ensures t1 == t2
  {
    var r := RecordingFileName(t1, code1, company1);
    FileNameLayout(t1, code1, company1);
    FileNameLayout(t2, code2, company2);
    assert DatePart(t1) == r[0..10] == DatePart(t2);
    assert TimePart(t1) == r[11..19] == TimePart(t2);
    DatePartLayout(t1);
    DatePartLayout(t2);
    TimePartLayout(t1);
    TimePartLayout(t2);
  }

  /** Where the fields of `d_t_code_company.mp4` sit when the date has ten
      characters and the time eight. */
  lemma NameLayout(d: string, tm: string, code: string, company: string)
    requires |d| == 10 && |tm| == 8
    ensures var r := d + "_" + tm + "_" + code + "_" + company + ".mp4";
      && |r| == 25 + |code| + |company|
      && r[0..10] == d && r[10] == '_'
      && r[11..19] == tm && r[19] == '_'
      && r[20..20 + |code|] == code && r[20 + |code|] == '_'
      && r[21 + |code|..21 + |code| + |company|] == company
      && r[|r| - 4..] == ".mp4"
  {
    var r := d + "_" + tm + "_" + code + "_" + company + ".mp4";
    var tail := code + "_" + company + ".mp4";
    assert r == d + "_" + tm + "_" + tail;
    ConcatParts5(d, "_", tm, "_", tail);
    assert tail[..|code|] == code;
    assert tail[|code| + 1..|code| + 1 + |company|] == company;
  }

  /** `Path.IsPathRooted` on Windows. */
  predicate IsPathRooted(p: string) {
    (|p| >= 1 && (p[0] == '\\' || p[0] == '/')) || (|p| >= 2 && p[1] == ':')
  }

  /** The directory ends in a directory or volume separator. */
  predicate EndsInSeparator(dir: string) {
    |dir| >= 1 && (dir[|dir| - 1] == '\\' || dir[|dir| - 1] == '/' || dir[|dir| - 1] == ':')
  }

  /** `Path.Combine(dir, name)` on Windows. */
  function CombinePath(dir: string, name: string): (r: string)
  {
    if name == [] then dir
    else if dir == [] then name
    else if IsPathRooted(name) then name
    else if EndsInSeparator(dir) then dir + name
    else dir + "\\" + name
  }

  /** A recording's file name is never rooted, so the full path is the save
      directory, a backslash unless the directory already ends in `\`, `/`
      or `:`, and the file name. */
  lemma RecordingPathUnderDirectory(dir: string, t: Stamp, code: string, company: string)
    requires ValidStamp(t)
    ensures var name := RecordingFileName(t, code, company);
      && !IsPathRooted(name)
      && (dir == [] ==> CombinePath(dir, name) == name)
      && (dir != [] && EndsInSeparator(dir) ==> CombinePath(dir, name) == dir + name)
      && (dir != [] && !EndsInSeparator(dir) ==> CombinePath(dir, name) == dir + "\\" + name)
  {
    var name := RecordingFileName(t, code, company);
    assert |name| >= 2 && IsDigit(name[0]) && IsDigit(name[1]) by {
      FileNameLayout(t, code, company);
      DatePartLayout(t);
      var d := DatePart(t);
      assert name[0] == d[0..4][0] && name[1] == d[0..4][1];
    }
    CombineUnrooted(dir, name);
  }

  /** A name that starts with two digits is not rooted, so combining it with
      a directory never discards the directory. */
  lemma CombineUnrooted(dir: string, name: string)
    requires |name| >= 2 && IsDigit(name[0]) && IsDigit(name[1])
    ensures !IsPathRooted(name)
    ensures dir == [] ==> CombinePath(dir, name) == name
    ensures dir != [] && EndsInSeparator(dir) ==> CombinePath(dir, name) == dir + name
    ensures dir != [] && !EndsInSeparator(dir) ==> CombinePath(dir, name) == dir + "\\" + name
  {
  }

  // ---------------------------------------------------------------------
  // Elapsed recording time

  /** `TimeSpan.ToString(@"hh\:mm\:ss")`: the custom format shows no sign
      and drops whole days, so hours wrap at 24. */
  function TimeSpanHms(ticks: int): string {
    Hms(if ticks < 0 then -ticks else ticks)
  }

  /** `hh:mm:ss` of a non-negative tick count. */
  function Hms(t: nat): string {
    PadDigits(t / TicksPerHour % 24, 2) + ":" + PadDigits(t / TicksPerMinute % 60, 2) + ":"
      + PadDigits(t / TicksPerSecond % 60, 2)
  }

  /** The elapsed-time overlay line: the time since the recording started
      while recording, `00:00:00` otherwise. */
  function ElapsedText(isRecording: bool, nowTicks: int, startTicks: int): string {
    if isRecording then TimeSpanHms(nowTicks - startTicks) else "00:00:00"
  }

  /** Hours, minutes and seconds of a tick count add up to its whole
      seconds modulo one day. */
  lemma DayDecomposition(t: nat)
    ensures (t / TicksPerHour % 24) * 3600 + (t / TicksPerMinute % 60) * 60 + t / TicksPerSecond % 60
            == t / TicksPerSecond % 86400
  {
    var q := t / 10_000_000;
    var m := q / 60;
    var h := m / 60;
    assert t / 600_000_000 == m;
    assert t / 36_000_000_000 == h;
    assert q == 86400 * (h / 24) + (h % 24) * 3600 + (m % 60) * 60 + q % 60;
  }

  /** `hh:mm:ss` of a non-negative tick count: each field reads back as the
      hours (modulo a day), minutes and seconds it shows. */
  lemma {:induction false} HmsLayout(t: nat)
    ensures var r := Hms(t);
      && |r| == 8 && r[2] == ':' && r[5] == ':'
      && AllDigits(r[0..2]) && AllDigits(r[3..5]) && AllDigits(r[6..8])
      && DecimalValue(r[0..2]) == t / TicksPerHour % 24
      && DecimalValue(r[3..5]) == t / TicksPerMinute % 60
      && DecimalValue(r[6..8]) == t / TicksPerSecond % 60
      && DecimalValue(r[0..2]) < 24 && DecimalValue(r[3..5]) < 60 && DecimalValue(r[6..8]) < 60
  {
    var hh, mm, ss := t / TicksPerHour % 24, t / TicksPerMinute % 60, t / TicksPerSecond % 60;
    var r := Hms(t);
    assert r == PadDigits(hh, 2) + ":" + PadDigits(mm, 2) + ":" + PadDigits(ss, 2);
    ThreeFieldLayout(hh, mm, ss, ":");
    assert r[2] == r[2..3][0] && r[5] == r[5..6][0];
  }

  /** Read back, `hh:mm:ss` is the whole seconds of the tick count modulo
      one day. */
  lemma HmsTotal(t: nat)
    ensures var r := Hms(t);
      && |r| == 8 && AllDigits(r[0..2]) && AllDigits(r[3..5]) && AllDigits(r[6..8])
      && DecimalValue(r[0..2]) * 3600 + DecimalValue(r[3..5]) * 60 + DecimalValue(r[6..8])
         == t / TicksPerSecond % 86400
  {
    var r := Hms(t);
    HmsLayout(t);
    var h, m, sec := DecimalValue(r[0..2]), DecimalValue(r[3..5]), DecimalValue(r[6..8]);
    DayDecomposition(t);
    assert h * 3600 + m * 60 + sec == t / TicksPerSecond % 86400;
  }

  /** While recording, the elapsed-time text has the shape `hh:mm:ss`, and
      read back it is the elapsed whole seconds modulo one day; a clock that
      went backwards shows the size of the step. */
  lemma ElapsedTextWhileRecording(nowTicks: int, startTicks: int)
    ensures var r := ElapsedText(true, nowTicks, startTicks);
      var span := nowTicks - startTicks;
      var t: nat := if span < 0 then -span else span;
      && |r| == 8 && r[2] == ':' && r[5] == ':'
      && AllDigits(r[0..2]) && AllDigits(r[3..5]) && AllDigits(r[6..8])
      && DecimalValue(r[0..2]) < 24 && DecimalValue(r[3..5]) < 60 && DecimalValue(r[6..8]) < 60
      && DecimalValue(r[0..2]) * 3600 + DecimalValue(r[3..5]) * 60 + DecimalValue(r[6..8])
         == t / TicksPerSecond % 86400
  {
    var span := nowTicks - startTicks;
    var t: nat := if span < 0 then -span else span;
    assert ElapsedText(true, nowTicks, startTicks) == Hms(t);
    HmsLayout(t);
    HmsTotal(t);
  }

  /** When not recording the text is `00:00:00`, which reads back as zero. */
  lemma ElapsedTextWhenIdle(nowTicks: int, startTicks: int)
    ensures var r := ElapsedText(false, nowTicks, startTicks);
      && r == "00:00:00" && r[2] == ':' && r[5] == ':'
      && AllDigits(r[0..2]) && AllDigits(r[3..5]) && AllDigits(r[6..8])
      && DecimalValue(r[0..2]) == 0 && DecimalValue(r[3..5]) == 0 && DecimalValue(r[6..8]) == 0
  {
    var r := ElapsedText(false, nowTicks, startTicks);
    assert r[0..2] == "00" && r[3..5] == "00" && r[6..8] == "00";
    TwoDigitValue("00");
  }

  // ---------------------------------------------------------------------
  // Detection label

  const LabelLimit: nat := 20

  /** The detection label drawn above the barcode box: at most twenty
      characters, followed by an ellipsis when the text was cut. */
  function TruncateLabel(text: string): string {
    if |text| > LabelLimit then text[..LabelLimit] + "..." else text
  }

  /** A short text is drawn as it is; a long one is cut to its first twenty
      characters and marked with `...`, so the label never exceeds 23
      characters and always begins with the text's own first characters. */
  lemma TruncateLabelShape(text: string)
    ensures |TruncateLabel(text)| <= LabelLimit + 3
    ensures |text| <= LabelLimit ==> TruncateLabel(text) == text
    ensures |text| > LabelLimit ==>
              && |TruncateLabel(text)| == LabelLimit + 3
              && TruncateLabel(text)[..LabelLimit] == text[..LabelLimit]
              && TruncateLabel(text)[LabelLimit..] == "..."
  {
  }

  /** Truncating a label again changes nothing. */
  lemma TruncateLabelIdempotent(text: string)
    ensures TruncateLabel(TruncateLabel(text)) == TruncateLabel(text)
  {
    if |text| > LabelLimit {
      var r := TruncateLabel(text);
      assert r[..LabelLimit] + "..." == r;
    }
  }

  // ---------------------------------------------------------------------
  // Encoder argument line

  const NvencFlags: string := "-preset p7 -tune hq -b:v 10M -maxrate 20M -bufsize 20M "
  const AmfFlags: string := "-quality quality -rc cqp -qp_i 20 -qp_p 20 -qp_b 20 "
  const QsvFlags: string := "-preset veryslow -global_quality 20 "
  const X264Flags: string := "-preset veryfast -crf 23 "

  /** The fixed head of the argument line, up to the frame size. */
  const RawVideoHeader: string := "-y -f rawvideo -vcodec rawvideo -pixel_format bgr24 -video_size "

  /** The raw-video input description and the codec selection. */
  function InputArguments(width: int, height: int, frameRate: int, encoder: string): string {
    RawVideoHeader + VideoSettings(width, height, frameRate, encoder)
  }

  /** Frame size, frame rate and codec, after the fixed header. */
  function VideoSettings(width: int, height: int, frameRate: int, encoder: string): string {
    IntToDecimal(width) + "x" + IntToDecimal(height) + " "
      + "-framerate " + IntToDecimal(frameRate) + " -i - -c:v " + encoder
      + " -pix_fmt yuv420p -r " + IntToDecimal(frameRate) + " "
  }

  /** The rate-control flags for an encoder family, chosen by substring
      tests in the order nvenc, amf, qsv; anything else is libx264. */
  function RateControlFlags(encoder: string): string {
    if Contains(encoder, "nvenc") then NvencFlags
    else if Contains(encoder, "amf") then AmfFlags
    else if Contains(encoder, "qsv") then QsvFlags
    else X264Flags
  }

  function Quoted(s: string): string { "\"" + s + "\"" }

  /** The complete argument line handed to the encoder process. */
  function FfmpegArguments(fileName: string, width: int, height: int, frameRate: int, encoder: string): string {
    InputArguments(width, height, frameRate, encoder) + RateControlFlags(encoder) + Quoted(fileName)
  }

  /** Builds the argument line the way the recorder does: the input part,
      then the one rate-control suffix appended by the if/else chain, then
      the quoted output path. */
  method BuildFfmpegArguments(fileName: string, width: int, height: int, frameRate: int, encoder: string)
    returns (arguments: string)
    ensures arguments == FfmpegArguments(fileName, width, height, frameRate, encoder)
    ensures StartsWith(arguments, RawVideoHeader)
    ensures arguments[|arguments| - |fileName| - 2..] == Quoted(fileName)
  {
    arguments := InputArguments(width, height, frameRate, encoder);
    if Contains(encoder, "nvenc") {
      arguments := arguments + NvencFlags;
    } else if Contains(encoder, "amf") {
      arguments := arguments + AmfFlags;
    } else if Contains(encoder, "qsv") {
      arguments := arguments + QsvFlags;
    } else {
      arguments := arguments + X264Flags;
    }
    arguments := arguments + Quoted(fileName);
    FfmpegArgumentsParts(fileName, width, height, frameRate, encoder);
  }

  /** Exactly one of the four rate-control suffixes is chosen, and which one
      is decided by the first of the substring tests that succeeds. */
  lemma RateControlSelection(encoder: string)
    ensures RateControlFlags(encoder) in [NvencFlags, AmfFlags, QsvFlags, X264Flags]
    ensures RateControlFlags(encoder) == NvencFlags <==> Contains(encoder, "nvenc")
    ensures RateControlFlags(encoder) == AmfFlags <==> !Contains(encoder, "nvenc") && Contains(encoder, "amf")
    ensures RateControlFlags(encoder) == QsvFlags
            <==> !Contains(encoder, "nvenc") && !Contains(encoder, "amf") && Contains(encoder, "qsv")
    ensures RateControlFlags(encoder) == X264Flags
            <==> !Contains(encoder, "nvenc") && !Contains(encoder, "amf") && !Contains(encoder, "qsv")
  {
    assert |NvencFlags| != |AmfFlags| && |NvencFlags| != |QsvFlags| && |NvencFlags| != |X264Flags|;
    assert |AmfFlags| != |QsvFlags| && |AmfFlags| != |X264Flags| && |QsvFlags| != |X264Flags|;
  }

  /** The argument line splits into its three parts: the input part, the
      rate-control suffix and the quoted output path, each recoverable from
      its position. */
  lemma FfmpegArgumentsParts(fileName: string, width: int, height: int, frameRate: int, encoder: string)
    ensures var a := FfmpegArguments(fileName, width, height, frameRate, encoder);
      var n := |InputArguments(width, height, frameRate, encoder)|;
      && StartsWith(a, RawVideoHeader)
      && a[..n] == InputArguments(width, height, frameRate, encoder)
      && n + |RateControlFlags(encoder)| + |fileName| + 2 == |a|
      && a[n..|a| - |fileName| - 2] == RateControlFlags(encoder)
      && a[|a| - |fileName| - 2..] == Quoted(fileName)
  {
    var i, f, q := InputArguments(width, height, frameRate, encoder), RateControlFlags(encoder), Quoted(fileName);
    assert StartsWith(i, RawVideoHeader) by {
      var v := VideoSettings(width, height, frameRate, encoder);
      assert (RawVideoHeader + v)[..|RawVideoHeader|] == RawVideoHeader;
    }
    StartsWithAppend(i, RawVideoHeader, f + q);
    assert i + f + q == i + (f + q);
    ConcatParts3(i, f, q);
  }
}
