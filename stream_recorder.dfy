/** The stream-recording command: the channel name (from a Twitch URL, or from a yt-dlp lookup for
    any other URL), and the output file `recordings/<channel>/<YYYYMMDD_HHMMSS>.mkv` whose last path
    segment is reported back as the recording's timestamp. The streamlink process, the yt-dlp network
    call, the clock and the upload are outside; their results are parameters. */
module StreamRecorder {
  import opened Wrappers
  import opened TextUtil

  const TwitchPrefix: string := "https://www.twitch.tv/"

  /** A value of yt-dlp's info dictionary: missing key, `None`, or a string. */
  datatype Field = Absent | NoneValue | Str(s: string)

  /** What `extract_info` gave: the dictionary's two fields of interest, or an exception
      (yt-dlp missing, network failure, unknown URL). */
  datatype Lookup = Info(channel: Field, channelId: Field) | LookupFailed

  /** The dictionary `get_channel_name_ytdlp` returns. */
  datatype ChannelInfo = ChannelInfo(channelName: Field, channelId: Field)

  datatype Error = TypeError   // subscripting the `None` a failed lookup returned

  /** A local time as `datetime.now()` gives it. */
  datatype DateTime = DateTime(year: nat, month: nat, day: nat, hour: nat, minute: nat, second: nat)

  predicate ValidDateTime(t: DateTime) {
    1000 <= t.year <= 9999 && 1 <= t.month <= 12 && 1 <= t.day <= 31 &&
    t.hour < 24 && t.minute < 60 && t.second < 60
  }

  /** Python's `dict.get(key, default)`: the default only for a missing key; a stored `None` is returned. */
  function GetOr(f: Field, default: string): (r: Field)
    ensures r.Absent? ==> false
    ensures f.Absent? ==> r == Str(default)
    ensures !f.Absent? ==> r == f
  {
    if f.Absent? then Str(default) else f
  }

  /** `get_channel_name_ytdlp`: a missing channel reads 'Unknown', a missing id reads '',
      and any failure gives `None`. */
  function GetChannelNameYtdlp(lookup: Lookup): (r: Option<ChannelInfo>)
    ensures r.None? <==> lookup.LookupFailed?
    ensures r.Some? ==> !r.value.channelName.Absent? && !r.value.channelId.Absent?
    ensures r.Some? && lookup.channel.Absent? ==> r.value.channelName == Str("Unknown")
    ensures r.Some? && lookup.channelId.Absent? ==> r.value.channelId == Str("")
    ensures r.Some? && !lookup.channel.Absent? ==> r.value.channelName == lookup.channel
  {
    match lookup
    case LookupFailed => None
    case Info(channel, channelId) => Some(ChannelInfo(GetOr(channel, "Unknown"), GetOr(channelId, "")))
  }

  /** How an f-string renders a field: `None` becomes the text "None". */
  function Render(f: Field): string {
    match f
    case Str(s) => s
    case NoneValue => "None"
    case Absent => ""
  }

  /** The channel part of the output path: for a Twitch URL what follows its last '/', otherwise
      the looked-up channel name as the f-string renders it ('Unknown' for a missing key, 'None' for a
      stored `None`); a failed lookup raises `TypeError`. */
  function ChannelName(url: string, lookup: Lookup): (r: Result<string, Error>)
    ensures StartsWith(url, TwitchPrefix) ==> r == Success(url[LastIndexOf(url, '/') + 1..])
    ensures StartsWith(url, TwitchPrefix) ==> r.Success? && '/' !in r.value && EndsWith(url, r.value)
    ensures StartsWith(url, TwitchPrefix) && EndsWith(url, "/") ==> r == Success("")
    ensures !StartsWith(url, TwitchPrefix) ==> (r.Failure? <==> lookup.LookupFailed?)
    ensures !StartsWith(url, TwitchPrefix) && lookup.Info? && lookup.channel.Str? ==> r == Success(lookup.channel.s)
    ensures !StartsWith(url, TwitchPrefix) && lookup.Info? && lookup.channel.Absent? ==> r == Success("Unknown")
    ensures !StartsWith(url, TwitchPrefix) && lookup.Info? && lookup.channel.NoneValue? ==> r == Success("None")
  {
    if StartsWith(url, TwitchPrefix) then
      assert url[LastIndexOf(url, '/') + 1..] == url[|url| - |AfterLast(url, '/')|..];
      Success(AfterLast(url, '/'))
    else
      match GetChannelNameYtdlp(lookup)
      case None => Failure(TypeError)
      case Some(info) => Success(Render(info.channelName))
  }

  function Digit(d: nat): (c: char)
    requires d < 10
    ensures '0' <= c <= '9'
  {
    ('0' as int + d) as char
  }

  /** The number a string of decimal digits spells. */
  function DigitsValue(s: string): nat
    requires forall i :: 0 <= i < |s| ==> '0' <= s[i] <= '9'
  {
    if s == [] then 0 else DigitsValue(s[..|s| - 1]) * 10 + (s[|s| - 1] as int - '0' as int)
  }

  /** `%m`-style two-digit, zero-padded field. */
  function Pad2(n: nat): (s: string)
    requires n < 100
    ensures |s| == 2 && forall i :: 0 <= i < 2 ==> '0' <= s[i] <= '9'
  {
    [Digit(n / 10), Digit(n % 10)]
  }

  /** `%Y`: four digits, zero-padded. */
  function Pad4(n: nat): (s: string)
    requires n < 10000
    ensures |s| == 4 && forall i :: 0 <= i < 4 ==> '0' <= s[i] <= '9'
  {
    [Digit(n / 1000), Digit(n / 100 % 10), Digit(n / 10 % 10), Digit(n % 10)]
  }

  /** A two-digit field reads back as the number written. */
  lemma Pad2Value(n: nat)
    requires n < 100
    ensures DigitsValue(Pad2(n)) == n
  {
    var s := Pad2(n);
    assert s[..1][..0] == [];
    assert DigitsValue(s[..1]) == n / 10;
  }

  /** A four-digit field reads back as the number written. */
  lemma Pad4Value(n: nat)
    requires n < 10000
    ensures DigitsValue(Pad4(n)) == n
  {
    var s := Pad4(n);
    assert s[..1][..0] == [];
    assert DigitsValue(s[..1]) == n / 1000;
    assert s[..2][..1] == s[..1];
    assert DigitsValue(s[..2]) == n / 100;
    assert s[..3][..2] == s[..2];
    assert DigitsValue(s[..3]) == n / 10;
  }

  /** `strftime('%Y%m%d_%H%M%S')`: fifteen characters, digits except the '_' at position 8. */
  function Timestamp(t: DateTime): (s: string)
    requires ValidDateTime(t)
    ensures |s| == 15 && s[8] == '_'
    ensures forall i :: 0 <= i < 15 && i != 8 ==> '0' <= s[i] <= '9'
  {
    Pad4(t.year) + Pad2(t.month) + Pad2(t.day) + "_" + Pad2(t.hour) + Pad2(t.minute) + Pad2(t.second)
  }

  /** Reading the fields of a formatted timestamp back, as `strptime('%Y%m%d_%H%M%S')` would. */
  function ParseTimestamp(s: string): DateTime
    requires |s| == 15 && forall i :: 0 <= i < 15 && i != 8 ==> '0' <= s[i] <= '9'
  {
    DateTime(DigitsValue(s[0..4]), DigitsValue(s[4..6]), DigitsValue(s[6..8]),
             DigitsValue(s[9..11]), DigitsValue(s[11..13]), DigitsValue(s[13..15]))
  }

  /** The timestamp encodes the date and time: each field reads back from its digits. */
  lemma {:induction false} TimestampRoundTrip(t: DateTime)
    requires ValidDateTime(t)
    ensures ParseTimestamp(Timestamp(t)) == t
  {
    var s := Timestamp(t);
    assert s[0..4] == Pad4(t.year);
    assert s[4..6] == Pad2(t.month);
    assert s[6..8] == Pad2(t.day);
    assert s[9..11] == Pad2(t.hour);
    assert s[11..13] == Pad2(t.minute);
    assert s[13..15] == Pad2(t.second);
    Pad4Value(t.year);
    Pad2Value(t.month);
    Pad2Value(t.day);
    Pad2Value(t.hour);
    Pad2Value(t.minute);
    Pad2Value(t.second);
  }

  function OutputFile(channel: string, t: DateTime): string
    requires ValidDateTime(t)
  {
    "recordings/" + channel + "/" + Timestamp(t) + ".mkv"
  }

  /** The timestamp line of the report: the last path segment without its last four characters
      (Python's `[:-4]`, empty for a shorter segment). */
  function ReportedTimestamp(path: string): string {
    var seg := AfterLast(path, '/');
    if |seg| >= 4 then seg[..|seg| - 4] else ""
  }

  /** The reported timestamp is the formatted time, whatever the channel name holds (even '/'). */
  lemma ReportedTimestampRoundTrip(channel: string, t: DateTime)
    requires ValidDateTime(t)
    ensures ReportedTimestamp(OutputFile(channel, t)) == Timestamp(t)
  {
    var path := OutputFile(channel, t);
    var tail := Timestamp(t) + ".mkv";
    assert path == ("recordings/" + channel) + "/" + tail;
    assert '/' !in tail;
    assert path[|path| - |tail| - 1] == '/';
    var i := LastIndexOf(path, '/');
    assert i == |path| - |tail| - 1;
    assert path[i + 1..] == tail;
  }

  /** `record_stream` up to the recording: the output path, or the exception a failed lookup raises. */
  function RecordStreamPath(url: string, lookup: Lookup, now: DateTime): (r: Result<string, Error>)
    requires ValidDateTime(now)
    ensures r.Success? <==> ChannelName(url, lookup).Success?
    ensures r.Success? ==> r.value == "recordings/" + ChannelName(url, lookup).value + "/" + Timestamp(now) + ".mkv"
    ensures r.Success? ==>
      StartsWith(r.value, "recordings/") && EndsWith(r.value, ".mkv") &&
      ReportedTimestamp(r.value) == Timestamp(now)
    ensures r.Success? ==> ParseTimestamp(ReportedTimestamp(r.value)) == now
  {
    match ChannelName(url, lookup)
    case Failure(e) => Failure(e)
    case Success(channel) =>
      ReportedTimestampRoundTrip(channel, now);
      TimestampRoundTrip(now);
      var path := OutputFile(channel, now);
      assert path == "recordings/" + (channel + "/" + Timestamp(now)) + ".mkv";
      Success(path)
  }
}
