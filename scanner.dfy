/** The per-host pipeline of `NetworkScanner` (scanner.py): the printer
    classifier, the toner normaliser over the Printer MIB (RFC 3805), the
    device record with its defaults, the uptime formatter and the sweep over
    the hosts nmap reports.

    Every network answer is an input. A `Host` carries what nmap, SNMP and
    HTTP would answer for one address: the set of open TCP ports, the text
    value of each SNMP object that answers (absent = `_get_snmp_value` gave
    None), and the body of each URL that can be fetched (absent = the request
    raised). */
module Scanner {
  import opened Wrappers
  import opened Text

  // ---------------------------------------------------------------------
  // Constants of NetworkScanner.__init__
  // ---------------------------------------------------------------------

  /** Candidate printer ports, in probe order: raw/JetDirect, LPD, IPP, HTTP, HTTPS. */
  const PrinterPorts: seq<int> := [9100, 515, 631, 80, 443]

  /** Manufacturer names looked for in the lower-cased sysDescr. */
  const PrinterManufacturers: seq<string> :=
    ["brother", "canon", "epson", "hp", "konica", "kyocera", "lexmark",
     "minolta", "oki", "ricoh", "samsung", "sharp", "xerox", "zebra"]

  /** Keywords looked for in the lower-cased home page. */
  const PrinterKeywords: seq<string> := ["printer", "copier", "scanner", "mfp", "multifunction"]

  // MIB-II system group
  const SystemDescription := "1.3.6.1.2.1.1.1.0"
  const SystemName := "1.3.6.1.2.1.1.5.0"
  const SystemLocation := "1.3.6.1.2.1.1.6.0"
  const SystemContact := "1.3.6.1.2.1.1.4.0"
  const SystemUptime := "1.3.6.1.2.1.1.3.0"
  // Host Resources MIB hrDeviceDescr and Printer MIB objects
  const PrinterModel := "1.3.6.1.2.1.25.3.2.1.3.1"
  const PrinterSerial := "1.3.6.1.2.1.43.5.1.1.17.1"
  const PageCounter := "1.3.6.1.2.1.43.10.2.1.4.1.1"

  /** The placeholder for a missing value ("unknown"). */
  const Unknown := "알 수 없음"
  /** The status every record gets ("online"). */
  const Online := "온라인"

  // ---------------------------------------------------------------------
  // The oracle
  // ---------------------------------------------------------------------

  datatype Host = Host(openPorts: set<int>, snmp: map<string, string>, web: map<string, string>)

  /** One entry of `nm.all_hosts()` with the answers of that address. */
  datatype HostEntry = HostEntry(ip: string, host: Host)

  /** A network request the classifier issues. */
  datatype Query = SnmpGet(oid: string) | HttpGet(url: string)

  /** `_get_snmp_value(ip, oid)`: the text value, or None on any error. */
  function SnmpValue(h: Host, oid: string): Option<string> {
    if oid in h.snmp then Some(h.snmp[oid]) else None
  }

  /** `requests.get(url).text`, or None when the request raised. */
  function HttpBody(h: Host, url: string): Option<string> {
    if url in h.web then Some(h.web[url]) else None
  }

  /** Python truthiness of an optional string: present and non-empty. */
  predicate Truthy(v: Option<string>) {
    v.Some? && v.value != ""
  }

  /** `v or '알 수 없음'`. */
  function OrUnknown(v: Option<string>): string {
    if Truthy(v) then v.value else Unknown
  }

  // ---------------------------------------------------------------------
  // Printer classifier (_is_printer)
  // ---------------------------------------------------------------------

  predicate CandidatePortOpen(ports: set<int>) {
    exists i :: 0 <= i < |PrinterPorts| && PrinterPorts[i] in ports
  }

  predicate WebPortOpen(ports: set<int>) {
    80 in ports || 443 in ports
  }

  /** The home page address: https when 443 is open, http otherwise. */
  function HomeUrl(ip: string, ports: set<int>): string {
    (if 443 in ports then "https" else "http") + "://" + ip
  }

  /** sysDescr answers, is non-empty, and names a known manufacturer. */
  predicate SysDescrSignal(h: Host) {
    var desc := SnmpValue(h, SystemDescription);
    Truthy(desc) && ContainsAny(Lower(desc.value), PrinterManufacturers)
  }

  /** The home page can be fetched and mentions a printer keyword. */
  predicate HttpSignal(ip: string, h: Host) {
    var page := HttpBody(h, HomeUrl(ip, h.openPorts));
    page.Some? && ContainsAny(Lower(page.value), PrinterKeywords)
  }

  /** The classifier's verdict: a candidate port gates the SNMP signal,
      and the HTTP signal counts only when a web port is open. */
  predicate IsPrinterHost(ip: string, h: Host) {
    CandidatePortOpen(h.openPorts)
    && (SysDescrSignal(h) || (WebPortOpen(h.openPorts) && HttpSignal(ip, h)))
  }

  /** `_is_printer`: the nested loops with early returns. `log` is the list of
      network requests issued, in order. */
  method IsPrinter(ip: string, h: Host) returns (r: bool, log: seq<Query>)
    ensures r == IsPrinterHost(ip, h)
    ensures !CandidatePortOpen(h.openPorts) ==> !r && log == []
    ensures CandidatePortOpen(h.openPorts) && SysDescrSignal(h) ==> r
    ensures CandidatePortOpen(h.openPorts) && !SysDescrSignal(h) ==>
              (r <==> WebPortOpen(h.openPorts) && HttpSignal(ip, h))
    ensures forall k :: 0 <= k < |log| ==>
              log[k] == SnmpGet(SystemDescription)
              || (WebPortOpen(h.openPorts) && log[k] == HttpGet(HomeUrl(ip, h.openPorts)))
    ensures SysDescrSignal(h) ==> forall k :: 0 <= k < |log| ==> !log[k].HttpGet?
  {
    r, log := false, [];
    for i := 0 to |PrinterPorts|
      invariant (exists j :: 0 <= j < i && PrinterPorts[j] in h.openPorts) ==>
                  !SysDescrSignal(h) && !(WebPortOpen(h.openPorts) && HttpSignal(ip, h))
      invariant (forall j :: 0 <= j < i ==> PrinterPorts[j] !in h.openPorts) ==> log == []
      invariant forall k :: 0 <= k < |log| ==>
                  log[k] == SnmpGet(SystemDescription)
                  || (WebPortOpen(h.openPorts) && log[k] == HttpGet(HomeUrl(ip, h.openPorts)))
      invariant SysDescrSignal(h) ==> log == []
    {
      var port := PrinterPorts[i];
      if port in h.openPorts {
        // 2. SNMP: a manufacturer name in the system description
        log := log + [SnmpGet(SystemDescription)];
        var desc := SnmpValue(h, SystemDescription);
        if Truthy(desc) {
          var hit := FindAny(Lower(desc.value), PrinterManufacturers);
          if hit {
            r := true;
            return;
          }
        }
        // 3. HTTP: a printer keyword on the home page
        if 80 in h.openPorts || 443 in h.openPorts {
          var url := HomeUrl(ip, h.openPorts);
          log := log + [HttpGet(url)];
          var page := HttpBody(h, url);
          if page.Some? {
            var hit := FindAny(Lower(page.value), PrinterKeywords);
            if hit {
              r := true;
              return;
            }
          }
        }
      }
    }
  }

  /** The inner loops of `_is_printer`: look for each word in turn and stop at the first one found. */
  method FindAny(text: string, words: seq<string>) returns (found: bool)
    ensures found <==> ContainsAny(text, words)
  {
    for j := 0 to |words|
      invariant forall k :: 0 <= k < j ==> !Contains(text, words[k])
    {
      if Contains(text, words[j]) {
        return true;
      }
    }
    return false;
  }

  /** There is no fallback on the raw print ports: without a manufacturer in
      sysDescr and without a web port, 9100, 515 and 631 alone do not make a printer. */
  lemma NoRawPortFallback(ip: string, h: Host)
    requires !SysDescrSignal(h)
    requires 80 !in h.openPorts && 443 !in h.openPorts
    ensures !IsPrinterHost(ip, h)
  {
  }

  // ---------------------------------------------------------------------
  // Toner normaliser (_get_toner_info)
  // ---------------------------------------------------------------------

  datatype Color = Black | Cyan | Magenta | Yellow

  datatype TonerChannel = TonerChannel(level: int, max: int, percent: int)

  /** The toner record: one channel per colorant. */
  datatype Toner = Toner(black: TonerChannel, cyan: TonerChannel, magenta: TonerChannel, yellow: TonerChannel)
  {
    function Get(c: Color): TonerChannel {
      match c
      case Black => black
      case Cyan => cyan
      case Magenta => magenta
      case Yellow => yellow
    }

    function With(c: Color, ch: TonerChannel): Toner {
      match c
      case Black => this.(black := ch)
      case Cyan => this.(cyan := ch)
      case Magenta => this.(magenta := ch)
      case Yellow => this.(yellow := ch)
    }
  }

  /** What every channel starts as: {level 0, max 100, percent 0}. */
  const DefaultChannel := TonerChannel(0, 100, 0)
  const DefaultToner := Toner(DefaultChannel, DefaultChannel, DefaultChannel, DefaultChannel)

  /** prtMarkerSuppliesLevel.1.<index>, index 1..4 for black, cyan, magenta, yellow. */
  function LevelOid(c: Color): string {
    match c
    case Black => "1.3.6.1.2.1.43.11.1.1.9.1.1"
    case Cyan => "1.3.6.1.2.1.43.11.1.1.9.1.2"
    case Magenta => "1.3.6.1.2.1.43.11.1.1.9.1.3"
    case Yellow => "1.3.6.1.2.1.43.11.1.1.9.1.4"
  }

  /** prtMarkerSuppliesMaxCapacity.1.<index>. */
  function MaxOid(c: Color): string {
    match c
    case Black => "1.3.6.1.2.1.43.11.1.1.8.1.1"
    case Cyan => "1.3.6.1.2.1.43.11.1.1.8.1.2"
    case Magenta => "1.3.6.1.2.1.43.11.1.1.8.1.3"
    case Yellow => "1.3.6.1.2.1.43.11.1.1.8.1.4"
  }

  /** `int(level / max * 100) if max > 0 else 0`, as exact rational
      arithmetic truncated toward zero (no clamping to 0..100). */
  function Percent(level: int, max: int): (p: int)
    ensures max <= 0 ==> p == 0
    ensures max > 0 && level >= 0 ==> 0 <= p && p * max <= level * 100 < (p + 1) * max
    ensures max > 0 && level < 0 ==> p <= 0 && (-p) * max <= -level * 100 < (-p + 1) * max
  {
    if max > 0 then
      if level >= 0 then level * 100 / max else -((-level * 100) / max)
    else 0
  }

  /** A supply below capacity is between 0 and 100 per cent; a level above
      capacity (a malformed answer) is reported above 100, not clamped. */
  lemma PercentRange(level: int, max: int)
    requires max > 0
    ensures 0 <= level <= max ==> 0 <= Percent(level, max) <= 100
    ensures level > max ==> Percent(level, max) >= 100
    ensures level * 100 >= 101 * max ==> Percent(level, max) > 100
    ensures Percent(150, 100) == 150
    ensures level == max ==> Percent(level, max) == 100
  {
    var p := Percent(level, max);
    if 0 <= level <= max {
      MulLeCancel(p, 100, max);
    }
    if level >= max {
      MulLtCancel(100, p + 1, max);
    }
    if level * 100 >= 101 * max {
      MulLtCancel(101, p + 1, max);
    }
  }

  lemma MulLeCancel(a: int, b: int, k: int)
    requires k > 0 && a * k <= b * k
    ensures a <= b
  {
  }

  lemma MulLtCancel(a: int, b: int, k: int)
    requires k > 0 && a * k < b * k
    ensures a < b
  {
  }

  /** The channel as read from the device, when both objects answer with a
      non-empty text that parses as an integer. */
  function ReadChannel(h: Host, c: Color): Option<TonerChannel> {
    var level, max := SnmpValue(h, LevelOid(c)), SnmpValue(h, MaxOid(c));
    if Truthy(level) && Truthy(max) then
      match (ParseInt(level.value), ParseInt(max.value))
      case (Some(l), Some(m)) => Some(TonerChannel(l, m, Percent(l, m)))
      case _ => None
    else None
  }

  /** The channel in the record: as read, or the default. */
  function ChannelOf(h: Host, c: Color): TonerChannel {
    ReadChannel(h, c).GetOr(DefaultChannel)
  }

  function TonerOf(h: Host): Toner {
    Toner(ChannelOf(h, Black), ChannelOf(h, Cyan), ChannelOf(h, Magenta), ChannelOf(h, Yellow))
  }

  /** One channel block of `_get_toner_info`: read both objects and overwrite
      entry `c` only if both are present, non-empty and integers. */
  method ReadIntoChannel(toner: Toner, h: Host, c: Color) returns (t: Toner)
    ensures t.Get(c) == (if ReadChannel(h, c).Some? then ReadChannel(h, c).value else toner.Get(c))
    ensures forall d :: d != c ==> t.Get(d) == toner.Get(d)
  {
    t := toner;
    var levelText := SnmpValue(h, LevelOid(c));
    var maxText := SnmpValue(h, MaxOid(c));
    if Truthy(levelText) && Truthy(maxText) {
      var level := ParseInt(levelText.value);
      var max := ParseInt(maxText.value);
      if level.Some? && max.Some? {
        var percent := Percent(level.value, max.value);
        t := toner.With(c, TonerChannel(level.value, max.value, percent));
      }
    }
  }

  /** `_get_toner_info`: start from the defaults and update the four channels in turn. */
  method GetTonerInfo(h: Host) returns (toner: Toner)
    ensures forall c :: toner.Get(c) == ChannelOf(h, c)
    ensures forall c :: ReadChannel(h, c).None? ==> toner.Get(c) == DefaultChannel
  {
    toner := DefaultToner;
    toner := ReadIntoChannel(toner, h, Black);
    toner := ReadIntoChannel(toner, h, Cyan);
    toner := ReadIntoChannel(toner, h, Magenta);
    toner := ReadIntoChannel(toner, h, Yellow);
  }

  /** A channel whose two objects answer with printed integers is stored as
      parsed, with the truncated percentage. */
  lemma ChannelStoredAsParsed(h: Host, c: Color, level: int, max: int)
    requires SnmpValue(h, LevelOid(c)) == Some(IntToString(level))
    requires SnmpValue(h, MaxOid(c)) == Some(IntToString(max))
    ensures ChannelOf(h, c) == TonerChannel(level, max, Percent(level, max))
  {
    ParseIntRoundTrip(level);
    ParseIntRoundTrip(max);
  }

  /** Channels are independent: a channel depends only on its own two objects. */
  lemma ChannelsIndependent(h1: Host, h2: Host, c: Color)
    requires SnmpValue(h1, LevelOid(c)) == SnmpValue(h2, LevelOid(c))
    requires SnmpValue(h1, MaxOid(c)) == SnmpValue(h2, MaxOid(c))
    ensures ChannelOf(h1, c) == ChannelOf(h2, c)
  {
  }

  // ---------------------------------------------------------------------
  // Uptime formatter (_format_uptime)
  // ---------------------------------------------------------------------

  datatype Duration = Duration(days: int, hours: int, minutes: int, seconds: int)

  /** The split of whole seconds by 86400, 3600 and 60 (floor division, as Python's `//` and `%`). */
  function Decompose(total: int): (d: Duration)
    ensures 0 <= d.hours < 24 && 0 <= d.minutes < 60 && 0 <= d.seconds < 60
    ensures d.days * 86400 + d.hours * 3600 + d.minutes * 60 + d.seconds == total
  {
    var rest := total % 86400;
    var rest' := rest % 3600;
    Duration(total / 86400, rest / 3600, rest' / 60, rest' % 60)
  }

  /** Euclidean division is determined by its quotient and remainder. */
  lemma DivUnique(x: int, k: int, q: int, r: int)
    requires k > 0 && 0 <= r < k && x == q * k + r
    ensures x / k == q && x % k == r
  {
    var q' := x / k;
    assert (q' + 1) * k == q' * k + k;
    assert (q + 1) * k == q * k + k;
    MulLtCancel(q, q' + 1, k);
    MulLtCancel(q', q + 1, k);
  }

  /** The split is the only one with hours < 24, minutes < 60 and seconds < 60. */
  lemma DecomposeUnique(total: int, d: Duration)
    requires 0 <= d.hours < 24 && 0 <= d.minutes < 60 && 0 <= d.seconds < 60
    requires d.days * 86400 + d.hours * 3600 + d.minutes * 60 + d.seconds == total
    ensures Decompose(total) == d
  {
    var rest := d.hours * 3600 + d.minutes * 60 + d.seconds;
    DivUnique(total, 86400, d.days, rest);
    var rest' := d.minutes * 60 + d.seconds;
    DivUnique(rest, 3600, d.hours, rest');
    DivUnique(rest', 60, d.minutes, d.seconds);
  }

  /** The text for a split duration: the coarsest non-zero unit decides the
      shape ("D일 H시간 M분", "H시간 M분", "M분 S초", "S초"). */
  function Render(d: Duration): string
    requires d.hours >= 0 && d.minutes >= 0 && d.seconds >= 0
  {
    if d.days > 0 then
      NatToString(d.days) + ("일 " + (NatToString(d.hours) + ("시간 " + (NatToString(d.minutes) + "분"))))
    else if d.hours > 0 then
      NatToString(d.hours) + ("시간 " + (NatToString(d.minutes) + "분"))
    else if d.minutes > 0 then
      NatToString(d.minutes) + ("분 " + (NatToString(d.seconds) + "초"))
    else
      NatToString(d.seconds) + "초"
  }

  /** `_format_uptime`. The argument is the whole number of seconds: the
      source's float argument is floored by `//` and its last unit truncated
      by `int(... % 60)`, so only its whole part matters. */
  function FormatUptime(total: int): (r: string)
    ensures |r| > 0 && (r[|r| - 1] == '초' || r[|r| - 1] == '분')
    ensures total >= 0 ==> (r[|r| - 1] == '초' <==> total < 3600)
  {
    var d := Decompose(total);
    assert total >= 0 ==> (d.days <= 0 && d.hours == 0 <==> total < 3600);
    Render(d)
  }

  /** What a formatted uptime shows: the number of units printed (3 for
      days-hours-minutes down to 0 for seconds alone) and the values printed. */
  function UnitsShown(d: Duration): (int, int, int, int, int) {
    if d.days > 0 then (3, d.days, d.hours, d.minutes, 0)
    else if d.hours > 0 then (2, 0, d.hours, d.minutes, 0)
    else if d.minutes > 0 then (1, 0, 0, d.minutes, d.seconds)
    else (0, 0, 0, 0, d.seconds)
  }

  /** A reader for the four shapes `Render` prints. */
  function ReadUptime(text: string): Option<(int, int, int, int, int)> {
    var first := ReadNumber(text);
    var rest := first.1;
    if IsPrefix("일 ", rest) then
      var second := ReadNumber(rest[2..]);
      if IsPrefix("시간 ", second.1) then
        var third := ReadNumber(second.1[3..]);
        if third.1 == "분" then Some((3, first.0, second.0, third.0, 0)) else None
      else None
    else if IsPrefix("시간 ", rest) then
      var second := ReadNumber(rest[3..]);
      if second.1 == "분" then Some((2, 0, first.0, second.0, 0)) else None
    else if IsPrefix("분 ", rest) then
      var second := ReadNumber(rest[2..]);
      if second.1 == "초" then Some((1, 0, 0, first.0, second.0)) else None
    else if rest == "초" then Some((0, 0, 0, 0, first.0))
    else None
  }

  /** The formatted uptime can be read back: the reader recovers exactly the
      units it shows. */
  lemma ReadUptimeRoundTrip(total: int)
    ensures ReadUptime(FormatUptime(total)) == Some(UnitsShown(Decompose(total)))
  {
    var d := Decompose(total);
    if d.days > 0 {
      ReadDaysShape(d.days, d.hours, d.minutes);
    } else if d.hours > 0 {
      ReadHoursShape(d.hours, d.minutes);
    } else if d.minutes > 0 {
      ReadMinutesShape(d.minutes, d.seconds);
    } else {
      ReadNumberAfter(d.seconds, "초");
    }
  }

  lemma ReadDaysShape(days: nat, hours: nat, minutes: nat)
    ensures ReadUptime(NatToString(days) + ("일 " + (NatToString(hours) + ("시간 " + (NatToString(minutes) + "분")))))
            == Some((3, days, hours, minutes, 0))
  {
    var tail3 := NatToString(minutes) + "분";
    var tail2 := "시간 " + tail3;
    var tail1 := "일 " + (NatToString(hours) + tail2);
    ReadNumberAfter(days, tail1);
    PrefixOfConcat("일 ", NatToString(hours) + tail2);
    ReadNumberAfter(hours, tail2);
    PrefixOfConcat("시간 ", tail3);
    ReadNumberAfter(minutes, "분");
  }

  lemma ReadHoursShape(hours: nat, minutes: nat)
    ensures ReadUptime(NatToString(hours) + ("시간 " + (NatToString(minutes) + "분")))
            == Some((2, 0, hours, minutes, 0))
  {
    var tail2 := NatToString(minutes) + "분";
    var tail1 := "시간 " + tail2;
    ReadNumberAfter(hours, tail1);
    assert tail1[0] == '시';
    NotPrefixByFirst("일 ", tail1);
    PrefixOfConcat("시간 ", tail2);
    ReadNumberAfter(minutes, "분");
  }

  lemma ReadMinutesShape(minutes: nat, seconds: nat)
    ensures ReadUptime(NatToString(minutes) + ("분 " + (NatToString(seconds) + "초")))
            == Some((1, 0, 0, minutes, seconds))
  {
    var tail2 := NatToString(seconds) + "초";
    var tail1 := "분 " + tail2;
    ReadNumberAfter(minutes, tail1);
    assert tail1[0] == '분';
    NotPrefixByFirst("일 ", tail1);
    NotPrefixByFirst("시간 ", tail1);
    PrefixOfConcat("분 ", tail2);
    ReadNumberAfter(seconds, "초");
  }

  lemma UptimeExamples()
    ensures FormatUptime(0) == "0초"
    ensures FormatUptime(90) == "1분 30초"
    ensures FormatUptime(90000) == "1일 1시간 0분"
  {
    DecomposeUnique(0, Duration(0, 0, 0, 0));
    DecomposeUnique(90, Duration(0, 0, 1, 30));
    DecomposeUnique(90000, Duration(1, 1, 0, 0));
    assert NatToString(30) == "30";
  }

  /** The whole minutes of a non-negative uptime, from its split. */
  lemma MinutesOfSplit(s: int)
    requires s >= 0
    ensures Decompose(s).days >= 0
    ensures s / 60 == Decompose(s).days * 1440 + Decompose(s).hours * 60 + Decompose(s).minutes
  {
    var a := Decompose(s);
    assert a.days * 86400 + a.hours * 3600 + a.minutes * 60 + a.seconds
        == (a.days * 1440 + a.hours * 60 + a.minutes) * 60 + a.seconds;
    DivUnique(s, 60, a.days * 1440 + a.hours * 60 + a.minutes, a.seconds);
  }

  /** Under an hour the split has neither days nor hours. */
  lemma SplitUnderAnHour(s: int)
    requires 0 <= s < 3600
    ensures Decompose(s).days == 0 && Decompose(s).hours == 0
  {
    DivUnique(s, 86400, 0, s);
    DivUnique(s, 3600, 0, s);
  }

  /** The formatted uptime is exact to the minute, and exact to the second
      below one hour: two uptimes with the same text fall in the same minute
      (and are equal when under an hour). */
  lemma UptimeDeterminesMinutes(s: int, t: int)
    requires s >= 0 && t >= 0
    requires FormatUptime(s) == FormatUptime(t)
    ensures s / 60 == t / 60
    ensures s < 3600 ==> s == t
  {
    var a, b := Decompose(s), Decompose(t);
    ReadUptimeRoundTrip(s);
    ReadUptimeRoundTrip(t);
    assert UnitsShown(a) == UnitsShown(b);
    MinutesOfSplit(s);
    MinutesOfSplit(t);
    assert a.days == b.days && a.hours == b.hours && a.minutes == b.minutes;
    if s < 3600 {
      SplitUnderAnHour(s);
      assert a.seconds == b.seconds;
    }
  }

  // ---------------------------------------------------------------------
  // Device records (_get_basic_device_info, get_device_details)
  // ---------------------------------------------------------------------

  /** A device record. The three detail fields are None in the basic record,
      where the source's dictionary has no such key. */
  datatype Device = Device(
    ip: string,
    status: string,
    name: string,
    model: string,
    serial: string,
    lastUpdate: string,
    toner: Toner,
    pageCount: int,
    location: Option<string>,
    contact: Option<string>,
    uptime: Option<string>)

  /** `int(page_count)`, or 0 when the object is absent (TypeError) or not an integer. */
  function PageCountOf(v: Option<string>): int {
    match v
    case Some(s) => ParseInt(s).GetOr(0)
    case None => 0
  }

  /** The record `_get_basic_device_info` returns, stamped with `now`. */
  function BasicInfo(ip: string, h: Host, now: string): Device {
    Device(ip, Online,
           OrUnknown(SnmpValue(h, SystemName)),
           OrUnknown(SnmpValue(h, PrinterModel)),
           OrUnknown(SnmpValue(h, PrinterSerial)),
           now, TonerOf(h), PageCountOf(SnmpValue(h, PageCounter)),
           None, None, None)
  }

  /** `_get_basic_device_info`. */
  method GetBasicDeviceInfo(ip: string, h: Host, now: string) returns (d: Device)
    ensures d == BasicInfo(ip, h, now)
    ensures d.ip == ip && d.status == Online && d.lastUpdate == now
    ensures d.name == (if Truthy(SnmpValue(h, SystemName)) then SnmpValue(h, SystemName).value else Unknown)
    ensures d.model == (if Truthy(SnmpValue(h, PrinterModel)) then SnmpValue(h, PrinterModel).value else Unknown)
    ensures d.serial == (if Truthy(SnmpValue(h, PrinterSerial)) then SnmpValue(h, PrinterSerial).value else Unknown)
    ensures forall n :: SnmpValue(h, PageCounter) == Some(IntToString(n)) ==> d.pageCount == n
    ensures (SnmpValue(h, PageCounter).None? || ParseInt(SnmpValue(h, PageCounter).value).None?) ==> d.pageCount == 0
    ensures forall c :: d.toner.Get(c) == ChannelOf(h, c)
  {
    var name := OrUnknown(SnmpValue(h, SystemName));
    var model := OrUnknown(SnmpValue(h, PrinterModel));
    var serial := OrUnknown(SnmpValue(h, PrinterSerial));
    var toner := GetTonerInfo(h);
    var pageCount := PageCountOf(SnmpValue(h, PageCounter));
    d := Device(ip, Online, name, model, serial, now, toner, pageCount, None, None, None);
    forall n | SnmpValue(h, PageCounter) == Some(IntToString(n)) ensures d.pageCount == n {
      ParseIntRoundTrip(n);
    }
  }

  /** The uptime text: TimeTicks are hundredths of a second (section 7.1.8 of
      RFC 2578); a missing or non-integer answer gives the placeholder. */
  function UptimeText(v: Option<string>): string {
    match v
    case None => Unknown
    case Some(s) =>
      match ParseInt(s)
      case Some(ticks) => FormatUptime(ticks / 100)
      case None => Unknown
  }

  /** The record `get_device_details` returns. */
  function DetailsOf(ip: string, h: Host, now: string): Device {
    BasicInfo(ip, h, now).(
      location := Some(OrUnknown(SnmpValue(h, SystemLocation))),
      contact := Some(OrUnknown(SnmpValue(h, SystemContact))),
      uptime := Some(UptimeText(SnmpValue(h, SystemUptime))))
  }

  /** `get_device_details`: the basic record with location, contact and uptime added. */
  method GetDeviceDetails(ip: string, h: Host, now: string) returns (d: Device)
    ensures d == DetailsOf(ip, h, now)
    ensures d.(location := None, contact := None, uptime := None) == BasicInfo(ip, h, now)
    ensures d.location == Some(OrUnknown(SnmpValue(h, SystemLocation)))
    ensures d.contact == Some(OrUnknown(SnmpValue(h, SystemContact)))
    ensures forall ticks :: SnmpValue(h, SystemUptime) == Some(IntToString(ticks)) ==>
              d.uptime == Some(FormatUptime(ticks / 100))
    ensures (SnmpValue(h, SystemUptime).None? || ParseInt(SnmpValue(h, SystemUptime).value).None?) ==>
              d.uptime == Some(Unknown)
  {
    d := GetBasicDeviceInfo(ip, h, now);
    d := d.(location := Some(OrUnknown(SnmpValue(h, SystemLocation))));
    d := d.(contact := Some(OrUnknown(SnmpValue(h, SystemContact))));
    var uptime := SnmpValue(h, SystemUptime);
    var parsed := if uptime.Some? then ParseInt(uptime.value) else None;
    if parsed.Some? {
      d := d.(uptime := Some(FormatUptime(parsed.value / 100)));
    } else {
      d := d.(uptime := Some(Unknown));
    }
    forall ticks | SnmpValue(h, SystemUptime) == Some(IntToString(ticks))
      ensures d.uptime == Some(FormatUptime(ticks / 100))
    {
      ParseIntRoundTrip(ticks);
    }
  }

  // ---------------------------------------------------------------------
  // Host sweep (scan)
  // ---------------------------------------------------------------------

  /** The records of the printers among `hosts`, in host order. */
  function PrintersOf(hosts: seq<HostEntry>, now: string): seq<Device> {
    if hosts == [] then []
    else
      var e := hosts[|hosts| - 1];
      var rest := PrintersOf(hosts[..|hosts| - 1], now);
      if IsPrinterHost(e.ip, e.host) then rest + [BasicInfo(e.ip, e.host, now)] else rest
  }

  /** `d` is the record the sweep builds for the printer host `e`. */
  predicate Produces(e: HostEntry, now: string, d: Device) {
    IsPrinterHost(e.ip, e.host) && d == BasicInfo(e.ip, e.host, now)
  }

  /** A record is in the sweep exactly when some printer host produced it. */
  lemma PrintersOfMembers(hosts: seq<HostEntry>, now: string, d: Device)
    ensures d in PrintersOf(hosts, now) <==> exists k :: 0 <= k < |hosts| && Produces(hosts[k], now, d)
  {
    if d in PrintersOf(hosts, now) {
      var k := ProducerOf(hosts, now, d);
    }
    if exists k :: 0 <= k < |hosts| && Produces(hosts[k], now, d) {
      var k :| 0 <= k < |hosts| && Produces(hosts[k], now, d);
      ProducedIsKept(hosts, now, k);
    }
  }

  /** Every record of the sweep comes from a printer host. */
  lemma {:induction false} ProducerOf(hosts: seq<HostEntry>, now: string, d: Device) returns (k: int)
    requires d in PrintersOf(hosts, now)
    ensures 0 <= k < |hosts| && Produces(hosts[k], now, d)
    decreases |hosts|
  {
    var n := |hosts| - 1;
    var init := hosts[..n];
    if d in PrintersOf(init, now) {
      k := ProducerOf(init, now, d);
      assert hosts[k] == init[k];
    } else {
      k := n;
    }
  }

  /** Every printer host's record is in the sweep. */
  lemma {:induction false} ProducedIsKept(hosts: seq<HostEntry>, now: string, k: int)
    requires 0 <= k < |hosts| && IsPrinterHost(hosts[k].ip, hosts[k].host)
    ensures BasicInfo(hosts[k].ip, hosts[k].host, now) in PrintersOf(hosts, now)
    decreases |hosts|
  {
    var n := |hosts| - 1;
    if k < n {
      var init := hosts[..n];
      assert init[k] == hosts[k];
      ProducedIsKept(init, now, k);
    }
  }

  /** `idx` lists, in increasing order, the positions of the hosts that
      produced the records `ds`, one host per record. */
  ghost predicate ProducedAt(ds: seq<Device>, hosts: seq<HostEntry>, now: string, idx: seq<int>) {
    && |idx| == |ds|
    && (forall k :: 0 <= k < |idx| ==> 0 <= idx[k] < |hosts| && Produces(hosts[idx[k]], now, ds[k]))
    && (forall k, l :: 0 <= k < l < |idx| ==> idx[k] < idx[l])
  }

  /** Positions into all but the last host are positions into all of them. */
  lemma ProducedAtWiden(ds: seq<Device>, hosts: seq<HostEntry>, now: string, idx: seq<int>)
    requires hosts != [] && ProducedAt(ds, hosts[..|hosts| - 1], now, idx)
    ensures ProducedAt(ds, hosts, now, idx)
  {
    forall k | 0 <= k < |idx|
      ensures hosts[idx[k]] == hosts[..|hosts| - 1][idx[k]]
    {
    }
  }

  /** A record produced by the last host extends the positions by that host. */
  lemma ProducedAtAppend(ds: seq<Device>, hosts: seq<HostEntry>, now: string, idx: seq<int>, d: Device)
    requires hosts != [] && ProducedAt(ds, hosts[..|hosts| - 1], now, idx)
    requires Produces(hosts[|hosts| - 1], now, d)
    ensures ProducedAt(ds + [d], hosts, now, idx + [|hosts| - 1])
  {
    ProducedAtWiden(ds, hosts, now, idx);
    var n := |hosts| - 1;
    forall k | 0 <= k < |idx| + 1
      ensures 0 <= (idx + [n])[k] < |hosts| && Produces(hosts[(idx + [n])[k]], now, (ds + [d])[k])
    {
      if k < |idx| {
        assert (idx + [n])[k] == idx[k] && (ds + [d])[k] == ds[k];
      }
    }
  }

  /** The positions of the hosts behind the sweep's records. */
  lemma {:induction false} ProducerPositions(hosts: seq<HostEntry>, now: string) returns (idx: seq<int>)
    ensures ProducedAt(PrintersOf(hosts, now), hosts, now, idx)
    decreases |hosts|
  {
    if hosts == [] {
      idx := [];
    } else {
      var n := |hosts| - 1;
      var init := hosts[..n];
      var rest := PrintersOf(init, now);
      var idx' := ProducerPositions(init, now);
      ProducedAtWiden(rest, hosts, now, idx');
      if IsPrinterHost(hosts[n].ip, hosts[n].host) {
        var d := BasicInfo(hosts[n].ip, hosts[n].host, now);
        assert PrintersOf(hosts, now) == rest + [d];
        ProducedAtAppend(rest, hosts, now, idx', d);
        idx := idx' + [n];
      } else {
        assert PrintersOf(hosts, now) == rest;
        idx := idx';
      }
    }
  }

  /** The sweep keeps at most one record per host: its records come from
      distinct hosts, in host order. Every record is online. */
  lemma {:induction false} PrintersOfShape(hosts: seq<HostEntry>, now: string)
    ensures |PrintersOf(hosts, now)| <= |hosts|
    ensures exists idx :: ProducedAt(PrintersOf(hosts, now), hosts, now, idx)
    ensures forall k :: 0 <= k < |PrintersOf(hosts, now)| ==>
              PrintersOf(hosts, now)[k].status == Online && PrintersOf(hosts, now)[k].lastUpdate == now
    decreases |hosts|
  {
    var idx := ProducerPositions(hosts, now);
    if hosts != [] {
      PrintersOfShape(hosts[..|hosts| - 1], now);
    }
  }

  /** A scanner: its one piece of mutable state is the network range to sweep. */
  class NetworkScanner {
    var networkRange: string

    constructor (networkRange: string)
      ensures this.networkRange == networkRange
    {
      this.networkRange := networkRange;
    }

    /** `scan`: ask nmap for the hosts of `networkRange` (the `nmap` map gives
        the host list nmap reports for each range; a range it lacks is the
        case where nmap raises), and keep the records of the printers among them. */
    method Scan(nmap: map<string, seq<HostEntry>>, now: string) returns (devices: Option<seq<Device>>)
      ensures networkRange !in nmap ==> devices == None
      ensures networkRange in nmap ==> devices == Some(PrintersOf(nmap[networkRange], now))
    {
      if networkRange !in nmap {
        return None;
      }
      var hosts := nmap[networkRange];
      var found: seq<Device> := [];
      for i := 0 to |hosts|
        invariant found == PrintersOf(hosts[..i], now)
      {
        assert hosts[..i + 1][..i] == hosts[..i];
        var e := hosts[i];
        var isPrinter, _ := IsPrinter(e.ip, e.host);
        if isPrinter {
          var info := GetBasicDeviceInfo(e.ip, e.host, now);
          found := found + [info];
        }
      }
      assert hosts[..|hosts|] == hosts;
      devices := Some(found);
    }
  }
}
