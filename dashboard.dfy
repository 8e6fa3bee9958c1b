/** The dashboard logic of static/js/app.js with the DOM taken away: the
    status mapping and toner bars of the device table, the filter predicate,
    the CSV export, and the page state (device list, settings, the single
    auto-scan interval, the rows of the table). */
module Dashboard {
  import opened Wrappers
  import opened Text
  import opened Scanner

  // ---------------------------------------------------------------------
  // Status mapping (displayDevices)
  // ---------------------------------------------------------------------

  datatype StatusView = StatusOnline | StatusOffline | StatusWarning
  {
    /** The class of the status indicator. */
    function CssClass(): string {
      match this
      case StatusOnline => "status-online"
      case StatusOffline => "status-offline"
      case StatusWarning => "status-warning"
    }

    /** The label shown next to it ("online", "offline", "warning"). */
    function Label(): string {
      match this
      case StatusOnline => "온라인"
      case StatusOffline => "오프라인"
      case StatusWarning => "경고"
    }
  }

  /** The case-insensitive status mapping: 'offline' and 'warning' are
      recognised, anything else shows as online. */
  function StatusOf(status: string): (v: StatusView)
    ensures v == StatusOffline <==> Lower(status) == "offline"
    ensures v == StatusWarning <==> Lower(status) == "warning"
    ensures v == StatusOnline <==> Lower(status) != "offline" && Lower(status) != "warning"
  {
    if Lower(status) == "offline" then StatusOffline
    else if Lower(status) == "warning" then StatusWarning
    else StatusOnline
  }

  /** The mapping ignores case: a status and its lower-cased form map alike. */
  lemma StatusIgnoresCase(status: string)
    ensures StatusOf(Lower(status)) == StatusOf(status)
  {
    LowerIdempotent(status);
  }

  /** Every record the scanner produces carries '온라인' and is shown online. */
  lemma ScannedDevicesShowOnline(hosts: seq<HostEntry>, now: string)
    ensures forall k :: 0 <= k < |PrintersOf(hosts, now)| ==>
              StatusOf(PrintersOf(hosts, now)[k].status) == StatusOnline
  {
    PrintersOfShape(hosts, now);
    assert Lower(Online) == Online;
  }

  // ---------------------------------------------------------------------
  // Toner bars (generateTonerHtml)
  // ---------------------------------------------------------------------

  datatype Level = Danger | Warning | Normal

  /** The warning thresholds of a toner bar. */
  function TonerLevel(percent: int): (l: Level)
    ensures l == Danger <==> percent <= 10
    ensures l == Warning <==> 10 < percent <= 20
    ensures l == Normal <==> percent > 20
  {
    if percent <= 10 then Danger else if percent <= 20 then Warning else Normal
  }

  function Severity(l: Level): nat {
    match l
    case Danger => 2
    case Warning => 1
    case Normal => 0
  }

  /** Less toner never looks better: the thresholds are monotone. */
  lemma TonerLevelMonotone(p: int, q: int)
    requires p <= q
    ensures Severity(TonerLevel(q)) <= Severity(TonerLevel(p))
  {
  }

  function ColorName(c: Color): string {
    match c
    case Black => "black"
    case Cyan => "cyan"
    case Magenta => "magenta"
    case Yellow => "yellow"
  }

  /** The bar's classes: the colour, plus danger or warning. */
  function BarClass(c: Color, percent: int): string {
    "toner-" + ColorName(c) +
      match TonerLevel(percent)
      case Danger => " toner-danger"
      case Warning => " toner-warning"
      case Normal => ""
  }

  datatype TonerBar = TonerBar(color: Color, percent: int, cssClass: string)

  function Bar(t: Toner, c: Color): TonerBar {
    TonerBar(c, t.Get(c).percent, BarClass(c, t.Get(c).percent))
  }

  /** Colour bars are drawn only if some colour channel is above 0. */
  predicate ShowsColor(t: Toner) {
    t.cyan.percent > 0 || t.magenta.percent > 0 || t.yellow.percent > 0
  }

  function TonerBars(t: Toner): seq<TonerBar> {
    [Bar(t, Black)] + (if ShowsColor(t) then [Bar(t, Cyan), Bar(t, Magenta), Bar(t, Yellow)] else [])
  }

  /** `generateTonerHtml`: the black bar always, then cyan, magenta and yellow
      only when one of them is above 0. */
  method GenerateTonerBars(t: Toner) returns (bars: seq<TonerBar>)
    ensures bars == TonerBars(t)
    ensures |bars| == (if ShowsColor(t) then 4 else 1)
    ensures bars[0] == TonerBar(Black, t.black.percent, BarClass(Black, t.black.percent))
    ensures forall k :: 0 <= k < |bars| ==>
              bars[k].percent == t.Get(bars[k].color).percent
              && bars[k].cssClass == BarClass(bars[k].color, bars[k].percent)
  {
    bars := [Bar(t, Black)];
    if t.cyan.percent > 0 || t.magenta.percent > 0 || t.yellow.percent > 0 {
      bars := bars + [Bar(t, Cyan)];
      bars := bars + [Bar(t, Magenta)];
      bars := bars + [Bar(t, Yellow)];
    }
  }

  // ---------------------------------------------------------------------
  // The device table (displayDevices, showError, startScan)
  // ---------------------------------------------------------------------

  /** A row of the table body: a message in one cell spanning the table, or a device in eight cells. */
  datatype TableRow =
    | MessageRow(message: string)
    | DeviceRow(status: StatusView, number: int, name: string, model: string, serial: string,
                ip: string, toner: seq<TonerBar>, pageCount: int)

  function Cells(row: TableRow): nat {
    match row
    case MessageRow(_) => 1
    case DeviceRow(_, _, _, _, _, _, _, _) => 8
  }

  const LoadingMessage := "장치를 스캔하는 중입니다..."
  const NoDevicesMessage := "발견된 장치가 없습니다."
  const ScanErrorPrefix := "스캔 중 오류가 발생했습니다: "

  /** The row of the `index`-th displayed device, numbered from 1. */
  function RowOf(index: int, d: Device): TableRow {
    DeviceRow(StatusOf(d.status), index + 1, d.name, d.model, d.serial, d.ip, TonerBars(d.toner), d.pageCount)
  }

  /** What `displayDevices(list)` puts in the table. */
  function DisplayTable(list: seq<Device>): seq<TableRow> {
    if list == [] then [MessageRow(NoDevicesMessage)]
    else seq(|list|, i requires 0 <= i < |list| => RowOf(i, list[i]))
  }

  /** The row-building loop of `displayDevices`. */
  method RenderRows(list: seq<Device>) returns (rows: seq<TableRow>)
    ensures |rows| == |list|
    ensures forall i :: 0 <= i < |list| ==>
              rows[i].DeviceRow? && rows[i].number == i + 1 && rows[i].ip == list[i].ip
              && rows[i] == RowOf(i, list[i])
  {
    rows := [];
    for i := 0 to |list|
      invariant |rows| == i
      invariant forall k :: 0 <= k < i ==> rows[k] == RowOf(k, list[k])
    {
      var d := list[i];
      var bars := GenerateTonerBars(d.toner);
      rows := rows + [DeviceRow(StatusOf(d.status), i + 1, d.name, d.model, d.serial, d.ip, bars, d.pageCount)];
    }
  }

  // ---------------------------------------------------------------------
  // Filter predicate (filterDevices)
  // ---------------------------------------------------------------------

  /** The values of the filter controls: three text fields, the toner
      select, and the two check boxes. */
  datatype FilterForm = FilterForm(search: string, location: string, ip: string, toner: string,
                                   showOffline: bool, showWarning: bool)

  /** The form that keeps every device. */
  const ShowAll := FilterForm("", "", "", "", true, true)

  /** The search term must occur in the lower-cased name, model or ip. */
  predicate SearchKeeps(term: string, d: Device) {
    var t := Lower(term);
    t == "" || Contains(Lower(d.name), t) || Contains(Lower(d.model), t) || Contains(Lower(d.ip), t)
  }

  /** The location field is matched against the name. */
  predicate LocationKeeps(term: string, d: Device) {
    var t := Lower(term);
    t == "" || Contains(Lower(d.name), t)
  }

  predicate IpKeeps(term: string, d: Device) {
    var t := Lower(term);
    t == "" || Contains(Lower(d.ip), t)
  }

  /** Offline and warning devices stay only if their box is checked. */
  predicate StatusKeeps(showOffline: bool, showWarning: bool, d: Device) {
    (showOffline || Lower(d.status) != "offline") && (showWarning || Lower(d.status) != "warning")
  }

  /** The toner select looks at the black channel only. */
  predicate TonerKeeps(filter: string, blackPercent: int)
  {
    if filter == "low" then blackPercent <= 20
    else if filter == "medium" then 20 < blackPercent <= 50
    else if filter == "high" then blackPercent > 50
    else true
  }

  /** The predicate given to `devices.filter`: every control narrows on its own. */
  predicate Keep(f: FilterForm, d: Device) {
    && SearchKeeps(f.search, d)
    && LocationKeeps(f.location, d)
    && IpKeeps(f.ip, d)
    && StatusKeeps(f.showOffline, f.showWarning, d)
    && TonerKeeps(f.toner, d.toner.black.percent)
  }

  /** `devices.filter(...)`. */
  function Filtered(ds: seq<Device>, f: FilterForm): seq<Device> {
    if ds == [] then []
    else (if Keep(f, ds[0]) then [ds[0]] else []) + Filtered(ds[1..], f)
  }

  /** `idx` lists, in increasing order, positions of `b` that spell out `a`. */
  ghost predicate SubsequenceAt(a: seq<Device>, b: seq<Device>, idx: seq<int>) {
    && |idx| == |a|
    && (forall k :: 0 <= k < |idx| ==> 0 <= idx[k] < |b| && a[k] == b[idx[k]])
    && (forall k, l :: 0 <= k < l < |idx| ==> idx[k] < idx[l])
  }

  /** `a` is `b` with some elements removed and the rest in their order. */
  ghost predicate IsSubsequence(a: seq<Device>, b: seq<Device>) {
    exists idx :: SubsequenceAt(a, b, idx)
  }

  function Shift(idx: seq<int>): (r: seq<int>)
    ensures |r| == |idx| && forall k :: 0 <= k < |idx| ==> r[k] == idx[k] + 1
  {
    seq(|idx|, k requires 0 <= k < |idx| => idx[k] + 1)
  }

  /** A device is in the filtered list exactly when it is in the list and passes the filter. */
  lemma {:induction false} FilteredMembers(ds: seq<Device>, f: FilterForm, d: Device)
    ensures d in Filtered(ds, f) <==> d in ds && Keep(f, d)
    decreases |ds|
  {
    if ds != [] {
      FilteredMembers(ds[1..], f, d);
      assert ds == [ds[0]] + ds[1..];
    }
  }

  /** A common first element extends a subsequence on both sides. */
  lemma SubsequenceConsBoth(a: seq<Device>, b: seq<Device>, idx: seq<int>, x: Device)
    requires SubsequenceAt(a, b, idx)
    ensures SubsequenceAt([x] + a, [x] + b, [0] + Shift(idx))
  {
  }

  /** An extra first element on the right keeps a subsequence. */
  lemma SubsequenceConsRight(a: seq<Device>, b: seq<Device>, idx: seq<int>, x: Device)
    requires SubsequenceAt(a, b, idx)
    ensures SubsequenceAt(a, [x] + b, Shift(idx))
  {
  }

  /** A filter that keeps less gives a subsequence of what a filter that
      keeps more gives: the filtered view only narrows, in order. */
  lemma {:induction false} FilterMonotone(ds: seq<Device>, f: FilterForm, g: FilterForm)
    requires forall d :: Keep(f, d) ==> Keep(g, d)
    ensures IsSubsequence(Filtered(ds, f), Filtered(ds, g))
    decreases |ds|
  {
    if ds == [] {
      assert SubsequenceAt([], [], []);
    } else {
      FilterMonotone(ds[1..], f, g);
      var a', b' := Filtered(ds[1..], f), Filtered(ds[1..], g);
      var idx' :| SubsequenceAt(a', b', idx');
      var x := ds[0];
      var a, b := Filtered(ds, f), Filtered(ds, g);
      if Keep(f, x) {
        assert a == [x] + a' && b == [x] + b';
        SubsequenceConsBoth(a', b', idx', x);
      } else if Keep(g, x) {
        assert a == a' && b == [x] + b';
        SubsequenceConsRight(a', b', idx', x);
      } else {
        assert a == a' && b == b';
      }
    }
  }

  lemma {:induction false} FilteredShowAll(ds: seq<Device>)
    ensures Filtered(ds, ShowAll) == ds
    decreases |ds|
  {
    if ds != [] {
      FilteredShowAll(ds[1..]);
      assert ds == [ds[0]] + ds[1..];
    }
  }

  /** The filtered view is an order-preserving subsequence of the device list. */
  lemma FilteredIsSubsequence(ds: seq<Device>, f: FilterForm)
    ensures IsSubsequence(Filtered(ds, f), ds)
  {
    FilterMonotone(ds, f, ShowAll);
    FilteredShowAll(ds);
  }

  /** Each control narrows on its own: clearing any one of them (or checking
      a box) can only bring devices back. */
  lemma ClearingAControlWidens(ds: seq<Device>, f: FilterForm)
    ensures IsSubsequence(Filtered(ds, f), Filtered(ds, f.(search := "")))
    ensures IsSubsequence(Filtered(ds, f), Filtered(ds, f.(location := "")))
    ensures IsSubsequence(Filtered(ds, f), Filtered(ds, f.(ip := "")))
    ensures IsSubsequence(Filtered(ds, f), Filtered(ds, f.(toner := "")))
    ensures IsSubsequence(Filtered(ds, f), Filtered(ds, f.(showOffline := true)))
    ensures IsSubsequence(Filtered(ds, f), Filtered(ds, f.(showWarning := true)))
  {
    FilterMonotone(ds, f, f.(search := ""));
    FilterMonotone(ds, f, f.(location := ""));
    FilterMonotone(ds, f, f.(ip := ""));
    FilterMonotone(ds, f, f.(toner := ""));
    FilterMonotone(ds, f, f.(showOffline := true));
    FilterMonotone(ds, f, f.(showWarning := true));
  }

  /** The toner select: 'low' keeps at most 20 per cent black, 'medium' more
      than 20 and at most 50, 'high' more than 50; any other value keeps all. */
  lemma TonerFilterBands(d: Device, f: FilterForm)
    requires SearchKeeps(f.search, d) && LocationKeeps(f.location, d) && IpKeeps(f.ip, d)
    requires StatusKeeps(f.showOffline, f.showWarning, d)
    ensures f.toner == "low" ==> (Keep(f, d) <==> d.toner.black.percent <= 20)
    ensures f.toner == "medium" ==> (Keep(f, d) <==> 20 < d.toner.black.percent <= 50)
    ensures f.toner == "high" ==> (Keep(f, d) <==> d.toner.black.percent > 50)
    ensures f.toner != "low" && f.toner != "medium" && f.toner != "high" ==> Keep(f, d)
  {
  }

  // ---------------------------------------------------------------------
  // CSV export (exportToExcel)
  // ---------------------------------------------------------------------

  /** The column names of the export. */
  const CsvColumns := ["상태", "번호", "설치장소", "모델명", "시리얼 번호", "IP 주소", "토너 상태(검정)",
                       "토너 상태(시안)", "토너 상태(마젠타)", "토너 상태(옐로우)", "페이지 수"]

  /** The first line of the export: the column names, comma-separated. */
  const CsvHeader := Join(CsvColumns, ',') + "\n"

  /** Commas in free-text fields become spaces. */
  function Scrub(s: string): string {
    ReplaceChar(s, ',', ' ')
  }

  /** The eleven fields of one device's line, numbered `number`, in header order. */
  function CsvFields(number: int, d: Device): seq<string> {
    [d.status, IntToString(number), Scrub(d.name), Scrub(d.model), Scrub(d.serial), d.ip,
     IntToString(d.toner.black.percent) + "%", IntToString(d.toner.cyan.percent) + "%",
     IntToString(d.toner.magenta.percent) + "%", IntToString(d.toner.yellow.percent) + "%",
     IntToString(d.pageCount)]
  }

  /** The line of one device, without its line break. */
  function CsvRecord(number: int, d: Device): string {
    Join(CsvFields(number, d), ',')
  }

  /** The header, then one line per device, numbered from 1, in list order. */
  function CsvText(ds: seq<Device>): string {
    if ds == [] then CsvHeader
    else CsvText(ds[..|ds| - 1]) + CsvRecord(|ds|, ds[|ds| - 1]) + "\n"
  }

  /** The CSV-building loop of `exportToExcel`. */
  method BuildCsv(ds: seq<Device>) returns (csv: string)
    ensures csv == CsvText(ds)
  {
    csv := CsvHeader;
    for i := 0 to |ds|
      invariant csv == CsvText(ds[..i])
    {
      assert ds[..i + 1][..i] == ds[..i];
      csv := csv + CsvRecord(i + 1, ds[i]) + "\n";
    }
    assert ds[..|ds|] == ds;
  }

  lemma {:induction false} ReplaceKeepsCount(c: char, s: string, a: char, b: char)
    requires c != a && c != b
    ensures Count(c, ReplaceChar(s, a, b)) == Count(c, s)
    decreases |s|
  {
    if s != [] {
      var r := ReplaceChar(s, a, b);
      ReplaceKeepsCount(c, s[..|s| - 1], a, b);
      assert r[..|r| - 1] == ReplaceChar(s[..|s| - 1], a, b);
    }
  }

  lemma ScrubHasNoComma(s: string)
    ensures Count(',', Scrub(s)) == 0
    ensures Count('\n', Scrub(s)) == Count('\n', s)
  {
    CountAbsent(',', Scrub(s));
    ReplaceKeepsCount('\n', s, ',', ' ');
  }

  lemma PercentFieldPlain(i: int)
    ensures Count(',', IntToString(i) + "%") == 0
    ensures Count('\n', IntToString(i) + "%") == 0
  {
    IntToStringPlain(i);
    CountAbsent(',', "%");
    CountAbsent('\n', "%");
    CountConcat(',', IntToString(i), "%");
    CountConcat('\n', IntToString(i), "%");
  }

  /** No generated field holds a comma or a line break: only status and ip
      are written as they are. */
  lemma GeneratedFieldsPlain(c: char, number: int, d: Device, k: int)
    requires c == ',' || c == '\n'
    requires 0 <= k < 11 && k != 0 && k != 5
    requires c == '\n' ==> Count(c, d.name) == 0 && Count(c, d.model) == 0 && Count(c, d.serial) == 0
    ensures Count(c, CsvFields(number, d)[k]) == 0
  {
    var fs := CsvFields(number, d);
    if k == 1 {
      IntToStringPlain(number);
    } else if k == 2 {
      ScrubHasNoComma(d.name);
    } else if k == 3 {
      ScrubHasNoComma(d.model);
    } else if k == 4 {
      ScrubHasNoComma(d.serial);
    } else if k == 6 {
      PercentFieldPlain(d.toner.black.percent);
    } else if k == 7 {
      PercentFieldPlain(d.toner.cyan.percent);
    } else if k == 8 {
      PercentFieldPlain(d.toner.magenta.percent);
    } else if k == 9 {
      PercentFieldPlain(d.toner.yellow.percent);
    } else {
      IntToStringPlain(d.pageCount);
    }
  }

  /** When status and ip hold no comma, a CSV reader sees the 11 columns of
      the header in every record. */
  lemma CsvRecordFields(number: int, d: Device)
    requires Count(',', d.status) == 0 && Count(',', d.ip) == 0
    ensures Count(',', CsvRecord(number, d)) == 10
    ensures |Split(CsvRecord(number, d), ',')| == 11
  {
    var fs := CsvFields(number, d);
    forall k | 0 <= k < |fs|
      ensures Count(',', fs[k]) == 0
    {
      if k != 0 && k != 5 {
        GeneratedFieldsPlain(',', number, d, k);
      }
    }
    CountAllZero(',', fs);
    CountJoin(',', fs, ',');
  }

  /** No line break in the text fields, none in the record. */
  lemma CsvRecordOneLine(number: int, d: Device)
    requires Count('\n', d.status) == 0 && Count('\n', d.ip) == 0
    requires Count('\n', d.name) == 0 && Count('\n', d.model) == 0 && Count('\n', d.serial) == 0
    ensures Count('\n', CsvRecord(number, d)) == 0
  {
    var fs := CsvFields(number, d);
    forall k | 0 <= k < |fs|
      ensures Count('\n', fs[k]) == 0
    {
      if k != 0 && k != 5 {
        GeneratedFieldsPlain('\n', number, d, k);
      }
    }
    CountAllZero('\n', fs);
    CountJoin('\n', fs, ',');
  }

  /** One header line plus one line per device of the full list, as long as
      no field holds a line break. */
  lemma {:induction false} CsvLineCount(ds: seq<Device>)
    requires forall k :: 0 <= k < |ds| ==>
               Count('\n', ds[k].status) == 0 && Count('\n', ds[k].name) == 0 && Count('\n', ds[k].model) == 0
               && Count('\n', ds[k].serial) == 0 && Count('\n', ds[k].ip) == 0
    ensures Count('\n', CsvText(ds)) == |ds| + 1
    decreases |ds|
  {
    if ds == [] {
      CsvHeaderShape();
    } else {
      var n := |ds|;
      CsvLineCount(ds[..n - 1]);
      CsvRecordOneLine(n, ds[n - 1]);
      CountConcat('\n', CsvText(ds[..n - 1]), CsvRecord(n, ds[n - 1]));
      CountConcat('\n', CsvText(ds[..n - 1]) + CsvRecord(n, ds[n - 1]), "\n");
      assert Count('\n', "\n") == 1 by {
        assert "\n"[..0] == [];
      }
    }
  }

  /** No column name holds a comma or a line break. */
  lemma ColumnNamesPlain(c: char)
    requires c == ',' || c == '\n'
    ensures forall k :: 0 <= k < |CsvColumns| ==> Count(c, CsvColumns[k]) == 0
  {
    forall k | 0 <= k < |CsvColumns|
      ensures Count(c, CsvColumns[k]) == 0
    {
      var name := CsvColumns[k];
      assert forall i :: 0 <= i < |name| ==> name[i] != c;
      CountAbsent(c, name);
    }
  }

  /** The header is one line of 11 columns, as many as every record has. */
  lemma CsvHeaderShape()
    ensures Count('\n', CsvHeader) == 1
    ensures Count(',', CsvHeader) == 10
    ensures |Split(Join(CsvColumns, ','), ',')| == 11
  {
    var line := Join(CsvColumns, ',');
    ColumnNamesPlain(',');
    ColumnNamesPlain('\n');
    CountAllZero(',', CsvColumns);
    CountAllZero('\n', CsvColumns);
    CountJoin(',', CsvColumns, ',');
    CountJoin('\n', CsvColumns, ',');
    CountConcat('\n', line, "\n");
    CountConcat(',', line, "\n");
    assert Count('\n', "\n") == 1 && Count(',', "\n") == 0 by {
      assert "\n"[..0] == [];
    }
  }

  /** Export is refused when the table is empty or holds one single-cell row
      (the loading, empty and error messages). */
  predicate ExportRefused(table: seq<TableRow>) {
    |table| == 0 || (|table| == 1 && Cells(table[0]) == 1)
  }

  /** After `displayDevices(list)`, export is refused exactly when `list` is empty. */
  lemma ExportRefusedIffNoRows(list: seq<Device>)
    ensures ExportRefused(DisplayTable(list)) <==> list == []
  {
    if list != [] {
      assert DisplayTable(list)[0] == RowOf(0, list[0]);
    }
  }

  // ---------------------------------------------------------------------
  // Page state
  // ---------------------------------------------------------------------

  datatype Settings = Settings(networkRange: string, scanInterval: int, snmpCommunity: string,
                               snmpVersion: int, autoScan: bool)

  const DefaultSettings := Settings("192.168.0.0/24", 300, "public", 2, true)

  /** What the `/api/scan` request came back with: the JSON reply, or the
      message of the error that made `fetch` or the JSON decoding fail. */
  datatype ScanOutcome =
    | Replied(success: bool, message: string, devices: seq<Device>)
    | FetchFailed(error: string)

  /** The page's globals, the rows of the device table, and the browser's
      interval timers (handle to delay in milliseconds). */
  class Page {
    var devices: seq<Device>
    var settings: Settings
    var autoScanInterval: Option<nat>
    var timers: map<nat, int>
    var nextHandle: nat
    var table: seq<TableRow>

    /** The handle is the only live timer: at most one auto-scan runs. */
    ghost predicate Valid()
      reads this
    {
      && nextHandle >= 1
      && (forall id :: id in timers ==> 1 <= id < nextHandle)
      && timers.Keys == (if autoScanInterval.Some? then {autoScanInterval.value} else {})
    }

    /** The state before DOMContentLoaded: the initial values of the globals. */
    constructor ()
      ensures Valid()
      ensures devices == [] && settings == DefaultSettings && autoScanInterval == None
      ensures timers == map[] && table == []
    {
      devices := [];
      settings := DefaultSettings;
      autoScanInterval := None;
      timers := map[];
      nextHandle := 1;
      table := [];
    }

    /** The browser's `setInterval`: a fresh positive handle. */
    method SetInterval(delay: int) returns (handle: nat)
      requires Valid()
      modifies this`timers, this`nextHandle
      ensures handle == old(nextHandle) && handle >= 1
      ensures timers == old(timers)[handle := delay] && nextHandle == old(nextHandle) + 1
    {
      handle := nextHandle;
      timers := timers[handle := delay];
      nextHandle := nextHandle + 1;
    }

    /** `stopAutoScan`: clear the interval, if any, and reset the handle to null. */
    method StopAutoScan()
      requires Valid()
      modifies this`timers, this`autoScanInterval
      ensures Valid()
      ensures autoScanInterval == None && timers == map[]
    {
      if autoScanInterval.Some? {
        timers := timers - {autoScanInterval.value};
        autoScanInterval := None;
      }
    }

    /** `startAutoScan`: always clear the previous interval first, then start
        one that fires every `scanInterval` seconds. */
    method StartAutoScan()
      requires Valid()
      modifies this`timers, this`autoScanInterval, this`nextHandle
      ensures Valid()
      ensures autoScanInterval == Some(old(nextHandle))
      ensures timers == map[old(nextHandle) := settings.scanInterval * 1000]
    {
      StopAutoScan();
      var handle := SetInterval(settings.scanInterval * 1000);
      autoScanInterval := Some(handle);
    }

    /** `startScan`, up to the request: show the loading row and return the
        network range sent in the POST body. */
    method StartScan() returns (networkRange: string)
      modifies this`table
      ensures table == [MessageRow(LoadingMessage)] && ExportRefused(table)
      ensures networkRange == settings.networkRange
    {
      table := [MessageRow(LoadingMessage)];
      networkRange := settings.networkRange;
    }

    /** `displayDevices`. */
    method DisplayDevices(list: seq<Device>)
      modifies this`table
      ensures table == DisplayTable(list)
    {
      if list == [] {
        table := [MessageRow(NoDevicesMessage)];
        return;
      }
      var rows := RenderRows(list);
      table := rows;
    }

    /** `showError`: one message row. */
    method ShowError(message: string)
      modifies this`table
      ensures table == [MessageRow(message)]
    {
      table := [MessageRow(message)];
    }

    /** The rest of `startScan`: a successful reply replaces the device list
        and shows it; a failed one shows its message and keeps the list. */
    method OnScanOutcome(outcome: ScanOutcome)
      modifies this`table, this`devices
      ensures outcome.Replied? && outcome.success ==>
                devices == outcome.devices && table == DisplayTable(outcome.devices)
      ensures outcome.Replied? && !outcome.success ==>
                devices == old(devices) && table == [MessageRow(outcome.message)]
      ensures outcome.FetchFailed? ==>
                devices == old(devices) && table == [MessageRow(ScanErrorPrefix + outcome.error)]
    {
      match outcome
      case Replied(success, message, list) =>
        if success {
          devices := list;
          DisplayDevices(devices);
        } else {
          ShowError(message);
        }
      case FetchFailed(error) =>
        ShowError(ScanErrorPrefix + error);
    }

    /** `filterDevices`: show the devices that pass the form; the list itself is kept. */
    method FilterDevices(f: FilterForm)
      modifies this`table
      ensures table == DisplayTable(Filtered(devices, f))
    {
      var shown := Filtered(devices, f);
      DisplayDevices(shown);
    }

    /** `exportToExcel`: refused while the table holds no device rows;
        otherwise the CSV of the whole device list, whatever the filter shows. */
    method ExportToExcel() returns (csv: Option<string>)
      ensures ExportRefused(table) ==> csv == None
      ensures !ExportRefused(table) ==> csv == Some(CsvText(devices))
    {
      if |table| == 0 || (|table| == 1 && Cells(table[0]) == 1) {
        return None;
      }
      var text := BuildCsv(devices);
      csv := Some(text);
    }

    /** `saveSettings`: take the form's values, then start or stop the
        auto-scan according to `autoScan`, then start a scan. */
    method SaveSettings(form: Settings) returns (networkRange: string)
      requires Valid()
      modifies this
      ensures Valid()
      ensures settings == form && devices == old(devices)
      ensures form.autoScan ==>
                autoScanInterval == Some(old(nextHandle)) && timers == map[old(nextHandle) := form.scanInterval * 1000]
      ensures !form.autoScan ==> autoScanInterval == None && timers == map[]
      ensures table == [MessageRow(LoadingMessage)] && networkRange == form.networkRange
    {
      settings := form;
      if settings.autoScan {
        StartAutoScan();
      } else {
        StopAutoScan();
      }
      networkRange := StartScan();
    }

    /** The DOMContentLoaded handler: load the saved settings (or keep the
        defaults), start the auto-scan if enabled, and start a scan. */
    method OnContentLoaded(saved: Option<Settings>) returns (networkRange: string)
      requires Valid()
      modifies this
      ensures Valid()
      ensures settings == saved.GetOr(old(settings)) && devices == old(devices)
      ensures settings.autoScan ==>
                autoScanInterval == Some(old(nextHandle)) && timers == map[old(nextHandle) := settings.scanInterval * 1000]
      ensures !settings.autoScan ==> autoScanInterval == old(autoScanInterval) && timers == old(timers)
      ensures table == [MessageRow(LoadingMessage)] && networkRange == settings.networkRange
    {
      if saved.Some? {
        settings := saved.value;
      }
      if settings.autoScan {
        StartAutoScan();
      }
      networkRange := StartScan();
    }
  }
}
