# Printer scanner: a Dafny model

The system finds network printers and copiers. It watches their toner and
page counters and shows them on a web dashboard. This project models three
parts of it:

- **The `NetworkScanner` pipeline of `scanner.py`, taken one host at a time.**
  It covers the printer classifier (`_is_printer`), the toner normaliser over
  the Printer MIB supplies table (`_get_toner_info`), the device record with
  its defaults (`_get_basic_device_info`, `get_device_details`), the uptime
  formatter (`_format_uptime`), and the sweep over the hosts nmap reports
  (`scan`).
- **The dashboard logic of `static/js/app.js`, without the DOM.** It covers
  the status mapping, the toner bars and their warning classes, the rows of
  the device table, the filter predicate, the CSV export and its refusal
  rule, and the page state. The page state is the device list, the settings,
  and the one auto-scan interval.
- **The server state of `app.py`.** This is the `last_scan_results` registry:
  the scan handler replaces it, the device-list handler returns it, and the
  details handler looks up an ip in it.

Every network answer is an input of the model:

- `Scanner.Host` holds what one address would answer: the set of open TCP
  ports nmap reports, the text value of each SNMP object that answers, and
  the body of each URL that can be fetched. An absent OID is the case where
  `_get_snmp_value` gives None. An absent URL is the case where `requests.get`
  raises.
- The nmap sweep is a map from a network range to the host list. A range the
  map lacks is the case where nmap raises.
- The timestamp of a record is a parameter `now`.

The classifier also returns the list of requests it issues (`Scanner.Query`).
This lets "no request is sent" be stated as a postcondition.

Files:

- `wrappers.dfy`: `Option`.
- `text.dfy`: ASCII lower-casing, substring search, decimal printing and
  parsing (`int()`), and character counting, replacing, joining and splitting
  for the CSV.
- `scanner.dfy`, `dashboard.dfy`, `app.dfy`: the three parts above.

## Model

| member | source | states |
|---|---|---|
| Scanner.IsPrinter | scanner.py:95-132 | The result is exactly `IsPrinterHost`: some port of 9100, 515, 631, 80, 443 is open, and either the lower-cased sysDescr contains a manufacturer name, or port 80 or 443 is open and the lower-cased home page contains a printer keyword. With no candidate port open the result is false and no SNMP or HTTP request is sent. A manufacturer match always gives true, and then no HTTP request is sent. Every request is the sysDescr get, or the home-page fetch, which happens only when 80 or 443 is open. |
| Scanner.FindAny | scanner.py:113-115 | The inner loops of the classifier: the answer is true exactly when some word of the list occurs in the text. |
| Scanner.NoRawPortFallback | scanner.py:105-132 | Without a manufacturer in sysDescr and without port 80 or 443, open raw print ports (9100, 515, 631) alone never make a printer. |
| Scanner.Percent | scanner.py:229 | When max ≤ 0 the percentage is 0. Otherwise it is level·100/max truncated toward zero: `p·max ≤ level·100 < (p+1)·max` for a non-negative level, and the mirror image for a negative level. |
| Scanner.PercentRange | scanner.py:227-235 | A level within 0..max gives a percentage within 0..100, and a full supply gives exactly 100. A level above capacity gives at least 100, and more than 100 once level·100 ≥ 101·max, because nothing clamps it; level 150 of max 100 gives 150. |
| Scanner.ReadIntoChannel | scanner.py:222-237 | One channel block: the channel is overwritten with the parsed level, the parsed max and the percentage exactly when both answers are present, non-empty and integers; otherwise it keeps its value. The other three channels are unchanged. |
| Scanner.GetTonerInfo | scanner.py:204-293 | Each of the four channels is what was read for it, or the default {level 0, max 100, percent 0} when its read failed. |
| Scanner.ChannelStoredAsParsed | scanner.py:225-235 | When both objects of a channel answer with printed integers, the channel stores those integers and their truncated percentage. |
| Scanner.ChannelsIndependent | scanner.py:214-291 | A channel depends only on its own two objects, so a failure in another channel cannot change it. |
| Scanner.FormatUptime | scanner.py:324-348 | The text is the rendering of the floor split of the seconds. It is never empty and ends with the seconds unit '초' or the minutes unit '분'; for a non-negative total it ends with '초' exactly when the total is under an hour. Its other properties are stated by Scanner.Decompose, Scanner.DecomposeUnique, Scanner.ReadUptimeRoundTrip and Scanner.UptimeDeterminesMinutes. |
| Scanner.Decompose | scanner.py:334-339 | The split has 0 ≤ hours < 24, 0 ≤ minutes < 60 and 0 ≤ seconds < 60, and days·86400 + hours·3600 + minutes·60 + seconds equals the input. |
| Scanner.DecomposeUnique | scanner.py:334-339 | The split is the only one with those bounds and that sum. |
| Scanner.ReadUptimeRoundTrip | scanner.py:341-347 | The text has one of the four shapes "D일 H시간 M분", "H시간 M분", "M분 S초" and "S초", chosen by the coarsest non-zero unit. A reader for those shapes recovers exactly the units printed. |
| Scanner.UptimeExamples | scanner.py:324-347 | 0 seconds prints "0초", 90 prints "1분 30초", and 90000 prints "1일 1시간 0분". |
| Scanner.UptimeDeterminesMinutes | scanner.py:334-347 | Two non-negative uptimes with the same text fall in the same minute, and are equal when under an hour. |
| Scanner.GetBasicDeviceInfo | scanner.py:134-174 | The record has the given ip, status '온라인', and the timestamp. Name, model and serial are the SNMP text, or '알 수 없음' when it is absent or empty. The page count is n when the counter answers with the integer n, and 0 when it is absent or not an integer. Every toner channel is as read or the default. |
| Scanner.GetDeviceDetails | scanner.py:176-202 | The basic record plus location and contact (or '알 수 없음'), and the uptime. The uptime is the formatted TimeTicks/100 when the answer is an integer, and '알 수 없음' otherwise. Apart from these three keys the record is the basic one. |
| Scanner.PrintersOfMembers | scanner.py:86-90 | A record is in the sweep's result exactly when some reported host is a printer and the record was built from it. |
| Scanner.PrintersOfShape | scanner.py:83-93 | The sweep has at most one record per host: there are increasing host positions, one per record, and each record is the one its host produces. Every record is online and carries the sweep's timestamp. |
| Scanner.NetworkScanner.constructor | scanner.py:12-19 | The scanner keeps the range it is given. |
| Scanner.NetworkScanner.Scan | scanner.py:70-93 | When nmap fails for the scanner's range there is no result. Otherwise the result is the records of the printers among the reported hosts, in host order. |
| Text.ParseIntRoundTrip | scanner.py:156-160 | Parsing the decimal text of an integer gives the integer back. This is what the counter and toner parses rely on. |
| Dashboard.StatusOf | static/js/app.js:166-175 | 'offline' maps to offline and 'warning' maps to warning, both compared lower-cased. Anything else maps to online. |
| Dashboard.StatusIgnoresCase | static/js/app.js:166-175 | A status and its lower-cased form map alike. |
| Dashboard.ScannedDevicesShowOnline | static/js/app.js:166-175 | Every record from a sweep (status '온라인') is shown online. |
| Dashboard.TonerLevel | static/js/app.js:214-220 | A percentage of 10 or less is danger, more than 10 up to 20 is warning, and more than 20 adds no class. |
| Dashboard.TonerLevelMonotone | static/js/app.js:214-257 | Less toner never shows a milder class. |
| Dashboard.GenerateTonerBars | static/js/app.js:210-279 | The black bar is always drawn first. The cyan, magenta and yellow bars follow if and only if one of them is above 0. Each bar shows its channel's percentage with its threshold class. |
| Dashboard.RenderRows | static/js/app.js:165-196 | One eight-cell row per listed device, in list order, numbered from 1, showing the device's status view, fields and toner bars. |
| Dashboard.FilteredMembers | static/js/app.js:480-521 | A device is in the filtered view exactly when it is in the list and passes every control. As in the source, the location text is matched against the name. |
| Dashboard.FilteredIsSubsequence | static/js/app.js:480-521 | The filtered view is an order-preserving subsequence of the device list. |
| Dashboard.FilterMonotone | static/js/app.js:480-521 | A filter that keeps less gives a subsequence of what a filter that keeps more gives. |
| Dashboard.ClearingAControlWidens | static/js/app.js:480-506 | Each control narrows on its own. Clearing the search, location, ip or toner field, or checking "show offline" or "show warning", can only bring devices back. |
| Dashboard.TonerFilterBands | static/js/app.js:508-518 | The toner select looks at black only. 'low' keeps at most 20, 'medium' keeps more than 20 up to 50, 'high' keeps more than 50, and any other value keeps everything. |
| Dashboard.BuildCsv | static/js/app.js:539-555 | The export is the header, then one line per device of the full list in order. Line i is numbered i+1. Commas in name, model and serial become spaces, and the four toner columns end in '%'. |
| Dashboard.CsvRecordFields | static/js/app.js:544-555 | When status and ip hold no comma, each record has exactly 10 commas and so 11 fields. |
| Dashboard.CsvHeaderShape | static/js/app.js:539 | The header is one line with the same 11 columns. |
| Dashboard.CsvLineCount | static/js/app.js:539-555 | When no text field holds a line break, the export has exactly one line more than there are devices. |
| Dashboard.ExportRefusedIffNoRows | static/js/app.js:533-536 | After the table shows a list, export is refused exactly when that list is empty. |
| Dashboard.Page.constructor | static/js/app.js:2-10 | The initial globals: no devices, the default settings ('192.168.0.0/24', 300, 'public', 2, auto-scan on), and no interval. |
| Dashboard.Page.StopAutoScan | static/js/app.js:90-95 | The live interval, if any, is cleared and the handle is reset to none. |
| Dashboard.Page.StartAutoScan | static/js/app.js:81-87 | The previous interval is cleared first. Afterwards exactly one interval is live, with a period of scanInterval·1000 ms, and the handle names it. `Valid` (at most one live timer, the one the handle names) is preserved. |
| Dashboard.Page.SaveSettings | static/js/app.js:54-78 | The settings become the form's values. The auto-scan is started when `autoScan` is set and stopped otherwise, and a scan begins with the loading row. |
| Dashboard.Page.OnContentLoaded | static/js/app.js:13-43 | Saved settings replace the defaults if there are any. The auto-scan starts if enabled, and a scan begins. |
| Dashboard.Page.StartScan | static/js/app.js:98-130 | The table shows the single loading row, which export refuses, and the request carries the settings' network range. |
| Dashboard.Page.ShowError | static/js/app.js:572-584 | The table becomes the single row holding the message; nothing else changes. |
| Dashboard.Page.OnScanOutcome | static/js/app.js:131-142 | A successful reply replaces the device list and displays it. An unsuccessful reply or a failed request shows the error row and keeps the list. |
| Dashboard.Page.DisplayDevices | static/js/app.js:146-207 | The table is the placeholder row for an empty list, and one row per device otherwise. |
| Dashboard.Page.FilterDevices | static/js/app.js:471-525 | The table shows the filtered view; the device list is kept. |
| Dashboard.Page.ExportToExcel | static/js/app.js:528-556 | There is no file while the table holds no device rows. Otherwise the file is the CSV of the whole device list, whatever the filter shows. |
| App.FindByIp | app.py:65 | The result is none exactly when no record has the ip. Otherwise it is the first record with the ip. |
| App.ScannedPrinterIsFound | app.py:41-65 | After a sweep, every printer host can be looked up by its ip. |
| App.FoundMessageCount | app.py:46 | The number at the head of the success message is the device count. |
| App.Server.constructor | app.py:18-25 | The scanner starts on the default range '192.168.0.0/24' and the registry starts empty. |
| App.Server.ScanNetwork | app.py:32-53 | With a JSON body the scanner's range becomes the requested range, or the default when none is named. A successful scan replaces the registry wholesale and reports its length. A failed scan, or a request without JSON, answers with the failure and keeps the previous registry. |
| App.Server.GetDevices | app.py:55-58 | The registry exactly. |
| App.Server.GetDeviceDetails | app.py:60-79 | When no registered record has the ip the answer is not-found with its message. Otherwise it is the scanner's fresh details for that ip, not the stored record. The registry is not changed. |

## Left out

- Network access is not modelled. SNMP (`getCmd`), nmap, `requests.get` and their timeouts become the `Host` inputs and the nmap map. `_get_snmp_value` is the lookup in `Host.snmp`, and its SNMP community and version are not modelled.
- The environment configuration (`os.getenv`, `load_dotenv`), the `print` logging and `datetime.now()` are not modelled. The timestamp is the parameter `now`, and one value stamps every record of a sweep.
- Scanner.Percent: uses exact integer arithmetic, where the source computes `int(level / max * 100)` in floating point. The two differ on some inputs: level 29 with max 100 gives 28 in floating point and 29 here. Negative levels truncate toward zero in both.
- Text.ParseInt: accepts an optional sign followed by ASCII digits. Python's `int()` also accepts surrounding whitespace, underscores between digits and non-ASCII digits; those inputs parse to None here. Recent CPython also rejects numerals of more than 4300 digits, which parse here.
- Text.Lower: lower-cases ASCII only. Python's `lower()` and JavaScript's `toLowerCase()` also fold other letters.
- Scanner.GetDeviceDetails: takes the uptime as whole TimeTicks and formats TimeTicks/100 floored, in exact arithmetic. The source divides as a float. Within SNMP's 32-bit TimeTicks range the whole seconds are the same, because `_format_uptime` floors by `//` and truncates its last unit by `int()`. For numerals beyond that range the source differs: above about 10^16 ticks the float quotient can round past a whole second, and for numerals too large for a float `int(uptime) / 100` raises `OverflowError`, so the source shows '알 수 없음' where the model formats the number.
- Scanner.ReadIntoChannel: uses exact arithmetic. For numerals beyond SNMP's 32-bit Integer32 range whose float quotient overflows (level 10^400 with max 1, say), `level / max` or `int(...)` raises `OverflowError` in the source, the bare `except` swallows it and the channel keeps its default {0, 100, 0}; the model stores the parsed values and their percentage.
- Scanner.ChannelStoredAsParsed: holds for every integer in the model, but in the source only for levels and maxima whose float quotient does not overflow; beyond SNMP's 32-bit Integer32 range the source may keep the default channel instead, as the Scanner.ReadIntoChannel line says.
- The nmap argument string (`-p 9100,515,631,80,443 --open`) is not modelled. The sweep input already lists, for each reported host, only its open ports.
- The repeated SNMP and HTTP checks that `_is_printer` makes once per open candidate port are kept as loop iterations. With fixed answers they give the same result.
- App.Server.ScanNetwork: does not model the text of the exception in the 500 message, a `network_range` that is not a string, or the Flask routing, `jsonify` and CORS.
- The dashboard's DOM and innerHTML rendering, `fetch` and JSON decoding, the Bootstrap modal, the details modal and its Chart.js charts (`showDeviceDetails`, `displayDeviceDetails`), `localStorage`, and the Blob download are not modelled. `toLocaleString` of the page count is not modelled either: a row holds the number, not its formatted text.
- Dashboard.Page.SaveSettings: receives the settings as a value. The source reads them from the form with `parseInt`, which may give NaN; that is not modelled. The browser timer table is a map from handle to delay, and the timers firing is not modelled.
- The event-listener wiring in the DOMContentLoaded handler is not modelled.
- The code has no manufacturer resolver, per-vendor OID tables, percent clamping or raw-port fallback; `Scanner.NoRawPortFallback` and `Scanner.PercentRange` state what it does instead.
