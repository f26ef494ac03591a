# Cuckoo Sandbox plain-text report, modelled in Dafny

Cuckoo Sandbox can write an analysis result as a human-readable text report. The generator,
`Report` in `cuckoo/reporting/tasks/reporttxt.py`, is an object with a string buffer. It
appends six sections to that buffer in a fixed order:

1. a header: the ASCII-art banner, then the sample's name and MD5 between two rules;
2. the content menu;
3. general information;
4. dropped files;
5. network analysis;
6. behaviour analysis.

Every section except the header opens with its title between two rules of 80 `=` characters.

The model keeps that shape:

- `results.dfy` holds the analysis result as datatypes.
- `render.dfy` gives each section as a list of lines, as pure functions.
- `report.dfy` holds class `TxtReport.Report`. It has the buffer `report` and the stored
  result `results`. Each of its methods runs the source's loops and appends. Each is proved to
  leave `old(report)` followed by the joined lines of its section, and to change nothing else.
- `appends.dfy` holds the lemmas that turn a straight run of appends into the join of a line
  list.
- `properties.dfy` and `singlelines.dfy` prove what those line lists promise:
  - where each section starts and what its title is;
  - what the header holds;
  - the menu's numbered entries;
  - ten lines per dropped file;
  - DNS and HTTP placeholders that are decided independently;
  - one heading per process, one line per call and one line per argument;
  - the indented lines of the behaviour section: process by process, each call's line
    followed directly by its own argument lines, in input order;
  - when the result's fields hold no line break, the report's text splits at its newlines
    into the banner and then exactly the lines the sections were built from.
- `decimal.dfy` renders the `%d` numbers and proves the rendering can be read back.

Some features of the source are kept exactly as written:

- The body titles the network section "5." although the menu lists it as item 3.
- The body writes it before "4. Behavior analysis".
- With no process, the behaviour section writes "Nothing to display." without a newline. The
  section's closing newline ends that line, so no blank line follows it. Every other
  placeholder has its own newline.
- Banner line 5 contains the escape `\_`, which Python keeps as a backslash and an underscore.

## Model

| member | source | states |
|---|---|---|
| TxtReport.Report.constructor | cuckoo/reporting/tasks/reporttxt.py:31-33 | a new report has an empty buffer and no result |
| TxtReport.Report.Append | cuckoo/reporting/tasks/reporttxt.py:53 | `+=` on the buffer: the buffer gains exactly the given text at its end; the result is untouched |
| TxtReport.Report.AddLine | cuckoo/reporting/tasks/reporttxt.py:35-36 | the buffer gains one rule (80 '=' and a newline) and nothing else |
| Render.Repeat | cuckoo/reporting/tasks/reporttxt.py:36 | n copies of a character: length n, every position that character |
| Properties.RuleShape | cuckoo/reporting/tasks/reporttxt.py:36 | the rule is 81 characters: 80 '=' then a newline |
| TxtReport.Report.GenHeader | cuckoo/reporting/tasks/reporttxt.py:38-53 | the buffer gains the banner and the name/MD5 frame, the old text unchanged before it |
| Render.HeaderLines | cuckoo/reporting/tasks/reporttxt.py:38-53 | the text `_gen_header` writes, as lines: 15 lines, the first ten being the banner. `GenHeader` is proved to append exactly these lines |
| Properties.HeaderLayout | cuckoo/reporting/tasks/reporttxt.py:38-53 | the report's lines 0-9 are the banner; lines 10 and 13 are rules; line 11 is " Analysis of <name>", line 12 " MD5 <md5>", line 14 blank |
| TxtReport.Report.AddTitle | cuckoo/reporting/tasks/reporttxt.py:56-59 | a rule, the title, a rule and a blank line are appended |
| TxtReport.Report.AddMenuDropped | cuckoo/reporting/tasks/reporttxt.py:64-69 | with its counter loop (counter == i + 1 invariant), the buffer gains one numbered menu line per dropped file, in order; nothing when the list is empty |
| TxtReport.Report.AddMenuProcesses | cuckoo/reporting/tasks/reporttxt.py:76-81 | one numbered menu line per process, in order, counter starting at 1 |
| TxtReport.Report.GenMenu | cuckoo/reporting/tasks/reporttxt.py:55-83 | the buffer gains exactly the menu's lines |
| Render.MenuLines | cuckoo/reporting/tasks/reporttxt.py:55-83 | the text `_gen_menu` writes, as lines: eleven fixed lines plus one per dropped file and one per process, whatever else the result holds |
| Properties.MenuLayout | cuckoo/reporting/tasks/reporttxt.py:55-83 | the menu has 11 + (dropped files) + (processes) lines. It starts with six fixed lines; line 6+i is "        2.<i+1> File: <name>". Then come the four fixed lines of items 3 and 4 (3.1 DNS, 3.2 HTTP), whatever the result. Line 10+d+i is "        4.<i+1> Process: <name> (<pid>)". A blank line ends it |
| Decimal.NatToString | cuckoo/reporting/tasks/reporttxt.py:67 | the `%d` rendering: at least one digit, only digits, no leading zero |
| Decimal.DecimalRoundTrip | cuckoo/reporting/tasks/reporttxt.py:99 | reading the rendered numeral back gives the number |
| Decimal.NatToStringInjective | cuckoo/reporting/tasks/reporttxt.py:65-69 | distinct entry numbers render differently |
| TxtReport.Report.GenGeneralInformation | cuckoo/reporting/tasks/reporttxt.py:85-108 | the buffer gains the title, the version/start/duration lines, a blank line, the nine file fields and a blank line |
| Render.GeneralLines | cuckoo/reporting/tasks/reporttxt.py:85-108 | the text `_gen_general_information` writes, as lines: always 18 lines, whatever the result |
| TxtReport.Report.AddDroppedEntries | cuckoo/reporting/tasks/reporttxt.py:117-130 | the loop appends the numbered ten-line entry of every dropped file, in order |
| TxtReport.Report.GenDropped | cuckoo/reporting/tasks/reporttxt.py:110-134 | the buffer gains the dropped-files section: the entries, or the placeholder when there are none, then a blank line |
| Render.DroppedLines | cuckoo/reporting/tasks/reporttxt.py:110-134 | the text `_gen_dropped` writes, as lines: at least six, the placeholder standing in for an empty list |
| Properties.DroppedLayout | cuckoo/reporting/tasks/reporttxt.py:110-134 | with no dropped file, the section is the title, "Nothing to display." and a blank line. Otherwise it has 10n + 5 lines and lines 4+10i to 13+10i are entry i+1. Line 4+10i is `[2.<i+1>] "<name>":` and line 13+10i is blank. The section opens with its title and ends with a blank line |
| TxtReport.Report.AddDnsRecords | cuckoo/reporting/tasks/reporttxt.py:145-147 | one "  Hostname: …, IP: …" line per DNS record, in order |
| TxtReport.Report.AddHttpRecords | cuckoo/reporting/tasks/reporttxt.py:156-158 | one "  Host: …, Port: …, URI: …" line per HTTP record, in order |
| TxtReport.Report.GenNetwork | cuckoo/reporting/tasks/reporttxt.py:136-162 | the buffer gains the network section |
| Render.NetworkLines | cuckoo/reporting/tasks/reporttxt.py:136-162 | the text `_gen_network` writes, as lines: at least nine, each subsection holding a placeholder when it has no record |
| Properties.DnsBodyLines | cuckoo/reporting/tasks/reporttxt.py:142-149 | the DNS part is the indented placeholder if and only if there is no DNS record (no network block, or an empty list). Otherwise it has one line per record, line i showing record i |
| Properties.HttpBodyLines | cuckoo/reporting/tasks/reporttxt.py:153-160 | the same for HTTP, decided on the HTTP list alone |
| Properties.NetworkLayout | cuckoo/reporting/tasks/reporttxt.py:136-162 | the section is the title, "[5.1] DNS Requests:", the DNS part, a blank line, "[5.2] HTTP Requests:", the HTTP part and a blank line, at these positions |
| TxtReport.Report.AddArguments | cuckoo/reporting/tasks/reporttxt.py:185-188 | one argument line per argument, in order |
| TxtReport.Report.AddCalls | cuckoo/reporting/tasks/reporttxt.py:178-188 | per call, its line and then its arguments' lines, in order |
| TxtReport.Report.AddProcesses | cuckoo/reporting/tasks/reporttxt.py:171-191 | per process, its numbered heading, its calls and a blank line, in order |
| TxtReport.Report.GenProcesses | cuckoo/reporting/tasks/reporttxt.py:164-195 | the buffer gains the behaviour section, the placeholder form included |
| Render.BehaviorLines | cuckoo/reporting/tasks/reporttxt.py:164-195 | the text `_gen_processes` writes, as lines: at least five, the merged placeholder line standing in for no process |
| Results.TotalCalls | cuckoo/reporting/tasks/reporttxt.py:172-183 | the number of calls over all processes: every process's calls are among them, and it is zero exactly when no process made a call |
| Results.CallArguments | cuckoo/reporting/tasks/reporttxt.py:178-188 | the number of arguments over a call list: every call's arguments are among them, and it is zero exactly when no call has an argument |
| Results.TotalArguments | cuckoo/reporting/tasks/reporttxt.py:172-188 | the number of arguments over all processes: every process's arguments are among them, and it is zero exactly when none has an argument |
| Properties.BehaviorHeadings | cuckoo/reporting/tasks/reporttxt.py:170-176 | the section's lines beginning "[4." are exactly one per process, the i-th being "[4.<i+1>] Process: <name> (<pid>):" |
| Properties.BehaviorCalls | cuckoo/reporting/tasks/reporttxt.py:178-183 | the section's lines beginning "  (" number exactly the calls over all processes |
| Properties.BehaviorArguments | cuckoo/reporting/tasks/reporttxt.py:185-188 | the section's lines beginning "      Argument: " number exactly the arguments over all calls |
| Properties.ProcessHeadings | cuckoo/reporting/tasks/reporttxt.py:172-176 | among the process entries, the "[4." lines are the numbered headings, in order |
| Properties.BehaviorTrace | cuckoo/reporting/tasks/reporttxt.py:172-191 | the lines of the behaviour section that begin with two spaces are exactly, process by process in input order, each call's line followed directly by its own argument lines, calls and arguments in input order; no heading, blank or placeholder line is among them |
| Properties.CallsFilters | cuckoo/reporting/tasks/reporttxt.py:178-188 | over a call list: one call line per call, all the calls' argument lines, and no heading line |
| Properties.BehaviorEnding | cuckoo/reporting/tasks/reporttxt.py:190-195 | the last line is the placeholder if and only if there is no process; otherwise the section ends with the last process's blank line and its own blank line |
| TxtReport.Report.GenReport | cuckoo/reporting/tasks/reporttxt.py:197-203 | the buffer gains the whole report text, the old text unchanged before it |
| Render.ReportLines | cuckoo/reporting/tasks/reporttxt.py:197-203 | the six sections' lines in the order `_gen_report` writes them: at least 64 lines for any result |
| Render.ReportText | cuckoo/reporting/tasks/reporttxt.py:197-203 | the text one report adds, the join of the report's lines; it always begins with the banner |
| Properties.SectionOrder | cuckoo/reporting/tasks/reporttxt.py:197-203 | menu, general, dropped, network and behaviour start at increasing line indices, each at least four lines after the previous. Each opens with its title between rules, the network one titled " 5. Network analysis" |
| TxtReport.Report.Update | cuckoo/reporting/tasks/reporttxt.py:210-211 | records the result and appends its report after whatever the buffer held |
| TxtReport.RenderReport | cuckoo/reporting/tasks/reporttxt.py:205-214 | a fresh report updated once holds exactly the report text of that result, which `update` writes out |
| TxtReport.RenderTwice | cuckoo/reporting/tasks/reporttxt.py:210-211 | updating the same object twice leaves both reports, the second after the first |
| SingleLines.BodyOneLine | cuckoo/reporting/tasks/reporttxt.py:49-195 | when no field holds a line break, every line after the banner is exactly one line ending in a newline |
| SingleLines.ReportTextLines | cuckoo/reporting/tasks/reporttxt.py:197-203 | when no field holds a line break, splitting the report text at its newlines gives the banner's lines and then exactly the section lines |
| Lines.SplitConcat | cuckoo/reporting/tasks/reporttxt.py:197-203 | splitting undoes joining a list of single lines |
| Lines.ConcatSplit | cuckoo/reporting/tasks/reporttxt.py:197-203 | joining the split lines gives the text back |

## Left out

- `update`'s file handling is not modelled. That covers the `sys.argv[1]` path, creating the
  `reports` directory, and opening, writing and closing `report.txt` (lines 206-208 and 213-215).
  `RenderReport` returns the text that would be written.
- The `BaseObserver` base class is not part of this model.
- Missing dictionary keys are not modelled. The source raises `KeyError`; every field exists in
  the datatypes.
- Calling a generator method before `update` is not modelled. The source fails on
  `None[...]`; the methods require `results.Some?`.
- A `None` dropped list is not modelled. The menu's `if dropped and len(...) > 0` test lets
  one through, but `_gen_dropped` would raise on `len(None)`. Dropped files are a sequence, and
  the menu's test is the emptiness test inside `AddMenuDropped`.
- `network: None` stands for both an absent and an empty network block, which the truthiness
  test treats alike. A non-empty block without a `dns` or `http` key is not modelled.
- Python's `%s` formatting is not modelled. Every `%s` value is taken as already-rendered
  text, except the sizes. The sample's `%d` size and a dropped file's `%s` size are both
  rendered by `NatToString`, as `str(int)` does for a non-negative integer. Negative sizes are
  not modelled.
- SingleLines.BodyOneLine: requires that no field of the result holds a line break. Without
  that, a field can split one written line into several.
- SingleLines.ReportTextLines: treats the banner's text as one block. It does not prove that
  each of the banner's ten lines is a single line.
- The buffer is never cleared, as in the source. A second `update` appends a second report,
  which `RenderTwice` states.
