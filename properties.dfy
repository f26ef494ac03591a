/** What the rendered line lists promise: which lines each section holds, how many, in which
    order and where. Lines are told apart by the
    fixed text each kind of line begins with. */
module Properties {
  import opened Results
  import opened Lines
  import opened Decimal
  import opened Render

  const ProcessPrefix: string := "[4."
  const CallPrefix: string := "  ("
  const ArgumentPrefix: string := "      Argument: "
  /** Call and argument lines, and no other line of the behaviour section, begin with it. */
  const IndentPrefix: string := "  "

  /** The rule is 80 '=' followed by a newline. */
  lemma RuleShape()
    ensures |Rule| == 81 && Rule[80] == '\n'
    ensures forall i :: 0 <= i < 80 ==> Rule[i] == '='
  {
    assert Rule[..80] == Repeat('=', 80);
  }

  /** A section title contributes no line beginning with `p` unless its title text does. */
  lemma TitleFilter(t: string, p: string)
    requires |p| >= 2 && p[0] != '=' && !StartsWith(t, p)
    ensures Filter(Title(t), p) == []
  {
    assert Rule[0] == '=';
    DiffersAt(Rule, p, 0);
    DiffersAt("\n", p, 1);
    FilterNone(Title(t), p);
  }

  // ---- behavior analysis

  lemma ArgumentLines(args: seq<Argument>)
    ensures Filter(Each(args, ArgumentEntry), ArgumentPrefix) == Each(args, ArgumentEntry)
    ensures |Each(args, ArgumentEntry)| == |args|
  {
    forall i | 0 <= i < |args|
      ensures Filter(ArgumentEntry(args[i]), ArgumentPrefix) == ArgumentEntry(args[i])
    {
      FilterOne(ArgumentLine(args[i]), ArgumentPrefix);
    }
    EachFilterAll(args, ArgumentEntry, ArgumentPrefix);
    EachSingle(args, ArgumentEntry);
  }

  /** No argument line begins with `p` when `p` differs from every argument line at `j`. */
  lemma ArgumentsWithout(args: seq<Argument>, p: string, j: nat)
    requires j < |p| && j < |ArgumentPrefix| && p[j] != ArgumentPrefix[j]
    ensures Filter(Each(args, ArgumentEntry), p) == []
  {
    forall i | 0 <= i < |args|
      ensures Filter(ArgumentEntry(args[i]), p) == []
    {
      DiffersAt(ArgumentLine(args[i]), p, j);
      FilterOne(ArgumentLine(args[i]), p);
    }
    EachFilterEmpty(args, ArgumentEntry, p);
  }

  lemma CallEntryFilters(c: Call)
    ensures Filter(CallEntry(c), CallPrefix) == [CallLine(c)]
    ensures |Filter(CallEntry(c), ArgumentPrefix)| == |c.arguments|
    ensures Filter(CallEntry(c), ProcessPrefix) == []
  {
    var args := Each(c.arguments, ArgumentEntry);
    ArgumentLines(c.arguments);
    ArgumentsWithout(c.arguments, CallPrefix, 2);
    ArgumentsWithout(c.arguments, ProcessPrefix, 0);
    CallLineFilters(c);
    FilterAppend([CallLine(c)], args, CallPrefix);
    FilterAppend([CallLine(c)], args, ArgumentPrefix);
    FilterAppend([CallLine(c)], args, ProcessPrefix);
  }

  lemma CallLineFilters(c: Call)
    ensures Filter([CallLine(c)], CallPrefix) == [CallLine(c)]
    ensures Filter([CallLine(c)], ArgumentPrefix) == []
    ensures Filter([CallLine(c)], ProcessPrefix) == []
  {
    DiffersAt(CallLine(c), ArgumentPrefix, 2);
    DiffersAt(CallLine(c), ProcessPrefix, 0);
    FilterOne(CallLine(c), CallPrefix);
    FilterOne(CallLine(c), ArgumentPrefix);
    FilterOne(CallLine(c), ProcessPrefix);
  }

  /** Over a call sequence: one call line per call, and all the calls' argument lines. */
  lemma {:induction false} CallsFilters(cs: seq<Call>)
    ensures |Filter(Each(cs, CallEntry), CallPrefix)| == |cs|
    ensures |Filter(Each(cs, CallEntry), ArgumentPrefix)| == CallArguments(cs)
    ensures Filter(Each(cs, CallEntry), ProcessPrefix) == []
  {
    if cs != [] {
      var n := |cs|;
      var front := Each(cs[..n - 1], CallEntry);
      CallsFilters(cs[..n - 1]);
      CallEntryFilters(cs[n - 1]);
      FilterAppend(front, CallEntry(cs[n - 1]), CallPrefix);
      FilterAppend(front, CallEntry(cs[n - 1]), ArgumentPrefix);
      FilterAppend(front, CallEntry(cs[n - 1]), ProcessPrefix);
    }
  }

  /** A blank line begins with no prefix of two or more characters. */
  lemma BlankFilter(p: string)
    requires |p| >= 2
    ensures Filter(["\n"], p) == []
  {
    DiffersAt("\n", p, 1);
    FilterOne("\n", p);
  }

  lemma FilterFrame(h: string, mid: seq<string>, t: string, p: string)
    ensures Filter([h] + mid + [t], p) == Filter([h], p) + Filter(mid, p) + Filter([t], p)
  {
    FilterAppend([h], mid, p);
    FilterAppend([h] + mid, [t], p);
  }

  lemma ProcessHeadingFilters(k: nat, p: Process)
    ensures Filter([ProcessHeading(k, p)], ProcessPrefix) == [ProcessHeading(k, p)]
    ensures Filter([ProcessHeading(k, p)], CallPrefix) == []
    ensures Filter([ProcessHeading(k, p)], ArgumentPrefix) == []
  {
    var h := ProcessHeading(k, p);
    DiffersAt(h, CallPrefix, 0);
    DiffersAt(h, ArgumentPrefix, 0);
    FilterOne(h, ProcessPrefix);
    FilterOne(h, CallPrefix);
    FilterOne(h, ArgumentPrefix);
  }

  lemma ProcessEntryFilters(k: nat, p: Process)
    ensures Filter(ProcessEntry(k, p), ProcessPrefix) == [ProcessHeading(k, p)]
    ensures |Filter(ProcessEntry(k, p), CallPrefix)| == |p.calls|
    ensures |Filter(ProcessEntry(k, p), ArgumentPrefix)| == CallArguments(p.calls)
  {
    var h := ProcessHeading(k, p);
    var calls := Each(p.calls, CallEntry);
    CallsFilters(p.calls);
    ProcessHeadingFilters(k, p);
    BlankFilter(ProcessPrefix);
    BlankFilter(CallPrefix);
    BlankFilter(ArgumentPrefix);
    FilterFrame(h, calls, "\n", ProcessPrefix);
    FilterFrame(h, calls, "\n", CallPrefix);
    FilterFrame(h, calls, "\n", ArgumentPrefix);
  }

  function HeadingOf(k: nat, p: Process): seq<string>
  {
    [ProcessHeading(k, p)]
  }

  /** Over the processes: their headings in order. */
  lemma ProcessHeadings(ps: seq<Process>)
    ensures Filter(Numbered(ps, ProcessEntry), ProcessPrefix) == Numbered(ps, HeadingOf)
  {
    forall i | 0 <= i < |ps|
      ensures Filter(ProcessEntry(i + 1, ps[i]), ProcessPrefix) == HeadingOf(i + 1, ps[i])
    {
      ProcessEntryFilters(i + 1, ps[i]);
    }
    NumberedFilterMap(ps, ProcessEntry, HeadingOf, ProcessPrefix);
  }

  /** Over the processes: one call line per call. */
  lemma {:induction false} ProcessCalls(ps: seq<Process>)
    ensures |Filter(Numbered(ps, ProcessEntry), CallPrefix)| == TotalCalls(ps)
  {
    if ps != [] {
      var n := |ps|;
      var front := Numbered(ps[..n - 1], ProcessEntry);
      ProcessCalls(ps[..n - 1]);
      ProcessEntryFilters(n, ps[n - 1]);
      FilterAppend(front, ProcessEntry(n, ps[n - 1]), CallPrefix);
    }
  }

  /** Over the processes: one argument line per argument of every call. */
  lemma {:induction false} ProcessArguments(ps: seq<Process>)
    ensures |Filter(Numbered(ps, ProcessEntry), ArgumentPrefix)| == TotalArguments(ps)
  {
    if ps != [] {
      var n := |ps|;
      var front := Numbered(ps[..n - 1], ProcessEntry);
      ProcessArguments(ps[..n - 1]);
      ProcessEntryFilters(n, ps[n - 1]);
      FilterAppend(front, ProcessEntry(n, ps[n - 1]), ArgumentPrefix);
    }
  }

  /** Lines of the behaviour section with a prefix that neither its title nor its placeholder
      has are lines of the process entries. */
  lemma BehaviorFilter(ps: seq<Process>, p: string)
    requires |p| >= 2 && p[0] != '=' && p[0] != ' ' && p[0] != 'N'
    ensures Filter(BehaviorLines(ps), p) == Filter(Numbered(ps, ProcessEntry), p)
  {
    var title := Title(" 4. Behavior analysis\n");
    DiffersAt(" 4. Behavior analysis\n", p, 0);
    TitleFilter(" 4. Behavior analysis\n", p);
    FilterAppend(title, BehaviorBody(ps), p);
    if |ps| > 0 {
      BlankFilter(p);
      FilterAppend(Numbered(ps, ProcessEntry), ["\n"], p);
    } else {
      DiffersAt(Placeholder, p, 0);
      FilterOne(Placeholder, p);
    }
  }

  /** As BehaviorFilter, for prefixes that begin with two spaces. */
  lemma BehaviorIndentedFilter(ps: seq<Process>, p: string)
    requires |p| >= 2 && p[0] == ' ' && p[1] == ' '
    ensures Filter(BehaviorLines(ps), p) == Filter(Numbered(ps, ProcessEntry), p)
  {
    var title := Title(" 4. Behavior analysis\n");
    DiffersAt(" 4. Behavior analysis\n", p, 1);
    TitleFilter(" 4. Behavior analysis\n", p);
    FilterAppend(title, BehaviorBody(ps), p);
    if |ps| > 0 {
      BlankFilter(p);
      FilterAppend(Numbered(ps, ProcessEntry), ["\n"], p);
    } else {
      DiffersAt(Placeholder, p, 0);
      FilterOne(Placeholder, p);
    }
  }

  /** The behaviour section holds one "[4.k]" heading per process, in order. */
  lemma BehaviorHeadings(ps: seq<Process>)
    ensures |Filter(BehaviorLines(ps), ProcessPrefix)| == |ps|
    ensures forall i :: 0 <= i < |ps| ==>
      Filter(BehaviorLines(ps), ProcessPrefix)[i] == ProcessHeading(i + 1, ps[i])
  {
    BehaviorFilter(ps, ProcessPrefix);
    HeadingsInOrder(ps);
  }

  lemma HeadingsInOrder(ps: seq<Process>)
    ensures |Filter(Numbered(ps, ProcessEntry), ProcessPrefix)| == |ps|
    ensures forall i :: 0 <= i < |ps| ==>
      Filter(Numbered(ps, ProcessEntry), ProcessPrefix)[i] == ProcessHeading(i + 1, ps[i])
  {
    ProcessHeadings(ps);
    NumberedSingle(ps, HeadingOf);
  }

  /** The behaviour section holds one call line per call over all processes. */
  lemma BehaviorCalls(ps: seq<Process>)
    ensures |Filter(BehaviorLines(ps), CallPrefix)| == TotalCalls(ps)
  {
    BehaviorIndentedFilter(ps, CallPrefix);
    ProcessCalls(ps);
  }

  /** The behaviour section holds one argument line per argument over all calls. */
  lemma BehaviorArguments(ps: seq<Process>)
    ensures |Filter(BehaviorLines(ps), ArgumentPrefix)| == TotalArguments(ps)
  {
    BehaviorIndentedFilter(ps, ArgumentPrefix);
    ProcessArguments(ps);
  }

  /** The lines a process's calls contribute: each call's line followed directly by the lines
      of its own arguments, the calls in input order. */
  function CallsOf(k: nat, p: Process): seq<string>
  {
    Each(p.calls, CallEntry)
  }

  /** Every argument line is indented. */
  lemma ArgumentsIndented(args: seq<Argument>)
    ensures Filter(Each(args, ArgumentEntry), IndentPrefix) == Each(args, ArgumentEntry)
  {
    forall i | 0 <= i < |args|
      ensures Filter(ArgumentEntry(args[i]), IndentPrefix) == ArgumentEntry(args[i])
    {
      ArgumentLineIndented(args[i]);
    }
    EachFilterAll(args, ArgumentEntry, IndentPrefix);
  }

  lemma ArgumentLineIndented(a: Argument)
    ensures Filter(ArgumentEntry(a), IndentPrefix) == ArgumentEntry(a)
  {
    assert ArgumentLine(a)[..2] == "  ";
    FilterOne(ArgumentLine(a), IndentPrefix);
  }

  lemma CallLineIndented(c: Call)
    ensures Filter([CallLine(c)], IndentPrefix) == [CallLine(c)]
  {
    assert CallLine(c)[..2] == "  ";
    FilterOne(CallLine(c), IndentPrefix);
  }

  /** Call and argument lines are the only indented lines of a call's entry. */
  lemma CallEntryIndented(c: Call)
    ensures Filter(CallEntry(c), IndentPrefix) == CallEntry(c)
  {
    ArgumentsIndented(c.arguments);
    CallLineIndented(c);
    FilterAppend([CallLine(c)], Each(c.arguments, ArgumentEntry), IndentPrefix);
  }

  /** A process entry's indented lines are its calls' entries: its heading and closing blank
      line are not indented. */
  lemma ProcessEntryIndented(k: nat, p: Process)
    ensures Filter(ProcessEntry(k, p), IndentPrefix) == CallsOf(k, p)
  {
    forall i | 0 <= i < |p.calls|
      ensures Filter(CallEntry(p.calls[i]), IndentPrefix) == CallEntry(p.calls[i])
    {
      CallEntryIndented(p.calls[i]);
    }
    EachFilterAll(p.calls, CallEntry, IndentPrefix);
    DiffersAt(ProcessHeading(k, p), IndentPrefix, 0);
    FilterOne(ProcessHeading(k, p), IndentPrefix);
    BlankFilter(IndentPrefix);
    FilterFrame(ProcessHeading(k, p), Each(p.calls, CallEntry), "\n", IndentPrefix);
  }

  /** The indented lines of the behaviour section are, process by process in input order, the
      lines of that process's calls in input order, each call's line directly followed by its
      own argument lines. */
  lemma BehaviorTrace(ps: seq<Process>)
    ensures Filter(BehaviorLines(ps), IndentPrefix) == Numbered(ps, CallsOf)
  {
    BehaviorIndentedFilter(ps, IndentPrefix);
    ProcessesIndented(ps);
  }

  lemma ProcessesIndented(ps: seq<Process>)
    ensures Filter(Numbered(ps, ProcessEntry), IndentPrefix) == Numbered(ps, CallsOf)
  {
    forall i | 0 <= i < |ps|
      ensures Filter(ProcessEntry(i + 1, ps[i]), IndentPrefix) == CallsOf(i + 1, ps[i])
    {
      ProcessEntryIndented(i + 1, ps[i]);
    }
    NumberedFilterMap(ps, ProcessEntry, CallsOf, IndentPrefix);
  }

  /** With no process, the section ends with the placeholder line; otherwise with the blank
      line closing the last process and the section's own blank line. */
  lemma BehaviorEnding(ps: seq<Process>)
    ensures |BehaviorLines(ps)| >= 5
    ensures (|ps| == 0) == (BehaviorLines(ps)[|BehaviorLines(ps)| - 1] == Placeholder)
    ensures |ps| > 0 ==>
      BehaviorLines(ps)[|BehaviorLines(ps)| - 2..] == ["\n", "\n"]
  {
    if |ps| > 0 {
      ProcessesEndBlank(ps);
      TwoBlanks(Title(" 4. Behavior analysis\n"), Numbered(ps, ProcessEntry));
      PlaceholderNotBlank();
    }
  }

  lemma PlaceholderNotBlank()
    ensures Placeholder != "\n"
  {
    assert |Placeholder| == 20;
  }

  lemma ProcessesEndBlank(ps: seq<Process>)
    requires |ps| > 0
    ensures |Numbered(ps, ProcessEntry)| > 0
    ensures Numbered(ps, ProcessEntry)[|Numbered(ps, ProcessEntry)| - 1] == "\n"
  {
    var n := |ps|;
    var last := ProcessEntry(n, ps[n - 1]);
    assert Numbered(ps, ProcessEntry) == Numbered(ps[..n - 1], ProcessEntry) + last;
    assert last[|last| - 1] == "\n";
  }

  lemma TwoBlanks(t: seq<string>, body: seq<string>)
    requires |t| == 4 && |body| > 0 && body[|body| - 1] == "\n"
    ensures |t + (body + ["\n"])| >= 5
    ensures (t + (body + ["\n"]))[|t + (body + ["\n"])| - 2..] == ["\n", "\n"]
  {
    var l := t + (body + ["\n"]);
    assert l[|l| - 2] == body[|body| - 1];
  }

  // ---- content menu

  /** The menu: its six fixed lines, one "2.k File:" line per dropped file numbered from 1 in
      order, the four fixed lines of sections 3 and 4 (whatever the result), one "4.k Process:"
      line per process numbered from 1 in order, and a blank line. */
  lemma MenuLayout(r: AnalysisResult)
    ensures |MenuLines(r)| == 11 + |r.dropped| + |r.processes|
    ensures MenuLines(r)[..6] == MenuTop
    ensures forall i :: 0 <= i < |r.dropped| ==>
      MenuLines(r)[6 + i] == "        2." + NatToString(i + 1) + " File: " + r.dropped[i].name + "\n"
    ensures MenuLines(r)[6 + |r.dropped|..10 + |r.dropped|] == MenuMiddle
    ensures forall i :: 0 <= i < |r.processes| ==>
      MenuLines(r)[10 + |r.dropped| + i]
      == "        4." + NatToString(i + 1) + " Process: " + r.processes[i].processName
         + " (" + r.processes[i].processId + ")\n"
    ensures MenuLines(r)[10 + |r.dropped| + |r.processes|] == "\n"
  {
    MenuFrame(r);
    MenuEntries(r);
  }

  lemma MenuFrame(r: AnalysisResult)
    ensures |MenuLines(r)| == 11 + |r.dropped| + |r.processes|
    ensures MenuLines(r)[..6] == MenuTop
    ensures MenuLines(r)[6 + |r.dropped|..10 + |r.dropped|] == MenuMiddle
    ensures MenuLines(r)[10 + |r.dropped| + |r.processes|] == "\n"
  {
    var d := Numbered(r.dropped, MenuDroppedEntry);
    var p := Numbered(r.processes, MenuProcessEntry);
    MenuSizes();
    MenuDroppedLines(r.dropped);
    MenuProcessLines(r.processes);
    Layout5(MenuTop, d, MenuMiddle, p, ["\n"]);
  }

  lemma MenuEntries(r: AnalysisResult)
    ensures |MenuLines(r)| == 11 + |r.dropped| + |r.processes|
    ensures forall i :: 0 <= i < |r.dropped| ==> MenuLines(r)[6 + i] == MenuDroppedLine(i + 1, r.dropped[i])
    ensures forall i :: 0 <= i < |r.processes| ==>
      MenuLines(r)[10 + |r.dropped| + i] == MenuProcessLine(i + 1, r.processes[i])
  {
    var d := Numbered(r.dropped, MenuDroppedEntry);
    var p := Numbered(r.processes, MenuProcessEntry);
    MenuSizes();
    MenuDroppedLines(r.dropped);
    MenuProcessLines(r.processes);
    Layout5(MenuTop, d, MenuMiddle, p, ["\n"]);
  }

  lemma MenuDroppedLines(ds: seq<FileInfo>)
    ensures |Numbered(ds, MenuDroppedEntry)| == |ds|
    ensures forall i :: 0 <= i < |ds| ==>
      Numbered(ds, MenuDroppedEntry)[i] == MenuDroppedLine(i + 1, ds[i])
  {
    NumberedSingle(ds, MenuDroppedEntry);
  }

  lemma MenuProcessLines(ps: seq<Process>)
    ensures |Numbered(ps, MenuProcessEntry)| == |ps|
    ensures forall i :: 0 <= i < |ps| ==>
      Numbered(ps, MenuProcessEntry)[i] == MenuProcessLine(i + 1, ps[i])
  {
    NumberedSingle(ps, MenuProcessEntry);
  }

  lemma MenuSizes()
    ensures |MenuTop| == 6 && |MenuMiddle| == 4
  {
  }

  // ---- dropped files

  /** With no dropped file the section holds only its title, the placeholder and a blank
      line; otherwise the block of dropped file k (heading "[2.k]", eight fields, blank line)
      fills lines 4 + 10 * (k - 1) to 13 + 10 * (k - 1), and a blank line closes the section. */
  lemma DroppedLayout(ds: seq<FileInfo>)
    ensures |ds| == 0 ==> DroppedLines(ds) == Title(" 2. Dropped files\n") + [Placeholder, "\n"]
    ensures |ds| > 0 ==> |DroppedLines(ds)| == 10 * |ds| + 5
    ensures |ds| > 0 ==> forall i :: 0 <= i < |ds| ==>
      DroppedLines(ds)[4 + 10 * i..14 + 10 * i] == DroppedEntry(i + 1, ds[i])
    ensures |ds| > 0 ==> forall i :: 0 <= i < |ds| ==>
      DroppedLines(ds)[4 + 10 * i] == "[2." + NatToString(i + 1) + "] \"" + ds[i].name + "\":\n"
      && DroppedLines(ds)[13 + 10 * i] == "\n"
    ensures DroppedLines(ds)[..4] == Title(" 2. Dropped files\n")
    ensures DroppedLines(ds)[|DroppedLines(ds)| - 1] == "\n"
  {
    if |ds| > 0 {
      DroppedBlocks(ds);
      DroppedHeadings(ds);
    }
  }

  lemma DroppedBlocks(ds: seq<FileInfo>)
    requires |ds| > 0
    ensures |DroppedLines(ds)| == 10 * |ds| + 5
    ensures forall i :: 0 <= i < |ds| ==>
      DroppedLines(ds)[4 + 10 * i..14 + 10 * i] == DroppedEntry(i + 1, ds[i])
  {
    var title := Title(" 2. Dropped files\n");
    var body := Numbered(ds, DroppedEntry);
    NumberedBlocks(ds, DroppedEntry, 10);
    assert DroppedLines(ds) == title + body + ["\n"];
    forall i | 0 <= i < |ds|
      ensures DroppedLines(ds)[4 + 10 * i..14 + 10 * i] == DroppedEntry(i + 1, ds[i])
    {
      SliceIn(title, body, ["\n"], 10 * i, 10 * i + 10);
    }
  }

  lemma DroppedHeadings(ds: seq<FileInfo>)
    requires |ds| > 0
    ensures |DroppedLines(ds)| == 10 * |ds| + 5
    ensures forall i :: 0 <= i < |ds| ==>
      DroppedLines(ds)[4 + 10 * i] == "[2." + NatToString(i + 1) + "] \"" + ds[i].name + "\":\n"
      && DroppedLines(ds)[13 + 10 * i] == "\n"
  {
    DroppedBlocks(ds);
    forall i | 0 <= i < |ds|
      ensures DroppedLines(ds)[4 + 10 * i] == DroppedHeading(i + 1, ds[i])
      ensures DroppedLines(ds)[13 + 10 * i] == "\n"
    {
      BlockEnds(DroppedLines(ds), 4 + 10 * i, DroppedEntry(i + 1, ds[i]));
    }
  }

  lemma BlockEnds(ls: seq<string>, x: nat, e: seq<string>)
    requires |e| == 10 && x + 10 <= |ls| && ls[x..x + 10] == e
    ensures ls[x] == e[0] && ls[x + 9] == e[9]
  {
    assert ls[x] == ls[x..x + 10][0];
    assert ls[x + 9] == ls[x..x + 10][9];
  }

  /** A slice of the middle part of three joined parts. */
  lemma SliceIn(a: seq<string>, b: seq<string>, c: seq<string>, x: nat, y: nat)
    requires x <= y <= |b|
    ensures (a + b + c)[|a| + x..|a| + y] == b[x..y]
  {
    assert (a + b + c)[..|a| + |b|] == a + b;
  }

  // ---- network analysis

  /** The DNS records the section lists: none when the result has no network block. */
  function DnsRecords(n: Option<Network>): seq<DnsRecord>
  {
    if n.Some? then n.value.dns else []
  }

  function HttpRecords(n: Option<Network>): seq<HttpRecord>
  {
    if n.Some? then n.value.http else []
  }

  /** The DNS subsection is the placeholder exactly when there is no DNS record, and otherwise
      one "Hostname:" line per record, in order. */
  lemma DnsBodyLines(n: Option<Network>)
    ensures (DnsBody(n) == [IndentedPlaceholder]) == (|DnsRecords(n)| == 0)
    ensures |DnsRecords(n)| > 0 ==> |DnsBody(n)| == |DnsRecords(n)|
    ensures forall i :: 0 <= i < |DnsRecords(n)| ==>
      DnsBody(n)[i] == "  Hostname: " + DnsRecords(n)[i].hostname + ", IP: " + DnsRecords(n)[i].ip + "\n"
  {
    var ds := DnsRecords(n);
    if |ds| > 0 {
      EachSingle(ds, DnsEntry);
      assert DnsBody(n)[0] == DnsLine(ds[0]);
      assert DnsLine(ds[0])[2] != IndentedPlaceholder[2];
    }
  }

  /** The HTTP subsection is the placeholder exactly when there is no HTTP record, and
      otherwise one "Host:" line per record, in order. */
  lemma HttpBodyLines(n: Option<Network>)
    ensures (HttpBody(n) == [IndentedPlaceholder]) == (|HttpRecords(n)| == 0)
    ensures |HttpRecords(n)| > 0 ==> |HttpBody(n)| == |HttpRecords(n)|
    ensures forall i :: 0 <= i < |HttpRecords(n)| ==>
      HttpBody(n)[i] == "  Host: " + HttpRecords(n)[i].host + ", Port: " + HttpRecords(n)[i].port
                        + ", URI: " + HttpRecords(n)[i].uri + "\n"
  {
    var hs := HttpRecords(n);
    if |hs| > 0 {
      EachSingle(hs, HttpEntry);
      assert HttpBody(n)[0] == HttpLine(hs[0]);
      assert HttpLine(hs[0])[2] != IndentedPlaceholder[2];
    }
  }

  /** The network section: title, the DNS heading and subsection, a blank line, the HTTP
      heading and subsection, a blank line; each subsection depends on its own records only. */
  lemma NetworkLayout(n: Option<Network>)
    ensures |NetworkLines(n)| == 8 + |DnsBody(n)| + |HttpBody(n)|
    ensures NetworkLines(n)[..5] == Title(" 5. Network analysis\n") + ["[5.1] DNS Requests:\n"]
    ensures NetworkLines(n)[5..5 + |DnsBody(n)|] == DnsBody(n)
    ensures NetworkLines(n)[5 + |DnsBody(n)|..7 + |DnsBody(n)|] == ["\n", "[5.2] HTTP Requests:\n"]
    ensures NetworkLines(n)[7 + |DnsBody(n)|..7 + |DnsBody(n)| + |HttpBody(n)|] == HttpBody(n)
    ensures NetworkLines(n)[7 + |DnsBody(n)| + |HttpBody(n)|] == "\n"
  {
    Layout5(Title(" 5. Network analysis\n") + ["[5.1] DNS Requests:\n"], DnsBody(n),
            ["\n", "[5.2] HTTP Requests:\n"], HttpBody(n), ["\n"]);
  }

  // ---- the whole report

  /** After the ten banner lines, the sample's name and MD5 stand between two rules, followed
      by a blank line. */
  lemma HeaderLayout(r: AnalysisResult)
    ensures |ReportLines(r)| > 15
    ensures ReportLines(r)[..10] == Banner
    ensures ReportLines(r)[10] == Rule && ReportLines(r)[13] == Rule
    ensures ReportLines(r)[11] == " Analysis of " + r.file.name + "\n"
    ensures ReportLines(r)[12] == " MD5 " + r.file.md5 + "\n"
    ensures ReportLines(r)[14] == "\n"
  {
    var h := HeaderLines(r.file);
    HeaderAt(r.file);
    MenuOpens(r);
    Regroup6(h, MenuLines(r), GeneralLines(r), DroppedLines(r.dropped),
             NetworkLines(r.network), BehaviorLines(r.processes));
    PrefixLines(h, MenuLines(r) + GeneralLines(r) + DroppedLines(r.dropped)
                   + NetworkLines(r.network) + BehaviorLines(r.processes));
  }

  lemma HeaderAt(f: FileInfo)
    ensures |HeaderLines(f)| == 15 && HeaderLines(f)[..10] == Banner
    ensures HeaderLines(f)[10] == Rule && HeaderLines(f)[13] == Rule
    ensures HeaderLines(f)[11] == " Analysis of " + f.name + "\n"
    ensures HeaderLines(f)[12] == " MD5 " + f.md5 + "\n"
    ensures HeaderLines(f)[14] == "\n"
  {
    PartsAt(Banner, HeaderFrame(f), []);
    assert HeaderLines(f) + [] == HeaderLines(f);
  }

  /** The lines of a prefix keep their places. */
  lemma PrefixLines(a: seq<string>, b: seq<string>)
    requires |a| == 15 && |b| > 0
    ensures |a + b| > 15 && (a + b)[..10] == a[..10]
    ensures forall i :: 10 <= i < 15 ==> (a + b)[i] == a[i]
  {
    assert (a + b)[..10] == a[..10];
  }

  lemma Regroup6(a: seq<string>, b: seq<string>, c: seq<string>, d: seq<string>,
                 e: seq<string>, f: seq<string>)
    ensures a + b + c + d + e + f == a + (b + c + d + e + f)
  {
  }

  /** Where the middle part of a three-part concatenation sits. */
  lemma PartsAt(a: seq<string>, b: seq<string>, c: seq<string>)
    ensures |a + b + c| == |a| + |b| + |c|
    ensures (a + b + c)[..|a|] == a
    ensures forall i :: 0 <= i < |b| ==> (a + b + c)[|a| + i] == b[i]
  {
  }

  /** Where each part after the first starts in a concatenation of six parts. */
  function Offsets(h: seq<string>, m: seq<string>, g: seq<string>, d: seq<string>,
                   n: seq<string>): seq<nat>
  {
    [|h|, |h| + |m|, |h| + |m| + |g|, |h| + |m| + |g| + |d|, |h| + |m| + |g| + |d| + |n|]
  }

  /** The first line of the menu, general, dropped, network and behaviour sections. */
  function SectionStarts(r: AnalysisResult): seq<nat>
  {
    Offsets(HeaderLines(r.file), MenuLines(r), GeneralLines(r), DroppedLines(r.dropped),
            NetworkLines(r.network))
  }

  /** The sections' titles in the order the report writes them: the network section is
      titled 5 here although the menu lists it as 3. */
  const SectionTitles: seq<string> := [
    " Content Menu\n", " 1. General information\n", " 2. Dropped files\n",
    " 5. Network analysis\n", " 4. Behavior analysis\n"]

  /** Line i of `ls` starts a title block for `t`. */
  predicate TitledAt(ls: seq<string>, i: nat, t: string)
  {
    i + 4 <= |ls| && ls[i..i + 4] == Title(t)
  }

  /** Each section opens with its title between two rules, at the index SectionStarts gives,
      and the sections follow one another in a fixed order. */
  lemma SectionOrder(r: AnalysisResult)
    ensures var s := SectionStarts(r);
      s[0] + 4 <= s[1] && s[1] + 4 <= s[2] && s[2] + 4 <= s[3] && s[3] + 4 <= s[4]
    ensures forall k :: 0 <= k < 5 ==> TitledAt(ReportLines(r), SectionStarts(r)[k], SectionTitles[k])
  {
    MenuOpens(r);
    GeneralOpens(r);
    DroppedOpens(r.dropped);
    NetworkOpens(r.network);
    BehaviorOpens(r.processes);
    Sections(HeaderLines(r.file), MenuLines(r), GeneralLines(r), DroppedLines(r.dropped),
             NetworkLines(r.network), BehaviorLines(r.processes), SectionTitles);
  }

  lemma MenuOpens(r: AnalysisResult)
    ensures |MenuLines(r)| >= 4 && MenuLines(r)[..4] == Title(SectionTitles[0])
  {
    MenuSizes();
    Layout5(MenuTop, Numbered(r.dropped, MenuDroppedEntry), MenuMiddle,
            Numbered(r.processes, MenuProcessEntry), ["\n"]);
    assert MenuTop[..4] == Title(" Content Menu\n");
  }

  lemma GeneralOpens(r: AnalysisResult)
    ensures |GeneralLines(r)| >= 4 && GeneralLines(r)[..4] == Title(SectionTitles[1])
  {
    Opens(Title(" 1. General information\n"), InfoLines(r.info), FileLines(r.file));
  }

  lemma DroppedOpens(ds: seq<FileInfo>)
    ensures |DroppedLines(ds)| >= 4 && DroppedLines(ds)[..4] == Title(SectionTitles[2])
  {
    Opens(Title(" 2. Dropped files\n"), DroppedBody(ds), ["\n"]);
  }

  lemma NetworkOpens(n: Option<Network>)
    ensures |NetworkLines(n)| >= 4 && NetworkLines(n)[..4] == Title(SectionTitles[3])
  {
    Layout5(Title(" 5. Network analysis\n"), ["[5.1] DNS Requests:\n"], DnsBody(n),
            ["\n", "[5.2] HTTP Requests:\n"], HttpBody(n) + ["\n"]);
    assert NetworkLines(n) == Title(" 5. Network analysis\n") + ["[5.1] DNS Requests:\n"]
      + DnsBody(n) + ["\n", "[5.2] HTTP Requests:\n"] + (HttpBody(n) + ["\n"]);
  }

  lemma BehaviorOpens(ps: seq<Process>)
    ensures |BehaviorLines(ps)| >= 4 && BehaviorLines(ps)[..4] == Title(SectionTitles[4])
  {
    Opens(Title(" 4. Behavior analysis\n"), BehaviorBody(ps), []);
  }

  lemma Opens(a: seq<string>, b: seq<string>, c: seq<string>)
    ensures |a + b + c| >= |a| && (a + b + c)[..|a|] == a
  {
  }

  /** Six parts whose last five open with the titles `ts`, in order. */
  lemma Sections(h: seq<string>, m: seq<string>, g: seq<string>, d: seq<string>,
                 n: seq<string>, b: seq<string>, ts: seq<string>)
    requires |ts| == 5
    requires |m| >= 4 && m[..4] == Title(ts[0])
    requires |g| >= 4 && g[..4] == Title(ts[1])
    requires |d| >= 4 && d[..4] == Title(ts[2])
    requires |n| >= 4 && n[..4] == Title(ts[3])
    requires |b| >= 4 && b[..4] == Title(ts[4])
    ensures forall k :: 0 <= k < 5 ==> TitledAt(h + m + g + d + n + b, Offsets(h, m, g, d, n)[k], ts[k])
  {
    var all := h + m + g + d + n + b;
    Regroup(h, m, g, d, n, b);
    TitleAt(h, m, g + d + n + b, ts[0]);
    TitleAt(h + m, g, d + n + b, ts[1]);
    TitleAt(h + m + g, d, n + b, ts[2]);
    TitleAt(h + m + g + d, n, b, ts[3]);
    TitleAt(h + m + g + d + n, b, [], ts[4]);
  }

  lemma Regroup(h: seq<string>, m: seq<string>, g: seq<string>, d: seq<string>,
                n: seq<string>, b: seq<string>)
    ensures h + m + (g + d + n + b) == h + m + g + d + n + b
    ensures h + m + g + (d + n + b) == h + m + g + d + n + b
    ensures h + m + g + d + (n + b) == h + m + g + d + n + b
    ensures h + m + g + d + n + b + [] == h + m + g + d + n + b
  {
  }

  lemma TitleAt(pre: seq<string>, x: seq<string>, post: seq<string>, t: string)
    requires |x| >= 4 && x[..4] == Title(t)
    ensures TitledAt(pre + x + post, |pre|, t)
  {
    assert (pre + x + post)[|pre|..|pre| + 4] == x[..4];
  }
}
