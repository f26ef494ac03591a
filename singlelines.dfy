/** Every line the report writes after the banner is exactly one line of text, as long as the
    result's fields hold no line break; so splitting the report's text at its newlines gives
    back the lines the sections were built from. */
module SingleLines {
  import opened Results
  import opened Lines
  import opened Decimal
  import opened Render

  // ---- building blocks

  /** A piece without a break followed by a complete line is a complete line. */
  lemma LineEnd(s: string, t: string)
    requires '\n' !in s && OneLine(t)
    ensures OneLine(s + t)
  {
    assert (s + t)[..|s + t| - 1] == s + t[..|t| - 1];
  }

  lemma DigitsNoBreak(n: nat)
    ensures '\n' !in NatToString(n)
  {
    var s := NatToString(n);
    assert forall i :: 0 <= i < |s| ==> IsDigit(s[i]) && s[i] != '\n';
  }

  lemma AllOneLineAppend(a: seq<string>, b: seq<string>)
    requires AllOneLine(a) && AllOneLine(b)
    ensures AllOneLine(a + b)
  {
    assert forall i :: 0 <= i < |a + b| ==> (a + b)[i] == if i < |a| then a[i] else b[i - |a|];
  }

  lemma RuleLine()
    ensures OneLine(Rule)
  {
    var bar := Repeat('=', 80);
    assert Rule[..|Rule| - 1] == bar;
    assert forall i :: 0 <= i < |bar| ==> bar[i] != '\n';
  }

  lemma TitleLines(t: string)
    requires OneLine(t)
    ensures AllOneLine(Title(t))
  {
    RuleLine();
  }

  // ---- header and menu

  lemma HeaderFrameLines(f: FileInfo)
    requires NoBreak(f.name) && NoBreak(f.md5)
    ensures AllOneLine(HeaderFrame(f))
  {
    RuleLine();
    LineEnd(" Analysis of " + f.name, "\n");
    LineEnd(" MD5 " + f.md5, "\n");
  }

  lemma MenuDroppedLineOne(k: nat, d: FileInfo)
    requires NoBreak(d.name)
    ensures OneLine(MenuDroppedLine(k, d))
  {
    DigitsNoBreak(k);
    LineEnd("        2." + NatToString(k) + " File: " + d.name, "\n");
  }

  lemma MenuProcessLineOne(k: nat, p: Process)
    requires NoBreak(p.processName) && NoBreak(p.processId)
    ensures OneLine(MenuProcessLine(k, p))
  {
    DigitsNoBreak(k);
    LineEnd("        4." + NatToString(k) + " Process: " + p.processName + " (" + p.processId,
            ")\n");
  }

  lemma MenuFixedLines()
    ensures AllOneLine(MenuTop) && AllOneLine(MenuMiddle)
  {
    TitleLines(" Content Menu\n");
    MenuSectionLines();
    AllOneLineAppend(Title(" Content Menu\n"),
                     ["    1. General information\n", "    2. Dropped files\n"]);
    MenuNetworkLines();
    MenuBehaviorLines();
  }

  lemma MenuSectionLines()
    ensures AllOneLine(["    1. General information\n", "    2. Dropped files\n"])
  {
  }

  lemma MenuNetworkLines()
    ensures OneLine(MenuMiddle[0]) && OneLine(MenuMiddle[1])
  {
  }

  lemma MenuBehaviorLines()
    ensures OneLine(MenuMiddle[2]) && OneLine(MenuMiddle[3])
  {
  }

  lemma MenuLinesOne(r: AnalysisResult)
    requires ResultNoBreak(r)
    ensures AllOneLine(MenuLines(r))
  {
    MenuFixedLines();
    forall i | 0 <= i < |r.dropped|
      ensures AllOneLine(MenuDroppedEntry(i + 1, r.dropped[i]))
    {
      MenuDroppedLineOne(i + 1, r.dropped[i]);
    }
    NumberedOneLine(r.dropped, MenuDroppedEntry);
    forall i | 0 <= i < |r.processes|
      ensures AllOneLine(MenuProcessEntry(i + 1, r.processes[i]))
    {
      MenuProcessLineOne(i + 1, r.processes[i]);
    }
    NumberedOneLine(r.processes, MenuProcessEntry);
    var a := MenuTop + Numbered(r.dropped, MenuDroppedEntry);
    AllOneLineAppend(MenuTop, Numbered(r.dropped, MenuDroppedEntry));
    AllOneLineAppend(a, MenuMiddle);
    AllOneLineAppend(a + MenuMiddle, Numbered(r.processes, MenuProcessEntry));
    AllOneLineAppend(a + MenuMiddle + Numbered(r.processes, MenuProcessEntry), ["\n"]);
  }

  // ---- general information and dropped files

  lemma InfoLinesOne(i: Info)
    requires NoBreak(i.version) && NoBreak(i.started) && NoBreak(i.duration)
    ensures AllOneLine(InfoLines(i))
  {
    VersionPieces();
    LineEnd("This report has been generated by Cuckoo Sandbox " + i.version, ".\n");
    LineEnd("The analysis started at: " + i.started, "\n");
    LineEnd("The analysis lasted: " + i.duration, " seconds\n");
  }

  /** The version sentence holds no line break: it is two pieces that hold none. */
  lemma VersionPieces()
    ensures '\n' !in "This report has been generated by Cuckoo Sandbox "
  {
    VersionSplit();
    VersionHalves();
  }

  lemma VersionSplit()
    ensures "This report has been generated by Cuckoo Sandbox "
         == "This report has been " + "generated by Cuckoo Sandbox "
  {
  }

  lemma VersionHalves()
    ensures '\n' !in "This report has been " && '\n' !in "generated by Cuckoo Sandbox "
  {
  }

  /** A label and a value without breaks, then a line ending. */
  lemma FieldLine(lead: string, value: string, tail: string)
    requires '\n' !in lead && '\n' !in value && OneLine(tail)
    ensures OneLine(lead + value + tail)
  {
    LineEnd(lead + value, tail);
  }

  lemma Endings()
    ensures OneLine("\n") && OneLine(" bytes\n") && OneLine("\":\n")
  {
  }

  lemma FileLabels()
    ensures '\n' !in "File name: " && '\n' !in "File size: "
    ensures '\n' !in "File type: " && '\n' !in "CRC32:     "
    ensures '\n' !in "MD5:       "
  {
  }

  lemma HashLabels()
    ensures '\n' !in "SHA-1:     " && '\n' !in "SHA-256:   "
    ensures '\n' !in "SHA-512:   " && '\n' !in "Ssdeep:    "
  {
  }

  lemma DroppedLabels()
    ensures '\n' !in "  File name: " && '\n' !in "  File size: "
    ensures '\n' !in "  File type: " && '\n' !in "  CRC32:     "
    ensures '\n' !in "  MD5:       "
  {
  }

  lemma DroppedHashLabels()
    ensures '\n' !in "  SHA-1:     " && '\n' !in "  SHA-256:   "
    ensures '\n' !in "  SHA-512:   " && '\n' !in "  Ssdeep:    "
  {
  }

  lemma FileLinesOne(f: FileInfo)
    requires FileInfoNoBreak(f)
    ensures AllOneLine(FileLines(f))
  {
    Endings();
    FileLabels();
    HashLabels();
    DigitsNoBreak(f.size);
    FieldLine("File name: ", f.name, "\n");
    FieldLine("File size: ", NatToString(f.size), " bytes\n");
    FieldLine("File type: ", f.fileType, "\n");
    FieldLine("CRC32:     ", f.crc32, "\n");
    FieldLine("MD5:       ", f.md5, "\n");
    FieldLine("SHA-1:     ", f.sha1, "\n");
    FieldLine("SHA-256:   ", f.sha256, "\n");
    FieldLine("SHA-512:   ", f.sha512, "\n");
    FieldLine("Ssdeep:    ", f.ssdeep, "\n");
  }

  lemma GeneralLinesOne(r: AnalysisResult)
    requires ResultNoBreak(r)
    ensures AllOneLine(GeneralLines(r))
  {
    TitleLines(" 1. General information\n");
    InfoLinesOne(r.info);
    FileLinesOne(r.file);
    AllOneLineAppend(Title(" 1. General information\n"), InfoLines(r.info));
    AllOneLineAppend(Title(" 1. General information\n") + InfoLines(r.info), FileLines(r.file));
  }

  lemma DroppedEntryOne(k: nat, d: FileInfo)
    requires FileInfoNoBreak(d)
    ensures AllOneLine(DroppedEntry(k, d))
  {
    Endings();
    DroppedLabels();
    DroppedHashLabels();
    DigitsNoBreak(k);
    DigitsNoBreak(d.size);
    FieldLine("[2." + NatToString(k) + "] \"", d.name, "\":\n");
    FieldLine("  File size: ", NatToString(d.size), " bytes\n");
    FieldLine("  File type: ", d.fileType, "\n");
    FieldLine("  CRC32:     ", d.crc32, "\n");
    FieldLine("  MD5:       ", d.md5, "\n");
    FieldLine("  SHA-1:     ", d.sha1, "\n");
    FieldLine("  SHA-256:   ", d.sha256, "\n");
    FieldLine("  SHA-512:   ", d.sha512, "\n");
    FieldLine("  Ssdeep:    ", d.ssdeep, "\n");
  }

  lemma DroppedLinesOne(ds: seq<FileInfo>)
    requires forall i :: 0 <= i < |ds| ==> FileInfoNoBreak(ds[i])
    ensures AllOneLine(DroppedLines(ds))
  {
    TitleLines(" 2. Dropped files\n");
    if |ds| > 0 {
      forall i | 0 <= i < |ds|
        ensures AllOneLine(DroppedEntry(i + 1, ds[i]))
      {
        DroppedEntryOne(i + 1, ds[i]);
      }
      NumberedOneLine(ds, DroppedEntry);
    } else {
      PlaceholderLine();
    }
    AllOneLineAppend(Title(" 2. Dropped files\n"), DroppedBody(ds));
    AllOneLineAppend(Title(" 2. Dropped files\n") + DroppedBody(ds), ["\n"]);
  }

  lemma PlaceholderLine()
    ensures OneLine(Placeholder) && OneLine(IndentedPlaceholder)
  {
  }

  // ---- network analysis

  lemma DnsLineOne(d: DnsRecord)
    requires NoBreak(d.hostname) && NoBreak(d.ip)
    ensures OneLine(DnsLine(d))
  {
    LineEnd("  Hostname: " + d.hostname + ", IP: " + d.ip, "\n");
  }

  lemma HttpLineOne(h: HttpRecord)
    requires NoBreak(h.host) && NoBreak(h.port) && NoBreak(h.uri)
    ensures OneLine(HttpLine(h))
  {
    LineEnd("  Host: " + h.host + ", Port: " + h.port + ", URI: " + h.uri, "\n");
  }

  lemma DnsBodyOne(n: Option<Network>)
    requires NetworkNoBreak(n)
    ensures AllOneLine(DnsBody(n))
  {
    PlaceholderLine();
    if n.Some? {
      forall i | 0 <= i < |n.value.dns|
        ensures AllOneLine(DnsEntry(n.value.dns[i]))
      {
        DnsLineOne(n.value.dns[i]);
      }
      EachOneLine(n.value.dns, DnsEntry);
    }
  }

  lemma HttpBodyOne(n: Option<Network>)
    requires NetworkNoBreak(n)
    ensures AllOneLine(HttpBody(n))
  {
    PlaceholderLine();
    if n.Some? {
      forall i | 0 <= i < |n.value.http|
        ensures AllOneLine(HttpEntry(n.value.http[i]))
      {
        HttpLineOne(n.value.http[i]);
      }
      EachOneLine(n.value.http, HttpEntry);
    }
  }

  lemma NetworkLinesOne(n: Option<Network>)
    requires NetworkNoBreak(n)
    ensures AllOneLine(NetworkLines(n))
  {
    TitleLines(" 5. Network analysis\n");
    NetworkHeadings();
    DnsBodyOne(n);
    HttpBodyOne(n);
    var a := Title(" 5. Network analysis\n") + ["[5.1] DNS Requests:\n"];
    AllOneLineAppend(Title(" 5. Network analysis\n"), ["[5.1] DNS Requests:\n"]);
    AllOneLineAppend(a, DnsBody(n));
    AllOneLineAppend(a + DnsBody(n), ["\n", "[5.2] HTTP Requests:\n"]);
    AllOneLineAppend(a + DnsBody(n) + ["\n", "[5.2] HTTP Requests:\n"], HttpBody(n));
    AllOneLineAppend(a + DnsBody(n) + ["\n", "[5.2] HTTP Requests:\n"] + HttpBody(n), ["\n"]);
  }

  lemma NetworkHeadings()
    ensures OneLine("[5.1] DNS Requests:\n") && OneLine("[5.2] HTTP Requests:\n")
  {
  }

  // ---- behavior analysis

  lemma CallEntryOne(c: Call)
    requires CallNoBreak(c)
    ensures AllOneLine(CallEntry(c))
  {
    LineEnd("  (" + c.timestamp + ") Function: " + c.api + ", Status: " + c.status
            + ", Return: " + c.returnValue, "\n");
    forall i | 0 <= i < |c.arguments|
      ensures AllOneLine(ArgumentEntry(c.arguments[i]))
    {
      var a := c.arguments[i];
      LineEnd("      Argument: " + a.name + ", Value: " + a.value, "\n");
    }
    EachOneLine(c.arguments, ArgumentEntry);
    AllOneLineAppend([CallLine(c)], Each(c.arguments, ArgumentEntry));
  }

  lemma ProcessEntryOne(k: nat, p: Process)
    requires ProcessNoBreak(p)
    ensures AllOneLine(ProcessEntry(k, p))
  {
    DigitsNoBreak(k);
    LineEnd("[4." + NatToString(k) + "] Process: " + p.processName + " (" + p.processId,
            "):\n");
    forall i | 0 <= i < |p.calls|
      ensures AllOneLine(CallEntry(p.calls[i]))
    {
      CallEntryOne(p.calls[i]);
    }
    EachOneLine(p.calls, CallEntry);
    AllOneLineAppend([ProcessHeading(k, p)], Each(p.calls, CallEntry));
    AllOneLineAppend([ProcessHeading(k, p)] + Each(p.calls, CallEntry), ["\n"]);
  }

  lemma BehaviorLinesOne(ps: seq<Process>)
    requires forall i :: 0 <= i < |ps| ==> ProcessNoBreak(ps[i])
    ensures AllOneLine(BehaviorLines(ps))
  {
    TitleLines(" 4. Behavior analysis\n");
    if |ps| > 0 {
      forall i | 0 <= i < |ps|
        ensures AllOneLine(ProcessEntry(i + 1, ps[i]))
      {
        ProcessEntryOne(i + 1, ps[i]);
      }
      NumberedOneLine(ps, ProcessEntry);
      AllOneLineAppend(Numbered(ps, ProcessEntry), ["\n"]);
    } else {
      PlaceholderLine();
    }
    AllOneLineAppend(Title(" 4. Behavior analysis\n"), BehaviorBody(ps));
  }

  // ---- the whole report

  /** Every line after the banner is exactly one line. */
  lemma BodyOneLine(r: AnalysisResult)
    requires ResultNoBreak(r)
    ensures AllOneLine(BodyLines(r))
  {
    var h, m, g := HeaderFrame(r.file), MenuLines(r), GeneralLines(r);
    var d, n, b := DroppedLines(r.dropped), NetworkLines(r.network), BehaviorLines(r.processes);
    HeaderFrameLines(r.file);
    MenuLinesOne(r);
    GeneralLinesOne(r);
    DroppedLinesOne(r.dropped);
    NetworkLinesOne(r.network);
    BehaviorLinesOne(r.processes);
    AllOneLineAppend(h, m);
    AllOneLineAppend(h + m, g);
    AllOneLineAppend(h + m + g, d);
    AllOneLineAppend(h + m + g + d, n);
    AllOneLineAppend(h + m + g + d + n, b);
  }

  lemma BannerTerminated()
    ensures Terminated(Concat(Banner))
  {
    assert Banner[9] == "\n";
  }

  /** The report is the banner followed by the body. */
  lemma ReportTextParts(r: AnalysisResult)
    ensures ReportText(r) == Concat(Banner) + Concat(BodyLines(r))
  {
    var f, m, g := HeaderFrame(r.file), MenuLines(r), GeneralLines(r);
    var d, n, b := DroppedLines(r.dropped), NetworkLines(r.network), BehaviorLines(r.processes);
    BannerRegroup(Banner, f, m, g, d, n, b);
    ConcatAppend(Banner, BodyLines(r));
  }

  /** Splitting the report's text at its newlines gives the banner's lines, then exactly the
      lines the sections were built from. */
  lemma ReportTextLines(r: AnalysisResult)
    requires ResultNoBreak(r)
    ensures SplitLines(ReportText(r)) == SplitLines(Concat(Banner)) + BodyLines(r)
  {
    ReportTextParts(r);
    BannerTerminated();
    SplitAppend(Concat(Banner), Concat(BodyLines(r)));
    BodyOneLine(r);
    SplitConcat(BodyLines(r));
  }
}
