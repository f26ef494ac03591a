/** The text report generator: an object that appends the report's sections, one after
    another, to a string buffer. Each method ends with the buffer it started with, followed
    by the lines of one section joined, and nothing else changes. */
module TxtReport {
  import opened Results
  import opened Lines
  import opened Decimal
  import opened Render
  import opened Appends

  class Report {
    /** The report text written so far. */
    var report: string
    /** The analysis result being reported; None until `Update` is given one. */
    var results: Option<AnalysisResult>

    constructor ()
      ensures report == "" && results == None
    {
      report := "";
      results := None;
    }

    /** The source's `self._report += s`. */
    method Append(s: string)
      modifies this
      ensures report == old(report) + s && results == old(results)
    {
      report := report + s;
    }

    method AddLine()
      modifies this
      ensures report == old(report) + Rule && results == old(results)
    {
      Append(Rule);
    }

    method GenHeader()
      requires results.Some?
      modifies this
      ensures results == old(results)
      ensures report == old(report) + Concat(HeaderLines(results.value.file))
    {
      var f := results.value.file;
      Append(Banner[0]);
      Append(Banner[1]);
      Append(Banner[2]);
      Append(Banner[3]);
      Append(Banner[4]);
      Append(Banner[5]);
      Append(Banner[6]);
      Append(Banner[7]);
      Append(Banner[8]);
      Append(Banner[9]);
      AddLine();
      Append(" Analysis of " + f.name + "\n");
      Append(" MD5 " + f.md5 + "\n");
      AddLine();
      Append("\n");
      HeaderJoin(old(report), f);
    }

    /** The title block every section but the header opens with. */
    method AddTitle(t: string)
      modifies this
      ensures results == old(results)
      ensures report == old(report) + Concat(Title(t))
    {
      AddLine();
      Append(t);
      AddLine();
      Append("\n");
      TitleJoin(old(report), t);
    }

    /** The menu's numbered sub-lines, one per dropped file; the source guards this loop
        with a test that the list is nonempty. */
    method AddMenuDropped(ds: seq<FileInfo>)
      modifies this
      ensures results == old(results)
      ensures report == old(report) + Concat(Numbered(ds, MenuDroppedEntry))
    {
      if |ds| > 0 {
        var counter := 1;
        for i := 0 to |ds|
          invariant counter == i + 1
          invariant results == old(results)
          invariant report == old(report) + Concat(Numbered(ds[..i], MenuDroppedEntry))
        {
          Append("        2." + NatToString(counter) + " File: " + ds[i].name + "\n");
          NumberedLineStep(old(report), ds, i, MenuDroppedEntry);
          counter := counter + 1;
        }
        assert ds[..|ds|] == ds;
      }
    }

    /** The menu's numbered sub-lines, one per process. */
    method AddMenuProcesses(ps: seq<Process>)
      modifies this
      ensures results == old(results)
      ensures report == old(report) + Concat(Numbered(ps, MenuProcessEntry))
    {
      var counter := 1;
      for i := 0 to |ps|
        invariant counter == i + 1
        invariant results == old(results)
        invariant report == old(report) + Concat(Numbered(ps[..i], MenuProcessEntry))
      {
        var p := ps[i];
        Append("        4." + NatToString(counter) + " Process: " + p.processName
               + " (" + p.processId + ")\n");
        NumberedLineStep(old(report), ps, i, MenuProcessEntry);
        counter := counter + 1;
      }
      assert ps[..|ps|] == ps;
    }

    method GenMenu()
      requires results.Some?
      modifies this
      ensures results == old(results)
      ensures report == old(report) + Concat(MenuLines(results.value))
    {
      var r := results.value;
      AddTitle(" Content Menu\n");
      Append("    1. General information\n");
      Append("    2. Dropped files\n");
      MenuTopJoin(old(report));

      AddMenuDropped(r.dropped);
      ghost var middle := report;

      Append("    3. Network analysis\n");
      Append("        3.1 DNS requests\n");
      Append("        3.2 HTTP requests\n");
      Append("    4. Behavior analysis\n");
      MenuMiddleJoin(middle);

      AddMenuProcesses(r.processes);

      Append("\n");
      MenuJoin(old(report), r);
    }

    method GenGeneralInformation()
      requires results.Some?
      modifies this
      ensures results == old(results)
      ensures report == old(report) + Concat(GeneralLines(results.value))
    {
      var r := results.value;
      AddLine();
      Append(" 1. General information\n");
      AddLine();
      Append("\n");

      Append("This report has been generated by Cuckoo Sandbox " + r.info.version + ".\n");
      Append("The analysis started at: " + r.info.started + "\n");
      Append("The analysis lasted: " + r.info.duration + " seconds\n");
      Append("\n");
      Append("File name: " + r.file.name + "\n");
      Append("File size: " + NatToString(r.file.size) + " bytes\n");
      Append("File type: " + r.file.fileType + "\n");
      Append("CRC32:     " + r.file.crc32 + "\n");
      Append("MD5:       " + r.file.md5 + "\n");
      Append("SHA-1:     " + r.file.sha1 + "\n");
      Append("SHA-256:   " + r.file.sha256 + "\n");
      Append("SHA-512:   " + r.file.sha512 + "\n");
      Append("Ssdeep:    " + r.file.ssdeep + "\n");

      Append("\n");
      GeneralJoin(old(report), r);
    }

    /** One numbered block per dropped file: heading, eight fields, blank line. */
    method AddDroppedEntries(ds: seq<FileInfo>)
      modifies this
      ensures results == old(results)
      ensures report == old(report) + Concat(Numbered(ds, DroppedEntry))
    {
      var counter := 1;
      for i := 0 to |ds|
        invariant counter == i + 1
        invariant results == old(results)
        invariant report == old(report) + Concat(Numbered(ds[..i], DroppedEntry))
      {
        var d := ds[i];
        ghost var before := report;
        Append("[2." + NatToString(counter) + "] \"" + d.name + "\":\n");
        Append("  File size: " + NatToString(d.size) + " bytes\n");
        Append("  File type: " + d.fileType + "\n");
        Append("  CRC32:     " + d.crc32 + "\n");
        Append("  MD5:       " + d.md5 + "\n");
        Append("  SHA-1:     " + d.sha1 + "\n");
        Append("  SHA-256:   " + d.sha256 + "\n");
        Append("  SHA-512:   " + d.sha512 + "\n");
        Append("  Ssdeep:    " + d.ssdeep + "\n");
        Append("\n");
        DroppedEntryJoin(before, counter, d);
        NumberedStep(old(report), ds, i, DroppedEntry);
        counter := counter + 1;
      }
      assert ds[..|ds|] == ds;
    }

    method GenDropped()
      requires results.Some?
      modifies this
      ensures results == old(results)
      ensures report == old(report) + Concat(DroppedLines(results.value.dropped))
    {
      var ds := results.value.dropped;
      AddTitle(" 2. Dropped files\n");

      if |ds| > 0 {
        AddDroppedEntries(ds);
      } else {
        Append(Placeholder);
        ConcatOne(Placeholder);
      }

      Append("\n");
      DroppedJoin(old(report), ds);
    }

    /** One line per DNS request. */
    method AddDnsRecords(dns: seq<DnsRecord>)
      modifies this
      ensures results == old(results)
      ensures report == old(report) + Concat(Each(dns, DnsEntry))
    {
      for i := 0 to |dns|
        invariant results == old(results)
        invariant report == old(report) + Concat(Each(dns[..i], DnsEntry))
      {
        Append("  Hostname: " + dns[i].hostname + ", IP: " + dns[i].ip + "\n");
        EachLineStep(old(report), dns, i, DnsEntry);
      }
      assert dns[..|dns|] == dns;
    }

    /** One line per HTTP request. */
    method AddHttpRecords(http: seq<HttpRecord>)
      modifies this
      ensures results == old(results)
      ensures report == old(report) + Concat(Each(http, HttpEntry))
    {
      for i := 0 to |http|
        invariant results == old(results)
        invariant report == old(report) + Concat(Each(http[..i], HttpEntry))
      {
        Append("  Host: " + http[i].host + ", Port: " + http[i].port + ", URI: " + http[i].uri
               + "\n");
        EachLineStep(old(report), http, i, HttpEntry);
      }
      assert http[..|http|] == http;
    }

    /** The DNS and HTTP subsections each test the network block and their own list. */
    method GenNetwork()
      requires results.Some?
      modifies this
      ensures results == old(results)
      ensures report == old(report) + Concat(NetworkLines(results.value.network))
    {
      var n := results.value.network;
      AddTitle(" 5. Network analysis\n");

      Append("[5.1] DNS Requests:\n");
      if n.Some? && |n.value.dns| > 0 {
        AddDnsRecords(n.value.dns);
      } else {
        Append(IndentedPlaceholder);
        ConcatOne(IndentedPlaceholder);
      }

      Append("\n");

      Append("[5.2] HTTP Requests:\n");
      if n.Some? && |n.value.http| > 0 {
        AddHttpRecords(n.value.http);
      } else {
        Append(IndentedPlaceholder);
        ConcatOne(IndentedPlaceholder);
      }

      Append("\n");
      NetworkJoin(old(report), n);
    }

    /** One line per argument of a call. */
    method AddArguments(args: seq<Argument>)
      modifies this
      ensures results == old(results)
      ensures report == old(report) + Concat(Each(args, ArgumentEntry))
    {
      for m := 0 to |args|
        invariant results == old(results)
        invariant report == old(report) + Concat(Each(args[..m], ArgumentEntry))
      {
        var a := args[m];
        Append("      Argument: " + a.name + ", Value: " + a.value + "\n");
        EachLineStep(old(report), args, m, ArgumentEntry);
      }
      assert args[..|args|] == args;
    }

    /** Each call's line, followed by its argument lines. */
    method AddCalls(calls: seq<Call>)
      modifies this
      ensures results == old(results)
      ensures report == old(report) + Concat(Each(calls, CallEntry))
    {
      for j := 0 to |calls|
        invariant results == old(results)
        invariant report == old(report) + Concat(Each(calls[..j], CallEntry))
      {
        var c := calls[j];
        ghost var before := report;
        Append("  (" + c.timestamp + ") Function: " + c.api + ", Status: " + c.status
               + ", Return: " + c.returnValue + "\n");
        AddArguments(c.arguments);
        CallJoin(before, c);
        EachStep(old(report), calls, j, CallEntry);
      }
      assert calls[..|calls|] == calls;
    }

    /** One numbered block per process: heading, its calls, blank line. */
    method AddProcesses(ps: seq<Process>)
      modifies this
      ensures results == old(results)
      ensures report == old(report) + Concat(Numbered(ps, ProcessEntry))
    {
      var counter := 1;
      for i := 0 to |ps|
        invariant counter == i + 1
        invariant results == old(results)
        invariant report == old(report) + Concat(Numbered(ps[..i], ProcessEntry))
      {
        var p := ps[i];
        ghost var before := report;
        Append("[4." + NatToString(counter) + "] Process: " + p.processName
               + " (" + p.processId + "):\n");
        AddCalls(p.calls);
        Append("\n");
        ProcessJoin(before, counter, p);
        NumberedStep(old(report), ps, i, ProcessEntry);
        counter := counter + 1;
      }
      assert ps[..|ps|] == ps;
    }

    method GenProcesses()
      requires results.Some?
      modifies this
      ensures results == old(results)
      ensures report == old(report) + Concat(BehaviorLines(results.value.processes))
    {
      var ps := results.value.processes;
      AddTitle(" 4. Behavior analysis\n");

      if |ps| > 0 {
        AddProcesses(ps);
      } else {
        Append("Nothing to display.");
      }

      Append("\n");
      if |ps| > 0 {
        BehaviorJoin(old(report), ps);
      } else {
        BehaviorEmptyJoin(old(report));
      }
    }

    /** The six sections, in their fixed order. */
    method GenReport()
      requires results.Some?
      modifies this
      ensures results == old(results)
      ensures report == old(report) + ReportText(results.value)
    {
      GenHeader();
      GenMenu();
      GenGeneralInformation();
      GenDropped();
      GenNetwork();
      GenProcesses();
      ReportJoin(old(report), results.value);
    }

    /** Records the result and appends its report; the buffer is never cleared, so a second
        call appends a second report after the first. */
    method Update(r: AnalysisResult)
      modifies this
      ensures results == Some(r)
      ensures report == old(report) + ReportText(r)
    {
      results := Some(r);
      GenReport();
    }
  }

  /** The text a newly constructed report holds after one update: what `update` writes out. */
  method RenderReport(r: AnalysisResult) returns (text: string)
    ensures text == ReportText(r)
  {
    var report := new Report();
    report.Update(r);
    text := report.report;
  }

  /** Two updates of the same object: the second report follows the first. */
  method RenderTwice(r1: AnalysisResult, r2: AnalysisResult) returns (text: string)
    ensures text == ReportText(r1) + ReportText(r2)
  {
    var report := new Report();
    report.Update(r1);
    assert report.report == ReportText(r1);
    report.Update(r2);
    text := report.report;
  }
}
