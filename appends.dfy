/** What each straight run of appends in the report adds to the buffer, as the join of the
    section's lines. Each lemma is stated in the left-nested form `buf + s0 + s1 + ...` that
    successive appends produce. */
module Appends {
  import opened Results
  import opened Lines
  import opened Decimal
  import opened Render

  lemma TitleJoin(buf: string, t: string)
    ensures buf + Rule + t + Rule + "\n" == buf + Concat(Title(t))
  {
    Join4(buf, Rule, t, Rule, "\n");
  }

  lemma BannerJoin(buf: string)
    ensures buf + Banner[0] + Banner[1] + Banner[2] + Banner[3] + Banner[4] + Banner[5]
          + Banner[6] + Banner[7] + Banner[8] + Banner[9]
         == buf + Concat(Banner)
  {
    Join10(buf, Banner[0], Banner[1], Banner[2], Banner[3], Banner[4], Banner[5],
           Banner[6], Banner[7], Banner[8], Banner[9]);
    assert Banner == [Banner[0], Banner[1], Banner[2], Banner[3], Banner[4], Banner[5],
                      Banner[6], Banner[7], Banner[8], Banner[9]];
  }

  lemma HeaderJoin(buf: string, f: FileInfo)
    ensures buf + Banner[0] + Banner[1] + Banner[2] + Banner[3] + Banner[4] + Banner[5]
          + Banner[6] + Banner[7] + Banner[8] + Banner[9]
          + Rule + (" Analysis of " + f.name + "\n") + (" MD5 " + f.md5 + "\n") + Rule + "\n"
         == buf + Concat(HeaderLines(f))
  {
    BannerJoin(buf);
    var b := buf + Concat(Banner);
    var frame := [Rule, " Analysis of " + f.name + "\n", " MD5 " + f.md5 + "\n", Rule];
    Join4(b, Rule, " Analysis of " + f.name + "\n", " MD5 " + f.md5 + "\n", Rule);
    ConcatStep(b, frame, "\n");
    assert frame + ["\n"] == HeaderFrame(f);
    ConcatJoin(buf, Banner, HeaderFrame(f));
  }

  lemma MenuTopJoin(buf: string)
    ensures buf + Concat(Title(" Content Menu\n"))
          + "    1. General information\n" + "    2. Dropped files\n"
         == buf + Concat(MenuTop)
  {
    var title := Title(" Content Menu\n");
    ConcatStep(buf, title, "    1. General information\n");
    ConcatStep(buf, title + ["    1. General information\n"], "    2. Dropped files\n");
    assert title + ["    1. General information\n"] + ["    2. Dropped files\n"] == MenuTop;
  }

  lemma MenuMiddleJoin(buf: string)
    ensures buf + "    3. Network analysis\n" + "        3.1 DNS requests\n"
          + "        3.2 HTTP requests\n" + "    4. Behavior analysis\n"
         == buf + Concat(MenuMiddle)
  {
    Join4(buf, "    3. Network analysis\n", "        3.1 DNS requests\n",
          "        3.2 HTTP requests\n", "    4. Behavior analysis\n");
  }

  lemma MenuJoin(buf: string, r: AnalysisResult)
    ensures buf + Concat(MenuTop) + Concat(Numbered(r.dropped, MenuDroppedEntry))
          + Concat(MenuMiddle) + Concat(Numbered(r.processes, MenuProcessEntry)) + "\n"
         == buf + Concat(MenuLines(r))
  {
    var a := MenuTop;
    var b := Numbered(r.dropped, MenuDroppedEntry);
    var c := MenuMiddle;
    var d := Numbered(r.processes, MenuProcessEntry);
    ConcatJoin(buf, a, b);
    ConcatJoin(buf, a + b, c);
    ConcatJoin(buf, a + b + c, d);
    ConcatStep(buf, a + b + c + d, "\n");
  }

  lemma GeneralJoin(buf: string, r: AnalysisResult)
    ensures buf + Rule + " 1. General information\n" + Rule + "\n"
          + ("This report has been generated by Cuckoo Sandbox " + r.info.version + ".\n")
          + ("The analysis started at: " + r.info.started + "\n")
          + ("The analysis lasted: " + r.info.duration + " seconds\n")
          + "\n"
          + ("File name: " + r.file.name + "\n")
          + ("File size: " + NatToString(r.file.size) + " bytes\n")
          + ("File type: " + r.file.fileType + "\n")
          + ("CRC32:     " + r.file.crc32 + "\n")
          + ("MD5:       " + r.file.md5 + "\n")
          + ("SHA-1:     " + r.file.sha1 + "\n")
          + ("SHA-256:   " + r.file.sha256 + "\n")
          + ("SHA-512:   " + r.file.sha512 + "\n")
          + ("Ssdeep:    " + r.file.ssdeep + "\n")
          + "\n"
         == buf + Concat(GeneralLines(r))
  {
    var title := Title(" 1. General information\n");
    var info := InfoLines(r.info);
    var file := FileLines(r.file);
    TitleJoin(buf, " 1. General information\n");
    var b1 := buf + Concat(title);
    Join4(b1, info[0], info[1], info[2], info[3]);
    assert info == [info[0], info[1], info[2], info[3]];
    ConcatJoin(buf, title, info);
    var b2 := buf + Concat(title + info);
    Join10(b2, file[0], file[1], file[2], file[3], file[4], file[5], file[6], file[7],
           file[8], file[9]);
    assert file == [file[0], file[1], file[2], file[3], file[4], file[5], file[6], file[7],
                    file[8], file[9]];
    ConcatJoin(buf, title + info, file);
  }

  lemma DroppedEntryJoin(buf: string, k: nat, d: FileInfo)
    ensures buf + DroppedHeading(k, d)
          + ("  File size: " + NatToString(d.size) + " bytes\n")
          + ("  File type: " + d.fileType + "\n")
          + ("  CRC32:     " + d.crc32 + "\n")
          + ("  MD5:       " + d.md5 + "\n")
          + ("  SHA-1:     " + d.sha1 + "\n")
          + ("  SHA-256:   " + d.sha256 + "\n")
          + ("  SHA-512:   " + d.sha512 + "\n")
          + ("  Ssdeep:    " + d.ssdeep + "\n")
          + "\n"
         == buf + Concat(DroppedEntry(k, d))
  {
    var e := DroppedEntry(k, d);
    Join10(buf, e[0], e[1], e[2], e[3], e[4], e[5], e[6], e[7], e[8], e[9]);
  }

  lemma DroppedJoin(buf: string, ds: seq<FileInfo>)
    ensures buf + Concat(Title(" 2. Dropped files\n")) + Concat(DroppedBody(ds)) + "\n"
         == buf + Concat(DroppedLines(ds))
  {
    var title := Title(" 2. Dropped files\n");
    ConcatJoin(buf, title, DroppedBody(ds));
    ConcatStep(buf, title + DroppedBody(ds), "\n");
  }

  lemma NetworkJoin(buf: string, n: Option<Network>)
    ensures buf + Concat(Title(" 5. Network analysis\n")) + "[5.1] DNS Requests:\n"
          + Concat(DnsBody(n)) + "\n" + "[5.2] HTTP Requests:\n" + Concat(HttpBody(n)) + "\n"
         == buf + Concat(NetworkLines(n))
  {
    var a := Title(" 5. Network analysis\n");
    var b := a + ["[5.1] DNS Requests:\n"];
    var c := b + DnsBody(n);
    var d := c + ["\n", "[5.2] HTTP Requests:\n"];
    var e := d + HttpBody(n);
    ConcatStep(buf, a, "[5.1] DNS Requests:\n");
    ConcatJoin(buf, b, DnsBody(n));
    ConcatStep(buf, c, "\n");
    ConcatStep(buf, c + ["\n"], "[5.2] HTTP Requests:\n");
    assert c + ["\n"] + ["[5.2] HTTP Requests:\n"] == d;
    ConcatJoin(buf, d, HttpBody(n));
    ConcatStep(buf, e, "\n");
  }

  lemma CallJoin(buf: string, c: Call)
    ensures buf + CallLine(c) + Concat(Each(c.arguments, ArgumentEntry))
         == buf + Concat(CallEntry(c))
  {
    ConcatOne(CallLine(c));
    ConcatJoin(buf, [CallLine(c)], Each(c.arguments, ArgumentEntry));
  }

  lemma ProcessJoin(buf: string, k: nat, p: Process)
    ensures buf + ProcessHeading(k, p) + Concat(Each(p.calls, CallEntry)) + "\n"
         == buf + Concat(ProcessEntry(k, p))
  {
    var h := [ProcessHeading(k, p)];
    ConcatOne(ProcessHeading(k, p));
    ConcatJoin(buf, h, Each(p.calls, CallEntry));
    ConcatStep(buf, h + Each(p.calls, CallEntry), "\n");
  }

  lemma BehaviorJoin(buf: string, ps: seq<Process>)
    requires |ps| > 0
    ensures buf + Concat(Title(" 4. Behavior analysis\n")) + Concat(Numbered(ps, ProcessEntry))
          + "\n"
         == buf + Concat(BehaviorLines(ps))
  {
    JoinClosed(buf, Title(" 4. Behavior analysis\n"), Numbered(ps, ProcessEntry), "\n");
  }

  lemma JoinClosed(buf: string, a: seq<string>, b: seq<string>, x: string)
    ensures buf + Concat(a) + Concat(b) + x == buf + Concat(a + (b + [x]))
  {
    ConcatJoin(buf, a, b);
    ConcatStep(buf, a + b, x);
    assert a + b + [x] == a + (b + [x]);
  }

  /** With no process the placeholder and the closing newline make one line. */
  lemma BehaviorEmptyJoin(buf: string)
    ensures buf + Concat(Title(" 4. Behavior analysis\n")) + "Nothing to display." + "\n"
         == buf + Concat(BehaviorLines([]))
  {
    assert "Nothing to display." + "\n" == Placeholder;
    ConcatStep(buf, Title(" 4. Behavior analysis\n"), Placeholder);
  }

  lemma ReportJoin(buf: string, r: AnalysisResult)
    ensures buf + Concat(HeaderLines(r.file)) + Concat(MenuLines(r)) + Concat(GeneralLines(r))
          + Concat(DroppedLines(r.dropped)) + Concat(NetworkLines(r.network))
          + Concat(BehaviorLines(r.processes))
         == buf + ReportText(r)
  {
    var a := HeaderLines(r.file);
    var b := a + MenuLines(r);
    var c := b + GeneralLines(r);
    var d := c + DroppedLines(r.dropped);
    var e := d + NetworkLines(r.network);
    ConcatJoin(buf, a, MenuLines(r));
    ConcatJoin(buf, b, GeneralLines(r));
    ConcatJoin(buf, c, DroppedLines(r.dropped));
    ConcatJoin(buf, d, NetworkLines(r.network));
    ConcatJoin(buf, e, BehaviorLines(r.processes));
  }
}
