/** The text the report serialiser produces, section by section, as lists of lines. */
module Render {
  import opened Results
  import opened Lines
  import opened Decimal

  /** `n` copies of `c`. */
  function Repeat(c: char, n: nat): (s: string)
    ensures |s| == n
    ensures forall i :: 0 <= i < n ==> s[i] == c
  {
    if n == 0 then "" else Repeat(c, n - 1) + [c]
  }

  /** The rule that frames every section title: 80 '=' and a newline. */
  const Rule: string := Repeat('=', 80) + "\n"

  /** The ASCII-art banner that opens the header, one string per line. */
  const Banner: seq<string> := [
      "                                       _                  \n",
      "                      ____ _   _  ____| |  _ ___   ___    \n",
      "                     / ___) | | |/ ___) |_/ ) _ \\ / _ \\ \n",
      "                    ( (___| |_| ( (___|  _ ( |_| | |_| |  \n",
      "                     \\____)____/ \\____)_| \\_)___/ \\___/\n",
      "\n",
      "                              Analysis Report\n",
      "                            <----------------->\n",
      "                             www.cuckoobox.org\n",
      "\n"]

  const Placeholder: string := "Nothing to display.\n"
  const IndentedPlaceholder: string := "  Nothing to display.\n"

  /** A section title between two rules, then a blank line. */
  function Title(t: string): seq<string>
  {
    [Rule, t, Rule, "\n"]
  }

  // ---- header

  /** The sample's name and MD5 between two rules, after the banner. */
  function HeaderFrame(f: FileInfo): seq<string>
  {
    [Rule, " Analysis of " + f.name + "\n", " MD5 " + f.md5 + "\n", Rule, "\n"]
  }

  /** The banner's ten lines, then the five lines of the name/MD5 frame. */
  function HeaderLines(f: FileInfo): (ls: seq<string>)
    ensures |ls| == 15 && ls[..10] == Banner
  {
    Banner + HeaderFrame(f)
  }

  // ---- content menu

  function MenuDroppedLine(k: nat, d: FileInfo): string
  {
    "        2." + NatToString(k) + " File: " + d.name + "\n"
  }

  function MenuDroppedEntry(k: nat, d: FileInfo): seq<string>
  {
    [MenuDroppedLine(k, d)]
  }

  function MenuProcessLine(k: nat, p: Process): string
  {
    "        4." + NatToString(k) + " Process: " + p.processName + " (" + p.processId + ")\n"
  }

  function MenuProcessEntry(k: nat, p: Process): seq<string>
  {
    [MenuProcessLine(k, p)]
  }

  const MenuTop: seq<string> :=
    Title(" Content Menu\n") + ["    1. General information\n", "    2. Dropped files\n"]

  /** The menu entries of the network and behaviour sections; they do not depend on input. */
  const MenuMiddle: seq<string> := [
      "    3. Network analysis\n",
      "        3.1 DNS requests\n",
      "        3.2 HTTP requests\n",
      "    4. Behavior analysis\n"]

  /** The content menu: its eleven fixed lines and one line per dropped file and per
      process. */
  function MenuLines(r: AnalysisResult): (ls: seq<string>)
    ensures |ls| == 11 + |r.dropped| + |r.processes|
  {
    NumberedSingle(r.dropped, MenuDroppedEntry);
    NumberedSingle(r.processes, MenuProcessEntry);
    MenuTop + Numbered(r.dropped, MenuDroppedEntry) + MenuMiddle
    + Numbered(r.processes, MenuProcessEntry) + ["\n"]
  }

  // ---- general information

  /** The version, start time and duration lines, then a blank line. */
  function InfoLines(i: Info): seq<string>
  {
    [ "This report has been generated by Cuckoo Sandbox " + i.version + ".\n",
      "The analysis started at: " + i.started + "\n",
      "The analysis lasted: " + i.duration + " seconds\n",
      "\n"]
  }

  function FileLines(f: FileInfo): seq<string>
  {
    [ "File name: " + f.name + "\n",
      "File size: " + NatToString(f.size) + " bytes\n",
      "File type: " + f.fileType + "\n",
      "CRC32:     " + f.crc32 + "\n",
      "MD5:       " + f.md5 + "\n",
      "SHA-1:     " + f.sha1 + "\n",
      "SHA-256:   " + f.sha256 + "\n",
      "SHA-512:   " + f.sha512 + "\n",
      "Ssdeep:    " + f.ssdeep + "\n",
      "\n"]
  }

  /** The title, four lines of analysis information and ten of the sample's fields. */
  function GeneralLines(r: AnalysisResult): (ls: seq<string>)
    ensures |ls| == 18
  {
    Title(" 1. General information\n") + InfoLines(r.info) + FileLines(r.file)
  }

  // ---- dropped files

  function DroppedHeading(k: nat, d: FileInfo): string
  {
    "[2." + NatToString(k) + "] \"" + d.name + "\":\n"
  }

  /** The heading of dropped file k, its eight indented fields and a blank line. */
  function DroppedEntry(k: nat, d: FileInfo): seq<string>
  {
    [ DroppedHeading(k, d),
      "  File size: " + NatToString(d.size) + " bytes\n",
      "  File type: " + d.fileType + "\n",
      "  CRC32:     " + d.crc32 + "\n",
      "  MD5:       " + d.md5 + "\n",
      "  SHA-1:     " + d.sha1 + "\n",
      "  SHA-256:   " + d.sha256 + "\n",
      "  SHA-512:   " + d.sha512 + "\n",
      "  Ssdeep:    " + d.ssdeep + "\n",
      "\n"]
  }

  function DroppedBody(ds: seq<FileInfo>): seq<string>
  {
    if |ds| > 0 then Numbered(ds, DroppedEntry) else [Placeholder]
  }

  /** The title, the entries or the placeholder, and a blank line: at least six lines. */
  function DroppedLines(ds: seq<FileInfo>): (ls: seq<string>)
    ensures |ls| >= 6
  {
    Title(" 2. Dropped files\n") + DroppedBody(ds) + ["\n"]
  }

  // ---- network analysis (titled 5 in the body, 3 in the menu)

  function DnsLine(d: DnsRecord): string
  {
    "  Hostname: " + d.hostname + ", IP: " + d.ip + "\n"
  }

  function DnsEntry(d: DnsRecord): seq<string>
  {
    [DnsLine(d)]
  }

  function HttpLine(h: HttpRecord): string
  {
    "  Host: " + h.host + ", Port: " + h.port + ", URI: " + h.uri + "\n"
  }

  function HttpEntry(h: HttpRecord): seq<string>
  {
    [HttpLine(h)]
  }

  function DnsBody(n: Option<Network>): seq<string>
  {
    if n.Some? && |n.value.dns| > 0 then Each(n.value.dns, DnsEntry) else [IndentedPlaceholder]
  }

  function HttpBody(n: Option<Network>): seq<string>
  {
    if n.Some? && |n.value.http| > 0 then Each(n.value.http, HttpEntry) else [IndentedPlaceholder]
  }

  /** The title, then the DNS and the HTTP subsections, each closed by a blank line: at least
      nine lines. */
  function NetworkLines(n: Option<Network>): (ls: seq<string>)
    ensures |ls| >= 9
  {
    Title(" 5. Network analysis\n") + ["[5.1] DNS Requests:\n"] + DnsBody(n)
    + ["\n", "[5.2] HTTP Requests:\n"] + HttpBody(n) + ["\n"]
  }

  // ---- behavior analysis

  function ArgumentLine(a: Argument): string
  {
    "      Argument: " + a.name + ", Value: " + a.value + "\n"
  }

  function ArgumentEntry(a: Argument): seq<string>
  {
    [ArgumentLine(a)]
  }

  function CallLine(c: Call): string
  {
    "  (" + c.timestamp + ") Function: " + c.api + ", Status: " + c.status
    + ", Return: " + c.returnValue + "\n"
  }

  /** A call line followed by one line per argument of the call. */
  function CallEntry(c: Call): seq<string>
  {
    [CallLine(c)] + Each(c.arguments, ArgumentEntry)
  }

  function ProcessHeading(k: nat, p: Process): string
  {
    "[4." + NatToString(k) + "] Process: " + p.processName + " (" + p.processId + "):\n"
  }

  /** The heading of process k, its calls in order, and a blank line. */
  function ProcessEntry(k: nat, p: Process): seq<string>
  {
    [ProcessHeading(k, p)] + Each(p.calls, CallEntry) + ["\n"]
  }

  /** With no process, the placeholder is written without its newline and the closing
      newline completes it: one line, with no blank line after it. */
  function BehaviorBody(ps: seq<Process>): seq<string>
  {
    if |ps| > 0 then Numbered(ps, ProcessEntry) + ["\n"] else [Placeholder]
  }

  /** The title, then the process entries or the placeholder: at least five lines. */
  function BehaviorLines(ps: seq<Process>): (ls: seq<string>)
    ensures |ls| >= 5
  {
    Title(" 4. Behavior analysis\n") + BehaviorBody(ps)
  }

  // ---- the whole report

  /** The sections in the order the report appends them. */
  function ReportLines(r: AnalysisResult): (ls: seq<string>)
    ensures |ls| >= 15 + 11 + 18 + 6 + 9 + 5
  {
    HeaderLines(r.file) + MenuLines(r) + GeneralLines(r) + DroppedLines(r.dropped)
    + NetworkLines(r.network) + BehaviorLines(r.processes)
  }

  /** Everything after the banner. */
  function BodyLines(r: AnalysisResult): seq<string>
  {
    HeaderFrame(r.file) + MenuLines(r) + GeneralLines(r) + DroppedLines(r.dropped)
    + NetworkLines(r.network) + BehaviorLines(r.processes)
  }

  /** The text one report adds to the buffer; it opens with the banner. */
  function ReportText(r: AnalysisResult): (s: string)
    ensures Concat(Banner) <= s
  {
    var f, m, g := HeaderFrame(r.file), MenuLines(r), GeneralLines(r);
    var d, n, b := DroppedLines(r.dropped), NetworkLines(r.network), BehaviorLines(r.processes);
    BannerRegroup(Banner, f, m, g, d, n, b);
    ConcatAppend(Banner, BodyLines(r));
    Concat(ReportLines(r))
  }
}
