/** The analysis result the text report is rendered from. Every "%s" field of the source is
    taken as already-rendered text; the sample size, printed with "%d", is a number. */
module Results {

  datatype Option<T> = None | Some(value: T)

  /** Metadata of the analysed sample or of a dropped file. */
  datatype FileInfo = FileInfo(
    name: string, size: nat, fileType: string, crc32: string, md5: string,
    sha1: string, sha256: string, sha512: string, ssdeep: string)

  /** Metadata of the analysis run. */
  datatype Info = Info(version: string, started: string, duration: string)

  datatype DnsRecord = DnsRecord(hostname: string, ip: string)

  datatype HttpRecord = HttpRecord(host: string, port: string, uri: string)

  datatype Network = Network(dns: seq<DnsRecord>, http: seq<HttpRecord>)

  datatype Argument = Argument(name: string, value: string)

  datatype Call = Call(
    timestamp: string, api: string, status: string, returnValue: string,
    arguments: seq<Argument>)

  datatype Process = Process(processName: string, processId: string, calls: seq<Call>)

  /** `network` is None when the result has no network block or an empty one: the two
      cases the source's truthiness test treats alike. */
  datatype AnalysisResult = AnalysisResult(
    file: FileInfo, info: Info, dropped: seq<FileInfo>, network: Option<Network>,
    processes: seq<Process>)

  /** Number of calls over all processes: every process's calls are among them, and there
      are none exactly when no process made a call. */
  function TotalCalls(ps: seq<Process>): (n: nat)
    ensures forall i :: 0 <= i < |ps| ==> |ps[i].calls| <= n
    ensures (n == 0) == (forall i :: 0 <= i < |ps| ==> |ps[i].calls| == 0)
  {
    if ps == [] then 0 else TotalCalls(ps[..|ps| - 1]) + |ps[|ps| - 1].calls|
  }

  /** Number of arguments over a call sequence. */
  function CallArguments(cs: seq<Call>): (n: nat)
    ensures forall i :: 0 <= i < |cs| ==> |cs[i].arguments| <= n
    ensures (n == 0) == (forall i :: 0 <= i < |cs| ==> |cs[i].arguments| == 0)
  {
    if cs == [] then 0 else CallArguments(cs[..|cs| - 1]) + |cs[|cs| - 1].arguments|
  }

  /** Number of arguments over all calls of all processes: every process's arguments are
      among them, and there are none exactly when no call had an argument. */
  function TotalArguments(ps: seq<Process>): (n: nat)
    ensures forall i :: 0 <= i < |ps| ==> CallArguments(ps[i].calls) <= n
    ensures (n == 0) == (forall i :: 0 <= i < |ps| ==> CallArguments(ps[i].calls) == 0)
  {
    if ps == [] then 0 else TotalArguments(ps[..|ps| - 1]) + CallArguments(ps[|ps| - 1].calls)
  }

  // Fields that contain no line break, so that every rendered line is exactly one line.

  predicate NoBreak(s: string)
  {
    '\n' !in s
  }

  predicate FileInfoNoBreak(f: FileInfo)
  {
    NoBreak(f.name) && NoBreak(f.fileType) && NoBreak(f.crc32) && NoBreak(f.md5)
    && NoBreak(f.sha1) && NoBreak(f.sha256) && NoBreak(f.sha512) && NoBreak(f.ssdeep)
  }

  predicate CallNoBreak(c: Call)
  {
    NoBreak(c.timestamp) && NoBreak(c.api) && NoBreak(c.status) && NoBreak(c.returnValue)
    && forall i :: 0 <= i < |c.arguments| ==>
         NoBreak(c.arguments[i].name) && NoBreak(c.arguments[i].value)
  }

  predicate ProcessNoBreak(p: Process)
  {
    NoBreak(p.processName) && NoBreak(p.processId)
    && forall i :: 0 <= i < |p.calls| ==> CallNoBreak(p.calls[i])
  }

  predicate NetworkNoBreak(n: Option<Network>)
  {
    n.Some? ==>
      (forall i :: 0 <= i < |n.value.dns| ==>
         NoBreak(n.value.dns[i].hostname) && NoBreak(n.value.dns[i].ip))
      && (forall i :: 0 <= i < |n.value.http| ==>
            NoBreak(n.value.http[i].host) && NoBreak(n.value.http[i].port)
            && NoBreak(n.value.http[i].uri))
  }

  predicate ResultNoBreak(r: AnalysisResult)
  {
    FileInfoNoBreak(r.file)
    && NoBreak(r.info.version) && NoBreak(r.info.started) && NoBreak(r.info.duration)
    && (forall i :: 0 <= i < |r.dropped| ==> FileInfoNoBreak(r.dropped[i]))
    && NetworkNoBreak(r.network)
    && (forall i :: 0 <= i < |r.processes| ==> ProcessNoBreak(r.processes[i]))
  }
}
