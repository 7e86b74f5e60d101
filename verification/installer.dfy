/**
 The four operations of `RemoteInstaller`: detect the remote platform, probe
 for the agent binary, probe for its service registration, and install the
 binary. Each opens its own session first, closes it on every path once it is
 open, and issues at most two commands; each is a function from the
 installer (client oracle and URL table) and its argument to what the Go
 method returns, the commands it issued, and how often it closed the session.
 */
module Installer {
  import opened Wrappers
  import opened TextFields
  import opened RemoteOs
  import opened Sessions

  /** The errors the operations return. `Remote` carries an error of
      `NewSession` or `Output` unchanged; the others are the errors the
      installer itself creates, with the value their message names. */
  datatype Error =
    | Remote(cause: RemoteErr)
    | UnexpectedOutputFormat
    | UnexpectedCpuArch(token: string)
    | UnexpectedOs(os: RemoteOS)
    | UrlNotFound(os: RemoteOS)

  /** Go's `(*T, error)` result pair: either half may be nil. */
  datatype Ret<+T> = Ret(value: Option<T>, err: Option<Error>)

  /** The installer: the client it opens sessions with, and the download URL
      configured for each platform. */
  datatype RemoteInstaller = RemoteInstaller(client: Client, binaryUrl: map<RemoteOS, string>)

  const UnameCmd := "uname -a"
  const TestAgentCmd := "test -f /usr/local/bin/daytona"
  const ListDaemonCmd := "systemctl list-units --type=service | grep daytona"
  const ChmodCmd := "chmod +x /usr/local/bin/daytona"
  const DownloadPrefix := "curl -o /tmp/daytona_install.tar.gz "
  const DownloadSuffix := " | tar -xz -C /tmp -f /tmp/daytona_install.tar.gz && mv /tmp/daytona /usr/local/bin"

  /** `uname -a` must print at least this many fields ... */
  const MinFields := 13
  /** ... and the architecture is the field at this index. */
  const ArchField := 12

  /** What `DetectOs` makes of the text `uname -a` printed. */
  function ReadUname(output: string): (r: Ret<RemoteOS>)
    ensures r.value.Some? != r.err.Some?
    ensures |Fields(output)| < MinFields ==> r.err == Some(UnexpectedOutputFormat)
    ensures r.value == Some(OSLinux_64_86) <==>
              |Fields(output)| >= MinFields && Fields(output)[ArchField] == "x86_64"
    ensures r.value == Some(OSLinux_arm64) <==>
              |Fields(output)| >= MinFields && Fields(output)[ArchField] == "arm64"
    ensures |Fields(output)| >= MinFields && ArchOf(Fields(output)[ArchField]).None? ==>
              r.err == Some(UnexpectedCpuArch(Fields(output)[ArchField]))
  {
    var fields := Fields(output);
    if |fields| < MinFields then Ret(None, Some(UnexpectedOutputFormat))
    else
      var cpuArch := fields[ArchField];
      match ArchOf(cpuArch)
      case Some(os) => Ret(Some(os), None)
      case None => Ret(None, Some(UnexpectedCpuArch(cpuArch)))
  }

  /** `DetectOs`: one `uname -a` on a fresh session. */
  function DetectOs(ri: RemoteInstaller): (r: Observed<Ret<RemoteOS>>)
    ensures ClosedOnceIfOpened(ri.client, r)
    ensures ri.client.Refusing? ==> r.returned == Ret(None, Some(Remote(ri.client.cause)))
    ensures ri.client.Serving? ==> r.issued == [UnameCmd]
    ensures ri.client.Serving? && !Succeeds(ri.client.session, UnameCmd) ==>
              r.returned == Ret(None, Some(Remote(ri.client.session.reply(UnameCmd).err.value)))
    ensures ri.client.Serving? && Succeeds(ri.client.session, UnameCmd) ==>
              r.returned == ReadUname(ri.client.session.reply(UnameCmd).output)
  {
    match ri.client
    case Refusing(e) => Observed(Ret(None, Some(Remote(e))), [], 0)
    case Serving(s) =>
      var reply := s.reply(UnameCmd);
      match reply.err
      case Some(e) => Observed(Ret(None, Some(Remote(e))), [UnameCmd], 1)
      case None => Observed(ReadUname(reply.output), [UnameCmd], 1)
  }

  /** `AgentExists`: the session is opened before the platform is checked; a
      failing `test -f` reads as "not installed" and its error is returned
      alongside. */
  function AgentExists(ri: RemoteInstaller, os: RemoteOS): (r: Observed<Ret<bool>>)
    ensures ClosedOnceIfOpened(ri.client, r)
    ensures ri.client.Refusing? ==> r.returned == Ret(None, Some(Remote(ri.client.cause)))
    ensures ri.client.Serving? && !os.Supported() ==>
              r.issued == [] && r.returned == Ret(None, Some(UnexpectedOs(os)))
    ensures ri.client.Serving? && os.Supported() ==> r.issued == [TestAgentCmd]
    ensures ri.client.Serving? && os.Supported() ==>
              r.returned.value == Some(Succeeds(ri.client.session, TestAgentCmd))
    ensures ri.client.Serving? && os.Supported() && !Succeeds(ri.client.session, TestAgentCmd) ==>
              r.returned.err == Some(Remote(ri.client.session.reply(TestAgentCmd).err.value))
    ensures ri.client.Serving? && os.Supported() && Succeeds(ri.client.session, TestAgentCmd) ==>
              r.returned.err.None?
  {
    match ri.client
    case Refusing(e) => Observed(Ret(None, Some(Remote(e))), [], 0)
    case Serving(s) =>
      if os.Supported() then
        var reply := s.reply(TestAgentCmd);
        match reply.err
        case Some(e) => Observed(Ret(Some(false), Some(Remote(e))), [TestAgentCmd], 1)
        case None => Observed(Ret(Some(true), None), [TestAgentCmd], 1)
      else
        Observed(Ret(None, Some(UnexpectedOs(os))), [], 1)
  }

  /** `DaemonRegistered`: a failing `systemctl | grep` is an error with no
      answer; otherwise any output at all means "registered". */
  function DaemonRegistered(ri: RemoteInstaller, os: RemoteOS): (r: Observed<Ret<bool>>)
    ensures ClosedOnceIfOpened(ri.client, r)
    ensures ri.client.Refusing? ==> r.returned == Ret(None, Some(Remote(ri.client.cause)))
    ensures ri.client.Serving? && !os.Supported() ==>
              r.issued == [] && r.returned == Ret(None, Some(UnexpectedOs(os)))
    ensures ri.client.Serving? && os.Supported() ==> r.issued == [ListDaemonCmd]
    ensures ri.client.Serving? && os.Supported() && !Succeeds(ri.client.session, ListDaemonCmd) ==>
              r.returned == Ret(None, Some(Remote(ri.client.session.reply(ListDaemonCmd).err.value)))
    ensures ri.client.Serving? && os.Supported() && Succeeds(ri.client.session, ListDaemonCmd) ==>
              r.returned == Ret(Some(ri.client.session.reply(ListDaemonCmd).output != ""), None)
  {
    match ri.client
    case Refusing(e) => Observed(Ret(None, Some(Remote(e))), [], 0)
    case Serving(s) =>
      if os.Supported() then
        var reply := s.reply(ListDaemonCmd);
        match reply.err
        case Some(e) => Observed(Ret(None, Some(Remote(e))), [ListDaemonCmd], 1)
        case None => Observed(Ret(Some(reply.output != ""), None), [ListDaemonCmd], 1)
      else
        Observed(Ret(None, Some(UnexpectedOs(os))), [], 1)
  }

  /** The URL a download command fetches, if `cmd` has the shape of one. */
  function UrlOf(cmd: string): Option<string>
  {
    var p, q := |DownloadPrefix|, |DownloadSuffix|;
    if |cmd| >= p + q && cmd[..p] == DownloadPrefix && cmd[|cmd| - q..] == DownloadSuffix
    then Some(cmd[p..|cmd| - q])
    else None
  }

  /** The download, extract and move command, with `url` substituted
      verbatim (Go's `%s`). */
  function DownloadCommand(url: string): (cmd: string)
    ensures UrlOf(cmd) == Some(url)
  {
    var cmd := DownloadPrefix + url + DownloadSuffix;
    assert cmd[..|DownloadPrefix|] == DownloadPrefix;
    assert cmd[|cmd| - |DownloadSuffix|..] == DownloadSuffix;
    assert cmd[|DownloadPrefix|..|cmd| - |DownloadSuffix|] == url;
    cmd
  }

  /** Different URLs give different commands. */
  lemma DownloadCommandInjective(u: string, v: string)
    requires DownloadCommand(u) == DownloadCommand(v)
    ensures u == v
  {
    assert UrlOf(DownloadCommand(u)) == Some(u);
  }

  /** `Install`: the session is opened before the URL is looked up; then the
      download command and `chmod` run in that order, stopping at the first
      failure. */
  function Install(ri: RemoteInstaller, os: RemoteOS): (r: Observed<Option<Error>>)
    ensures ClosedOnceIfOpened(ri.client, r)
    ensures ri.client.Refusing? ==> r.returned == Some(Remote(ri.client.cause))
    ensures ri.client.Serving? && os !in ri.binaryUrl ==>
              r.issued == [] && r.returned == Some(UrlNotFound(os))
    ensures ri.client.Serving? && os in ri.binaryUrl ==>
              var s, download := ri.client.session, DownloadCommand(ri.binaryUrl[os]);
              && 1 <= |r.issued| <= 2
              && r.issued[0] == download
              && UrlOf(r.issued[0]) == Some(ri.binaryUrl[os])
              && (|r.issued| == 2 <==> Succeeds(s, download))
              && (|r.issued| == 2 ==> r.issued[1] == ChmodCmd)
              && (r.returned.None? <==> Succeeds(s, download) && Succeeds(s, ChmodCmd))
              && (r.returned.Some? ==>
                    r.returned == Some(Remote(s.reply(r.issued[|r.issued| - 1]).err.value)))
  {
    match ri.client
    case Refusing(e) => Observed(Some(Remote(e)), [], 0)
    case Serving(s) =>
      if os !in ri.binaryUrl then Observed(Some(UrlNotFound(os)), [], 1)
      else
        var cmds := [DownloadCommand(ri.binaryUrl[os]), ChmodCmd];
        var steps := RunInOrder(s, cmds);
        var returned := match steps.err
          case Some(e) => Some(Remote(e))
          case None => None;
        assert (forall i :: 0 <= i < |cmds| ==> Succeeds(s, cmds[i])) <==>
          Succeeds(s, cmds[0]) && Succeeds(s, cmds[1]);
        Observed(returned, steps.issued, 1)
  }
}
