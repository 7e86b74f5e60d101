/**
 Properties that relate several calls or several operations: `DetectOs`
 recovers the architecture that `uname -a` printed however the output is
 spaced, the two probes read the same command failure differently, and the
 concrete scenarios of the repository's tests.
 */
module InstallerProperties {
  import opened Wrappers
  import opened TextFields
  import opened RemoteOs
  import opened Sessions
  import opened Installer

  /** A session on which `uname -a` succeeds and prints `output`, and every
      other command fails. */
  function UnameSession(output: string): Session
  {
    Session(cmd => if cmd == UnameCmd then Reply(output, None) else Reply("", Some(RemoteErr("unscripted"))))
  }

  /** However `uname -a` spaces its fields, a supported architecture in the
      thirteenth field is detected as that platform, with no error. */
  lemma {:induction false} DetectOsFindsPrintedPlatform(
    ri: RemoteInstaller, words: seq<string>, gaps: seq<string>, os: RemoteOS)
    requires IsLayout(words, gaps)
    requires ri.client.Serving? && ri.client.session.reply(UnameCmd) == Reply(Layout(words, gaps), None)
    requires |words| >= MinFields && os.Supported() && words[ArchField] == ArchToken(os)
    ensures DetectOs(ri) == Observed(Ret(Some(os), None), [UnameCmd], 1)
  {
    FieldsOfLayout(words, gaps);
  }

  /** A thirteenth field that is neither "x86_64" nor "arm64" is reported
      back, verbatim, in an unexpected-architecture error. */
  lemma {:induction false} DetectOsNamesUnknownArch(ri: RemoteInstaller, words: seq<string>, gaps: seq<string>)
    requires IsLayout(words, gaps)
    requires ri.client.Serving? && ri.client.session.reply(UnameCmd) == Reply(Layout(words, gaps), None)
    requires |words| >= MinFields && words[ArchField] != "x86_64" && words[ArchField] != "arm64"
    ensures DetectOs(ri) == Observed(Ret(None, Some(UnexpectedCpuArch(words[ArchField]))), [UnameCmd], 1)
  {
    FieldsOfLayout(words, gaps);
  }

  /** Output with fewer than thirteen fields is an output-format error, and
      no platform. */
  lemma {:induction false} DetectOsRejectsShortOutput(ri: RemoteInstaller, words: seq<string>, gaps: seq<string>)
    requires IsLayout(words, gaps)
    requires ri.client.Serving? && ri.client.session.reply(UnameCmd) == Reply(Layout(words, gaps), None)
    requires |words| < MinFields
    ensures DetectOs(ri) == Observed(Ret(None, Some(UnexpectedOutputFormat)), [UnameCmd], 1)
  {
    FieldsOfLayout(words, gaps);
  }

  /** The asymmetry between the two probes: when the probe command fails
      with error `e`, `AgentExists` answers "false" and passes `e` along,
      while `DaemonRegistered` gives no answer, only `e`. */
  lemma ProbesReadFailureDifferently(ri: RemoteInstaller, os: RemoteOS, e: RemoteErr)
    requires ri.client.Serving? && os.Supported()
    requires ri.client.session.reply(TestAgentCmd).err == Some(e)
    requires ri.client.session.reply(ListDaemonCmd).err == Some(e)
    ensures AgentExists(ri, os).returned == Ret(Some(false), Some(Remote(e)))
    ensures DaemonRegistered(ri, os).returned == Ret(None, Some(Remote(e)))
  {
  }

  /** `AgentExists` looks only at whether `test -f` failed, never at what it
      printed: two hosts that agree on that give the same answer. */
  lemma AgentExistsIgnoresOutput(ri: RemoteInstaller, other: RemoteInstaller, os: RemoteOS)
    requires ri.client.Serving? && other.client.Serving?
    requires ri.client.session.reply(TestAgentCmd).err == other.client.session.reply(TestAgentCmd).err
    ensures AgentExists(ri, os) == AgentExists(other, os)
  {
  }

  /** `DaemonRegistered` looks only at whether the listing failed and whether
      it printed anything: two hosts that agree on both give the same answer. */
  lemma DaemonRegisteredSeesOnlyEmptiness(ri: RemoteInstaller, other: RemoteInstaller, os: RemoteOS)
    requires ri.client.Serving? && other.client.Serving?
    requires ri.client.session.reply(ListDaemonCmd).err == other.client.session.reply(ListDaemonCmd).err
    requires (ri.client.session.reply(ListDaemonCmd).output == "") ==
             (other.client.session.reply(ListDaemonCmd).output == "")
    ensures DaemonRegistered(ri, os) == DaemonRegistered(other, os)
  {
  }

  /** No operation runs a command on a platform it cannot handle, yet each
      of them has opened, and closes, a session by then. */
  lemma UnsupportedPlatformIssuesNothing(ri: RemoteInstaller, os: RemoteOS)
    requires ri.client.Serving? && !os.Supported() && os !in ri.binaryUrl
    ensures AgentExists(ri, os).issued == [] && AgentExists(ri, os).closes == 1
    ensures DaemonRegistered(ri, os).issued == [] && DaemonRegistered(ri, os).closes == 1
    ensures Install(ri, os).issued == [] && Install(ri, os).closes == 1
  {
  }

  /** For output printed with single spaces: a supported architecture in
      the thirteenth word is detected as that platform. This is the case of
      `DetectOsFindsPrintedPlatform` whose gaps are single spaces. */
  lemma DetectOsReadsJoinedWords(ri: RemoteInstaller, words: seq<string>, os: RemoteOS)
    requires ri.client.Serving? && ri.client.session.reply(UnameCmd) == Reply(Join(words), None)
    requires forall i :: 0 <= i < |words| ==> IsWord(words[i])
    requires |words| >= MinFields && os.Supported() && words[ArchField] == ArchToken(os)
    ensures DetectOs(ri) == Observed(Ret(Some(os), None), [UnameCmd], 1)
  {
    JoinIsLayout(words);
    DetectOsFindsPrintedPlatform(ri, words, SingleSpaces("", |words|), os);
  }

  /** The fields of the `uname -a` output the detection test scripts; that
      output is these words separated by single spaces. */
  const TestUnameWords := ["Linux", "test", "4.15.0-106-generic", "#107-Ubuntu", "SMP", "Thu", "Jun",
    "4", "11:27:52", "UTC", "2020", "x86_64", "x86_64", "x86_64", "GNU/Linux"]

  /** The detection test: its `uname -a` output is read as x86_64, after
      exactly one command on a session that is then closed. */
  lemma DetectOsTestScenario()
    ensures DetectOs(RemoteInstaller(Serving(UnameSession(Join(TestUnameWords))), map[]))
              == Observed(Ret(Some(OSLinux_64_86), None), [UnameCmd], 1)
  {
    var ri := RemoteInstaller(Serving(UnameSession(Join(TestUnameWords))), map[]);
    TestUnameWordsAreWords();
    DetectOsReadsJoinedWords(ri, TestUnameWords, OSLinux_64_86);
  }

  /** The test's `uname -a` words are fifteen words with "x86_64" at index 12. */
  lemma TestUnameWordsAreWords()
    ensures |TestUnameWords| == 15 && TestUnameWords[ArchField] == "x86_64"
    ensures forall i :: 0 <= i < |TestUnameWords| ==> IsWord(TestUnameWords[i])
  {
  }

  /** A session scripted like the tests' mocks: each scripted command gets
      its scripted reply, and any other command fails. */
  function Scripted(script: map<string, Reply>): Session
  {
    Session(cmd => if cmd in script then script[cmd] else Reply("", Some(RemoteErr("unexpected call"))))
  }

  /** The agent test: `test -f` succeeds with empty output, so the agent
      exists and there is no error. */
  lemma AgentExistsTestScenario()
    ensures AgentExists(RemoteInstaller(Serving(Scripted(map[TestAgentCmd := Reply("", None)])), map[]), OSLinux_64_86)
              == Observed(Ret(Some(true), None), ["test -f /usr/local/bin/daytona"], 1)
  {
  }

  /** The registration test: the listing prints a unit line, so the daemon
      is registered and there is no error. */
  lemma DaemonRegisteredTestScenario()
    ensures DaemonRegistered(RemoteInstaller(Serving(Scripted(map[ListDaemonCmd := Reply("daytona.service loaded active running", None)])), map[]), OSLinux_64_86)
              == Observed(Ret(Some(true), None), ["systemctl list-units --type=service | grep daytona"], 1)
  {
  }

  const TestUrls := map[OSLinux_64_86 := "https://example.com/linux_64_86_binary",
                        OSLinux_arm64 := "https://example.com/linux_arm64_binary"]

  /** The install test: both commands succeed, the download command is the
      test's expected text (fixed prefix, the x86_64 URL, fixed suffix), and
      `chmod` follows it. */
  lemma InstallTestScenario()
    ensures Install(RemoteInstaller(Serving(Scripted(map[
                DownloadCommand(TestUrls[OSLinux_64_86]) := Reply("", None),
                ChmodCmd := Reply("", None)])), TestUrls), OSLinux_64_86)
              == Observed(None, [
                "curl -o /tmp/daytona_install.tar.gz " + "https://example.com/linux_64_86_binary"
                  + " | tar -xz -C /tmp -f /tmp/daytona_install.tar.gz && mv /tmp/daytona /usr/local/bin",
                "chmod +x /usr/local/bin/daytona"], 1)
  {
  }
}
