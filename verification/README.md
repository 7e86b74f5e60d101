# remote-installer, modelled in Dafny

This project models `RemoteInstaller`, the Go component that provisions the
`daytona` agent binary on a remote Linux host over SSH. The component does
four strictly sequential things, each on a session of its own:

- `DetectOs` runs `uname -a` and reads the platform from its thirteenth
  white-space separated field;
- `AgentExists` runs `test -f /usr/local/bin/daytona`;
- `DaemonRegistered` runs `systemctl list-units --type=service | grep daytona`;
- `Install` looks the platform's download URL up, then runs the
  download-extract-move command and `chmod +x`.

The SSH client and session are abstract. A `Client` either refuses to open a
session (with an error) or serves a `Session`, and a session is a scripted
oracle from command text to `Reply` (output, optional error). Each operation
is a pure function from the installer (client plus URL table) and, for
three of them, a platform to an `Observed` value. That value holds what the Go method returns, the commands
it issued in order, and how many times it closed its session. Go's `(*T,
error)` pairs are `Ret(value, err)` with both halves optional, because
`AgentExists` really does return a value and an error together.

Files:

- `wrappers.dfy`: `Option`.
- `fields.dfy`: module `TextFields`. This is Go's `strings.Fields`: the
  definition `Fields`, its inverse constructions `Layout` and `Join`, the
  round-trip and content lemmas, and the single-pass loop `SplitFields`
  proved equal to `Fields`.
- `remote_os.dfy`: module `RemoteOs`. The `RemoteOS` enum (two named values
  plus `Other(code)` for every other Go `int`), its integer codes, and the
  architecture-token mapping.
- `sessions.dfy`: module `Sessions`. The client/session oracle, the
  observation record, the session discipline, and `RunInOrder`, which runs
  commands until the first failure.
- `installer.dfy`: module `Installer`. The four operations and the command
  texts.
- `properties.dfy`: module `InstallerProperties`. Lemmas relating operations
  to each other and to the text `uname -a` prints, plus the four scenarios
  of `remote_installer_test.go`.

The model follows the code as written. Points where the code may surprise a
reader:

- `AgentExists` and `DaemonRegistered` open the session before they look at
  the platform. An unsupported platform therefore opens and closes a session
  but issues no command.
- `Install` opens the session before it looks up the URL. A platform without
  a URL therefore opens and closes a session but issues no command.
- A failing command's error is passed on unchanged. There is no separate
  "command failed" error kind.
- When `test -f` fails, `AgentExists` returns `false` and the command's error
  together, not `false` alone.
- The output-format error carries neither the raw output nor the field count.

## Model

| member | source | states |
|---|---|---|
| TextFields.Fields | remote_installer.go:41 | every field is non-empty and free of white space, and there are never more fields than characters |
| TextFields.FieldsOfLayout | remote_installer.go:41 | words separated by any non-empty runs of white space, with optional leading and trailing white space, split back into exactly those words |
| TextFields.FieldsOfJoin | remote_installer.go:41 | words joined with single spaces split back into exactly those words |
| TextFields.IsSpaceIsWhiteSpace | remote_installer.go:41 | the white space that splits fields is exactly Go's `unicode.IsSpace`: the code points of the Unicode White_Space table (tab through carriage return, space, U+0085, U+00A0, U+1680, U+2000 to U+200A, U+2028, U+2029, U+202F, U+205F, U+3000), and no others |
| TextFields.JoinIsLayout | remote_installer.go:41 | words joined with single spaces are a well-formed layout of those words, with no gap before or after and one space between |
| TextFields.LayoutOfFields | remote_installer.go:41 | every text is a well-formed layout of its own fields with the white space it contains as gaps, so the layout lemmas cover every possible `uname -a` output |
| TextFields.FieldsKeepContent | remote_installer.go:41 | the fields, concatenated, are the text with its white space removed: nothing is lost, reordered or invented |
| TextFields.FieldsSkipBlank | remote_installer.go:41 | leading white space never produces a field |
| TextFields.FieldsTakeWord | remote_installer.go:41 | a word followed by white space or by the end of the text is exactly the first field |
| TextFields.SplitFields | remote_installer.go:41 | the single left-to-right splitting pass returns exactly `Fields` of its input |
| RemoteOs.Code | remote_installer.go:22-27 | `OSLinux_64_86` is the integer 0 and `OSLinux_arm64` the integer 1, in both directions |
| RemoteOs.FromCode | remote_installer.go:22-27 | every Go integer is a `RemoteOS` value, with `Code` as inverse, and it is supported exactly when it is 0 or 1 |
| RemoteOs.CodeRoundTrip | remote_installer.go:22-27 | integers and `RemoteOS` values correspond one to one |
| RemoteOs.ArchOf | remote_installer.go:47-56 | exact match: "x86_64" if and only if `OSLinux_64_86`, "arm64" if and only if `OSLinux_arm64`, any other token names no platform |
| RemoteOs.ArchRoundTrip | remote_installer.go:47-53 | the token of a supported platform reads back as that platform |
| Sessions.RunInOrder | remote_installer.go:123-135 | the commands issued are a prefix of those given, in order; every issued command but the last succeeded; the run succeeds if and only if every command succeeds, and then all were issued; a failure carries the last issued command's error |
| Installer.ReadUname | remote_installer.go:41-56 | fewer than 13 fields gives the output-format error; field 12 equal to "x86_64" or "arm64" (and only then) gives that platform; any other field 12 gives an error naming it; exactly one of platform and error is returned |
| Installer.DetectOs | remote_installer.go:29-57 | a refused session gives its error, issues nothing and closes nothing; otherwise exactly `uname -a` is issued, the session is closed once, a command error is returned unchanged, and successful output is read as `ReadUname` states |
| Installer.AgentExists | remote_installer.go:59-81 | session closed once if opened; an unsupported platform gives the unexpected-os error with no command issued; for a supported platform only `test -f /usr/local/bin/daytona` is issued, and the answer is whether it succeeded, whatever it printed, with its error alongside when it failed |
| Installer.DaemonRegistered | remote_installer.go:83-109 | session closed once if opened; an unsupported platform gives the unexpected-os error with no command issued; for a supported platform only the `systemctl ... grep daytona` pipeline is issued; its failure is an error with no answer; its success answers whether the output is non-empty |
| Installer.DownloadCommand | remote_installer.go:123 | the configured URL is substituted verbatim and can be read back from the command |
| Installer.DownloadCommandInjective | remote_installer.go:123 | different URLs give different download commands |
| Installer.Install | remote_installer.go:111-136 | session closed once if opened; a platform without a URL gives the url-not-found error with no command issued; otherwise the download command with exactly the configured URL comes first, `chmod +x` is issued only if the download succeeded, the install succeeds if and only if both commands succeed, and a failure returns the failing command's error |
| InstallerProperties.DetectOsFindsPrintedPlatform | remote_installer.go:41-53 | however `uname -a` spaces its output, a supported architecture token in the thirteenth field is detected as that platform, with no error |
| InstallerProperties.DetectOsNamesUnknownArch | remote_installer.go:45-56 | any other thirteenth field is returned verbatim in the unexpected-architecture error |
| InstallerProperties.DetectOsRejectsShortOutput | remote_installer.go:41-44 | output with fewer than 13 fields gives the output-format error and no platform |
| InstallerProperties.DetectOsReadsJoinedWords | remote_installer.go:41-53 | output printed with single spaces and a supported token at field 12 is detected as that platform, as the single-space case of `DetectOsFindsPrintedPlatform` |
| InstallerProperties.ProbesReadFailureDifferently | remote_installer.go:66-105 | on the same command failure, `AgentExists` answers false and passes the error on, while `DaemonRegistered` gives no answer, only the error |
| InstallerProperties.AgentExistsIgnoresOutput | remote_installer.go:66-77 | the agent probe's answer and error depend only on whether `test -f` failed (and with what error), not on its output |
| InstallerProperties.DaemonRegisteredSeesOnlyEmptiness | remote_installer.go:90-105 | the registration probe's result depends only on whether the listing failed (and with what error) and whether its output is empty |
| InstallerProperties.UnsupportedPlatformIssuesNothing | remote_installer.go:59-121 | for a platform that is neither supported nor configured, all three platform operations issue no command but still close the session they opened |
| InstallerProperties.DetectOsTestScenario | remote_installer_test.go:32-54 | the detection test's `uname -a` output is read as `OSLinux_64_86` after exactly one command and one close |
| InstallerProperties.AgentExistsTestScenario | remote_installer_test.go:57-77 | a successful `test -f` with empty output means the agent exists, with no error |
| InstallerProperties.DaemonRegisteredTestScenario | remote_installer_test.go:80-100 | the output "daytona.service loaded active running" means registered, with no error |
| InstallerProperties.InstallTestScenario | remote_installer_test.go:103-130 | with both commands succeeding, install issues the download command carrying the x86_64 URL and then `chmod +x`, and returns no error |

## Left out

- The SSH transport, connection set-up and timeouts. They sit behind
  `SSHClient` and `SSHSession`, and the model replaces them with a scripted
  oracle. A session answers each command text the same way every time, which
  is enough because no operation issues the same command twice.
- The error returned by `Close()`. The code discards it through `defer`, so
  only the number of closes is tracked.
- The wording of `fmt.Errorf` messages. Errors are tagged kinds carrying the
  token or platform that the message prints.
- What the issued shell commands do on the remote host: the effects of
  `curl`, `tar`, `mv`, `chmod`, and pipeline exit status. Commands are opaque
  strings compared for equality.
- UTF-8 decoding of the command output. Output is modelled as a sequence of
  code points. Invalid bytes are not modelled; they could never match
  "x86_64" or "arm64" in any case.
- The width of Go's `int`. `Other(code)` takes any integer.
- The testify mock machinery of `remote_installer_test.go`. Only its inputs
  and expected results appear, as the `...TestScenario` lemmas.
- DetectOsTestScenario: gives the test's `uname -a` output as its fifteen
  words joined by single spaces (`Join`), not as one 100-character literal.
  Dafny cannot prove a literal that long equal to the joined words within its
  default resource limit. The text is the same.
- InstallTestScenario: writes the expected download command as three
  concatenated literals (prefix, URL, suffix) rather than one, for the same
  reason.
