/**
 The installer's notion of a remote platform. In the Go code `RemoteOS` is a
 plain `int` with two named values (`OSLinux_64_86` = 0 and `OSLinux_arm64`
 = 1, numbered by `iota`), so every other integer is a legal value too; here
 those are `Other(code)`, and the subset type rules out a second spelling of
 the two named values.
 */
module RemoteOs {
  import opened Wrappers

  datatype OsValue = OSLinux_64_86 | OSLinux_arm64 | Other(code: int)
  {
    /** One of the two platforms the installer knows how to probe. */
    predicate Supported()
    {
      OSLinux_64_86? || OSLinux_arm64?
    }
  }

  type RemoteOS = os: OsValue | !os.Other? || (os.code != 0 && os.code != 1)
    witness OSLinux_64_86

  /** The integer Go stores for `os`. */
  function Code(os: RemoteOS): (n: int)
    ensures os == OSLinux_64_86 <==> n == 0
    ensures os == OSLinux_arm64 <==> n == 1
  {
    match os
    case OSLinux_64_86 => 0
    case OSLinux_arm64 => 1
    case Other(n) => n
  }

  /** The `RemoteOS` value Go means by the integer `n`. */
  function FromCode(n: int): (os: RemoteOS)
    ensures Code(os) == n
    ensures os.Supported() <==> n == 0 || n == 1
  {
    if n == 0 then OSLinux_64_86 else if n == 1 then OSLinux_arm64 else Other(n)
  }

  /** Integers and `RemoteOS` values correspond one to one. */
  lemma CodeRoundTrip(os: RemoteOS)
    ensures FromCode(Code(os)) == os
  {
  }

  /** The architecture token `uname -a` prints for a supported platform. */
  function ArchToken(os: RemoteOS): string
    requires os.Supported()
  {
    if os == OSLinux_64_86 then "x86_64" else "arm64"
  }

  /** The platform named by an architecture token, by exact comparison with
      "x86_64" and "arm64"; every other token names none. */
  function ArchOf(token: string): (r: Option<RemoteOS>)
    ensures r == Some(OSLinux_64_86) <==> token == "x86_64"
    ensures r == Some(OSLinux_arm64) <==> token == "arm64"
    ensures r.None? <==> token != "x86_64" && token != "arm64"
    ensures r.Some? ==> r.value.Supported() && ArchToken(r.value) == token
  {
    if token == "x86_64" then Some(OSLinux_64_86)
    else if token == "arm64" then Some(OSLinux_arm64)
    else None
  }

  /** Reading back the token of a supported platform gives that platform. */
  lemma ArchRoundTrip(os: RemoteOS)
    requires os.Supported()
    ensures ArchOf(ArchToken(os)) == Some(os)
  {
  }
}
