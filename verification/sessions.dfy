/**
 The remote shell, seen only through the two interfaces the installer uses:
 a client whose `NewSession` either fails or yields a session, and a session
 whose `Output(cmd)` returns the command's output or an error. The transport
 is a scripted oracle: a session is a total map from command text to reply.
 What an operation does to the remote host is observed as the ordered list of
 commands it issued and the number of times it closed its session.
 */
module Sessions {
  import opened Wrappers

  /** An error value produced by the transport; the model passes it on
      without looking inside. */
  datatype RemoteErr = RemoteErr(message: string)

  /** The result of one `Output(cmd)` call: the command's output and, when
      the command failed, its error. */
  datatype Reply = Reply(output: string, err: Option<RemoteErr>)

  /** A session: the reply the remote host gives to each command. */
  datatype Session = Session(reply: string -> Reply)

  /** What `NewSession` yields: an error, or an open session. */
  datatype Client = Refusing(cause: RemoteErr) | Serving(session: Session)

  /** What an operation returned, which commands it issued (in order), and
      how many times it closed its session. */
  datatype Observed<+R> = Observed(returned: R, issued: seq<string>, closes: nat)

  predicate Succeeds(s: Session, cmd: string)
  {
    s.reply(cmd).err.None?
  }

  /** The session discipline every operation follows: a session that was
      opened is closed exactly once on every path, and a session that could
      not be opened is never closed and receives no command. */
  predicate ClosedOnceIfOpened<R>(c: Client, o: Observed<R>)
  {
    && o.closes == (if c.Serving? then 1 else 0)
    && (c.Refusing? ==> o.issued == [])
  }

  /** Commands run one after the other on one session. */
  datatype Steps = Steps(issued: seq<string>, err: Option<RemoteErr>)

  /** Runs `cmds` in order on `s`, stopping at the first one that fails. */
  function RunInOrder(s: Session, cmds: seq<string>): (r: Steps)
    ensures |r.issued| <= |cmds| && r.issued == cmds[..|r.issued|]
    ensures forall i :: 0 <= i < |r.issued| - 1 ==> Succeeds(s, r.issued[i])
    ensures r.err.None? <==> forall i :: 0 <= i < |cmds| ==> Succeeds(s, cmds[i])
    ensures r.err.None? ==> r.issued == cmds
    ensures r.err.Some? ==> |r.issued| > 0 && s.reply(r.issued[|r.issued| - 1]).err == r.err
    decreases |cmds|
  {
    if |cmds| == 0 then Steps([], None)
    else
      var first := s.reply(cmds[0]);
      if first.err.Some? then Steps([cmds[0]], first.err)
      else
        var rest := RunInOrder(s, cmds[1..]);
        Steps([cmds[0]] + rest.issued, rest.err)
  }
}
