/** Which requests `revoke_turn` takes: ids are joined with line breaks and compared by
    prefix (src-tauri/src/computer_control_service.rs). */
module ApprovalTurns {
  import opened Wrappers
  import opened Texts
  import opened Approvals

  function FirstLine(s: string): (line: string)
    ensures '\n' !in s ==> line == s
  {
    BeforeBreak(s);
    s[..IndexOf(s, '\n')]
  }

  lemma BeforeBreak(s: string)
    ensures IndexOf(s, '\n') <= |s|
    ensures IndexOf(s, '\n') < |s| ==> s[IndexOf(s, '\n')] == '\n'
    ensures '\n' !in s ==> IndexOf(s, '\n') == |s|
    ensures '\n' !in s[..IndexOf(s, '\n')]
  {
    if s != [] && s[0] != '\n' {
      BeforeBreak(s[1..]);
      assert s[..IndexOf(s, '\n')] == [s[0]] + s[1..][..IndexOf(s[1..], '\n')];
    }
  }

  /** A line and its break begin a text exactly if the line is the text's first. */
  lemma PrefixIffFirstLine(a: string, s: string, rest: string)
    requires '\n' !in a
    ensures a + "\n" <= s + "\n" + rest <==> a == FirstLine(s)
  {
    var text := s + "\n" + rest;
    var first := FirstLine(s);
    BeforeBreak(s);
    var after := text[|first| + 1..];
    assert text == first + ['\n'] + after;
    if a + "\n" <= text {
      var p := text[|a| + 1..];
      assert text == a + ['\n'] + p;
      SplitUnique(a, first, '\n', p, after);
    }
  }

  predicate WholeThread(turnId: Option<string>) { turnId.None? || Trim(turnId.value) == "" }

  /** A whole thread is revoked by its first line: so exactly if it has only one. */
  lemma ThreadPrefixIffFirstLine(threadId: string, turnId: Option<string>, r: ReqId, auth: Auth)
    requires WholeThread(turnId) && '\n' !in Trim(threadId)
    ensures Matches(Turn(threadId, turnId), r, auth) <==> Trim(threadId) == FirstLine(auth.threadId)
  {
    PrefixIffFirstLine(Trim(threadId), auth.threadId, auth.turnId + "\n");
    assert TurnText(auth) == auth.threadId + "\n" + (auth.turnId + "\n");
  }

  /** Comparing two lines by prefix is comparing the first, then the second. */
  lemma TwoLinePrefix(a: string, second: string, s: string, rest: string)
    requires (a + "\n" <= s + "\n" + rest) <==> a == s
    ensures a + "\n" + second <= s + "\n" + rest <==> a == s && second <= rest
  {
    var prefix, text := a + "\n" + second, s + "\n" + rest;
    if prefix <= text {
      assert a + "\n" == prefix[..|a| + 1] <= text;
      assert second == prefix[|a| + 1..] <= text[|a| + 1..] == rest;
    }
  }

  lemma TurnPrefixIffFirstLine(threadId: string, turnId: string, r: ReqId, auth: Auth)
    requires Trim(turnId) != "" && '\n' !in Trim(threadId) && '\n' !in Trim(turnId) && '\n' !in auth.threadId
    ensures Matches(Turn(threadId, Some(turnId)), r, auth) <==> auth.threadId == Trim(threadId) && Trim(turnId) == FirstLine(auth.turnId)
  {
    var a, b := Trim(threadId), Trim(turnId);
    var rest := auth.turnId + "\n" + "";
    assert TurnText(auth) == auth.threadId + "\n" + rest;
    PrefixIffFirstLine(a, auth.threadId, rest);
    PrefixIffFirstLine(b, auth.turnId, "");
    TwoLinePrefix(a, b + "\n", auth.threadId, rest);
    assert a + "\n" + b + "\n" == a + "\n" + (b + "\n");
  }

  /** For ids without line breaks, `revoke_turn` takes exactly the pending requests of that
      thread, or of that turn of it, and leaves every other pending. */
  lemma RevokeTurnIsExact(s: State, t: TaskId, threadId: string, turnId: Option<string>)
    requires t !in s.answerers
    requires '\n' !in Trim(threadId) && (turnId.Some? ==> '\n' !in Trim(turnId.value))
    requires forall r <- s.pending :: '\n' !in s.pending[r].threadId && '\n' !in s.pending[r].turnId
    ensures var s' := Step(s, Revoke(t, Turn(threadId, turnId)));
            forall r <- s.pending ::
              r !in s'.pending <==>
                s.pending[r].threadId == Trim(threadId) && (WholeThread(turnId) || s.pending[r].turnId == Trim(turnId.value))
  {
    forall r | r in s.pending
      ensures Matches(Turn(threadId, turnId), r, s.pending[r]) <==>
              s.pending[r].threadId == Trim(threadId) && (WholeThread(turnId) || s.pending[r].turnId == Trim(turnId.value))
    {
      if WholeThread(turnId) {
        ThreadPrefixIffFirstLine(threadId, turnId, r, s.pending[r]);
      } else {
        TurnPrefixIffFirstLine(threadId, turnId.value, r, s.pending[r]);
      }
    }
  }

  /** With a line break in a thread id the comparison reaches too far: revoking the different
      thread named by its first line takes its requests as well, unless that line has blanks
      at its ends, which are trimmed from the id given. */
  lemma LineBreakReachesTooFar(r: ReqId, auth: Auth)
    requires '\n' in auth.threadId
    ensures Matches(Turn(FirstLine(auth.threadId), None), r, auth) <==> Trim(FirstLine(auth.threadId)) == FirstLine(auth.threadId)
    ensures FirstLine(auth.threadId) != auth.threadId
  {
    BeforeBreak(auth.threadId);
    TrimMakesNone(FirstLine(auth.threadId), '\n');
    ThreadPrefixIffFirstLine(FirstLine(auth.threadId), None, r, auth);
  }

  /** Revoking everything leaves nothing pending; revoking one request takes just that one. */
  lemma RevokeAllAndOne(s: State, t: TaskId, r: ReqId)
    requires t !in s.answerers
    ensures Step(s, Revoke(t, All)).pending == map[]
    ensures Step(s, Revoke(t, One(r))).pending == s.pending - {r}
  {
    assert Taken(s, All) == s.pending.Keys;
    assert Taken(s, One(r)) == if r in s.pending then {r} else {};
  }
}
