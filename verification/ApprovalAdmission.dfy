/** Which invocations are let in at all: told from what the invocation brought with it, over
    every run. */
module ApprovalAdmission {
  import opened Wrappers
  import opened RequestScope
  import opened Texts
  import opened Approvals

  /** Reasons to turn an invocation away: a blank id, the service switched off or the SDK not
      ready, a tool not offered, no target to be made out, or arguments that somewhere name
      the application's own process or the whole desktop. */
  ghost predicate Barred(who: Who, args: Json, world: World) {
    || Blank(who.agent) || Blank(who.threadId) || Blank(who.turnId)
    || !world.enabled || !world.initialized || !world.offered || world.target.None?
    || (exists path :: DesktopAt(args, path)) || (exists path :: PidAt(args, path, world.pid))
  }

  lemma AdmissibleUnlessBarred(who: Who, args: Json, world: World)
    ensures Admissible(who, args, world) <==> !Barred(who, args, world)
  {
    TrimEmptyIffBlank(who.agent);
    TrimEmptyIffBlank(who.threadId);
    TrimEmptyIffBlank(who.turnId);
    ContainsDesktopIffSomewhere(args);
    ContainsPidIffSomewhere(args, world.pid);
  }

  /** The event an invocation began with. */
  function Beginning(es: seq<Event>, i: InvId): Option<Event> {
    if es == [] then None
    else
      var earlier, e := Beginning(es[..|es| - 1], i), es[|es| - 1];
      if earlier.None? && e.Begin? && e.inv == i then Some(e) else earlier
  }

  /** Where an invocation stands: turned away if barred, and otherwise failed or still about
      the target and the ids it brought, these trimmed. */
  ghost predicate StandsFor(invocation: Invocation, begin: Event)
    requires begin.Begin?
  {
    if Barred(begin.who, begin.args, begin.world) then invocation.Failed?
    else invocation.Failed? || invocation.auth == Auth(begin.world.target.value, Trim(begin.who.threadId), Trim(begin.who.turnId))
  }

  ghost predicate AdmittedAs(s: State, i: InvId, begin: Option<Event>) {
    && (begin.Some? ==> begin.value.Begin? && i in s.invocations && StandsFor(s.invocations[i], begin.value))
    && (begin.None? ==> i !in s.invocations)
  }

  lemma StepKeepsSubject(s: State, e: Event, i: InvId)
    requires i in s.invocations
    ensures i in Step(s, e).invocations
    ensures Step(s, e).invocations[i].Failed? || (!s.invocations[i].Failed? && Step(s, e).invocations[i].auth == s.invocations[i].auth)
  {
  }

  lemma BeginAdmits(s: State, e: Event)
    requires e.Begin? && e.inv !in s.invocations
    ensures e.inv in Step(s, e).invocations
    ensures Step(s, e).invocations[e.inv] ==
              if Barred(e.who, e.args, e.world) then Failed
              else Checked(Auth(e.world.target.value, Trim(e.who.threadId), Trim(e.who.turnId)))
  {
    AdmissibleUnlessBarred(e.who, e.args, e.world);
  }

  lemma OthersBeginNothing(s: State, e: Event, i: InvId)
    requires i !in s.invocations && !(e.Begin? && e.inv == i)
    ensures i !in Step(s, e).invocations
  {
  }

  /** In every run, whatever grants are stored and whatever the user says: an invocation that
      was barred when it began is never checked, never asks and never reaches the SDK; any
      other was let in with just what it brought. */
  lemma {:induction false} BarredNeverGetsIn(stored: map<Target, ReqId>, es: seq<Event>, i: InvId)
    ensures AdmittedAs(RunFrom(Start(stored), es), i, Beginning(es, i))
  {
    if es != [] {
      var before, e := es[..|es| - 1], es[|es| - 1];
      var s := RunFrom(Start(stored), before);
      BarredNeverGetsIn(stored, before, i);
      if Beginning(before, i).Some? {
        StepKeepsSubject(s, e, i);
      } else if e.Begin? && e.inv == i {
        BeginAdmits(s, e);
      } else {
        OthersBeginNothing(s, e, i);
      }
    }
  }
}
