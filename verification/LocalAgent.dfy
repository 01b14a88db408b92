/** Commands sent to a local agent, with the agent's messages interleaved (apps/local_agents). */
module LocalAgent {
  import opened Options

  datatype Status = Pending | Sent | Succeeded | Failed | TimedOut

  /** The error column: empty, as the agent reported it, or as a timeout wrote it. */
  datatype Error = NoError | Reported(detail: nat) | Timeout(seen: Status)

  /** A command row; result 0 is the empty result. */
  datatype Command = Command(agent: nat, status: Status, result: nat, error: Error)

  /** One database write; each is atomic, and any number of them may fall between two reads of execute. */
  datatype Event =
    | Create(agent: nat)
    | Deliver(agent: nat, id: nat)
    | Report(agent: nat, id: nat, ok: bool, result: nat, error: Error)
    | Expire(id: nat, seen: Status)

  function NewCommand(agent: nat): Command {
    Command(agent, Pending, 0, NoError)
  }

  /** Does the write reach this row? The consumer's updates are filtered by primary key and agent. */
  predicate Reaches(e: Event, row: Command, id: nat) {
    match e
    case Create(_) => false
    case Deliver(agent, i) => i == id && agent == row.agent
    case Report(agent, i, _, _, _) => i == id && agent == row.agent
    case Expire(i, _) => i == id
  }

  function Written(row: Command, e: Event): Command {
    match e
    case Create(_) => row
    case Deliver(_, _) => row.(status := Sent)
    case Report(_, _, ok, result, error) =>
      row.(status := if ok then Succeeded else Failed, result := result, error := error)
    case Expire(_, seen) => row.(status := TimedOut, error := Timeout(seen))
  }

  function Touch(row: Command, id: nat, e: Event): Command {
    if Reaches(e, row, id) then Written(row, e) else row
  }

  /** One row after a history of writes. */
  function After(row: Command, id: nat, events: seq<Event>): (r: Command)
    ensures r.agent == row.agent
  {
    if events == [] then row else Touch(After(row, id, events[..|events| - 1]), id, events[|events| - 1])
  }

  /** The whole table after one write. */
  function Step(table: seq<Command>, e: Event): seq<Command> {
    if e.Create? then table + [NewCommand(e.agent)]
    else if e.id < |table| then table[e.id := Touch(table[e.id], e.id, e)]
    else table
  }

  function Steps(table: seq<Command>, events: seq<Event>): seq<Command> {
    if events == [] then table else Step(Steps(table, events[..|events| - 1]), events[|events| - 1])
  }

  /** Rows do not disturb each other: a row of the table evolves as it would alone. */
  lemma {:induction false} RowsAreIndependent(table: seq<Command>, id: nat, events: seq<Event>)
    requires id < |table|
    ensures id < |Steps(table, events)| && Steps(table, events)[id] == After(table[id], id, events)
  {
    if events != [] {
      RowsAreIndependent(table, id, events[..|events| - 1]);
    }
  }

  lemma {:induction false} StepsConcat(table: seq<Command>, a: seq<Event>, b: seq<Event>)
    ensures Steps(table, a + b) == Steps(Steps(table, a), b)
  {
    if b == [] {
      assert a + b == a;
    } else {
      var init := b[..|b| - 1];
      assert (a + b)[..|a + b| - 1] == a + init;
      StepsConcat(table, a, init);
    }
  }

  // ----- The last write decides -----

  /** Position k of the history is the last write that reached the row. */
  ghost predicate LastWrite(row: Command, id: nat, events: seq<Event>, k: nat) {
    k < |events| && Reaches(events[k], row, id) && forall j | k < j < |events| :: !Reaches(events[j], row, id)
  }

  ghost predicate Untouched(row: Command, id: nat, events: seq<Event>) {
    forall j | 0 <= j < |events| :: !Reaches(events[j], row, id)
  }

  function StatusWritten(e: Event): Status {
    match e
    case Create(_) => Pending
    case Deliver(_, _) => Sent
    case Report(_, _, ok, _, _) => if ok then Succeeded else Failed
    case Expire(_, _) => TimedOut
  }

  lemma {:induction false} UntouchedRow(row: Command, id: nat, events: seq<Event>)
    requires Untouched(row, id, events)
    ensures After(row, id, events) == row
  {
    if events != [] {
      UntouchedRow(row, id, events[..|events| - 1]);
    }
  }

  lemma {:induction false} StatusAfterLastWrite(row: Command, id: nat, events: seq<Event>, k: nat)
    requires LastWrite(row, id, events, k)
    ensures After(row, id, events).status == StatusWritten(events[k])
  {
    var n := |events| - 1;
    if k < n {
      StatusAfterLastWrite(row, id, events[..n], k);
    }
  }

  lemma {:induction false} SomeLastWrite(row: Command, id: nat, events: seq<Event>)
    requires !Untouched(row, id, events)
    ensures exists k: nat :: LastWrite(row, id, events, k)
  {
    var n := |events| - 1;
    if Reaches(events[n], row, id) {
      assert LastWrite(row, id, events, n);
    } else {
      SomeLastWrite(row, id, events[..n]);
      var k: nat :| LastWrite(row, id, events[..n], k);
      assert LastWrite(row, id, events, k);
    }
  }

  /** The status is the one of the last write, whatever happened before: deliveries overwrite results,
      late results overwrite timeouts. */
  lemma {:induction false} StatusIsLastWrite(row: Command, id: nat, events: seq<Event>)
    ensures Untouched(row, id, events) ==> After(row, id, events) == row
    ensures forall k: nat | LastWrite(row, id, events, k) :: After(row, id, events).status == StatusWritten(events[k])
    ensures Untouched(row, id, events) || exists k: nat :: LastWrite(row, id, events, k)
  {
    forall k: nat | LastWrite(row, id, events, k)
      ensures After(row, id, events).status == StatusWritten(events[k])
    {
      StatusAfterLastWrite(row, id, events, k);
    }
    if Untouched(row, id, events) {
      UntouchedRow(row, id, events);
    } else {
      SomeLastWrite(row, id, events);
    }
  }

  /** A result, once stored, survives everything but another report: neither a redelivery nor a timeout erases it. */
  lemma {:induction false} ResultIsLastReport(row: Command, id: nat, events: seq<Event>, k: nat)
    requires k < |events| && events[k].Report? && Reaches(events[k], row, id)
    requires forall j | k < j < |events| && Reaches(events[j], row, id) :: !events[j].Report?
    ensures After(row, id, events).result == events[k].result
  {
    var n := |events| - 1;
    if k < n {
      assert events[..n][k] == events[k];
      ResultIsLastReport(row, id, events[..n], k);
    }
  }

  /** The error is that of the last report or timeout: a redelivery keeps it. */
  lemma {:induction false} ErrorIsLastVerdict(row: Command, id: nat, events: seq<Event>, k: nat)
    requires k < |events| && (events[k].Report? || events[k].Expire?) && Reaches(events[k], row, id)
    requires forall j | k < j < |events| && Reaches(events[j], row, id) :: !events[j].Report? && !events[j].Expire?
    ensures After(row, id, events).error == if events[k].Report? then events[k].error else Timeout(events[k].seen)
  {
    var n := |events| - 1;
    if k < n {
      assert events[..n][k] == events[k];
      ErrorIsLastVerdict(row, id, events[..n], k);
    }
  }

  // ----- execute -----

  datatype Outcome = Offline | Returned(result: nat) | Refused(error: Error, result: nat) | GaveUp(seen: Status)

  /** What a poll makes of the row it reads. */
  function Verdict(row: Command): Option<Outcome> {
    if row.status == Succeeded then Some(Returned(row.result))
    else if row.status == Failed then Some(Refused(row.error, row.result))
    else None
  }

  /** Writes by others never expire the command that this execution waits for. */
  ghost predicate Foreign(id: nat, events: seq<Event>) {
    forall j | 0 <= j < |events| :: !(events[j].Expire? && events[j].id == id)
  }

  function Joined(gaps: seq<seq<Event>>): seq<Event> {
    if gaps == [] then [] else Joined(gaps[..|gaps| - 1]) + gaps[|gaps| - 1]
  }

  /** Everything written between the creation of the command and its n-th poll (counted from 1). */
  function BeforePoll(gaps: seq<seq<Event>>, n: nat): seq<Event>
    requires n <= |gaps|
  {
    Joined(gaps[..n])
  }

  lemma BeforeNext(gaps: seq<seq<Event>>, n: nat)
    requires n < |gaps|
    ensures BeforePoll(gaps, n + 1) == BeforePoll(gaps, n) + gaps[n]
  {
    assert gaps[..n + 1][..n] == gaps[..n];
  }

  ghost predicate Silent(row: Command, id: nat, gaps: seq<seq<Event>>, n: nat)
    requires n <= |gaps|
  {
    Verdict(After(row, id, BeforePoll(gaps, n))) == None
  }

  /** The outcome of one execution: the first poll that finds a verdict, else the status at the final refresh. */
  ghost predicate Ends(agent: nat, id: nat, gaps: seq<seq<Event>>, late: seq<Event>, outcome: Outcome) {
    var row := NewCommand(agent);
    if outcome.GaveUp? then
      && (forall n | 1 <= n <= |gaps| :: Silent(row, id, gaps, n))
      && outcome.seen == After(row, id, Joined(gaps) + late).status
    else
      exists n: nat | 1 <= n <= |gaps| ::
        && (forall m | 1 <= m < n :: Silent(row, id, gaps, m))
        && Verdict(After(row, id, BeforePoll(gaps, n))) == Some(outcome)
  }

  /** What poll n + 1 reads. */
  lemma NextPoll(table: seq<Command>, id: nat, gaps: seq<seq<Event>>, n: nat)
    requires n < |gaps| && id < |table|
    ensures Steps(Steps(table, BeforePoll(gaps, n)), gaps[n]) == Steps(table, BeforePoll(gaps, n + 1))
    ensures id < |Steps(table, BeforePoll(gaps, n + 1))|
    ensures Steps(table, BeforePoll(gaps, n + 1))[id] == After(table[id], id, BeforePoll(gaps, n + 1))
  {
    BeforeNext(gaps, n);
    StepsConcat(table, BeforePoll(gaps, n), gaps[n]);
    RowsAreIndependent(table, id, BeforePoll(gaps, n + 1));
  }

  lemma {:induction false} ExpireLast(table: seq<Command>, id: nat, events: seq<Event>, seen: Status)
    requires id < |table|
    ensures id < |Steps(table, events)|
    ensures Steps(table, events + [Expire(id, seen)])
         == Steps(table, events)[id := Steps(table, events)[id].(status := TimedOut, error := Timeout(seen))]
  {
    RowsAreIndependent(table, id, events);
    StepsSnoc(table, events, Expire(id, seen));
  }

  lemma {:induction false} StepsSnoc(table: seq<Command>, events: seq<Event>, e: Event)
    ensures Steps(table, events + [e]) == Step(Steps(table, events), e)
  {
    assert (events + [e])[..|events|] == events;
  }

  /** The table of commands, written by the consumer of every agent and by every execution. */
  class CommandTable {
    var commands: seq<Command>

    constructor ()
      ensures commands == []
    {
      commands := [];
    }

    method MarkCommandSent(agent: nat, id: nat)
      modifies this
      ensures commands == Step(old(commands), Deliver(agent, id))
    {
      if id < |commands| && commands[id].agent == agent {
        commands := commands[id := commands[id].(status := Sent)];
      }
    }

    method StoreCommandResult(agent: nat, id: nat, ok: bool, result: nat, error: Error)
      modifies this
      ensures commands == Step(old(commands), Report(agent, id, ok, result, error))
    {
      if id < |commands| && commands[id].agent == agent {
        commands := commands[id := Command(agent, if ok then Succeeded else Failed, result, error)];
      }
    }

    /** Others write while an execution sleeps. */
    method Interleave(events: seq<Event>)
      modifies this
      ensures commands == Steps(old(commands), events)
    {
      for i := 0 to |events|
        invariant commands == Steps(old(commands), events[..i])
      {
        assert events[..i + 1][..i] == events[..i];
        match events[i] {
          case Create(agent) => commands := commands + [NewCommand(agent)];
          case Deliver(agent, id) => MarkCommandSent(agent, id);
          case Report(agent, id, ok, result, error) => StoreCommandResult(agent, id, ok, result, error);
          case Expire(id, seen) =>
            if id < |commands| {
              commands := commands[id := commands[id].(status := TimedOut, error := Timeout(seen))];
            }
        }
      }
      assert events[..|events|] == events;
    }

    /** execute: gaps[n] is what others write before poll n, late what they write before the final refresh,
        and later what they write between that refresh and the save of TIMED_OUT. */
    method Execute(
        agent: Option<nat>, gaps: seq<seq<Event>>, late: seq<Event>, later: seq<Event>)
      returns (outcome: Outcome)
      modifies this
      ensures agent == None ==> outcome == Offline && commands == old(commands)
      ensures agent.Some? ==> !outcome.Offline? && Ends(agent.value, |old(commands)|, gaps, late, outcome)
      ensures agent.Some? && !outcome.GaveUp? ==>
                exists n: nat | 1 <= n <= |gaps| ::
                  commands == Steps(old(commands) + [NewCommand(agent.value)], BeforePoll(gaps, n))
      ensures outcome.GaveUp? ==>
                commands == Steps(old(commands) + [NewCommand(agent.value)],
                                  Joined(gaps) + late + later + [Expire(|old(commands)|, outcome.seen)])
    {
      if agent == None {
        return Offline;
      }
      var id := |commands|;
      commands := commands + [NewCommand(agent.value)];
      ghost var start := commands;
      assert Joined(gaps[..0]) == [];
      for i := 0 to |gaps|
        invariant start == old(commands) + [NewCommand(agent.value)]
        invariant commands == Steps(start, BeforePoll(gaps, i))
        invariant forall n | 1 <= n <= i :: Silent(NewCommand(agent.value), id, gaps, n)
      {
        Interleave(gaps[i]);
        NextPoll(start, id, gaps, i);
        var command := commands[id];
        if command.status == Succeeded {
          return Returned(command.result);
        }
        if command.status == Failed {
          return Refused(command.error, command.result);
        }
      }
      assert gaps[..|gaps|] == gaps;
      Interleave(late);
      StepsConcat(start, Joined(gaps), late);
      RowsAreIndependent(start, id, Joined(gaps) + late);
      var seen := commands[id].status;
      Interleave(later);
      StepsConcat(start, Joined(gaps) + late, later);
      ExpireLast(start, id, Joined(gaps) + late + later, seen);
      commands := commands[id := commands[id].(status := TimedOut, error := Timeout(seen))];
      outcome := GaveUp(seen);
    }
  }

  // ----- What an outcome proves -----

  /** The write is a report by agent for command id that says what the outcome says. */
  predicate Says(e: Event, agent: nat, id: nat, outcome: Outcome) {
    && e.Report? && e.agent == agent && e.id == id
    && (if outcome.Returned? then e.ok && e.result == outcome.result
        else outcome.Refused? && !e.ok && e.result == outcome.result && e.error == outcome.error)
  }

  ghost predicate WasReported(agent: nat, id: nat, events: seq<Event>, outcome: Outcome) {
    exists k :: 0 <= k < |events| && Says(events[k], agent, id, outcome)
  }

  lemma WasReportedMore(agent: nat, id: nat, events: seq<Event>, more: seq<Event>, outcome: Outcome)
    requires WasReported(agent, id, events, outcome)
    ensures WasReported(agent, id, events + more, outcome)
  {
    var k :| 0 <= k < |events| && Says(events[k], agent, id, outcome);
    assert (events + more)[k] == events[k];
  }

  /** A verdict read from a row is one that the row's own agent reported. */
  lemma {:induction false} VerdictWasReported(agent: nat, id: nat, events: seq<Event>)
    requires Verdict(After(NewCommand(agent), id, events)).Some?
    ensures WasReported(agent, id, events, Verdict(After(NewCommand(agent), id, events)).value)
  {
    if events != [] {
      var n := |events| - 1;
      if Reaches(events[n], After(NewCommand(agent), id, events[..n]), id) {
        assert Says(events[n], agent, id, Verdict(After(NewCommand(agent), id, events)).value);
      } else {
        VerdictWasReported(agent, id, events[..n]);
        WasReportedMore(agent, id, events[..n], [events[n]], Verdict(After(NewCommand(agent), id, events)).value);
        assert events == events[..n] + [events[n]];
      }
    }
  }

  lemma {:induction false} BeforePollWithin(gaps: seq<seq<Event>>, n: nat, e: Event)
    requires n <= |gaps| && e in BeforePoll(gaps, n)
    ensures e in Joined(gaps)
    decreases |gaps| - n
  {
    if n == |gaps| {
      assert gaps[..n] == gaps;
    } else {
      BeforeNext(gaps, n);
      BeforePollWithin(gaps, n + 1, e);
    }
  }

  /** A returned result, and a reported failure, were stored earlier for this command by its own agent,
      in every interleaving. */
  lemma {:induction false} OutcomeWasReported(
      agent: nat, id: nat, gaps: seq<seq<Event>>, late: seq<Event>, outcome: Outcome)
    requires Ends(agent, id, gaps, late, outcome) && !outcome.GaveUp?
    ensures WasReported(agent, id, Joined(gaps), outcome)
  {
    var row := NewCommand(agent);
    var n: nat :| 1 <= n <= |gaps|
      && (forall m | 1 <= m < n :: Silent(row, id, gaps, m))
      && Verdict(After(row, id, BeforePoll(gaps, n))) == Some(outcome);
    VerdictWasReported(agent, id, BeforePoll(gaps, n));
    var before := BeforePoll(gaps, n);
    var k :| 0 <= k < |before| && Says(before[k], agent, id, outcome);
    BeforePollWithin(gaps, n, before[k]);
    assert before[k] in Joined(gaps);
  }

  /** "Timed out before it was delivered" is said exactly when no delivery and no report had reached the command
      by the final refresh. */
  lemma {:induction false} UndeliveredIff(
      agent: nat, id: nat, gaps: seq<seq<Event>>, late: seq<Event>, outcome: Outcome)
    requires Ends(agent, id, gaps, late, outcome) && outcome.GaveUp?
    ensures outcome.seen == Pending <==> Untouched(NewCommand(agent), id, Joined(gaps) + late)
  {
    var row := NewCommand(agent);
    var events := Joined(gaps) + late;
    StatusIsLastWrite(row, id, events);
    if !Untouched(row, id, events) {
      var k: nat :| LastWrite(row, id, events, k);
      assert StatusWritten(events[k]) != Pending;
    }
  }

  /** The last write that reached the command before poll n is a report. */
  ghost predicate ReportStands(agent: nat, id: nat, gaps: seq<seq<Event>>, n: nat)
    requires n <= |gaps|
  {
    exists k: nat :: LastWrite(NewCommand(agent), id, BeforePoll(gaps, n), k) && BeforePoll(gaps, n)[k].Report?
  }

  lemma StandingReportIsRead(agent: nat, id: nat, gaps: seq<seq<Event>>, n: nat)
    requires n <= |gaps|
    ensures !Silent(NewCommand(agent), id, gaps, n) <==> ReportStands(agent, id, gaps, n)
  {
    var row := NewCommand(agent);
    var events := BeforePoll(gaps, n);
    StatusIsLastWrite(row, id, events);
    if !Silent(row, id, gaps, n) {
      assert !Untouched(row, id, events);
      var k: nat :| LastWrite(row, id, events, k);
      assert events[k].Report?;
    }
  }

  /** An execution gives up exactly when no poll falls on a standing report. */
  lemma GivesUpIff(agent: nat, id: nat, gaps: seq<seq<Event>>, late: seq<Event>, outcome: Outcome)
    requires Ends(agent, id, gaps, late, outcome)
    ensures outcome.GaveUp? <==> forall n | 1 <= n <= |gaps| :: !ReportStands(agent, id, gaps, n)
  {
    var row := NewCommand(agent);
    forall n | 1 <= n <= |gaps|
      ensures Silent(row, id, gaps, n) <==> !ReportStands(agent, id, gaps, n)
    {
      StandingReportIsRead(agent, id, gaps, n);
    }
    if !outcome.GaveUp? {
      var n: nat :| 1 <= n <= |gaps|
        && (forall m | 1 <= m < n :: Silent(row, id, gaps, m))
        && Verdict(After(row, id, BeforePoll(gaps, n))) == Some(outcome);
      assert !Silent(row, id, gaps, n);
    }
  }

  /** If the channel does not redeliver a command after its report, a report stored before the last poll is never
      lost. */
  lemma {:induction false} ReportNotLost(
      agent: nat, id: nat, gaps: seq<seq<Event>>, late: seq<Event>, outcome: Outcome, k: nat)
    requires gaps != [] && Foreign(id, Joined(gaps)) && Ends(agent, id, gaps, late, outcome)
    requires k < |Joined(gaps)| && Joined(gaps)[k].Report? && Joined(gaps)[k].agent == agent && Joined(gaps)[k].id == id
    requires forall j | k < j < |Joined(gaps)| ::
        !(Joined(gaps)[j].Deliver? && Reaches(Joined(gaps)[j], NewCommand(agent), id))
    ensures !outcome.GaveUp?
  {
    var row := NewCommand(agent);
    var events := Joined(gaps);
    assert BeforePoll(gaps, |gaps|) == events by {
      assert gaps[..|gaps|] == gaps;
    }
    StatusIsLastWrite(row, id, events);
    assert Reaches(events[k], row, id);
    var last: nat :| LastWrite(row, id, events, last);
    assert last >= k && events[last].Report?;
    assert ReportStands(agent, id, gaps, |gaps|);
    GivesUpIff(agent, id, gaps, late, outcome);
  }

  /** Without that assumption a result can stay unseen: reported, then redelivered before the next poll. */
  lemma RedeliveryHidesResult(agent: nat, id: nat, result: nat)
    ensures Ends(agent, id, [[Deliver(agent, id), Report(agent, id, true, result, NoError), Deliver(agent, id)]], [],
        GaveUp(Sent))
  {
  }

  /** After giving up, the row says TIMED_OUT until the agent is heard again; a late report then replaces it. */
  lemma {:induction false} TimeoutIsOverwritten(agent: nat, id: nat, before: seq<Event>, seen: Status, more: seq<Event>)
    ensures var row := After(NewCommand(agent), id, before + [Expire(id, seen)] + more);
            && (Untouched(NewCommand(agent), id, more) ==> row.status == TimedOut)
            && (forall k: nat | LastWrite(NewCommand(agent), id, more, k) :: row.status == StatusWritten(more[k]))
  {
    var row := NewCommand(agent);
    var events := before + [Expire(id, seen)] + more;
    StatusIsLastWrite(row, id, events);
    var at := |before|;
    assert forall j | 0 <= j < |more| :: events[at + 1 + j] == more[j];
    if Untouched(row, id, more) {
      assert forall j | at < j < |events| :: events[j] == more[j - at - 1];
      assert LastWrite(row, id, events, at);
    }
    forall k: nat | LastWrite(row, id, more, k)
      ensures After(row, id, events).status == StatusWritten(more[k])
    {
      assert forall j | at < j < |events| :: events[j] == more[j - at - 1];
      assert LastWrite(row, id, events, at + 1 + k);
    }
  }
}
