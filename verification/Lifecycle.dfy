/** The delivery lifecycle delivered < read < acked under any sequence of recipient commands. */
module Lifecycle {
  import opened Prelude
  import opened Mailbox
  import opened MailboxSafety

  datatype Issued = Issued(command: Command, at: int)

  function ApplyAll(d: Delivery, issued: seq<Issued>): Delivery
    decreases |issued|
  {
    if issued == [] then d else ApplyAll(Apply(d, issued[0].command, issued[0].at), issued[1..])
  }

  function Rank(status: Status): nat {
    match status
    case Delivered => 0
    case Read => 1
    case Acked => 2
    case _ => 3
  }

  function CommandRank(command: Command): nat {
    if command == ReadCommand then 1 else 2
  }

  function Highest(start: nat, issued: seq<Issued>): (top: nat)
    ensures start <= top
    ensures forall i | 0 <= i < |issued| :: CommandRank(issued[i].command) <= top
    ensures top == start || exists i | 0 <= i < |issued| :: CommandRank(issued[i].command) == top
    decreases |issued|
  {
    if issued == [] then start
    else
      var r := CommandRank(issued[0].command);
      Highest(if r > start then r else start, issued[1..])
  }

  /** When the first command, or the first acknowledgement, was issued. */
  function FirstAt(issued: seq<Issued>, acksOnly: bool): Option<int>
    decreases |issued|
  {
    if issued == [] then None
    else if !acksOnly || issued[0].command == AckCommand then Some(issued[0].at)
    else FirstAt(issued[1..], acksOnly)
  }

  /** The status is the maximum of the commands, whatever their order or repetition. */
  lemma {:induction false} StatusIsHighest(d: Delivery, issued: seq<Issued>)
    requires Staged(d)
    ensures Staged(ApplyAll(d, issued))
    ensures Rank(ApplyAll(d, issued).status) == Highest(Rank(d.status), issued)
    decreases |issued|
  {
    if issued != [] {
      StatusIsHighest(Apply(d, issued[0].command, issued[0].at), issued[1..]);
    }
  }

  /** Each timestamp is written once: by the first command, and by the first acknowledgement. */
  lemma {:induction false} TimestampsWrittenOnce(d: Delivery, issued: seq<Issued>)
    requires Staged(d)
    ensures ApplyAll(d, issued).readAt == (if d.readAt.Some? then d.readAt else FirstAt(issued, false))
    ensures ApplyAll(d, issued).ackedAt == (if d.ackedAt.Some? then d.ackedAt else FirstAt(issued, true))
    decreases |issued|
  {
    if issued != [] {
      TimestampsWrittenOnce(Apply(d, issued[0].command, issued[0].at), issued[1..]);
    }
  }

  ghost predicate Ascending(issued: seq<Issued>) {
    forall i, j | 0 <= i <= j < |issued| :: issued[i].at <= issued[j].at
  }

  lemma {:induction false} FirstIsEarliest(issued: seq<Issued>)
    requires Ascending(issued) && FirstAt(issued, true).Some?
    ensures FirstAt(issued, false).Some? && FirstAt(issued, false).value <= FirstAt(issued, true).value
    decreases |issued|
  {
    if issued[0].command != AckCommand {
      forall i, j | 0 <= i <= j < |issued[1..]| ensures issued[1..][i].at <= issued[1..][j].at {
        assert issued[i + 1].at <= issued[j + 1].at;
      }
      FirstIsEarliest(issued[1..]);
      assert issued[0].at <= issued[1].at;
    }
  }

  /** A delivery that starts delivered and ends acked was read no later than it was acked. */
  lemma AckedWasRead(d: Delivery, issued: seq<Issued>)
    requires Staged(d) && d.status == Delivered && Ascending(issued)
    requires ApplyAll(d, issued).status == Acked
    ensures ApplyAll(d, issued).readAt.Some? && ApplyAll(d, issued).ackedAt.Some?
    ensures ApplyAll(d, issued).readAt.value <= ApplyAll(d, issued).ackedAt.value
  {
    StatusIsHighest(d, issued);
    TimestampsWrittenOnce(d, issued);
    FirstIsEarliest(issued);
  }

  // ----- Rows of the database -----

  /** The command an event issues for one delivery, if it does. */
  function OwnCommand(e: Event, agent: AgentId, message: MessageId): seq<Issued> {
    if e.Transition? && e.agent == agent && e.message == message then [Issued(e.command, e.at)] else []
  }

  function CommandsFor(events: seq<Event>, agent: AgentId, message: MessageId): seq<Issued>
    decreases |events|
  {
    if events == [] then []
    else OwnCommand(events[0], agent, message) + CommandsFor(events[1..], agent, message)
  }

  lemma {:induction false} ApplySplit(d: Delivery, first: seq<Issued>, second: seq<Issued>)
    ensures ApplyAll(d, first + second) == ApplyAll(ApplyAll(d, first), second)
    decreases |first|
  {
    if first == [] {
      assert first + second == second;
    } else {
      assert (first + second)[1..] == first[1..] + second;
      ApplySplit(Apply(d, first[0].command, first[0].at), first[1..], second);
    }
  }

  lemma StepRow(s: State, e: Event, n: nat)
    requires NumbersFresh(s) && n in s.db.deliveries
    ensures n in Step(s, e).db.deliveries
    ensures var d := s.db.deliveries[n];
            Step(s, e).db.deliveries[n] == ApplyAll(d, OwnCommand(e, d.recipient, d.message))
  {
    StepRows(s, e);
    if e.Finish? && e.id in s.running {
      assert Uncommitted(s, s.running[e.id].phase);
    }
  }

  lemma {:induction false} ApplyKeepsAddress(d: Delivery, issued: seq<Issued>)
    ensures ApplyAll(d, issued).recipient == d.recipient && ApplyAll(d, issued).message == d.message
    decreases |issued|
  {
    if issued != [] {
      ApplyKeepsAddress(Apply(d, issued[0].command, issued[0].at), issued[1..]);
    }
  }

  /** Through any run a delivery row changes only by its own recipient's commands, in their order. */
  lemma {:induction false} RowFollowsCommands(s: State, events: seq<Event>, n: nat)
    requires Inv(s) && n in s.db.deliveries
    ensures n in Run(s, events).db.deliveries
    ensures var d := s.db.deliveries[n];
            Run(s, events).db.deliveries[n] == ApplyAll(d, CommandsFor(events, d.recipient, d.message))
    decreases |events|
  {
    if events != [] {
      var d := s.db.deliveries[n];
      var t := Step(s, events[0]);
      StepRow(s, events[0], n);
      assert Inv(t) by { StepInv(s, events[0]); }
      var own := OwnCommand(events[0], d.recipient, d.message);
      ApplyKeepsAddress(d, own);
      RowFollowsCommands(t, events[1..], n);
      ApplySplit(d, own, CommandsFor(events[1..], d.recipient, d.message));
    }
  }

  /** In every run: the status is the highest command so far, and no status but the three occurs. */
  lemma StatusInEveryRun(s: State, events: seq<Event>, n: nat)
    requires Inv(s) && n in s.db.deliveries
    ensures var d := s.db.deliveries[n];
            var after := Run(s, events).db.deliveries;
            && n in after
            && after[n].status in {Delivered, Read, Acked}
            && Rank(after[n].status) == Highest(Rank(d.status), CommandsFor(events, d.recipient, d.message))
  {
    var d := s.db.deliveries[n];
    RowFollowsCommands(s, events, n);
    assert Staged(d);
    StatusIsHighest(d, CommandsFor(events, d.recipient, d.message));
  }
}
