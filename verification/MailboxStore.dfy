/**
  The messaging tables as one mutable store. Each method performs one step of a request, or one
  delivery transition, by updating the tables in place; its postcondition says that the tables
  moved exactly as the step function of Mailbox says.
 */
module MailboxStore {
  import opened Prelude
  import opened Mailbox
  import opened MailboxSafety
  import Admission

  class Store {
    var agents: map<AgentId, Agent>
    var messages: map<MessageId, Message>
    var deliveries: map<nat, Delivery>
    var keys: map<(AgentId, Key), KeyRow>
    var attachments: map<AttachmentId, Attachment>
    var counter: nat
    var nextAgent: AgentId
    var nextMessage: MessageId
    var locks: map<AgentId, RequestId>
    var running: map<RequestId, Running>
    var done: map<RequestId, Done>

    function Tables(): Db
      reads this
    {
      Db(agents, messages, deliveries, keys, attachments)
    }

    function View(): State
      reads this
    {
      State(Tables(), counter, nextAgent, nextMessage, locks, running, done)
    }

    constructor ()
      ensures View() == EMPTY
    {
      agents, messages, deliveries, keys, attachments := map[], map[], map[], map[], map[];
      counter, nextAgent, nextMessage := 0, 0, 0;
      locks, running, done := map[], map[], map[];
    }

    /** The request leaves the running set, drops its lock and records its answer. */
    method Stop(id: RequestId, outcome: Outcome)
      requires id in running
      modifies this`running, this`locks, this`done
      ensures View() == End(old(View()), id, outcome)
    {
      done := done[id := Done(running[id].call, outcome)];
      locks := map r | r in locks && locks[r] != id :: locks[r];
      running := running - {id};
    }

    /** Start a send or reply: a stored key answers at once. */
    method LookUp(id: RequestId, call: Call)
      requires id !in running && id !in done && call.sender in agents
      modifies this`running, this`done
      ensures View() == Step(old(View()), Begin(id, call))
    {
      if !ValidKey(call.key) {
        done := done[id := Done(call, InvalidKey)];
      } else if (call.sender, call.key) in keys {
        var row := keys[(call.sender, call.key)];
        done := done[id := Done(call, if row.request == call.request then Sent(row.message, true) else KeyConflict)];
      } else {
        running := running[id := Running(call, LookedUp)];
      }
    }

    /** Lock the recipient's row and decide under the lock whether the sender may deliver. */
    method LockRecipient(id: RequestId)
      requires id in running && running[id].phase.Resolved?
      modifies this`running, this`locks, this`done
      ensures View() == Step(old(View()), Lock(id))
      ensures forall r | LockedFor(old(View()), id, r) :: LockDecided(old(View()), View(), id, r)
    {
      LockDecides(View(), id);
      var x := running[id];
      var found := Find(Tables(), x.phase.locator, nextAgent);
      if found == None {
        Stop(id, RecipientNotFound);
      } else if found.value !in locks && x.call.sender in agents {
        var recipient := found.value;
        if !agents[recipient].active {
          Stop(id, RecipientNotFound);
        } else {
          var refusal := Refusal(Tables(), x.call.sender, recipient);
          if refusal.Some? {
            Stop(id, Denied(refusal.value));
          } else {
            running := running[id := x.(phase := Locked(recipient, x.phase.thread))];
            locks := locks[recipient := id];
          }
        }
      }
    }

    /** Flush message and delivery: the delivery draws its number from the sequence. */
    method Flush(id: RequestId, at: int)
      requires id in running && running[id].phase.Locked?
      modifies this`running, this`counter, this`nextMessage
      ensures View() == Step(old(View()), Insert(id, at))
    {
      var p := running[id].phase;
      counter := counter + 1;
      running := running[id := running[id].(phase := Inserted(p.recipient, p.thread, counter, nextMessage, at))];
      nextMessage := nextMessage + 1;
    }

    /**
      Bind each listed attachment with a conditional update, stopping at the first that is not
      available. All of them bind, or the caller rolls back.
     */
    method BindAttachments(sender: AgentId, ids: seq<AttachmentId>, message: MessageId) returns (ok: bool)
      modifies this`attachments
      ensures ok == Bindable(old(Tables()), sender, ids)
      ensures ok ==> attachments == Bind(old(attachments), ids, message)
    {
      if !Distinct(ids) {
        return false;
      }
      ghost var before := attachments;
      assert before == Bind(before, ids[..0], message);
      for i := 0 to |ids|
        invariant attachments == Bind(before, ids[..i], message)
        invariant forall a | a in ids[..i] :: a in before && before[a] == Attachment(sender, None)
      {
        var a := ids[i];
        assert a !in ids[..i];
        if a !in attachments || attachments[a] != Attachment(sender, None) {
          return false;
        }
        attachments := attachments[a := Attachment(sender, Some(message))];
        assert ids[..i + 1] == ids[..i] + [a];
      }
      assert ids[..|ids|] == ids;
      return true;
    }

    /** Bind, insert the key row and commit; every other way out rolls the tables back. */
    method Commit(id: RequestId)
      requires id in running && running[id].phase.Inserted?
      modifies this
      ensures View() == Step(old(View()), Finish(id))
    {
      var x := running[id];
      var p := x.phase;
      var sender, request := x.call.sender, x.call.request;
      var saved := attachments;
      var bound := BindAttachments(sender, request.content.attachments, p.id);
      if !bound {
        attachments := saved;
        Stop(id, AttachmentUnavailable);
      } else if (sender, x.call.key) in keys {
        attachments := saved;
        var row := keys[(sender, x.call.key)];
        Stop(id, if row.request == request then Sent(row.message, true) else KeyConflict);
      } else {
        var thread := if p.thread.Some? then p.thread.value else p.id;
        var parent := if request.Reply? then Some(request.parent) else None;
        messages := messages[p.id := Message(sender, request.content, thread, parent, p.at)];
        deliveries := deliveries[p.number := Delivery(p.id, p.recipient, Delivered, None, None)];
        keys := keys[(sender, x.call.key) := KeyRow(request, p.id)];
        Stop(id, Sent(p.id, false));
      }
    }

    /**
      A recipient's read or ack. The row moves by a conditional update; for the message's
      recipient this never fails, and for anyone else the message does not exist.
     */
    method TransitionDelivery(agent: AgentId, message: MessageId, command: Command, at: int)
      returns (result: Result<Delivery, Outcome>)
      requires TablesMatch(Tables())
      modifies this`deliveries
      ensures deliveries == ApplyWhere(old(deliveries), agent, message, command, at)
      ensures result.Err? <==> !IsRecipient(old(Tables()), agent, message)
      ensures result.Err? ==> result.error == MessageNotFound && deliveries == old(deliveries)
      ensures result.Ok? ==>
                && result.value.recipient == agent && result.value.message == message
                && result.value.status in {Read, Acked} && (command == AckCommand ==> result.value.status == Acked)
    {
      ghost var before := Tables();
      if !IsRecipient(Tables(), agent, message) {
        NoRowMoves(before, agent, message, command, at);
        return Err(MessageNotFound);
      }
      var n :| n in deliveries && deliveries[n].message == message && deliveries[n].recipient == agent;
      OneRowMoves(before, n, command, at);
      var d := UpdateRow(n, command, at);
      return Ok(d);
    }

    /** `UPDATE … WHERE status …` on one delivery row. */
    method UpdateRow(n: nat, command: Command, at: int) returns (d: Delivery)
      requires n in deliveries
      modifies this`deliveries
      ensures d == Apply(old(deliveries)[n], command, at) && deliveries == old(deliveries)[n := d]
    {
      d := deliveries[n];
      if command == ReadCommand {
        if d.status == Delivered {
          d := d.(status := Read, readAt := Coalesce(d.readAt, at));
        }
      } else {
        if d.status == Delivered || d.status == Read {
          d := d.(status := Acked, readAt := Coalesce(d.readAt, at), ackedAt := Coalesce(d.ackedAt, at));
        }
      }
      deliveries := deliveries[n := d];
    }
  }

  /** The row of agent `r` is free to be locked for this request. */
  ghost predicate LockedFor(s: State, id: RequestId, r: AgentId) {
    && Admission.AgentsKnown(s) && id in s.running && s.running[id].phase.Resolved?
    && s.running[id].call.sender in s.db.agents && r !in s.locks
    && Admission.Names(s.db, s.running[id].phase.locator, r)
  }

  /** The request goes on exactly when its sender is admissible, and is turned away otherwise. */
  ghost predicate LockDecided(s: State, t: State, id: RequestId, r: AgentId)
    requires LockedFor(s, id, r)
  {
    var sender := s.running[id].call.sender;
    && t.db == s.db && (id in t.running <==> Admission.Admissible(s.db, sender, r))
    && (id !in t.running ==> id in t.done && Admission.TurnedAway(s.db, sender, r, t.done[id].outcome))
  }

  lemma LockDecides(s: State, id: RequestId)
    ensures forall r | LockedFor(s, id, r) :: LockDecided(s, Step(s, Lock(id)), id, r)
  {
    forall r | LockedFor(s, id, r) ensures LockDecided(s, Step(s, Lock(id)), id, r) {
      Admission.LockDecides(s, id, r);
    }
  }

  lemma NoRowMoves(db: Db, agent: AgentId, message: MessageId, command: Command, at: int)
    requires !IsRecipient(db, agent, message)
    ensures ApplyWhere(db.deliveries, agent, message, command, at) == db.deliveries
  {
  }

  /** The conditional update meets one row, and leaves it read or acked. */
  lemma OneRowMoves(db: Db, n: nat, command: Command, at: int)
    requires TablesMatch(db) && n in db.deliveries
    ensures var d := db.deliveries[n];
            && db.deliveries[n := Apply(d, command, at)]
              == ApplyWhere(db.deliveries, d.recipient, d.message, command, at)
            && Apply(d, command, at).status in {Read, Acked}
            && (command == AckCommand ==> Apply(d, command, at).status == Acked)
  {
    assert Staged(db.deliveries[n]);
    var d := db.deliveries[n];
    forall m | m in db.deliveries && m != n ensures db.deliveries[m].message != d.message {
      assert OneDeliveryEach(db);
    }
  }
}
