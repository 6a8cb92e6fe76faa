/** Reading an inbox page by page while other requests keep writing. */
module Paging {
  import opened Prelude
  import opened Mailbox
  import opened MailboxSafety

  datatype StatusFilter = Unread | OnlyDelivered | OnlyRead | OnlyAcked

  datatype Filters = Filters(
    status: Option<StatusFilter>, sender: Option<Address>, kind: Option<MessageType>,
    priority: Option<Priority>, since: Option<int>)

  predicate StatusMatches(d: Delivery, status: Option<StatusFilter>) {
    match status
    case None => true
    case Some(Unread) => d.status == Delivered && d.readAt == None && d.ackedAt == None
    case Some(OnlyDelivered) => d.status == Delivered
    case Some(OnlyRead) => d.status == Read
    case Some(OnlyAcked) => d.status == Acked
  }

  predicate MessageMatches(db: Db, m: Message, f: Filters) {
    && (f.sender.Some? ==> m.sender in db.agents && db.agents[m.sender].address == f.sender.value)
    && (f.kind.Some? ==> m.content.kind == f.kind.value)
    && (f.priority.Some? ==> m.content.priority == f.priority.value)
    && (f.since.Some? ==> m.createdAt >= f.since.value)
  }

  predicate Selected(db: Db, agent: AgentId, f: Filters, n: nat) {
    && n in db.deliveries
    && db.deliveries[n].recipient == agent
    && db.deliveries[n].message in db.messages
    && StatusMatches(db.deliveries[n], f.status)
    && MessageMatches(db, db.messages[db.deliveries[n].message], f)
  }

  /** The members of a set above `lo` up to `hi`, in ascending order. */
  function Ascending(chosen: set<nat>, lo: nat, hi: nat): (numbers: seq<nat>)
    ensures forall i | 0 <= i < |numbers| :: lo < numbers[i] <= hi && numbers[i] in chosen
    ensures forall i, j | 0 <= i < j < |numbers| :: numbers[i] < numbers[j]
    ensures forall n | lo < n <= hi && n in chosen :: n in numbers
    decreases hi - lo
  {
    if lo >= hi then []
    else (if lo + 1 in chosen then [lo + 1] else []) + Ascending(chosen, lo + 1, hi)
  }

  function Chosen(db: Db, agent: AgentId, f: Filters): set<nat> {
    set n | n in db.deliveries && Selected(db, agent, f, n)
  }

  /** The selected numbers above `lo` up to `hi`, in ascending order. */
  function Numbers(db: Db, agent: AgentId, f: Filters, lo: nat, hi: nat): (numbers: seq<nat>)
    ensures forall i | 0 <= i < |numbers| :: lo < numbers[i] <= hi && Selected(db, agent, f, numbers[i])
    ensures forall i, j | 0 <= i < j < |numbers| :: numbers[i] < numbers[j]
    ensures forall n | lo < n <= hi && Selected(db, agent, f, n) :: n in numbers
  {
    Ascending(Chosen(db, agent, f), lo, hi)
  }

  datatype Page = Page(items: seq<nat>, next: Option<nat>, more: bool)

  /** One page: the query fetches one row more than the limit to learn whether another page follows. */
  function ListInbox(s: State, agent: AgentId, f: Filters, limit: nat, after: nat): Page {
    var rows := Numbers(s.db, agent, f, after, s.counter);
    var items := if |rows| > limit then rows[..limit] else rows;
    Page(items, if items == [] then None else Some(items[|items| - 1]), |rows| > limit)
  }

  // ----- Numbers as intervals -----

  lemma {:induction false} AscendingSplit(chosen: set<nat>, lo: nat, mid: nat, hi: nat)
    requires lo <= mid <= hi
    ensures Ascending(chosen, lo, hi) == Ascending(chosen, lo, mid) + Ascending(chosen, mid, hi)
    decreases mid - lo
  {
    if lo < mid {
      AscendingSplit(chosen, lo + 1, mid, hi);
    }
  }

  lemma {:induction false} AscendingCongruent(before: set<nat>, after: set<nat>, lo: nat, hi: nat)
    requires forall n | lo < n <= hi :: n in before <==> n in after
    ensures Ascending(before, lo, hi) == Ascending(after, lo, hi)
    decreases hi - lo
  {
    if lo < hi {
      AscendingCongruent(before, after, lo + 1, hi);
    }
  }

  /** Cutting the list after one of its numbers is the list up to that number. */
  lemma AscendingPrefix(chosen: set<nat>, lo: nat, hi: nat, k: nat)
    requires k < |Ascending(chosen, lo, hi)|
    ensures var all := Ascending(chosen, lo, hi); Ascending(chosen, lo, all[k]) == all[..k + 1]
  {
    var all := Ascending(chosen, lo, hi);
    AscendingSplit(chosen, lo, all[k], hi);
    var below := Ascending(chosen, lo, all[k]);
    var j :| 0 <= j < |below| && below[j] == all[k];
    assert j == k;
    assert below[|below| - 1] <= all[k];
  }

  lemma NumbersSplit(db: Db, agent: AgentId, f: Filters, lo: nat, mid: nat, hi: nat)
    requires lo <= mid <= hi
    ensures Numbers(db, agent, f, lo, hi) == Numbers(db, agent, f, lo, mid) + Numbers(db, agent, f, mid, hi)
  {
    AscendingSplit(Chosen(db, agent, f), lo, mid, hi);
  }

  lemma NumbersCongruent(before: Db, after: Db, agent: AgentId, f: Filters, lo: nat, hi: nat)
    requires forall n | lo < n <= hi :: Selected(before, agent, f, n) == Selected(after, agent, f, n)
    ensures Numbers(before, agent, f, lo, hi) == Numbers(after, agent, f, lo, hi)
  {
    AscendingCongruent(Chosen(before, agent, f), Chosen(after, agent, f), lo, hi);
  }

  lemma NumbersPrefix(db: Db, agent: AgentId, f: Filters, lo: nat, hi: nat, k: nat)
    requires k < |Numbers(db, agent, f, lo, hi)|
    ensures var all := Numbers(db, agent, f, lo, hi); Numbers(db, agent, f, lo, all[k]) == all[..k + 1]
  {
    AscendingPrefix(Chosen(db, agent, f), lo, hi, k);
  }

  // ----- What later events may do to what was already read -----

  ghost predicate Boundary(db: Db, agent: AgentId, n: nat) {
    n == 0 || (n in db.deliveries && db.deliveries[n].recipient == agent)
  }

  /** No event adds, removes or changes a selected number at or below a committed one. */
  lemma StepSelected(s: State, e: Event, agent: AgentId, f: Filters, c: nat, n: nat)
    requires Inv(s) && f.status == None && Boundary(s.db, agent, c) && n <= c
    ensures Selected(Step(s, e).db, agent, f, n) == Selected(s.db, agent, f, n)
  {
    var t := Step(s, e);
    StepGrows(s, e);
    if n in s.db.deliveries {
      var m := s.db.deliveries[n].message;
      if m in s.db.messages {
        StepAgents(s, e, s.db.messages[m].sender);
      }
    } else if n in t.db.deliveries {
      StepRows(s, e);
      assert OnTop(s.db, s.running[e.id].phase) && Uncommitted(s, s.running[e.id].phase);
    }
  }

  lemma {:induction false} RunStable(s: State, events: seq<Event>, agent: AgentId, f: Filters, c: nat)
    requires Inv(s) && f.status == None && Boundary(s.db, agent, c)
    ensures Boundary(Run(s, events).db, agent, c)
    ensures Numbers(Run(s, events).db, agent, f, 0, c) == Numbers(s.db, agent, f, 0, c)
    decreases |events|
  {
    if events != [] {
      var t := Step(s, events[0]);
      StepInv(s, events[0]);
      StepGrows(s, events[0]);
      forall n | 0 < n <= c ensures Selected(s.db, agent, f, n) == Selected(t.db, agent, f, n) {
        StepSelected(s, events[0], agent, f, c, n);
      }
      NumbersCongruent(s.db, t.db, agent, f, 0, c);
      RunStable(t, events[1..], agent, f, c);
    }
  }

  // ----- A reader that follows next_cursor -----

  /** Between two page requests anything may happen; each request chooses its own limit. */
  datatype Turn = Turn(meanwhile: seq<Event>, limit: nat)

  datatype Reading = Reading(state: State, cursor: nat, collected: seq<nat>, more: bool)

  ghost function Follow(r: Reading, agent: AgentId, f: Filters, turns: seq<Turn>): Reading
    decreases |turns|
  {
    if turns == [] then r
    else
      var state := Run(r.state, turns[0].meanwhile);
      var page := ListInbox(state, agent, f, turns[0].limit, r.cursor);
      var cursor := if page.next.Some? then page.next.value else r.cursor;
      Follow(Reading(state, cursor, r.collected + page.items, page.more), agent, f, turns[1..])
  }

  /** What has been collected is exactly what the inbox now holds up to the cursor. */
  ghost predicate UpToDate(r: Reading, agent: AgentId, f: Filters) {
    && Inv(r.state)
    && Boundary(r.state.db, agent, r.cursor)
    && r.collected == Numbers(r.state.db, agent, f, 0, r.cursor)
  }

  /** A non-empty page ends at a committed delivery and continues the list up to it. */
  lemma PageContinues(s: State, agent: AgentId, f: Filters, limit: nat, after: nat)
    requires after <= s.counter && ListInbox(s, agent, f, limit, after).items != []
    ensures var page := ListInbox(s, agent, f, limit, after);
            && Boundary(s.db, agent, page.next.value)
            && Numbers(s.db, agent, f, 0, page.next.value) == Numbers(s.db, agent, f, 0, after) + page.items
  {
    var all := Numbers(s.db, agent, f, after, s.counter);
    var k := |ListInbox(s, agent, f, limit, after).items| - 1;
    ListedUpTo(s.db, agent, f, after, s.counter, k);
    assert ListInbox(s, agent, f, limit, after).items == all[..k + 1];
  }

  lemma ListedUpTo(db: Db, agent: AgentId, f: Filters, after: nat, hi: nat, k: nat)
    requires after <= hi && k < |Numbers(db, agent, f, after, hi)|
    ensures var all := Numbers(db, agent, f, after, hi);
            && Selected(db, agent, f, all[k])
            && Numbers(db, agent, f, 0, all[k]) == Numbers(db, agent, f, 0, after) + all[..k + 1]
  {
    NumbersPrefix(db, agent, f, after, hi, k);
    NumbersSplit(db, agent, f, 0, after, Numbers(db, agent, f, after, hi)[k]);
  }

  lemma LastPage(s: State, agent: AgentId, f: Filters, limit: nat, after: nat)
    requires after <= s.counter && !ListInbox(s, agent, f, limit, after).more
    ensures Numbers(s.db, agent, f, 0, s.counter)
              == Numbers(s.db, agent, f, 0, after) + ListInbox(s, agent, f, limit, after).items
  {
    NumbersSplit(s.db, agent, f, 0, after, s.counter);
  }

  lemma PageExtends(s: State, agent: AgentId, f: Filters, limit: nat, after: nat)
    requires after <= s.counter
    ensures var page := ListInbox(s, agent, f, limit, after);
            && (page.next.Some? ==>
                  && Boundary(s.db, agent, page.next.value)
                  && Numbers(s.db, agent, f, 0, page.next.value) == Numbers(s.db, agent, f, 0, after) + page.items)
            && (page.next.None? ==> page.items == [])
            && (limit > 0 && !page.more ==>
                  Numbers(s.db, agent, f, 0, s.counter) == Numbers(s.db, agent, f, 0, after) + page.items)
  {
    if ListInbox(s, agent, f, limit, after).items != [] { PageContinues(s, agent, f, limit, after); }
    if !ListInbox(s, agent, f, limit, after).more { LastPage(s, agent, f, limit, after); }
  }

  lemma FollowOne(r: Reading, agent: AgentId, f: Filters, turn: Turn)
    ensures var state := Run(r.state, turn.meanwhile);
            var page := ListInbox(state, agent, f, turn.limit, r.cursor);
            Follow(r, agent, f, [turn]) ==
              Reading(state, if page.next.Some? then page.next.value else r.cursor, r.collected + page.items, page.more)
  {
    assert [turn][1..] == [];
  }

  lemma FollowFirst(r: Reading, agent: AgentId, f: Filters, turns: seq<Turn>)
    requires turns != []
    ensures Follow(r, agent, f, turns) == Follow(Follow(r, agent, f, [turns[0]]), agent, f, turns[1..])
  {
    FollowOne(r, agent, f, turns[0]);
  }

  /** The reader has everything there is. */
  ghost predicate Complete(r: Reading, agent: AgentId, f: Filters) {
    r.collected == Numbers(r.state.db, agent, f, 0, r.state.counter)
  }

  lemma TurnKeepsUpToDate(r: Reading, agent: AgentId, f: Filters, turn: Turn)
    requires f.status == None && UpToDate(r, agent, f)
    ensures var next := Follow(r, agent, f, [turn]);
            && UpToDate(next, agent, f)
            && (turn.limit > 0 && !next.more ==> Complete(next, agent, f))
  {
    RunInv(r.state, turn.meanwhile);
    RunStable(r.state, turn.meanwhile, agent, f, r.cursor);
    BelowCounter(Run(r.state, turn.meanwhile), agent, r.cursor);
    FollowOne(r, agent, f, turn);
    PageExtends(Run(r.state, turn.meanwhile), agent, f, turn.limit, r.cursor);
  }

  lemma BelowCounter(s: State, agent: AgentId, n: nat)
    requires Inv(s) && Boundary(s.db, agent, n)
    ensures n <= s.counter
  {
  }

  lemma NextTurn(r: Reading, agent: AgentId, f: Filters, turn: Turn) returns (next: Reading)
    requires f.status == None && UpToDate(r, agent, f)
    ensures next == Follow(r, agent, f, [turn]) && UpToDate(next, agent, f)
    ensures turn.limit > 0 && !next.more ==> Complete(next, agent, f)
  {
    TurnKeepsUpToDate(r, agent, f, turn);
    next := Follow(r, agent, f, [turn]);
  }

  lemma {:induction false} StaysUpToDate(r: Reading, agent: AgentId, f: Filters, turns: seq<Turn>)
    requires f.status == None && UpToDate(r, agent, f)
    ensures UpToDate(Follow(r, agent, f, turns), agent, f)
    decreases |turns|
  {
    if turns != [] {
      var next := NextTurn(r, agent, f, turns[0]);
      FollowFirst(r, agent, f, turns);
      StaysUpToDate(next, agent, f, turns[1..]);
    }
  }

  lemma FollowAfter(r: Reading, agent: AgentId, f: Filters, first: Turn, rest: seq<Turn>) returns (next: Reading)
    ensures next == Follow(r, agent, f, [first])
    ensures Follow(r, agent, f, [first] + rest) == Follow(next, agent, f, rest)
  {
    next := Follow(r, agent, f, [first]);
    FollowFirst(r, agent, f, [first] + rest);
    assert ([first] + rest)[1..] == rest;
  }

  lemma {:induction false} FollowSnoc(r: Reading, agent: AgentId, f: Filters, init: seq<Turn>, last: Turn)
    ensures Follow(r, agent, f, init + [last]) == Follow(Follow(r, agent, f, init), agent, f, [last])
    decreases |init|
  {
    if init == [] {
      assert init + [last] == [last];
    } else {
      var first, rest := init[0], init[1..];
      assert init == [first] + rest && init + [last] == [first] + (rest + [last]);
      var next := FollowAfter(r, agent, f, first, rest + [last]);
      var same := FollowAfter(r, agent, f, first, rest);
      FollowSnoc(next, agent, f, rest, last);
    }
  }

  lemma FollowLast(r: Reading, agent: AgentId, f: Filters, turns: seq<Turn>)
    requires turns != []
    ensures var n := |turns| - 1;
            Follow(r, agent, f, turns) == Follow(Follow(r, agent, f, turns[..n]), agent, f, [turns[n]])
  {
    var n := |turns| - 1;
    assert turns == turns[..n] + [turns[n]];
    FollowSnoc(r, agent, f, turns[..n], turns[n]);
  }

  lemma LastTurn(r: Reading, agent: AgentId, f: Filters, turns: seq<Turn>)
    requires f.status == None && UpToDate(r, agent, f) && turns != [] && turns[|turns| - 1].limit > 0
    ensures !Follow(r, agent, f, turns).more ==> Complete(Follow(r, agent, f, turns), agent, f)
  {
    var n := |turns| - 1;
    FollowLast(r, agent, f, turns);
    StaysUpToDate(r, agent, f, turns[..n]);
    var last := NextTurn(Follow(r, agent, f, turns[..n]), agent, f, turns[n]);
  }

  /**
    For every interleaving and every choice of limits, following the cursor without a status
    filter collects each committed matching delivery at or below the cursor exactly once and in
    order. When the last page said there was no more, nothing committed is missing.
   */
  lemma FollowingSkipsNothing(r: Reading, agent: AgentId, f: Filters, turns: seq<Turn>)
    requires f.status == None && UpToDate(r, agent, f)
    ensures UpToDate(Follow(r, agent, f, turns), agent, f)
    ensures turns != [] && turns[|turns| - 1].limit > 0 && !Follow(r, agent, f, turns).more ==>
              Complete(Follow(r, agent, f, turns), agent, f)
  {
    StaysUpToDate(r, agent, f, turns);
    if turns != [] && turns[|turns| - 1].limit > 0 { LastTurn(r, agent, f, turns); }
  }

  /**
    From the empty database on, spelled out: the collected numbers ascend, they are the matching
    ones up to the cursor, and all matching ones there are when the last page says no more follow.
   */
  lemma ReaderSeesEachDeliveryOnce(agent: AgentId, f: Filters, turns: seq<Turn>)
    requires f.status == None
    ensures var r := Follow(Reading(EMPTY, 0, [], false), agent, f, turns);
            && (forall i, j | 0 <= i < j < |r.collected| :: r.collected[i] < r.collected[j])
            && (forall n | 0 < n <= r.cursor :: n in r.collected <==> Selected(r.state.db, agent, f, n))
            && (turns != [] && turns[|turns| - 1].limit > 0 && !r.more ==>
                  forall n :: n in r.collected <==> Selected(r.state.db, agent, f, n))
  {
    EmptyInv();
    FollowingSkipsNothing(Reading(EMPTY, 0, [], false), agent, f, turns);
    var r := Follow(Reading(EMPTY, 0, [], false), agent, f, turns);
    var all := Numbers(r.state.db, agent, f, 0, r.cursor);
    assert r.collected == all;
    forall n: nat | Selected(r.state.db, agent, f, n) ensures 0 < n <= r.state.counter {
      assert NumbersFresh(r.state);
    }
  }

  /** Per recipient, numbers grow in commit order although the sequence is global. */
  lemma CommitOrderIsNumberOrder(s: State, e: Event, n: nat, m: nat)
    requires Inv(s) && n in s.db.deliveries && m !in s.db.deliveries && m in Step(s, e).db.deliveries
    requires Step(s, e).db.deliveries[m].recipient == s.db.deliveries[n].recipient
    ensures n < m
  {
    StepRows(s, e);
    assert OnTop(s.db, s.running[e.id].phase);
  }

  /** In every run, what becomes visible later to a recipient lies above everything visible before. */
  lemma LaterCommitsAreAbove(before: seq<Event>, after: seq<Event>, n: nat, m: nat)
    ensures var s := Run(EMPTY, before); var u := Run(s, after);
            n in s.db.deliveries && m !in s.db.deliveries && m in u.db.deliveries
            && n in u.db.deliveries && u.db.deliveries[m].recipient == u.db.deliveries[n].recipient
            ==> n < m
  {
    var s := Run(EMPTY, before);
    EmptyInv();
    RunInv(EMPTY, before);
    if n in s.db.deliveries && m !in s.db.deliveries && m in Run(s, after).db.deliveries { LaterAbove(s, after, n, m); }
  }

  lemma {:induction false} LaterAbove(s: State, events: seq<Event>, n: nat, m: nat)
    requires Inv(s) && n in s.db.deliveries && m !in s.db.deliveries && m in Run(s, events).db.deliveries
    ensures n in Run(s, events).db.deliveries
      && Run(s, events).db.deliveries[n].recipient == s.db.deliveries[n].recipient
    ensures Run(s, events).db.deliveries[m].recipient == s.db.deliveries[n].recipient ==> n < m
    decreases |events|
  {
    if events != [] {
      var t := Step(s, events[0]);
      StepGrows(s, events[0]);
      assert Inv(t) by { StepInv(s, events[0]); }
      if m in t.db.deliveries {
        RecipientsKept(t, events[1..], n);
        RecipientsKept(t, events[1..], m);
        if t.db.deliveries[m].recipient == s.db.deliveries[n].recipient {
          CommitOrderIsNumberOrder(s, events[0], n, m);
        }
      } else {
        LaterAbove(t, events[1..], n, m);
      }
    }
  }

  lemma {:induction false} RecipientsKept(s: State, events: seq<Event>, n: nat)
    requires Inv(s) && n in s.db.deliveries
    ensures n in Run(s, events).db.deliveries
      && Run(s, events).db.deliveries[n].recipient == s.db.deliveries[n].recipient
    decreases |events|
  {
    if events != [] {
      StepGrows(s, events[0]);
      assert Inv(Step(s, events[0])) by { StepInv(s, events[0]); }
      RecipientsKept(Step(s, events[0]), events[1..], n);
    }
  }

  // ----- One page -----

  /** A selected delivery above the cursor. */
  ghost predicate Above(db: Db, agent: AgentId, f: Filters, after: nat, n: nat) {
    Selected(db, agent, f, n) && after < n
  }

  /** The first `limit` of the rows above the cursor, and whether there are others. */
  ghost predicate FirstPage(db: Db, agent: AgentId, f: Filters, limit: nat, after: nat, page: Page) {
    && |page.items| <= limit
    && (forall i, j | 0 <= i < j < |page.items| :: page.items[i] < page.items[j])
    && (forall n | n in page.items :: Above(db, agent, f, after, n))
    && (forall n: nat | Above(db, agent, f, after, n) && n !in page.items ::
          |page.items| == limit && forall i | 0 <= i < |page.items| :: page.items[i] < n)
    && (page.more <==> exists n :: Above(db, agent, f, after, n) && n !in page.items)
    && page.next == if page.items == [] then None else Some(page.items[|page.items| - 1])
  }

  /** A page holds the first selected deliveries above the cursor, and says whether more of them follow. */
  lemma PageHoldsFirst(s: State, agent: AgentId, f: Filters, limit: nat, after: nat)
    requires NumbersFresh(s)
    ensures FirstPage(s.db, agent, f, limit, after, ListInbox(s, agent, f, limit, after))
  {
    RowsAbove(s, agent, f, after);
    RowsMakePage(s.db, agent, f, limit, after, Numbers(s.db, agent, f, after, s.counter),
      ListInbox(s, agent, f, limit, after));
  }

  lemma RowsAbove(s: State, agent: AgentId, f: Filters, after: nat)
    requires NumbersFresh(s)
    ensures forall n: nat :: n in Numbers(s.db, agent, f, after, s.counter) <==> Above(s.db, agent, f, after, n)
  {
  }

  lemma RowsMakePage(db: Db, agent: AgentId, f: Filters, limit: nat, after: nat, rows: seq<nat>, page: Page)
    requires forall n: nat :: n in rows <==> Above(db, agent, f, after, n)
    requires forall i, j | 0 <= i < j < |rows| :: rows[i] < rows[j]
    requires page.items == (if |rows| > limit then rows[..limit] else rows) && page.more == (|rows| > limit)
    requires page.next == if page.items == [] then None else Some(page.items[|page.items| - 1])
    ensures FirstPage(db, agent, f, limit, after, page)
  {
    TakesFirst(rows, limit);
    if page.more {
      var n :| n in rows && n !in page.items;
      assert Above(db, agent, f, after, n);
    }
  }

  lemma TakesFirst(rows: seq<nat>, limit: nat)
    requires forall i, j | 0 <= i < j < |rows| :: rows[i] < rows[j]
    ensures var items := if |rows| > limit then rows[..limit] else rows;
            && (forall n | n in items :: n in rows)
            && (forall n | n in rows && n !in items ::
                  |items| == limit && forall i | 0 <= i < |items| :: items[i] < n)
            && (|rows| > limit <==> exists n :: n in rows && n !in items)
  {
    if |rows| > limit {
      var items := rows[..limit];
      forall k | 0 <= k < limit ensures rows[k] in items {
        assert items[k] == rows[k];
      }
      assert rows[limit] in rows && rows[limit] !in items;
    }
  }

  // ----- What the filters select -----

  /** By the times on the row: never read, read but not acked, acked. */
  ghost predicate InState(d: Delivery, status: StatusFilter) {
    match status
    case Unread => d.readAt == None && d.ackedAt == None
    case OnlyDelivered => d.readAt == None && d.ackedAt == None
    case OnlyRead => d.readAt.Some? && d.ackedAt == None
    case OnlyAcked => d.readAt.Some? && d.ackedAt.Some?
  }

  /** What is asked of a message, as far as it is asked. */
  ghost predicate Fits(db: Db, m: Message, f: Filters) {
    && (f.sender.None? || (m.sender in db.agents && f.sender == Some(db.agents[m.sender].address)))
    && f.kind in {None, Some(m.content.kind)} && f.priority in {None, Some(m.content.priority)}
    && (f.since.None? || f.since.value <= m.createdAt)
  }

  /**
    In every run, the filters select exactly the agent's own deliveries whose message is by the
    named sender, of the named type and priority and not older than asked, and which were read and
    acked as asked; unread and delivered select the same.
   */
  lemma FiltersSelect(events: seq<Event>, agent: AgentId, f: Filters, n: nat)
    ensures var db := Run(EMPTY, events).db;
            Selected(db, agent, f, n) <==>
              && n in db.deliveries && db.deliveries[n].recipient == agent && db.deliveries[n].message in db.messages
              && Fits(db, db.messages[db.deliveries[n].message], f)
              && (f.status.Some? ==> InState(db.deliveries[n], f.status.value))
  {
    var db := Run(EMPTY, events).db;
    assert LifecyclesHold(db) by {
      EmptyInv();
      RunInv(EMPTY, events);
    }
    if n in db.deliveries && db.deliveries[n].message in db.messages {
      assert Staged(db.deliveries[n]);
    }
  }
}
