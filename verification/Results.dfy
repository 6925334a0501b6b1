/** Result events: the order across tasks does not matter, and per task the first terminal event wins. */
module Results {
  import opened Model
  import opened Accounting
  import opened ControlPlane
  import opened Protocol
  import opened Invariant

  /** Delivering a list of events, first to last. */
  function Fold(db: Db, es: seq<Event>): Db
    decreases |es|
  {
    if es == [] then db else Fold(ProcessEvent(db, es[0]), es[1..])
  }

  predicate LegalEvents(es: seq<Event>) {
    forall k :: 0 <= k < |es| ==> LegalEvent(es[k])
  }

  // ----- Confluence -----

  /** The events of task `t`, in order of delivery. */
  function OfTask(es: seq<Event>, t: nat): seq<Event> {
    if es == [] then [] else (if es[0].task == t then [es[0]] else []) + OfTask(es[1..], t)
  }

  /** Events of different tasks commute: at most one of two tasks on the same instance is active. */
  lemma EventsOfDifferentTasksCommute(db: Db, d: Event, e: Event)
    requires Inv(db) && d.task != e.task
    ensures ProcessEvent(ProcessEvent(db, d), e) == ProcessEvent(ProcessEvent(db, e), d)
  {
    if Live(db, d) && Live(db, e) {
      var i, j := db.tasks[d.task].instance, db.tasks[e.task].instance;
      if i == j {
        AtMostOneActiveTask(db, d.task, e.task);
      }
      var x, y := ProcessEvent(ProcessEvent(db, d), e), ProcessEvent(ProcessEvent(db, e), d);
      assert x.tasks == y.tasks;
      assert x.instances == y.instances;
    }
  }

  lemma {:induction false} MoveToFront(db: Db, before: seq<Event>, e: Event, after: seq<Event>)
    requires Inv(db) && LegalEvents(before)
    requires forall k :: 0 <= k < |before| ==> before[k].task != e.task
    requires LegalEvent(e)
    ensures Fold(db, before + [e] + after) == Fold(ProcessEvent(db, e), before + after)
    decreases |before|
  {
    if before == [] {
      assert before + [e] + after == [e] + after;
      assert before + after == after;
    } else {
      var d, rest := before[0], before[1..];
      EventKeepsInv(db, d);
      MoveToFront(ProcessEvent(db, d), rest, e, after);
      EventsOfDifferentTasksCommute(db, d, e);
      assert (before + [e] + after)[1..] == rest + [e] + after;
      assert (before + after)[1..] == rest + after;
    }
  }

  lemma {:induction false} OfTaskAppend(xs: seq<Event>, ys: seq<Event>, t: nat)
    ensures OfTask(xs + ys, t) == OfTask(xs, t) + OfTask(ys, t)
  {
    if xs == [] {
      assert xs + ys == ys;
    } else {
      var head, rest := if xs[0].task == t then [xs[0]] else [], xs[1..];
      assert (xs + ys)[0] == xs[0] && (xs + ys)[1..] == rest + ys;
      OfTaskAppend(rest, ys, t);
      calc {
        OfTask(xs + ys, t);
        head + OfTask(rest + ys, t);
        head + (OfTask(rest, t) + OfTask(ys, t));
        (head + OfTask(rest, t)) + OfTask(ys, t);
      }
    }
  }

  lemma {:induction false} NoneOfTask(es: seq<Event>, t: nat)
    requires forall k :: 0 <= k < |es| ==> es[k].task != t
    ensures OfTask(es, t) == []
  {
    if es != [] {
      NoneOfTask(es[1..], t);
    }
  }

  /** Where the first event of a task sits in a list. */
  lemma {:induction false} FirstOfTask(es: seq<Event>, t: nat) returns (k: nat)
    requires OfTask(es, t) != []
    ensures k < |es| && es[k] == OfTask(es, t)[0]
    ensures forall j :: 0 <= j < k ==> es[j].task != t
  {
    if es[0].task == t {
      k := 0;
    } else {
      var rest := FirstOfTask(es[1..], t);
      k := rest + 1;
    }
  }

  lemma NothingMeansEmpty(es: seq<Event>)
    ensures es == [] || OfTask(es, es[0].task) != []
  {
  }

  function Without(es: seq<Event>, k: nat): seq<Event>
    requires k < |es|
  {
    es[..k] + es[k + 1..]
  }

  ghost predicate SameEvents(xs: seq<Event>, ys: seq<Event>) {
    forall t :: OfTask(xs, t) == OfTask(ys, t)
  }

  /** Where the first event of one list stands in the other. */
  lemma FindHead(xs: seq<Event>, ys: seq<Event>) returns (k: nat)
    requires xs != [] && SameEvents(xs, ys)
    ensures k < |ys| && ys[k] == xs[0] && forall j :: 0 <= j < k ==> ys[j].task != xs[0].task
  {
    assert OfTask(xs, xs[0].task)[0] == xs[0];
    k := FirstOfTask(ys, xs[0].task);
  }

  /** Without that event the two lists still have the same events of every task. */
  lemma SameWithoutHead(xs: seq<Event>, ys: seq<Event>, k: nat, t: nat)
    requires xs != [] && k < |ys| && ys[k] == xs[0] && OfTask(xs, t) == OfTask(ys, t)
    requires forall j :: 0 <= j < k ==> ys[j].task != xs[0].task
    ensures OfTask(xs[1..], t) == OfTask(Without(ys, k), t)
  {
    var e, before, after := xs[0], ys[..k], ys[k + 1..];
    assert ys == before + [e] + after;
    SplitAround(before, e, after, t);
    var head := if e.task == t then [e] else [];
    assert OfTask(xs, t) == head + OfTask(xs[1..], t);
    assert (head + OfTask(xs[1..], t))[|head|..] == OfTask(xs[1..], t);
    assert (head + OfTask(before + after, t))[|head|..] == OfTask(before + after, t);
  }

  lemma SameEventsWithoutHead(xs: seq<Event>, ys: seq<Event>, k: nat)
    requires xs != [] && SameEvents(xs, ys) && k < |ys| && ys[k] == xs[0]
    requires forall j :: 0 <= j < k ==> ys[j].task != xs[0].task
    ensures SameEvents(xs[1..], Without(ys, k))
  {
    var rest, others := xs[1..], Without(ys, k);
    forall t ensures OfTask(rest, t) == OfTask(others, t) {
      SameWithoutHead(xs, ys, k, t);
    }
  }

  /** Two deliveries with the same events per task, in any interleaving, leave the same tables. */
  lemma {:induction false} ResultsAreConfluent(db: Db, xs: seq<Event>, ys: seq<Event>)
    requires Inv(db) && LegalEvents(xs) && LegalEvents(ys)
    requires SameEvents(xs, ys)
    ensures Fold(db, xs) == Fold(db, ys)
    decreases |xs|
  {
    if xs == [] {
      NothingMeansEmpty(ys);
    } else {
      var k := FindHead(xs, ys);
      SameEventsWithoutHead(xs, ys, k);
      assert ys == ys[..k] + [xs[0]] + ys[k + 1..];
      MoveToFront(db, ys[..k], xs[0], ys[k + 1..]);
      EventKeepsInv(db, xs[0]);
      ResultsAreConfluent(ProcessEvent(db, xs[0]), xs[1..], Without(ys, k));
    }
  }

  lemma SplitAround(before: seq<Event>, e: Event, after: seq<Event>, t: nat)
    requires forall k :: 0 <= k < |before| ==> before[k].task != e.task
    ensures OfTask(before + [e] + after, t) == (if e.task == t then [e] else []) + OfTask(before + after, t)
  {
    OfTaskAppend(before + [e], after, t);
    OfTaskAppend(before, [e], t);
    OfTaskAppend(before, after, t);
    if e.task == t {
      NoneOfTask(before, t);
    }
    assert OfTask([e], t) == if e.task == t then [e] else [];
  }

  // ----- The first terminal event wins -----

  predicate Terminal(e: Event) {
    e.status.Succeeded? || e.status.Failed? || e.status.Canceled?
  }

  /** The list without every event that follows a terminal event of its own task. */
  function Effective(es: seq<Event>, done: set<nat>): seq<Event> {
    if es == [] then []
    else
      var e := es[0];
      var now := if Terminal(e) then done + {e.task} else done;
      (if e.task in done then [] else [e]) + Effective(es[1..], now)
  }

  /** No event can reach the tables through task `t` any more. */
  predicate Closed(db: Db, t: nat) {
    t < |db.tasks| && db.tasks[t].instance < |db.instances| ==> !Active(db.tasks[t].status)
  }

  lemma ClosedStaysClosed(db: Db, e: Event, t: nat)
    ensures Closed(db, t) ==> Closed(ProcessEvent(db, e), t)
    ensures Terminal(e) && t == e.task ==> Closed(ProcessEvent(db, e), t)
  {
  }

  /** Duplicated, late and contradictory events after the first terminal one change nothing. */
  lemma {:induction false} FirstTerminalEventWins(db: Db, es: seq<Event>, done: set<nat>)
    requires forall t :: t in done ==> Closed(db, t)
    ensures Fold(db, es) == Fold(db, Effective(es, done))
    decreases |es|
  {
    if es != [] {
      var e := es[0];
      var now := if Terminal(e) then done + {e.task} else done;
      forall t | t in now ensures Closed(ProcessEvent(db, e), t) {
        ClosedStaysClosed(db, e, t);
      }
      FirstTerminalEventWins(ProcessEvent(db, e), es[1..], now);
      if e.task in done {
        assert ProcessEvent(db, e) == db;
        assert Effective(es, done) == Effective(es[1..], now);
      } else {
        assert ([e] + Effective(es[1..], now))[1..] == Effective(es[1..], now);
      }
    }
  }
}
