/** Every interleaving is equivalent to a sequential run of atomic calls. */
module ActionLinearizability {
  import opened Prelude
  import opened ActionRecords
  import opened ActionProtocol

  /** `call` takes effect, as a whole, at event number `at`. */
  datatype Point = Point(at: nat, call: CallId, req: Request)

  /** The outcome a confirm is already bound to while it is about to look at the ticket:
      what it will see is one of its inputs, so a refusal is settled when it read the row. */
  function Settled(call: Call): Option<Outcome> {
    match call.pc
    case Done(out) => Some(out)
    case TicketCheck(r) =>
      if call.req.Confirm? && TargetRefusal(call.req.ticket, r).Some? then
        Some(Refusal(Some(r), TargetRefusal(call.req.ticket, r).value))
      else None
    case _ => None
  }

  /** The events at which some call takes effect: the one step that settles its outcome. */
  function Points(s: System, es: seq<Event>): seq<Point> {
    if es == [] then []
    else
      var prefix := es[..|es| - 1];
      Points(s, prefix) + EventPoints(Run(s, prefix), es[|es| - 1], |prefix|)
  }

  function EventPoints(s: System, e: Event, at: nat): seq<Point> {
    if e.Step? && e.call in s.calls
       && Settled(s.calls[e.call]).None? && Settled(Next(s, e).calls[e.call]).Some?
    then [Point(at, e.call, s.calls[e.call].req)]
    else []
  }

  /** The sequential run: the calls one after another, each atomic. */
  function Replay(t: Table, ps: seq<Point>): (Table, map<CallId, Outcome>) {
    if ps == [] then (t, map[])
    else
      var p := ps[|ps| - 1];
      var (before, outs) := Replay(t, ps[..|ps| - 1]);
      var (after, out) := Atomic(p.req, before);
      (after, outs[p.call := out])
  }

  /** One step of one call either settles nothing and leaves the table alone, or settles the
      call with the outcome and the effect of the atomic call on the table it finds. */
  lemma StepRefines(call: Call, t: Table)
    requires Keyed(t) && CallInv(call, t) && !call.pc.Done?
    ensures var (t', pc) := CallStep(call, t);
            var after := Settled(call.(pc := pc));
            if Settled(call).None? && after.Some? then (t', after.value) == Atomic(call.req, t)
            else t' == t && after == Settled(call)
  {
  }

  /** The calls that have a point, and the outcomes of the sequential run, are exactly those
      of the interleaved run. */
  ghost predicate Agrees(s: System, t: Table, outs: map<CallId, Outcome>) {
    && s.table == t
    && (forall c :: c in outs ==> c in s.calls)
    && (forall c :: c in s.calls ==>
          Settled(s.calls[c]) == if c in outs then Some(outs[c]) else None)
  }

  /** One event of the whole system: at most one call takes effect, as the atomic call. */
  lemma EventRefines(s: System, e: Event, at: nat, outs: map<CallId, Outcome>)
    requires Inv(s) && Agrees(s, s.table, outs)
    ensures var ps := EventPoints(s, e, at);
            if ps == [] then Agrees(Next(s, e), s.table, outs)
            else
              var (t, out) := Atomic(ps[0].req, s.table);
              Agrees(Next(s, e), t, outs[ps[0].call := out])
  {
    if e.Step? && e.call in s.calls && !s.calls[e.call].pc.Done? {
      StepRefines(s.calls[e.call], s.table);
    }
  }

  lemma ReplaySnoc(t: Table, ps: seq<Point>, p: Point)
    ensures Replay(t, ps + [p]) ==
            var (before, outs) := Replay(t, ps);
            var (after, out) := Atomic(p.req, before);
            (after, outs[p.call := out])
  {
    assert (ps + [p])[..|ps|] == ps;
  }

  lemma {:induction false} ReplayAgrees(t: Table, es: seq<Event>)
    requires Keyed(t)
    ensures var (t', outs) := Replay(t, Points(Start(t), es));
            Agrees(Run(Start(t), es), t', outs)
  {
    if es != [] {
      var prefix := es[..|es| - 1];
      ReplayAgrees(t, prefix);
      RunSafe(t, prefix, 0);
      var ps, outs := Points(Start(t), prefix), Replay(t, Points(Start(t), prefix)).1;
      var s, e := Run(Start(t), prefix), es[|es| - 1];
      EventRefines(s, e, |prefix|, outs);
      var added := EventPoints(s, e, |prefix|);
      if added == [] {
        assert ps + added == ps;
      } else {
        ReplaySnoc(t, ps, added[0]);
      }
    }
  }

  /** A point is a step of its own call, taken while that call is under way, and the request
      replayed is the one that was invoked. */
  ghost predicate WithinCall(s: System, es: seq<Event>, p: Point) {
    && p.at < |es| && es[p.at] == Step(p.call)
    && var before := Run(s, es[..p.at]);
    p.call in before.calls && before.calls[p.call].req == p.req && !before.calls[p.call].pc.Done?
  }

  ghost predicate Ordered(ps: seq<Point>) {
    forall i, j :: 0 <= i < j < |ps| ==> ps[i].at < ps[j].at && ps[i].call != ps[j].call
  }

  /** Every replayed call has an outcome. */
  lemma {:induction false} ReplayCovers(t: Table, ps: seq<Point>, i: nat)
    requires i < |ps|
    ensures ps[i].call in Replay(t, ps).1
  {
    if i < |ps| - 1 {
      ReplayCovers(t, ps[..|ps| - 1], i);
    }
  }

  lemma OrderedSnoc(t: Table, ps: seq<Point>, p: Point)
    requires Ordered(ps) && p.call !in Replay(t, ps).1
    requires forall i :: 0 <= i < |ps| ==> ps[i].at < p.at
    ensures Ordered(ps + [p])
  {
    forall i | 0 <= i < |ps| ensures ps[i].call != p.call {
      ReplayCovers(t, ps, i);
    }
  }

  lemma EventPointsWithin(s: System, es: seq<Event>, p: Point)
    requires es != []
    requires [p] == EventPoints(Run(s, es[..|es| - 1]), es[|es| - 1], |es| - 1)
    ensures WithinCall(s, es, p)
  {
  }

  lemma EventPointsFresh(s: System, e: Event, p: Point, outs: map<CallId, Outcome>)
    requires Agrees(s, s.table, outs) && [p] == EventPoints(s, e, p.at)
    ensures p.call !in outs
  {
  }

  lemma WithinPrefix(s: System, es: seq<Event>, p: Point)
    requires es != [] && WithinCall(s, es[..|es| - 1], p)
    ensures WithinCall(s, es, p) && p.at < |es| - 1
  {
    assert es[..|es| - 1][..p.at] == es[..p.at];
  }

  lemma {:induction false} PointsWithinCalls(t: Table, es: seq<Event>)
    requires Keyed(t)
    ensures Ordered(Points(Start(t), es))
    ensures forall p :: p in Points(Start(t), es) ==> WithinCall(Start(t), es, p)
  {
    if es != [] {
      var prefix, e := es[..|es| - 1], es[|es| - 1];
      var ps := Points(Start(t), prefix);
      PointsWithinCalls(t, prefix);
      forall p | p in ps ensures WithinCall(Start(t), es, p) && p.at < |prefix| {
        WithinPrefix(Start(t), es, p);
      }
      var added := EventPoints(Run(Start(t), prefix), e, |prefix|);
      if added == [] {
        assert ps + added == ps;
      } else {
        var p := added[0];
        assert added == [p];
        EventPointsWithin(Start(t), es, p);
        ReplayAgrees(t, prefix);
        EventPointsFresh(Run(Start(t), prefix), e, p, Replay(t, ps).1);
        OrderedSnoc(t, ps, p);
      }
    }
  }

  /** Linearizability. For every schedule from any table there is an order of atomic calls,
      each placed at a step of its own between its invocation and its return, that ends with
      the same table and gives every call that returned the outcome it returned. */
  lemma Linearizable(t: Table, es: seq<Event>)
    requires Keyed(t)
    ensures exists ps: seq<Point> ::
              && Ordered(ps)
              && (forall p :: p in ps ==> WithinCall(Start(t), es, p))
              && Replay(t, ps).0 == Run(Start(t), es).table
              && (forall c :: c in Run(Start(t), es).calls && Run(Start(t), es).calls[c].pc.Done? ==>
                    && c in Replay(t, ps).1
                    && Replay(t, ps).1[c] == Run(Start(t), es).calls[c].pc.out)
  {
    var ps := Points(Start(t), es);
    PointsWithinCalls(t, es);
    ReplayAgrees(t, es);
    var s, outs := Run(Start(t), es), Replay(t, ps).1;
    forall c | c in s.calls && s.calls[c].pc.Done? ensures c in outs && outs[c] == s.calls[c].pc.out {
      assert Settled(s.calls[c]) == Some(s.calls[c].pc.out);
    }
  }

  /** A call that had returned before another was invoked comes first in the order. */
  lemma RealTimeOrder(t: Table, es: seq<Event>, i: nat, p: Point, q: Point)
    requires Keyed(t) && i <= |es|
    requires WithinCall(Start(t), es, p) && WithinCall(Start(t), es, q)
    requires p.call in Run(Start(t), es[..i]).calls && Run(Start(t), es[..i]).calls[p.call].pc.Done?
    requires q.call !in Run(Start(t), es[..i]).calls
    ensures p.at < i <= q.at
  {
    if q.at < i {
      assert es[..i][..q.at] == es[..q.at];
      CallsPersist(Start(t), es[..i], q.at, q.call);
    }
    if i <= p.at {
      assert es[..p.at][..i] == es[..i];
      CallsPersist(Start(t), es[..p.at], i, p.call);
    }
  }

  /** A call once invoked stays, with its request, and a finished call stays finished. */
  lemma {:induction false} CallsPersist(s: System, es: seq<Event>, i: nat, c: CallId)
    requires i <= |es| && c in Run(s, es[..i]).calls
    ensures var (x, y) := (Run(s, es[..i]), Run(s, es));
            && c in y.calls && y.calls[c].req == x.calls[c].req
            && (x.calls[c].pc.Done? ==> y.calls[c] == x.calls[c])
    decreases |es|
  {
    if i == |es| {
      assert es[..i] == es;
    } else {
      var prefix := es[..|es| - 1];
      assert prefix[..i] == es[..i];
      CallsPersist(s, prefix, i, c);
    }
  }
}
