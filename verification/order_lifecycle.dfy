/** An order's life as its live actor sees it: each delivered command is
    published and then applied; once the order is settled the actor stops and
    later commands are not delivered. The theorem here is that the log the
    live actor writes replays to the state the actor holds. */
module OrderLifecycle {
  import opened Wrappers
  import opened OrderIds
  import opened TableIds
  import opened Errors
  import opened Process
  import opened OrderCommands
  import opened OrderEvents
  import opened OrderAggregate
  import opened OrderFormation

  /** One command handled by a live order: `publish`, then `apply`. */
  function Handle(o: Order, c: OrderCommand): Applied<Order, OrderEvent> {
    Apply(o, Publish(o, c).value)
  }

  /** Commands handled one at a time, in order, until the order stops. */
  function Run(o: Order, cs: seq<OrderCommand>): Applied<Order, OrderEvent>
    decreases cs
  {
    if cs == [] then Applied(o, [])
    else
      var a := Handle(o, cs[0]);
      if Terminates(a.effects) then a
      else
        var rest := Run(a.state, cs[1..]);
        Applied(rest.state, a.effects + rest.effects)
  }

  predicate HasSettle(cs: seq<OrderCommand>) {
    exists i | 0 <= i < |cs| :: cs[i].Settle?
  }

  /** A command list holds a `Settle` exactly when its head is one or its tail
      holds one. */
  lemma HasSettleOfCons(cs: seq<OrderCommand>)
    requires cs != []
    ensures HasSettle(cs) <==> cs[0].Settle? || HasSettle(cs[1..])
  {
    if HasSettle(cs[1..]) {
      var i :| 0 <= i < |cs[1..]| && cs[1..][i].Settle?;
      assert cs[i + 1].Settle?;
    }
    if HasSettle(cs) && !cs[0].Settle? {
      var i :| 0 <= i < |cs| && cs[i].Settle?;
      assert cs[1..][i - 1].Settle?;
    }
  }

  /** A run whose first command is `Settle` stops after it: the log gains
      the `Settled` event, and replaying it is the folded-terminal fault. */
  lemma SettleHeadStops(log: seq<OrderEvent>, o: Order, cs: seq<OrderCommand>)
    requires Replay(log) == Success((o, |log|))
    requires cs != [] && cs[0].Settle?
    ensures var run := Run(o, cs);
      var full := log + Persisted(run.effects);
      && Terminates(run.effects)
      && full[|full| - 1].Settled? && Replay(full) == Failure(HistoryFault(FoldedTerminalEvent))
  {
    var e := Publish(o, cs[0]).value;
    ReplayExtends(log, e);
    assert Run(o, cs) == Apply(o, e);
    assert log + Persisted(Run(o, cs).effects) == log + [e];
  }

  /** A run that does not stop at its first command is that command's step
      followed by the run of the rest. */
  lemma RunOfCons(o: Order, cs: seq<OrderCommand>)
    requires cs != [] && !cs[0].Settle?
    ensures var a := Handle(o, cs[0]);
      var rest := Run(a.state, cs[1..]);
      Run(o, cs) == Applied(rest.state, a.effects + rest.effects)
  {
    assert CommandOf(Publish(o, cs[0]).value) == cs[0];
  }

  /** A run whose first command is not `Settle` goes on after it: it ends
      where the run of the remaining commands ends, stops when that run does,
      and persists the first event followed by that run's events. */
  lemma OtherHeadContinues(o: Order, cs: seq<OrderCommand>)
    requires cs != [] && !cs[0].Settle?
    ensures var e := Publish(o, cs[0]).value;
      var rest := Run(Apply(o, e).state, cs[1..]);
      && !e.Settled?
      && Run(o, cs).state == rest.state
      && (Terminates(Run(o, cs).effects) <==> Terminates(rest.effects))
      && Persisted(Run(o, cs).effects) == [e] + Persisted(rest.effects)
  {
    var e := Publish(o, cs[0]).value;
    assert CommandOf(e) == cs[0];
    var a := Apply(o, e);
    RunOfCons(o, cs);
    EffectsOfConcatenation(a.effects, Run(a.state, cs[1..]).effects);
  }

  /** Running commands on an order whose log replays to it keeps that true:
      the extended log replays to the state the run reaches, unless the run
      settled the order, in which case the log ends in `Settled` and replaying
      it is the folded-terminal fault. The run stops exactly when a `Settle`
      is among the commands. */
  lemma {:induction false} RunKeepsReplayInStep(log: seq<OrderEvent>, o: Order, cs: seq<OrderCommand>)
    requires Replay(log) == Success((o, |log|))
    ensures var run := Run(o, cs);
      var full := log + Persisted(run.effects);
      && (Terminates(run.effects) <==> HasSettle(cs))
      && (!Terminates(run.effects) ==> Replay(full) == Success((run.state, |full|)))
      && (Terminates(run.effects) ==>
            full[|full| - 1].Settled? && Replay(full) == Failure(HistoryFault(FoldedTerminalEvent)))
    decreases cs
  {
    var run := Run(o, cs);
    if cs == [] {
      assert log + Persisted(run.effects) == log;
    } else {
      HasSettleOfCons(cs);
      if cs[0].Settle? {
        SettleHeadStops(log, o, cs);
      } else {
        var e := Publish(o, cs[0]).value;
        OtherHeadContinues(o, cs);
        ReplayExtends(log, e);
        var rest := Run(Apply(o, e).state, cs[1..]);
        RunKeepsReplayInStep(log + [e], Apply(o, e).state, cs[1..]);
        assert log + ([e] + Persisted(rest.effects)) == (log + [e]) + Persisted(rest.effects);
      }
    }
  }

  /** Live application and replay reach the same state. An order created by
      `Create(table)` and then sent `cs` writes a log that starts with its
      `Created` event; if no `Settle` is among `cs`, the log replays to
      exactly the state the live actor holds, at the version of the last
      event; otherwise the actor has stopped, its log ends in `Settled`, and
      replaying it is the folded-terminal fault. */
  lemma LiveAndReplayAgree(id: OrderId, table: TableId, cs: seq<OrderCommand>)
    ensures TryFrom(id, Create(table)).Success?
    ensures var run := Run(TryFrom(id, Create(table)).value, [Create(table)] + cs);
      var log := Persisted(run.effects);
      && |log| >= 1 && log[0] == Created(id, table)
      && (Terminates(run.effects) <==> HasSettle(cs))
      && (!HasSettle(cs) ==> Replay(log) == Success((run.state, |log|)))
      && (HasSettle(cs) ==>
            log[|log| - 1].Settled? && Replay(log) == Failure(HistoryFault(FoldedTerminalEvent)))
  {
    CreationRoundTrip(id, table);
    var o := TryFrom(id, Create(table)).value;
    var cmds := [Create(table)] + cs;
    assert cmds[0] == Create(table) && cmds[1..] == cs;
    var a := Handle(o, Create(table));
    assert a.state == o && !Terminates(a.effects);
    var rest := Run(o, cs);
    assert Run(o, cmds) == Applied(rest.state, a.effects + rest.effects);
    EffectsOfConcatenation(a.effects, rest.effects);
    RunKeepsReplayInStep([Created(id, table)], o, cs);
  }
}
