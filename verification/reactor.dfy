/** The reactor (src/reactor.rs): it keeps the last known state of every
    checker and, when a probe reports a different state, tells each notifier
    the checker lists, in list order. The receive loop is a fold over the
    messages received; it yields the state table and the trace of the
    notifications dispatched, each with the outcome the backend reported. */
module Reactor {
  import opened Wrappers
  import opened Config
  import opened Events
  import opened Transport
  import opened Walk
  import opened Notifiers
  import Validator

  /** The `states` table: checker id to its last known state. */
  type States = map<string, State>

  /** The backends by notifier id. */
  type Backends = map<string, Backend>

  /** One call of `notify`: to whom, what, and what it returned. A failure is
      only reported; it stops nothing. */
  datatype Dispatch = Dispatch(notifierId: string, notification: Notification, outcome: Result<(), ()>)

  /** The ids of a list of checkers. */
  function IdsOf(checkers: seq<CheckerConfig>): set<string> {
    set i | 0 <= i < |checkers| :: checkers[i].id
  }

  /** The loop of `build_initial_states` over `checkers`. */
  function UpStates(checkers: seq<CheckerConfig>): (states: States)
    ensures states.Keys == IdsOf(checkers)
    ensures forall id :: id in states ==> states[id] == Up
    decreases |checkers|
  {
    if |checkers| == 0 then map[]
    else
      var init := checkers[..|checkers| - 1];
      var states := UpStates(init)[checkers[|checkers| - 1].id := Up];
      assert IdsOf(checkers) == IdsOf(init) + {checkers[|checkers| - 1].id} by {
        forall id | id in IdsOf(checkers) ensures id in IdsOf(init) + {checkers[|checkers| - 1].id} {
          var i :| 0 <= i < |checkers| && checkers[i].id == id;
          if i < |checkers| - 1 { assert init[i] == checkers[i]; }
        }
        forall id | id in IdsOf(init) ensures id in IdsOf(checkers) {
          var i :| 0 <= i < |init| && init[i].id == id;
          assert checkers[i] == init[i];
        }
      }
      states
  }

  /** `build_initial_states`: every configured checker starts Up, and the
      table knows no other id. */
  function InitialStates(config: FileConfig): (states: States)
    ensures states.Keys == CheckerIds(config)
    ensures forall id :: id in states ==> states[id] == Up
  {
    UpStates(config.checkers)
  }

  /** The notifier ids declared in a list. */
  function NotifierIdsOf(notifiers: seq<Notifier>): set<string> {
    set i | 0 <= i < |notifiers| :: notifiers[i].id
  }

  /** The configuration a notifier declares for `id`, if it declares `id`. */
  function ConfigFor(id: string): Notifier -> Option<NotifierConfig> {
    (n: Notifier) => if n.id == id then Some(n.config) else None
  }

  lemma NotifierIdsSnoc(init: seq<Notifier>, last: Notifier)
    ensures NotifierIdsOf(init + [last]) == NotifierIdsOf(init) + {last.id}
  {
    var all := init + [last];
    forall id | id in NotifierIdsOf(all) ensures id in NotifierIdsOf(init) + {last.id} {
      var i :| 0 <= i < |all| && all[i].id == id;
      if i < |init| { assert init[i] == all[i]; }
    }
    forall id | id in NotifierIdsOf(init) ensures id in NotifierIdsOf(all) {
      var i :| 0 <= i < |init| && init[i].id == id;
      assert all[i] == init[i];
    }
    assert all[|init|] == last;
  }

  /** The last declaration of `id` ignores a later declaration of another
      id. */
  lemma LastConfigSnoc(init: seq<Notifier>, last: Notifier, id: string)
    ensures Last(init + [last], ConfigFor(id)) == if last.id == id then Some(last.config) else Last(init, ConfigFor(id))
  {
    var all := init + [last];
    assert all[..|all| - 1] == init;
    assert all[|all| - 1] == last;
  }

  /** `build_notifiers`: one backend per declared id, built from the
      configuration of the last declaration of that id, since
      `HashMap::insert` replaces an earlier entry. */
  function BuildNotifiers(notifiers: seq<Notifier>): (backends: Backends)
    ensures backends.Keys == NotifierIdsOf(notifiers)
    ensures forall id :: id in backends ==>
              Last(notifiers, ConfigFor(id)).Some?
              && backends[id] == FromConfig(Last(notifiers, ConfigFor(id)).value)
    decreases |notifiers|
  {
    if |notifiers| == 0 then map[]
    else
      var init := notifiers[..|notifiers| - 1];
      var last := notifiers[|notifiers| - 1];
      assert notifiers == init + [last];
      NotifierIdsSnoc(init, last);
      var backends := BuildNotifiers(init)[last.id := FromConfig(last.config)];
      forall id | id in backends
        ensures Last(notifiers, ConfigFor(id)).Some?
                && backends[id] == FromConfig(Last(notifiers, ConfigFor(id)).value)
      {
        LastConfigSnoc(init, last, id);
      }
      backends
  }

  /** `build_notification`. */
  function BuildNotification(checker: CheckerConfig, state: State): Notification {
    Notification(checker.id, checker.url.text, state)
  }

  /** The inner `for` loop: one `notify` per id, in list order, whatever the
      earlier ones returned. */
  function DispatchAll(t: Transport, backends: Backends, ids: seq<string>, n: Notification): (trace: seq<Dispatch>)
    requires forall i :: 0 <= i < |ids| ==> ids[i] in backends
    ensures |trace| == |ids|
    ensures forall i :: 0 <= i < |ids| ==>
              trace[i] == Dispatch(ids[i], n, Notify(t, backends[ids[i]], n))
    decreases |ids|
  {
    if |ids| == 0 then []
    else
      var rest := DispatchAll(t, backends, ids[1..], n);
      assert forall i :: 1 <= i < |ids| ==> ids[i] == ids[1..][i - 1];
      [Dispatch(ids[0], n, Notify(t, backends[ids[0]], n))] + rest
  }

  /** What the unwraps in the loop body rely on: the message names a checker
      of the table and of the configuration, and every notifier that checker
      lists has a backend. */
  predicate Deliverable(config: FileConfig, backends: Backends, states: States, msg: StateMessage) {
    msg.checkerId in states
    && GetCheckerById(config, msg.checkerId).Some?
    && var checker := GetCheckerById(config, msg.checkerId).value;
       forall i :: 0 <= i < |checker.notifiers| ==> checker.notifiers[i] in backends
  }

  /** One turn of the loop in `spawn`. An unchanged state dispatches
      nothing; a changed one dispatches once to each notifier the checker
      lists, in list order, each time with the checker's id, its URL as text
      and the new state. Either way the entry of the checker becomes the new
      state and no other entry changes. */
  function Step(t: Transport, config: FileConfig, backends: Backends, states: States, msg: StateMessage)
    : (r: (States, seq<Dispatch>))
    requires Deliverable(config, backends, states, msg)
    ensures r.0.Keys == states.Keys
    ensures r.0[msg.checkerId] == msg.state
    ensures forall id :: id in states && id != msg.checkerId ==> r.0[id] == states[id]
    ensures msg.state == states[msg.checkerId] ==> r.1 == []
    ensures msg.state != states[msg.checkerId] ==>
              var checker := GetCheckerById(config, msg.checkerId).value;
              |r.1| == |checker.notifiers|
              && forall i :: 0 <= i < |r.1| ==>
                   r.1[i].notifierId == checker.notifiers[i]
                   && r.1[i].notification == Notification(msg.checkerId, checker.url.text, msg.state)
                   && r.1[i].outcome == Notify(t, backends[checker.notifiers[i]], r.1[i].notification)
  {
    var checker := GetCheckerById(config, msg.checkerId).value;
    var trace := if msg.state != states[msg.checkerId]
                 then DispatchAll(t, backends, checker.notifiers, BuildNotification(checker, msg.state))
                 else [];
    (states[msg.checkerId := msg.state], trace)
  }

  /** Every message names a checker of the table and the configuration, and
      the backends cover the notifiers of every such checker. */
  predicate AllDeliverable(config: FileConfig, backends: Backends, states: States, msgs: seq<StateMessage>) {
    forall k :: 0 <= k < |msgs| ==> Deliverable(config, backends, states, msgs[k])
  }

  /** Deliverability depends on the table only through its key set. */
  lemma DeliverableKeys(config: FileConfig, backends: Backends, s1: States, s2: States, msg: StateMessage)
    requires s1.Keys == s2.Keys
    requires Deliverable(config, backends, s1, msg)
    ensures Deliverable(config, backends, s2, msg)
  {
  }

  /** The receive loop over `msgs`, from the table `states`: the final table
      and the dispatches in order. */
  function Run(t: Transport, config: FileConfig, backends: Backends, states: States, msgs: seq<StateMessage>)
    : (r: (States, seq<Dispatch>))
    requires AllDeliverable(config, backends, states, msgs)
    ensures r.0.Keys == states.Keys
    decreases |msgs|
  {
    if |msgs| == 0 then (states, [])
    else
      var n := |msgs|;
      var before := Run(t, config, backends, states, msgs[..n - 1]);
      DeliverableKeys(config, backends, states, before.0, msgs[n - 1]);
      var step := Step(t, config, backends, before.0, msgs[n - 1]);
      (step.0, before.1 + step.1)
  }

  /** The state a message reports for checker `id`, if it is about it. */
  function ReportFor(id: string): StateMessage -> Option<State> {
    (m: StateMessage) => if m.checkerId == id then Some(m.state) else None
  }

  /** After the loop, every checker's entry is the state of the last message
      about it, or its starting state if no message named it. */
  lemma {:induction false} RunTable(t: Transport, config: FileConfig, backends: Backends, states: States, msgs: seq<StateMessage>)
    requires AllDeliverable(config, backends, states, msgs)
    ensures forall id :: id in states ==>
              Run(t, config, backends, states, msgs).0[id] == Last(msgs, ReportFor(id)).GetOr(states[id])
    decreases |msgs|
  {
    if |msgs| > 0 {
      var n := |msgs|;
      RunTable(t, config, backends, states, msgs[..n - 1]);
      forall id | id in states
        ensures Run(t, config, backends, states, msgs).0[id] == Last(msgs, ReportFor(id)).GetOr(states[id])
      {
        var pick := ReportFor(id);
        assert pick(msgs[n - 1]).Some? <==> msgs[n - 1].checkerId == id;
      }
    }
  }

  /** The loop, one message further: the trace grows by exactly what that
      message's turn dispatches. */
  lemma RunAppend(t: Transport, config: FileConfig, backends: Backends, states: States, msgs: seq<StateMessage>, msg: StateMessage)
    requires AllDeliverable(config, backends, states, msgs + [msg])
    ensures AllDeliverable(config, backends, states, msgs)
    ensures var before := Run(t, config, backends, states, msgs);
            Deliverable(config, backends, before.0, msg)
            && var step := Step(t, config, backends, before.0, msg);
               Run(t, config, backends, states, msgs + [msg]) == (step.0, before.1 + step.1)
  {
    var all := msgs + [msg];
    assert all[..|all| - 1] == msgs;
    assert all[|all| - 1] == msg;
    assert forall k :: 0 <= k < |msgs| ==> msgs[k] == all[k];
    var before := Run(t, config, backends, states, msgs);
    DeliverableKeys(config, backends, states, before.0, msg);
  }

  /** What a trace sends to whom, without the outcomes. */
  function Sent(trace: seq<Dispatch>): seq<(string, Notification)> {
    seq(|trace|, i requires 0 <= i < |trace| => (trace[i].notifierId, trace[i].notification))
  }

  lemma SentAppend(a: seq<Dispatch>, b: seq<Dispatch>)
    ensures Sent(a + b) == Sent(a) + Sent(b)
  {
    assert forall i :: 0 <= i < |a| ==> (a + b)[i] == a[i];
    assert forall i :: |a| <= i < |a| + |b| ==> (a + b)[i] == b[i - |a|];
  }

  /** One turn under two transports. */
  lemma StepOutcomesDoNotSteer(t1: Transport, t2: Transport, config: FileConfig, backends: Backends, states: States, msg: StateMessage)
    requires Deliverable(config, backends, states, msg)
    ensures Step(t1, config, backends, states, msg).0 == Step(t2, config, backends, states, msg).0
    ensures Sent(Step(t1, config, backends, states, msg).1) == Sent(Step(t2, config, backends, states, msg).1)
  {
  }

  /** Notifier outcomes steer nothing: under any two transports the loop
      ends in the same table and sends the same notifications to the same
      notifiers, in the same order. */
  lemma {:induction false} OutcomesDoNotSteer(t1: Transport, t2: Transport, config: FileConfig, backends: Backends, states: States, msgs: seq<StateMessage>)
    requires AllDeliverable(config, backends, states, msgs)
    ensures Run(t1, config, backends, states, msgs).0 == Run(t2, config, backends, states, msgs).0
    ensures Sent(Run(t1, config, backends, states, msgs).1) == Sent(Run(t2, config, backends, states, msgs).1)
    decreases |msgs|
  {
    if |msgs| > 0 {
      var n := |msgs|;
      var init := msgs[..n - 1];
      var msg := msgs[n - 1];
      assert msgs == init + [msg];
      OutcomesDoNotSteer(t1, t2, config, backends, states, init);
      RunAppend(t1, config, backends, states, init, msg);
      RunAppend(t2, config, backends, states, init, msg);
      var b1 := Run(t1, config, backends, states, init);
      var b2 := Run(t2, config, backends, states, init);
      StepOutcomesDoNotSteer(t1, t2, config, backends, b1.0, msg);
      SentAppend(b1.1, Step(t1, config, backends, b1.0, msg).1);
      SentAppend(b2.1, Step(t2, config, backends, b2.0, msg).1);
    }
  }

  /** The same report twice in a row: the second one dispatches nothing and
      leaves the table as the first left it. */
  lemma RepeatIsSilent(t: Transport, config: FileConfig, backends: Backends, states: States, msg: StateMessage)
    requires Deliverable(config, backends, states, msg)
    ensures var first := Step(t, config, backends, states, msg);
            Deliverable(config, backends, first.0, msg)
            && Step(t, config, backends, first.0, msg) == (first.0, [])
  {
    var first := Step(t, config, backends, states, msg);
    assert first.0[msg.checkerId := msg.state] == first.0;
  }

  /** The loop over a single message is that message's turn. */
  lemma RunSingle(t: Transport, config: FileConfig, backends: Backends, states: States, msg: StateMessage)
    requires Deliverable(config, backends, states, msg)
    ensures AllDeliverable(config, backends, states, [msg])
    ensures Run(t, config, backends, states, [msg]) == Step(t, config, backends, states, msg)
  {
    var msgs := [msg];
    assert msgs[..0] == [];
    var step := Step(t, config, backends, states, msg);
    assert [] + step.1 == step.1;
  }

  /** The loop over one message told twice is the loop over it told once. */
  lemma RunRepeat(t: Transport, config: FileConfig, backends: Backends, states: States, msg: StateMessage)
    requires Deliverable(config, backends, states, msg)
    ensures AllDeliverable(config, backends, states, [msg, msg])
    ensures Run(t, config, backends, states, [msg, msg]) == Step(t, config, backends, states, msg)
  {
    assert [msg, msg] == [msg] + [msg];
    RunSingle(t, config, backends, states, msg);
    RepeatIsSilent(t, config, backends, states, msg);
    RunAppend(t, config, backends, states, [msg], msg);
    var step := Step(t, config, backends, states, msg);
    assert step.1 + [] == step.1;
  }

  /** The three turns of an outage: down, down again, up. */
  lemma OutageRun(t: Transport, config: FileConfig, backends: Backends, states: States, id: string)
    requires Deliverable(config, backends, states, StateMessage(id, Down))
    ensures var down := StateMessage(id, Down);
            var s1 := Step(t, config, backends, states, down);
            Deliverable(config, backends, s1.0, StateMessage(id, Up))
            && var s3 := Step(t, config, backends, s1.0, StateMessage(id, Up));
               Run(t, config, backends, states, [down, down, StateMessage(id, Up)]) == (s3.0, s1.1 + s3.1)
  {
    var down := StateMessage(id, Down);
    var up := StateMessage(id, Up);
    assert Deliverable(config, backends, states, up);
    RunRepeat(t, config, backends, states, down);
    assert [down, down, up] == [down, down] + [up];
    RunAppend(t, config, backends, states, [down, down], up);
  }

  /** Down and then Up again leaves a table that had the checker Up as it was. */
  lemma DownUpRestores(t: Transport, config: FileConfig, backends: Backends, states: States, id: string)
    requires Deliverable(config, backends, states, StateMessage(id, Down))
    requires states[id] == Up
    ensures var s1 := Step(t, config, backends, states, StateMessage(id, Down));
            Deliverable(config, backends, s1.0, StateMessage(id, Up))
            && Step(t, config, backends, s1.0, StateMessage(id, Up)).0 == states
  {
    var s1 := Step(t, config, backends, states, StateMessage(id, Down));
    DeliverableKeys(config, backends, states, s1.0, StateMessage(id, Up));
    var s3 := Step(t, config, backends, s1.0, StateMessage(id, Up));
    forall k | k in states ensures s3.0[k] == states[k] {
    }
  }

  /** A turn that changes the state addresses every notifier of the checker. */
  lemma StepAddressed(t: Transport, config: FileConfig, backends: Backends, states: States, msg: StateMessage)
    requires Deliverable(config, backends, states, msg)
    requires msg.state != states[msg.checkerId]
    ensures Addressed(Step(t, config, backends, states, msg).1,
                      GetCheckerById(config, msg.checkerId).value.notifiers, msg.state)
  {
  }

  /** `trace` dispatches `state` to `ids`, one each, in order. */
  predicate Addressed(trace: seq<Dispatch>, ids: seq<string>, state: State) {
    |trace| == |ids|
    && forall i :: 0 <= i < |trace| ==> trace[i].notifierId == ids[i] && trace[i].notification.state == state
  }

  /** A concatenation cut at the length of its first part. */
  lemma Halves<T>(a: seq<T>, b: seq<T>)
    ensures (a + b)[..|a|] == a && (a + b)[|a|..] == b
  {
  }

  /** A service that goes down, stays down for a second probe and comes
      back: each of its notifiers hears of the outage once and of the
      recovery once, in that order, and the table ends where it began. */
  lemma Outage(t: Transport, config: FileConfig, backends: Backends, states: States, id: string)
    requires Deliverable(config, backends, states, StateMessage(id, Down))
    requires states[id] == Up
    ensures var msgs := [StateMessage(id, Down), StateMessage(id, Down), StateMessage(id, Up)];
            var r := Run(t, config, backends, states, msgs);
            var ids := GetCheckerById(config, id).value.notifiers;
            r.0 == states
            && |r.1| == 2 * |ids|
            && Addressed(r.1[..|ids|], ids, Down)
            && Addressed(r.1[|ids|..], ids, Up)
  {
    var down := StateMessage(id, Down);
    var up := StateMessage(id, Up);
    var ids := GetCheckerById(config, id).value.notifiers;
    OutageRun(t, config, backends, states, id);
    DownUpRestores(t, config, backends, states, id);
    var s1 := Step(t, config, backends, states, down);
    var s3 := Step(t, config, backends, s1.0, up);
    StepAddressed(t, config, backends, states, down);
    StepAddressed(t, config, backends, s1.0, up);
    Halves(s1.1, s3.1);
  }

  /** A checker that is named in the configuration and whose notifiers are
      all declared gets a backend for each of them. */
  lemma ValidatedIsDeliverable(config: FileConfig, msg: StateMessage)
    requires Validator.AllDeclared(config)
    requires msg.checkerId in CheckerIds(config)
    ensures Deliverable(config, BuildNotifiers(config.notifiers), InitialStates(config), msg)
  {
    CheckerIdsAreFound(config, msg.checkerId);
    var checker := GetCheckerById(config, msg.checkerId).value;
    var c :| 0 <= c < |config.checkers| && config.checkers[c] == checker;
    forall i | 0 <= i < |checker.notifiers|
      ensures checker.notifiers[i] in BuildNotifiers(config.notifiers)
    {
      var nid := checker.notifiers[i];
      assert Validator.Declared(config, config.checkers[c].notifiers[i]);
      var notifier := GetNotifierById(config, nid).value;
      var k :| 0 <= k < |config.notifiers| && config.notifiers[k] == notifier;
      assert nid in NotifierIdsOf(config.notifiers);
    }
  }

  /** The reactor thread of `spawn`, fed `msgs`, on a configuration that
      passed `validate_config` and messages about configured checkers. */
  function React(t: Transport, config: FileConfig, msgs: seq<StateMessage>): (r: (States, seq<Dispatch>))
    requires Validator.AllDeclared(config)
    requires forall k :: 0 <= k < |msgs| ==> msgs[k].checkerId in CheckerIds(config)
    ensures r.0.Keys == CheckerIds(config)
    ensures forall id :: id in CheckerIds(config) ==> r.0[id] == Last(msgs, ReportFor(id)).GetOr(Up)
  {
    var backends := BuildNotifiers(config.notifiers);
    var states := InitialStates(config);
    forall k | 0 <= k < |msgs| ensures Deliverable(config, backends, states, msgs[k]) {
      ValidatedIsDeliverable(config, msgs[k]);
    }
    RunTable(t, config, backends, states, msgs);
    Run(t, config, backends, states, msgs)
  }
}
