/** The server program driven through schedules: what is proved of the transition system holds of the object. */
module LiveRuns {
  import opened Collections
  import opened Server
  import opened ServerInvariant
  import opened ServerHistory
  import opened PruneRuns
  import opened LiveServer

  lemma RunExtends(states: seq<State>, events: seq<Event>, e: Event)
    requires Run(states, events) && Enabled(states[|events|], e)
    ensures Run(states + [Step(states[|events|], e)], events + [e])
  {
    var more, longer := states + [Step(states[|events|], e)], events + [e];
    forall i | 0 <= i < |longer|
      ensures Enabled(more[i], longer[i]) && more[i + 1] == Step(more[i], longer[i])
    {
      if i < |events| {
        assert more[i] == states[i] && more[i + 1] == states[i + 1] && longer[i] == events[i];
      }
    }
  }

  /**
   * Any schedule of requests, sections, prunes and blocks, run on the object: the states it goes
   * through are a run of the transition system, and each of them satisfies the invariant.
   */
  method Drive(app: AppState, events: seq<Event>) returns (ghost states: seq<State>)
    requires app.Snapshot() == START && After(START, events).Some?
    modifies app, app.registry
    ensures Run(states, events) && states[|events|] == app.Snapshot()
    ensures forall k :: 0 <= k < |states| ==> Inv(states[k])
    ensures After(START, events) == Some(app.Snapshot())
  {
    states := [START];
    assert events[0..] == events;
    for i := 0 to |events|
      invariant Run(states, events[..i]) && states[i] == app.Snapshot()
      invariant After(app.Snapshot(), events[i..]) == After(START, events)
    {
      assert events[i..][0] == events[i] && events[i..][1..] == events[i + 1..];
      assert events[..i + 1] == events[..i] + [events[i]];
      RunExtends(states, events[..i], events[i]);
      states := states + [Step(states[i], events[i])];
      app.Handle(events[i]);
    }
    assert events[..|events|] == events;
    forall k | 0 <= k < |states|
      ensures Inv(states[k])
    {
      Invariant(states, events, k);
    }
  }

  /**
   * Two servers, one with prunes wherever the schedule has them and one without any: they answer
   * every request alike if no authentication reads a session in the second in which it expires.
   */
  method DriveBoth(pruned: AppState, plain: AppState, events: seq<Event>)
    requires pruned != plain && pruned.registry != plain.registry
    requires pruned.Snapshot() == START && plain.Snapshot() == START
    requires After(START, WithoutPrunes(events)).Some?
    modifies pruned, pruned.registry, plain, plain.registry
    ensures SameAccounts(pruned.Snapshot(), plain.Snapshot())
    ensures Undisturbed(START, WithoutPrunes(events)) ==> SameReplies(pruned.Snapshot(), plain.Snapshot())
  {
    StartRelated();
    PrunesChangeNoAccount(START, START, events);
    ghost var with := Drive(pruned, events);
    ghost var without := Drive(plain, WithoutPrunes(events));
    if Undisturbed(START, WithoutPrunes(events)) {
      Simulate(START, START, events);
    }
  }
}
