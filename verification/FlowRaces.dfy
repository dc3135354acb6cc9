/** Interleavings the source allows, as concrete runs of events, and exactly when they can happen. */
module FlowRaces {
  import opened Wrappers
  import opened Histories
  import opened FlowTypes
  import opened FlowModel
  import opened FlowInvariants
  import opened FlowAgreement
  import opened FlowHistory

  /**
    Where a superseded run's next continuation closes the window: wherever it ends in the catch block, which closes before
    anything is checked, and after the OAuth wait and the session loop, which close without a check.
   */
  predicate ClosesWhenStale(pc: Pc) {
    match pc
    case GotConsentUrl(_) | OAuthSettled(_) | GotSession(_) | GotImport(_, _) | Throwing(_, _) | SessionDone(_) => true
    case _ => false
  }

  /** A superseded run's continuation closes whatever window is open, or leaves it alone; which of the two, its point says. */
  lemma StaleContinueClosesWindowIff(f: Flow, r: nat, windowClosed: bool)
    requires r in f.runs && r != f.runId
    ensures var g := Resume(f, r, windowClosed);
            && g.popup == (if ClosesWhenStale(f.runs[r]) then None else f.popup)
            && (g.popup != f.popup <==> f.popup.Some? && ClosesWhenStale(f.runs[r]))
  {
    match f.runs[r]
    case GotStatus(_, _) =>
    case GotJob(_, _) =>
    case PollFailed(_, _, _) =>
    case _ => hide ResumeStatus, ResumeJob, ResumePollFailed, RequestAt;
  }

  /** At task granularity: whatever wakes a superseded run, the window is closed when the task is over. */
  lemma WokenStaleRunClosesWindow(f: Flow, r: nat, e: Event)
    requires Inv(f) && r != f.runId && Wakes(f, r, e)
    ensures Drain(Step(f, e), r).popup == None
  {
    hide Inv, Committed;
    WokenStale(f, r, e);
    StaleDrainCloses(Step(f, e), r);
  }

  lemma WokenStale(f: Flow, r: nat, e: Event)
    requires Inv(f) && r != f.runId && Wakes(f, r, e)
    ensures var g := Step(f, e); r in g.runs && r != g.runId && !g.runs[r].Suspended() && !Committed(g.runs[r])
  {
    hide RunsOk;
  }

  lemma {:induction false} StaleDrainCloses(f: Flow, r: nat)
    requires r in f.runs && r != f.runId && !f.runs[r].Suspended() && !Committed(f.runs[r])
    ensures Drain(f, r).popup == None
    decreases HopsLeft(f.runs[r])
  {
    var g := Resume(f, r, false);
    DrainProgress(f, r, false);
    StaleContinueClosesWindowIff(f, r, false);
    if r in g.runs {
      StaleDrainCloses(g, r);
    }
  }

  /** Run 1 asks for consent and is superseded by run 2, which opens its picker. */
  lemma TwoCalls(config: Config)
    ensures var f := Step(Init(config), ConnectCall(true));
            f.runs == map[1 := AwaitConsentUrl] && f.runId == 1 && f.state.connected == None
    ensures var f := Step(Step(Init(config), ConnectCall(true)), StartCall(true));
            && f.runs == map[1 := AwaitConsentUrl, 2 := AwaitSession]
            && f.runId == 2 && f.popup == Some(2) && f.state.phase.Creating?
  {
    var f := Step(Init(config), ConnectCall(true));
    assert f.runs == map[1 := AwaitConsentUrl] && f.runId == 1 && f.state.connected == None;
    hide Connect;
  }

  /** The consent request of run 1 fails, and run 1 ends. */
  lemma StaleConsentFails(f: Flow)
    requires f.runs == map[1 := AwaitConsentUrl, 2 := AwaitSession] && f.runId == 2
    ensures var g := Step(Step(f, FetchSettles(1, FetchFailed("", false))), Continue(1, false));
            g.popup == None && g.runId == 2 && g.runs == map[2 := AwaitSession] && g.state == f.state
  {
    var g := Step(f, FetchSettles(1, FetchFailed("", false)));
    assert g.runs == map[1 := GotConsentUrl(Err(Failure("", false))), 2 := AwaitSession];
    assert g.runId == 2 && g.state == f.state;
    hide SettleFetch;
  }

  /**
    It does happen, with every task running to its end: the consent request of a superseded `connect()` fails, and the
    picker window of the `start()` that superseded it is closed while that run still needs it.
   */
  lemma StaleRunClosesNewerWindow(config: Config)
    ensures var calls := [ConnectCall(true), StartCall(true)];
            var events := calls + [FetchSettles(1, FetchFailed("", false)), Continue(1, false)];
            var before := Run(Init(config), calls);
            var after := Run(Init(config), events);
            && TaskByTask(Init(config), events)
            && before.popup == Some(2) && after.popup == None
            && after.runId == 2 && 2 in after.runs && after.runs[2].AwaitSession? && after.state.phase.Creating?
  {
    var fails, goesOn := FetchSettles(1, FetchFailed("", false)), Continue(1, false);
    var f0 := Init(config);
    var f1 := Step(f0, ConnectCall(true));
    var f2 := Step(f1, StartCall(true));
    TwoCalls(config);
    StaleConsentFails(f2);
    hide Step;
    RunTwo(f0, ConnectCall(true), StartCall(true));
    RunTwo(f2, fails, goesOn);
    TwoMore(f0, ConnectCall(true), StartCall(true), [fails, goesOn]);
    var events := [ConnectCall(true), StartCall(true)] + [fails, goesOn];
    assert events[1..] == [StartCall(true), fails, goesOn];
    assert events[1..][1..] == [fails, goesOn];
    TaskEnds(f2, fails, 1, false);
    assert TaskByTask(f1, events[1..]);
  }

  lemma TaskEnds(f: Flow, e: Event, r: nat, windowClosed: bool)
    requires Quiescent(f)
    ensures TaskByTask(f, [e, Continue(r, windowClosed)])
  {
    var events := [e, Continue(r, windowClosed)];
    assert events[1..] == [Continue(r, windowClosed)];
    assert events[1..][1..] == [];
    hide Step;
    assert TaskByTask(Step(f, e), events[1..]);
  }

  /** Run 1 waits for its OAuth message. */
  lemma WaitingForMessage(config: Config)
    ensures var f := Step(Step(Step(Init(config), ConnectCall(true)), FetchSettles(1, ConsentReply(""))), Continue(1, false));
            f.runs == map[1 := AwaitOAuth] && f.listeners == {1} && f.runId == 1 && f.config == config
            && f.state.connected == None
  {
    var f1 := Step(Init(config), ConnectCall(true));
    assert f1.runs == map[1 := AwaitConsentUrl] && f1.listeners == {} && f1.runId == 1 && f1.config == config
           && f1.state.connected == None;
    hide Connect;
    var f2 := Step(f1, FetchSettles(1, ConsentReply("")));
    assert f2.runs == map[1 := GotConsentUrl(Ok(""))] && f2.listeners == {} && f2.runId == 1 && f2.config == config
           && f2.state.connected == None;
    hide SettleFetch;
  }

  /** The success message arrives, and `start()` gets in before the code behind the await. */
  lemma StartCutsIn(f: Flow, origin: string)
    requires OriginAccepted(f.config, origin)
    requires f.runs == map[1 := AwaitOAuth] && f.listeners == {1} && f.runId == 1 && f.state.connected == None
    ensures var message := Some(OAuthData(f.config.messageType, "success", None));
            var g := Step(Step(f, MessageArrives(1, origin, message)), StartCall(true));
            g.runs == map[1 := OAuthSettled(None), 2 := AwaitSession] && g.runId == 2
  {
    var message := Some(OAuthData(f.config.messageType, "success", None));
    var g := Step(f, MessageArrives(1, origin, message));
    assert g.runs == map[1 := OAuthSettled(None)] && g.runId == 1 && g.state.connected == None;
    hide Message;
  }

  lemma LateIdle(f: Flow)
    requires f.runs == map[1 := OAuthSettled(None), 2 := AwaitSession] && f.runId == 2
    ensures var g := Step(f, Continue(1, false)); g.state.phase.Idle? && g.runs == map[2 := AwaitSession] && g.runId == 2
  {
  }

  /**
    Between continuations the phase can be wrong: the success message of run 1 has arrived, `start()` cuts in before the
    code after the await runs, and then run 1 writes `idle` over the `creating` of run 2.
   */
  lemma StaleConnectWritesIdle(config: Config, origin: string)
    requires OriginAccepted(config, origin)
    ensures exists events ::
              var f := Run(Init(config), events);
              && Inv(f) && f.runId == 2 && 2 in f.runs && f.runs[2].AwaitSession? && f.state.phase.Idle?
              && !PhaseAgrees(f)
  {
    hide Step, Inv, Connect, Start, Message, Resume, SettleFetch;
    var arrives := MessageArrives(1, origin, Some(OAuthData(config.messageType, "success", None)));
    var f0 := Init(config);
    var f2 := Step(Step(f0, ConnectCall(true)), FetchSettles(1, ConsentReply("")));
    var f3 := Step(f2, Continue(1, false));
    var f5 := Step(Step(f3, arrives), StartCall(true));
    WaitingForMessage(config);
    StartCutsIn(f3, origin);
    LateIdle(f5);
    var tail4 := [StartCall(true), Continue(1, false)];
    var tail2 := [Continue(1, false), arrives] + tail4;
    var events := [ConnectCall(true), FetchSettles(1, ConsentReply(""))] + tail2;
    RunTwo(Step(f3, arrives), StartCall(true), Continue(1, false));
    TwoMore(f2, Continue(1, false), arrives, tail4);
    TwoMore(f0, ConnectCall(true), FetchSettles(1, ConsentReply("")), tail2);
    InitInv(config);
    RunInv(f0, events);
    assert !PhaseAgrees(Run(f0, events));
  }

  lemma TwoMore(f: Flow, e: Event, d: Event, rest: seq<Event>)
    ensures Run(f, [e, d] + rest) == Run(Step(Step(f, e), d), rest)
  {
    var events := [e, d] + rest;
    assert events[1..] == [d] + rest;
    assert events[1..][1..] == rest;
    hide Step;
  }
}
