/**
 How often a flow signs somebody in (src/api/oauth.rs, `poll`): a poll reads the flow, and
 drops it and completes the login only later, so polls that overlap may complete it twice.
 */
module OneLogin {
  import opened Wrappers
  import opened SignIn

  /** A poll that is going to complete a login of the flow. */
  predicate WillSignIn(p: Polling, flow: string) {
    p.flow == flow && Acts(p).1 != []
  }

  function CountSigning(polls: seq<Polling>, flow: string): nat {
    if polls == [] then 0 else (if WillSignIn(polls[0], flow) then 1 else 0) + CountSigning(polls[1..], flow)
  }

  function CountLogins(logins: seq<Login>, flow: string): nat {
    if logins == [] then 0 else (if logins[0].flow == flow then 1 else 0) + CountLogins(logins[1..], flow)
  }

  /** Polls under way that are going to complete a login of the flow, and logins completed. */
  function Signing(d: Desk, flow: string): nat {
    CountSigning(d.polls, flow)
  }

  function Logins(d: Desk, flow: string): nat {
    CountLogins(d.logins, flow)
  }

  lemma {:induction false} LoginsInBoth(a: seq<Login>, b: seq<Login>, flow: string)
    ensures CountLogins(a + b, flow) == CountLogins(a, flow) + CountLogins(b, flow)
  {
    if a == [] {
      assert a + b == b;
    } else {
      LoginsInBoth(a[1..], b, flow);
      assert (a + b)[1..] == a[1..] + b;
    }
  }

  /** A flow that somebody signed in with is gone. */
  predicate Settled(d: Desk, flow: string) {
    Logins(d, flow) > 0 ==> flow in d.minted && flow !in d.sessions
  }

  // ------------------------------------------------------------------ polls that act

  /** Which of the polls under way act later in the run; `late` tells of those that are still
      under way when it ends. */
  function Fates(d: Desk, events: seq<Event>, late: bool): (r: seq<bool>)
    requires PossibleRun(d, events)
    ensures |r| == |d.polls|
    decreases |events|
  {
    if events == [] then seq(|d.polls|, i => late)
    else
      var after := Fates(Step(d, events[0]), events[1..], late);
      match events[0]
      case PollReads(_, _, _, _) => after[..|d.polls|]
      case PollActs(i) => after[..i] + [true] + after[i..]
      case _ => after
  }

  /** The polls that are going to complete a login of the flow and act. */
  function CountFinishing(polls: seq<Polling>, fates: seq<bool>, flow: string): nat
    requires |fates| == |polls|
  {
    if polls == [] then 0
    else (if fates[0] && WillSignIn(polls[0], flow) then 1 else 0) + CountFinishing(polls[1..], fates[1..], flow)
  }

  lemma {:induction false} FinishingInBoth(a: seq<Polling>, b: seq<Polling>, x: seq<bool>, y: seq<bool>, flow: string)
    requires |x| == |a| && |y| == |b|
    ensures CountFinishing(a + b, x + y, flow) == CountFinishing(a, x, flow) + CountFinishing(b, y, flow)
  {
    if a == [] {
      assert a + b == b && x + y == y;
    } else {
      FinishingInBoth(a[1..], b, x[1..], y, flow);
      assert (a + b)[1..] == a[1..] + b && (x + y)[1..] == x[1..] + y;
    }
  }

  /** With the same fate for all, all or none of them count. */
  lemma {:induction false} AllFinishAlike(polls: seq<Polling>, fates: seq<bool>, late: bool, flow: string)
    requires |fates| == |polls| && forall i :: 0 <= i < |fates| ==> fates[i] == late
    ensures CountFinishing(polls, fates, flow) == if late then CountSigning(polls, flow) else 0
  {
    if polls != [] {
      AllFinishAlike(polls[1..], fates[1..], late, flow);
    }
  }

  /** The polls under way that go on to complete a login of the flow in the run. */
  function Finishing(d: Desk, events: seq<Event>, flow: string, late: bool): nat
    requires PossibleRun(d, events)
  {
    CountFinishing(d.polls, Fates(d, events, late), flow)
  }

  lemma ReadingAdds(d: Desk, events: seq<Event>, flow: string, late: bool)
    requires PossibleRun(d, events) && events != [] && events[0].PollReads?
    ensures var e := events[0];
            var p := Reads(d, e.flow, e.provider, e.now, e.answer);
            var more := Finishing(Step(d, e), events[1..], flow, late);
            && Finishing(d, events, flow, late) <= more <= Finishing(d, events, flow, late) + 1
            && (more > Finishing(d, events, flow, late) ==> p.Some? && WillSignIn(p.value, flow))
  {
    var e := events[0];
    var p, f := Reads(d, e.flow, e.provider, e.now, e.answer), Fates(Step(d, e), events[1..], late);
    if p.Some? {
      FinishingInBoth(d.polls, [p.value], f[..|d.polls|], [f[|d.polls|]], flow);
      assert f == f[..|d.polls|] + [f[|d.polls|]];
    } else {
      assert f[..|d.polls|] == f;
    }
  }

  lemma OneFewer(polls: seq<Polling>, fates: seq<bool>, i: nat, flow: string)
    requires i < |polls| && |fates| + 1 == |polls|
    ensures CountFinishing(polls, fates[..i] + [true] + fates[i..], flow) ==
            CountFinishing(polls[..i] + polls[i + 1..], fates, flow) + if WillSignIn(polls[i], flow) then 1 else 0
  {
    var before, p, behind := polls[..i], polls[i], polls[i + 1..];
    var x, y := fates[..i], fates[i..];
    assert polls == before + ([p] + behind) && fates == x + y;
    assert x + [true] + y == x + ([true] + y);
    FinishingInBoth(before, [p] + behind, x, [true] + y, flow);
    FinishingInBoth([p], behind, [true], y, flow);
    FinishingInBoth(before, behind, x, y, flow);
  }

  lemma ActingTurns(d: Desk, events: seq<Event>, flow: string, late: bool)
    requires PossibleRun(d, events) && events != [] && events[0].PollActs?
    ensures var t, p := Step(d, events[0]), d.polls[events[0].i];
            var one := if WillSignIn(p, flow) then 1 else 0;
            && Finishing(t, events[1..], flow, late) + one == Finishing(d, events, flow, late)
            && Logins(t, flow) == Logins(d, flow) + one
  {
    var i := events[0].i;
    OneFewer(d.polls, Fates(Step(d, events[0]), events[1..], late), i, flow);
    LoginsInBoth(d.logins, Acts(d.polls[i]).1, flow);
  }

  /** A step may add a poll that is going to sign in while the flow is pending, or turn one into
      a login, which drops the flow. */
  lemma StepOfLogin(d: Desk, events: seq<Event>, flow: string, late: bool)
    requires PossibleRun(d, events) && events != [] && Sound(d) && Settled(d, flow)
    ensures var t, rest := Step(d, events[0]), events[1..];
            var before, after := Finishing(d, events, flow, late), Finishing(t, rest, flow, late);
            && Settled(t, flow) && Logins(d, flow) + before <= Logins(t, flow) + after
            && (Logins(d, flow) + before < Logins(t, flow) + after ==> Logins(t, flow) == 0 && after == before + 1)
  {
    var e := events[0];
    var t := Step(d, e);
    if e.PollReads? {
      ReadingAdds(d, events, flow, late);
    } else if e.PollActs? {
      ActingTurns(d, events, flow, late);
      assert PollSound(d, d.polls[e.i]);
    } else {
      assert t.polls == d.polls && t.logins == d.logins;
    }
  }

  // ------------------------------------------------------------------ whole runs

  /** At some moment of a run two polls are under way that both go on to complete a login of
      the flow. */
  predicate Overlap(d: Desk, events: seq<Event>, flow: string, late: bool)
    requires PossibleRun(d, events)
    decreases |events|
  {
    Finishing(d, events, flow, late) >= 2 || (events != [] && Overlap(Step(d, events[0]), events[1..], flow, late))
  }

  /** The logins of a flow when a run has ended, and the polls still under way that are counted
      with them. */
  function AtTheEnd(d: Desk, events: seq<Event>, flow: string, late: bool): nat
    requires PossibleRun(d, events)
  {
    Logins(Run(d, events), flow) + if late then Signing(Run(d, events), flow) else 0
  }

  lemma EndOfRun(d: Desk, flow: string, late: bool)
    ensures Logins(d, flow) + Finishing(d, [], flow, late) == AtTheEnd(d, [], flow, late)
  {
    AllFinishAlike(d.polls, Fates(d, [], late), late, flow);
  }

  lemma {:induction false} TotalOnlyGrows(d: Desk, events: seq<Event>, flow: string, late: bool)
    requires PossibleRun(d, events) && Sound(d) && Settled(d, flow)
    ensures Logins(d, flow) + Finishing(d, events, flow, late) <= AtTheEnd(d, events, flow, late)
    decreases |events|
  {
    if events == [] {
      EndOfRun(d, flow, late);
    } else {
      StepOfLogin(d, events, flow, late);
      StepKeepsSound(d, events[0]);
      TotalOnlyGrows(Step(d, events[0]), events[1..], flow, late);
    }
  }

  lemma {:induction false} TwiceExactlyWhen(d: Desk, events: seq<Event>, flow: string, late: bool)
    requires PossibleRun(d, events) && Sound(d) && Settled(d, flow)
    requires Logins(d, flow) + Finishing(d, events, flow, late) <= 1
    ensures Overlap(d, events, flow, late) <==> AtTheEnd(d, events, flow, late) >= 2
    decreases |events|
  {
    if events == [] {
      EndOfRun(d, flow, late);
    } else {
      var t, rest := Step(d, events[0]), events[1..];
      StepOfLogin(d, events, flow, late);
      StepKeepsSound(d, events[0]);
      if Logins(t, flow) + Finishing(t, rest, flow, late) <= 1 {
        TwiceExactlyWhen(t, rest, flow, late);
      } else {
        TotalOnlyGrows(t, rest, flow, late);
        assert Overlap(t, rest, flow, late);
      }
    }
  }

  /** Over every run a flow has signed somebody in more than once exactly when at some moment two
      polls of it were under way that both went on to complete the login. */
  lemma SignsInTwiceExactlyWhenPollsOverlap(events: seq<Event>, flow: string)
    requires PossibleRun(EMPTY_DESK, events)
    ensures Logins(Run(EMPTY_DESK, events), flow) >= 2 <==> Overlap(EMPTY_DESK, events, flow, false)
  {
    TwiceExactlyWhen(EMPTY_DESK, events, flow, false);
  }

  /** Polls of a flow come one after the other: none reads it while another is under way. */
  predicate Serial(d: Desk, events: seq<Event>, flow: string)
    requires PossibleRun(d, events)
    decreases |events|
  {
    events == []
    || ((events[0].PollReads? && events[0].flow == flow ==> NoPollOf(d, flow))
        && Serial(Step(d, events[0]), events[1..], flow))
  }

  function CountPolls(polls: seq<Polling>, flow: string): nat {
    if polls == [] then 0 else (if polls[0].flow == flow then 1 else 0) + CountPolls(polls[1..], flow)
  }

  lemma {:induction false} PollsInBoth(a: seq<Polling>, b: seq<Polling>, flow: string)
    ensures CountPolls(a + b, flow) == CountPolls(a, flow) + CountPolls(b, flow)
  {
    if a == [] {
      assert a + b == b;
    } else {
      PollsInBoth(a[1..], b, flow);
      assert (a + b)[1..] == a[1..] + b;
    }
  }

  lemma {:induction false} NoMoreThanPolls(polls: seq<Polling>, fates: seq<bool>, flow: string)
    requires |fates| == |polls|
    ensures CountFinishing(polls, fates, flow) <= CountPolls(polls, flow)
  {
    if polls != [] {
      NoMoreThanPolls(polls[1..], fates[1..], flow);
    }
  }

  lemma {:induction false} NoPollsToCount(polls: seq<Polling>, flow: string)
    requires forall i :: 0 <= i < |polls| ==> polls[i].flow != flow
    ensures CountPolls(polls, flow) == 0
  {
    if polls != [] {
      NoPollsToCount(polls[1..], flow);
    }
  }

  lemma OnePollAtATime(d: Desk, e: Event, flow: string)
    requires Possible(d, e) && CountPolls(d.polls, flow) <= 1
    requires e.PollReads? && e.flow == flow ==> NoPollOf(d, flow)
    ensures CountPolls(Step(d, e).polls, flow) <= 1
  {
    var t := Step(d, e);
    if e.PollReads? {
      var p := Reads(d, e.flow, e.provider, e.now, e.answer);
      if p.Some? {
        PollsInBoth(d.polls, [p.value], flow);
        if e.flow == flow {
          NoPollsToCount(d.polls, flow);
        }
      }
    } else if e.PollActs? {
      assert d.polls == d.polls[..e.i] + ([d.polls[e.i]] + d.polls[e.i + 1..]);
      PollsInBoth(d.polls[..e.i], [d.polls[e.i]] + d.polls[e.i + 1..], flow);
      PollsInBoth([d.polls[e.i]], d.polls[e.i + 1..], flow);
      PollsInBoth(d.polls[..e.i], d.polls[e.i + 1..], flow);
    }
  }

  lemma {:induction false} SerialNeverOverlaps(d: Desk, events: seq<Event>, flow: string, late: bool)
    requires PossibleRun(d, events) && Serial(d, events, flow) && CountPolls(d.polls, flow) <= 1
    ensures !Overlap(d, events, flow, late)
    decreases |events|
  {
    NoMoreThanPolls(d.polls, Fates(d, events, late), flow);
    if events != [] {
      OnePollAtATime(d, events[0], flow);
      SerialNeverOverlaps(Step(d, events[0]), events[1..], flow, late);
    }
  }

  /** Polls of a flow that come one after the other complete at most one login of it. */
  lemma SerialPollsSignInOnce(events: seq<Event>, flow: string)
    requires PossibleRun(EMPTY_DESK, events) && Serial(EMPTY_DESK, events, flow)
    ensures Logins(Run(EMPTY_DESK, events), flow) + Signing(Run(EMPTY_DESK, events), flow) <= 1
  {
    SerialNeverOverlaps(EMPTY_DESK, events, flow, true);
    TwiceExactlyWhen(EMPTY_DESK, events, flow, true);
  }

  /** Whatever else is under way, two polls that read a signed-in flow before either acts on it
      both complete the login. */
  lemma OverlappingPollsBothSignIn(d: Desk, flow: string, provider: string, tokens: string, now: nat)
    requires flow in d.sessions && d.sessions[flow].provider == provider
    requires d.sessions[flow].kind == Browser(None, Some(SignedIn(tokens))) && Alive(d.sessions[flow], now)
    ensures var look, act := PollReads(flow, provider, now, StillPending), PollActs(|d.polls|);
            PossibleRun(d, [look, look, act, act])
            && Run(d, [look, look, act, act]).logins == d.logins + [Login(flow, tokens), Login(flow, tokens)]
  {
    var look, act := PollReads(flow, provider, now, StillPending), PollActs(|d.polls|);
    var saw := Saw(flow, SignedIn(tokens));
    var d1 := d.(polls := d.polls + [saw]);
    var d2 := d.(polls := d.polls + [saw, saw]);
    var d3 := d1.(sessions := d.sessions - {flow}, logins := d.logins + [Login(flow, tokens)]);
    TwoReads(d, flow, provider, tokens, now);
    assert Step(d2, act) == d3 by {
      assert (d.polls + [saw, saw])[..|d.polls|] + (d.polls + [saw, saw])[|d.polls| + 1..] == d.polls + [saw];
    }
    assert Step(d3, act).logins == d.logins + [Login(flow, tokens), Login(flow, tokens)];
    RunOfTwo(d2, act, act);
    RunOfCons(d1, look, [act, act]);
    RunOfCons(d, look, [look, act, act]);
    assert [look] + [look, act, act] == [look, look, act, act];
    assert [look] + [act, act] == [look, act, act];
  }

  lemma TwoReads(d: Desk, flow: string, provider: string, tokens: string, now: nat)
    requires flow in d.sessions && d.sessions[flow].provider == provider
    requires d.sessions[flow].kind == Browser(None, Some(SignedIn(tokens))) && Alive(d.sessions[flow], now)
    ensures var saw, look := Saw(flow, SignedIn(tokens)), PollReads(flow, provider, now, StillPending);
            && Step(d, look) == d.(polls := d.polls + [saw])
            && Step(d.(polls := d.polls + [saw]), look) == d.(polls := d.polls + [saw, saw])
  {
    var saw := Saw(flow, SignedIn(tokens));
    assert d.polls + [saw] + [saw] == d.polls + [saw, saw];
  }

  lemma RunOfTwo(d: Desk, e: Event, f: Event)
    requires Possible(d, e) && Possible(Step(d, e), f)
    ensures PossibleRun(d, [e, f]) && Run(d, [e, f]) == Step(Step(d, e), f)
  {
    RunOfCons(Step(d, e), f, []);
    RunOfCons(d, e, [f]);
    assert [f] + [] == [f] && [e] + [f] == [e, f];
  }

  lemma RunOfCons(d: Desk, e: Event, rest: seq<Event>)
    requires Possible(d, e) && PossibleRun(Step(d, e), rest)
    ensures PossibleRun(d, [e] + rest) && Run(d, [e] + rest) == Run(Step(d, e), rest)
  {
  }
}
