/**
 Browser and device sign-in (src/api/oauth.rs): a shared map of pending flows that loopback
 callbacks, polls and new flows change under a lock, one operation at a time. The callback of
 a flow takes its PKCE verifier, sends it with the authorization code (section 4.5 of
 RFC 7636) and stores how that went, for a poll to find.
 */
module SignIn {
  import opened Wrappers

  datatype Outcome = SignedIn(tokens: string) | Refused(message: string)

  datatype Kind = Browser(verifier: Option<string>, outcome: Option<Outcome>) | Device(expiresIn: nat)

  datatype Session = Session(provider: string, started: nat, kind: Kind)

  type Sessions = map<string, Session>

  const WINDOW: nat := 900

  function Elapsed(now: nat, started: nat): nat {
    if now < started then 0 else now - started
  }

  // ------------------------------------------------------------------ operations on the map

  /** A full map makes room by dropping sixteen flows, whichever they are. */
  predicate MayEvict(sessions: Sessions, evicted: set<string>) {
    evicted <= sessions.Keys && |evicted| == if |sessions| > 64 then 16 else 0
  }

  function Inserted(sessions: Sessions, flow: string, session: Session, evicted: set<string>): Sessions {
    (sessions - evicted)[flow := session]
  }

  /** The map after a callback, and the provider and verifier it obtained. */
  function Taken(sessions: Sessions, flow: string, now: nat): (Sessions, Option<(string, string)>) {
    if flow !in sessions then (sessions, None)
    else
      var s := sessions[flow];
      if Elapsed(now, s.started) >= WINDOW then (sessions - {flow}, None)
      else if s.kind.Device? || s.kind.outcome.Some? || s.kind.verifier.None? then (sessions, None)
      else (sessions[flow := s.(kind := Browser(None, None))], Some((s.provider, s.kind.verifier.value)))
  }

  /** The map after an outcome was offered, and whether it was stored. */
  function Stored(sessions: Sessions, flow: string, outcome: Outcome): (Sessions, bool) {
    if flow !in sessions then (sessions, false)
    else
      var s := sessions[flow];
      if s.kind.Device? || s.kind.verifier.Some? || s.kind.outcome.Some? then (sessions, false)
      else (sessions[flow := s.(kind := Browser(None, Some(outcome)))], true)
  }

  lemma DropIsSmaller(sessions: Sessions, keys: set<string>)
    requires keys <= sessions.Keys
    ensures |sessions - keys| == |sessions| - |keys|
  {
  }

  lemma InsertStaysBounded(sessions: Sessions, flow: string, session: Session, evicted: set<string>)
    requires |sessions| <= 65 && MayEvict(sessions, evicted)
    ensures |Inserted(sessions, flow, session, evicted)| <= 65
  {
  }

  lemma DropOneMore(sessions: Sessions, keys: set<string>, key: string)
    requires key in sessions && key !in keys
    ensures (sessions - keys) - {key} == sessions - (keys + {key})
    ensures |keys + {key}| == |keys| + 1
  {
  }

  lemma NothingEvicted(sessions: Sessions)
    ensures sessions - {} == sessions
  {
  }

  /** A browser flow whose callback has not come yet. */
  predicate HoldsVerifier(s: Session) {
    s.kind.Browser? && s.kind.verifier.Some? && s.kind.outcome.None?
  }

  /** At most one flow is touched. */
  ghost predicate OnlyConcerns(before: Sessions, after: Sessions, flow: string) {
    forall other :: other != flow ==> SameFlow(before, after, other)
  }

  predicate SameFlow(before: Sessions, after: Sessions, flow: string) {
    (flow in after <==> flow in before) && (flow in after ==> after[flow] == before[flow])
  }

  /** A new flow is there afterwards, and whoever was not dropped for it still is. */
  ghost predicate MadeRoom(before: Sessions, after: Sessions, flow: string, session: Session, evicted: set<string>) {
    && (if |before| > 64 then evicted <= before.Keys && |evicted| == 16 else evicted == {})
    && flow in after && after[flow] == session
    && forall other :: other != flow ==>
         if other in evicted then other !in after else SameFlow(before, after, other)
  }

  class SessionMap {
    var sessions: Sessions

    constructor ()
      ensures sessions == map[]
    {
      sessions := map[];
    }

    method Insert(flow: string, session: Session) returns (evicted: set<string>)
      modifies this
      ensures MayEvict(old(sessions), evicted)
      ensures sessions == Inserted(old(sessions), flow, session, evicted)
      ensures MadeRoom(old(sessions), sessions, flow, session, evicted)
      ensures |old(sessions)| <= 65 ==> |sessions| <= 65
    {
      evicted := {};
      ghost var before := sessions;
      if |sessions| > 64 {
        while |evicted| < 16
          invariant evicted <= before.Keys && |evicted| <= 16
          invariant sessions == before - evicted
        {
          DropIsSmaller(before, evicted);
          var key :| key in sessions;
          DropOneMore(before, evicted, key);
          sessions := sessions - {key};
          evicted := evicted + {key};
        }
      }
      NothingEvicted(before);
      if |before| <= 65 {
        InsertStaysBounded(before, flow, session, evicted);
      }
      sessions := sessions[flow := session];
    }

    /** Afterwards the flow is gone, and every other one is as it was. */
    method Drop(flow: string)
      modifies this
      ensures flow !in sessions && |sessions| <= |old(sessions)|
      ensures OnlyConcerns(old(sessions), sessions, flow)
    {
      if flow in sessions {
        DropIsSmaller(sessions, {flow});
      } else {
        assert sessions - {flow} == sessions;
      }
      sessions := sessions - {flow};
    }

    /** The verifier is handed out exactly while the flow holds it and its fifteen minutes last;
        then it is gone, and so is a flow whose time is up. */
    method TakeBrowserCallback(flow: string, now: nat) returns (taken: Option<(string, string)>)
      modifies this
      ensures (sessions, taken) == Taken(old(sessions), flow, now)
      ensures taken.Some? <==> flow in old(sessions) && HoldsVerifier(old(sessions)[flow])
                               && now < old(sessions)[flow].started + 900
      ensures taken.Some? ==>
                var s := old(sessions)[flow];
                && taken.value == (s.provider, s.kind.verifier.value)
                && flow in sessions && sessions[flow] == Session(s.provider, s.started, Browser(None, None))
      ensures taken.None? && flow in old(sessions) ==>
                if now < old(sessions)[flow].started + 900 then sessions == old(sessions) else flow !in sessions
      ensures OnlyConcerns(old(sessions), sessions, flow)
    {
      if flow in sessions && Elapsed(now, sessions[flow].started) >= WINDOW {
        sessions := sessions - {flow};
        return None;
      }
      if flow !in sessions {
        return None;
      }
      var session := sessions[flow];
      if session.kind.Device? || session.kind.outcome.Some? {
        return None;
      }
      if session.kind.verifier.None? {
        return None;
      }
      sessions := sessions[flow := session.(kind := session.kind.(verifier := None))];
      taken := Some((session.provider, session.kind.verifier.value));
    }

    /** The outcome is stored exactly while the flow waits for one. */
    method StoreBrowserOutcome(flow: string, outcome: Outcome) returns (stored: bool)
      modifies this
      ensures (sessions, stored) == Stored(old(sessions), flow, outcome)
      ensures stored <==> flow in old(sessions) && old(sessions)[flow].kind == Browser(None, None)
      ensures stored ==>
                var s := old(sessions)[flow];
                flow in sessions && sessions[flow] == Session(s.provider, s.started, Browser(None, Some(outcome)))
      ensures !stored ==> sessions == old(sessions)
      ensures OnlyConcerns(old(sessions), sessions, flow)
    {
      if flow !in sessions {
        return false;
      }
      var session := sessions[flow];
      if session.kind.Device? {
        return false;
      }
      if session.kind.verifier.Some? || session.kind.outcome.Some? {
        return false;
      }
      sessions := sessions[flow := session.(kind := session.kind.(outcome := Some(outcome)))];
      stored := true;
    }
  }

  // ------------------------------------------------------------------ the world around it

  /** What a new flow was given: the verifier, unless it is a device flow. */
  datatype Minted = Minted(provider: string, verifier: Option<string>, started: nat)

  datatype Grant = Grant(flow: string, provider: string, verifier: string, at: nat)

  datatype Recording = Recording(flow: string, outcome: Outcome)

  datatype Login = Login(flow: string, tokens: string)

  /** A poll between what it read and what it does about it; one of a device flow asks the
      provider in between, and `answer` is what it is going to hear. */
  datatype Polling =
    | Expires(flow: string)
    | Saw(flow: string, outcome: Outcome)
    | Asks(flow: string, answer: DeviceAnswer)

  datatype DeviceAnswer = StillPending | DeviceRefused | DeviceTokens(tokens: string)

  /** The map, the history of what came of it, and the callbacks and polls under way. */
  datatype Desk = Desk(
    sessions: Sessions,
    minted: map<string, Minted>,
    granted: seq<Grant>,
    recorded: seq<Recording>,
    exchanging: set<string>,
    polls: seq<Polling>,
    logins: seq<Login>)

  datatype Event =
    | ConnectBrowser(flow: string, provider: string, verifier: string, now: nat, evicted: set<string>)
    | ConnectDevice(flow: string, provider: string, expiresIn: nat, now: nat, evicted: set<string>)
    | Callback(flow: string, now: nat)
    | Exchanged(flow: string, outcome: Outcome)
    | PollReads(flow: string, provider: string, now: nat, answer: DeviceAnswer)
    | PollActs(i: nat)

  /** New flows have new ids, and only a callback that holds a verifier has an outcome to store. */
  predicate Possible(d: Desk, e: Event) {
    match e
    case ConnectBrowser(flow, _, _, _, evicted) => flow !in d.minted && MayEvict(d.sessions, evicted)
    case ConnectDevice(flow, _, _, _, evicted) => flow !in d.minted && MayEvict(d.sessions, evicted)
    case Callback(_, _) => true
    case Exchanged(flow, _) => flow in d.exchanging
    case PollReads(_, _, _, _) => true
    case PollActs(i) => i < |d.polls|
  }

  predicate Alive(s: Session, now: nat) {
    Elapsed(now, s.started) < if s.kind.Device? then s.kind.expiresIn else WINDOW
  }

  function Reads(d: Desk, flow: string, provider: string, now: nat, answer: DeviceAnswer): Option<Polling> {
    if flow !in d.sessions || d.sessions[flow].provider != provider then None
    else
      var s := d.sessions[flow];
      if !Alive(s, now) then Some(Expires(flow))
      else if s.kind.Device? then Some(Asks(flow, answer))
      else if s.kind.outcome.Some? then Some(Saw(flow, s.kind.outcome.value))
      else None
  }

  /** Whether a poll drops its flow, and the login it completes. */
  function Acts(p: Polling): (bool, seq<Login>) {
    match p
    case Expires(_) => (true, [])
    case Saw(flow, SignedIn(tokens)) => (true, [Login(flow, tokens)])
    case Saw(_, Refused(_)) => (true, [])
    case Asks(_, StillPending) => (false, [])
    case Asks(_, DeviceRefused) => (true, [])
    case Asks(flow, DeviceTokens(tokens)) => (true, [Login(flow, tokens)])
  }

  function Step(d: Desk, e: Event): Desk
    requires Possible(d, e)
  {
    match e
    case ConnectBrowser(flow, provider, verifier, now, evicted) =>
      d.(sessions := Inserted(d.sessions, flow, Session(provider, now, Browser(Some(verifier), None)), evicted),
         minted := d.minted[flow := Minted(provider, Some(verifier), now)])
    case ConnectDevice(flow, provider, expiresIn, now, evicted) =>
      d.(sessions := Inserted(d.sessions, flow, Session(provider, now, Device(expiresIn)), evicted),
         minted := d.minted[flow := Minted(provider, None, now)])
    case Callback(flow, now) =>
      var (sessions, taken) := Taken(d.sessions, flow, now);
      if taken.None? then d.(sessions := sessions)
      else d.(sessions := sessions, exchanging := d.exchanging + {flow},
              granted := d.granted + [Grant(flow, taken.value.0, taken.value.1, now)])
    case Exchanged(flow, outcome) =>
      var (sessions, stored) := Stored(d.sessions, flow, outcome);
      d.(sessions := sessions, exchanging := d.exchanging - {flow},
         recorded := if stored then d.recorded + [Recording(flow, outcome)] else d.recorded)
    case PollReads(flow, provider, now, answer) =>
      var p := Reads(d, flow, provider, now, answer);
      if p.Some? then d.(polls := d.polls + [p.value]) else d
    case PollActs(i) =>
      var (drops, logins) := Acts(d.polls[i]);
      d.(sessions := if drops then d.sessions - {d.polls[i].flow} else d.sessions,
         polls := d.polls[..i] + d.polls[i + 1..], logins := d.logins + logins)
  }

  // ------------------------------------------------------------------ one poll

  /** A poll with nothing in between what it reads and what it does. */
  function Polled(d: Desk, flow: string, provider: string, now: nat, answer: DeviceAnswer): Desk {
    var t := Step(d, PollReads(flow, provider, now, answer));
    if |t.polls| > |d.polls| then Step(t, PollActs(|d.polls|)) else t
  }

  /** The flow is dropped and nothing else is touched but for the logins. */
  ghost predicate Ends(d: Desk, u: Desk, flow: string, logins: seq<Login>) {
    flow !in u.sessions && OnlyConcerns(d.sessions, u.sessions, flow) && u == d.(sessions := u.sessions, logins := logins)
  }

  /** What a poll comes to: a flow whose time is up or whose sign-in was refused is dropped,
      one with tokens is dropped and signed in, and any other stays as it is. */
  lemma PollShows(d: Desk, flow: string, provider: string, now: nat, answer: DeviceAnswer)
    ensures flow !in d.sessions || d.sessions[flow].provider != provider ==> Polled(d, flow, provider, now, answer) == d
    ensures flow in d.sessions && d.sessions[flow].provider == provider ==>
              var s, u := d.sessions[flow], Polled(d, flow, provider, now, answer);
              match s.kind
              case Device(expiresIn) =>
                if expiresIn == 0 || now >= s.started + expiresIn then Ends(d, u, flow, d.logins)
                else (match answer
                      case StillPending => u == d
                      case DeviceRefused => Ends(d, u, flow, d.logins)
                      case DeviceTokens(tokens) => Ends(d, u, flow, d.logins + [Login(flow, tokens)]))
              case Browser(_, outcome) =>
                if now >= s.started + 900 then Ends(d, u, flow, d.logins)
                else (match outcome
                      case None => u == d
                      case Some(Refused(_)) => Ends(d, u, flow, d.logins)
                      case Some(SignedIn(tokens)) => Ends(d, u, flow, d.logins + [Login(flow, tokens)]))
  {
    var p := Reads(d, flow, provider, now, answer);
    if p.Some? {
      assert d.logins + [] == d.logins;
      PollTaken(d, d.(polls := d.polls + [p.value]), p.value);
    }
  }

  lemma PollTaken(d: Desk, t: Desk, p: Polling)
    requires t == d.(polls := d.polls + [p])
    ensures Step(t, PollActs(|d.polls|)) ==
            d.(sessions := if Acts(p).0 then d.sessions - {p.flow} else d.sessions, logins := d.logins + Acts(p).1)
  {
    assert t.polls[..|d.polls|] + t.polls[|d.polls| + 1..] == d.polls;
  }

  // ------------------------------------------------------------------ the invariant

  predicate WasGranted(d: Desk, flow: string) {
    exists i :: 0 <= i < |d.granted| && d.granted[i].flow == flow
  }

  predicate WasRecorded(d: Desk, flow: string) {
    exists i :: 0 <= i < |d.recorded| && d.recorded[i].flow == flow
  }

  /** A pending flow is as it was minted, and what it holds says how far it has come. */
  predicate InStep(d: Desk, flow: string, s: Session) {
    && flow in d.minted && s.provider == d.minted[flow].provider && s.started == d.minted[flow].started
    && match s.kind
       case Device(_) => d.minted[flow].verifier.None?
       case Browser(verifier, outcome) =>
         && d.minted[flow].verifier.Some?
         && (verifier.Some? ==> verifier == d.minted[flow].verifier && outcome.None?)
         && (verifier.Some? <==> !WasGranted(d, flow))
         && (outcome.Some? <==> WasRecorded(d, flow))
         && (outcome.Some? ==> Recording(flow, outcome.value) in d.recorded)
  }

  predicate PendingInStep(d: Desk) {
    forall flow :: flow in d.sessions ==> InStep(d, flow, d.sessions[flow])
  }

  predicate GrantsSound(d: Desk) {
    && (forall i, j :: 0 <= i < j < |d.granted| ==> d.granted[i].flow != d.granted[j].flow)
    && (forall i :: 0 <= i < |d.granted| ==>
          var g := d.granted[i];
          && g.flow in d.minted && d.minted[g.flow] == Minted(g.provider, Some(g.verifier), d.minted[g.flow].started)
          && Elapsed(g.at, d.minted[g.flow].started) < WINDOW)
  }

  predicate RecordingsSound(d: Desk) {
    && (forall i, j :: 0 <= i < j < |d.recorded| ==> d.recorded[i].flow != d.recorded[j].flow)
    && (forall i :: 0 <= i < |d.recorded| ==> WasGranted(d, d.recorded[i].flow))
    && (forall flow :: flow in d.exchanging ==> WasGranted(d, flow))
  }

  predicate LoginSound(d: Desk, login: Login) {
    && login.flow in d.minted
    && (d.minted[login.flow].verifier.Some? ==> Recording(login.flow, SignedIn(login.tokens)) in d.recorded)
  }

  predicate PollSound(d: Desk, p: Polling) {
    && p.flow in d.minted
    && (p.Saw? ==> Recording(p.flow, p.outcome) in d.recorded)
    && (p.Asks? ==> d.minted[p.flow].verifier.None?)
  }

  predicate AnswersSound(d: Desk) {
    && (forall i :: 0 <= i < |d.polls| ==> PollSound(d, d.polls[i]))
    && (forall i :: 0 <= i < |d.logins| ==> LoginSound(d, d.logins[i]))
  }

  predicate Sound(d: Desk) {
    |d.sessions| <= 65 && PendingInStep(d) && GrantsSound(d) && RecordingsSound(d) && AnswersSound(d)
  }

  /** A new flow has no history. */
  lemma NewFlowIsUnknown(d: Desk, flow: string)
    requires Sound(d) && flow !in d.minted
    ensures !WasGranted(d, flow) && !WasRecorded(d, flow)
  {
  }

  lemma MintingKeeps(d: Desk, t: Desk, flow: string, s: Session, evicted: set<string>, m: Minted)
    requires Sound(d) && flow !in d.minted && MayEvict(d.sessions, evicted)
    requires t == d.(sessions := Inserted(d.sessions, flow, s, evicted), minted := d.minted[flow := m])
    requires s.provider == m.provider && s.started == m.started
    requires if s.kind.Device? then m.verifier.None? else s.kind == Browser(m.verifier, None) && m.verifier.Some?
    ensures Sound(t)
  {
    InsertStaysBounded(d.sessions, flow, s, evicted);
    NewFlowIsUnknown(d, flow);
    MintedInStep(d, t, flow, s, evicted, m);
    assert forall other :: WasGranted(t, other) == WasGranted(d, other);
    MintedAnswers(d, t, flow, m);
  }

  lemma MintedInStep(d: Desk, t: Desk, flow: string, s: Session, evicted: set<string>, m: Minted)
    requires PendingInStep(d) && flow !in d.minted && !WasGranted(d, flow) && !WasRecorded(d, flow)
    requires t == d.(sessions := Inserted(d.sessions, flow, s, evicted), minted := d.minted[flow := m])
    requires s.provider == m.provider && s.started == m.started
    requires if s.kind.Device? then m.verifier.None? else s.kind == Browser(m.verifier, None) && m.verifier.Some?
    ensures PendingInStep(t)
  {
  }

  lemma MintedAnswers(d: Desk, t: Desk, flow: string, m: Minted)
    requires AnswersSound(d) && flow !in d.minted
    requires t == d.(sessions := t.sessions, minted := d.minted[flow := m])
    ensures AnswersSound(t)
  {
  }

  lemma SameSizeUpdate(sessions: Sessions, flow: string, s: Session)
    requires flow in sessions
    ensures |sessions[flow := s]| == |sessions|
  {
  }

  lemma GrantAdds(d: Desk, t: Desk, g: Grant)
    requires t.granted == d.granted + [g]
    ensures forall flow :: WasGranted(t, flow) <==> WasGranted(d, flow) || flow == g.flow
  {
    forall flow
      ensures WasGranted(t, flow) <==> WasGranted(d, flow) || flow == g.flow
    {
      assert t.granted[|d.granted|] == g;
      if WasGranted(d, flow) {
        var i :| 0 <= i < |d.granted| && d.granted[i].flow == flow;
        assert t.granted[i].flow == flow;
      }
    }
  }

  lemma RecordingAdds(d: Desk, t: Desk, r: Recording)
    requires t.recorded == d.recorded + [r]
    ensures forall flow :: WasRecorded(t, flow) <==> WasRecorded(d, flow) || flow == r.flow
    ensures forall s :: s in t.recorded <==> s in d.recorded || s == r
  {
    forall flow
      ensures WasRecorded(t, flow) <==> WasRecorded(d, flow) || flow == r.flow
    {
      assert t.recorded[|d.recorded|] == r;
      if WasRecorded(d, flow) {
        var i :| 0 <= i < |d.recorded| && d.recorded[i].flow == flow;
        assert t.recorded[i].flow == flow;
      }
    }
  }

  lemma RemovalKeeps(d: Desk, t: Desk, flow: string)
    requires Sound(d) && t == d.(sessions := d.sessions - {flow})
    ensures Sound(t)
  {
    if flow in d.sessions {
      DropIsSmaller(d.sessions, {flow});
    } else {
      assert t.sessions == d.sessions;
    }
    forall other | other in t.sessions
      ensures InStep(t, other, t.sessions[other])
    {
      assert InStep(d, other, d.sessions[other]);
    }
  }

  lemma CallbackKeeps(d: Desk, e: Event)
    requires Sound(d) && e.Callback?
    ensures Sound(Step(d, e))
  {
    var t := Step(d, e);
    var (sessions, taken) := Taken(d.sessions, e.flow, e.now);
    if taken.Some? {
      var s, g := d.sessions[e.flow], t.granted[|d.granted|];
      assert InStep(d, e.flow, s);
      GrantAdds(d, t, g);
      SameSizeUpdate(d.sessions, e.flow, sessions[e.flow]);
      forall flow | flow in t.sessions
        ensures InStep(t, flow, t.sessions[flow])
      {
        assert InStep(d, flow, d.sessions[flow]);
        assert WasRecorded(t, flow) <==> WasRecorded(d, flow);
      }
      forall i | 0 <= i < |d.granted|
        ensures t.granted[i].flow != g.flow
      {
        assert WasGranted(d, d.granted[i].flow);
      }
    } else if sessions != d.sessions {
      RemovalKeeps(d, t, e.flow);
    }
  }

  lemma ExchangedKeeps(d: Desk, e: Event)
    requires Sound(d) && e.Exchanged? && Possible(d, e)
    ensures Sound(Step(d, e))
  {
    var t := Step(d, e);
    var (sessions, stored) := Stored(d.sessions, e.flow, e.outcome);
    assert forall flow :: WasGranted(t, flow) <==> WasGranted(d, flow);
    if stored {
      var s, r := d.sessions[e.flow], Recording(e.flow, e.outcome);
      assert InStep(d, e.flow, s);
      RecordingAdds(d, t, r);
      SameSizeUpdate(d.sessions, e.flow, sessions[e.flow]);
      forall flow | flow in t.sessions
        ensures InStep(t, flow, t.sessions[flow])
      {
        assert InStep(d, flow, d.sessions[flow]);
      }
      forall i | 0 <= i < |d.recorded|
        ensures t.recorded[i].flow != r.flow
      {
        assert WasRecorded(d, d.recorded[i].flow);
      }
    } else {
      forall flow | flow in t.sessions
        ensures InStep(t, flow, t.sessions[flow])
      {
        assert InStep(d, flow, d.sessions[flow]);
        assert WasRecorded(t, flow) <==> WasRecorded(d, flow);
      }
    }
  }

  lemma PollReadsKeeps(d: Desk, e: Event)
    requires Sound(d) && e.PollReads?
    ensures Sound(Step(d, e))
  {
    var t := Step(d, e);
    var p := Reads(d, e.flow, e.provider, e.now, e.answer);
    if p.Some? {
      assert InStep(d, e.flow, d.sessions[e.flow]);
      assert PollSound(d, p.value);
      OnlyAnswersChange(d, t);
    }
  }

  lemma OnlyAnswersChange(d: Desk, t: Desk)
    requires Sound(d) && t == d.(polls := t.polls, logins := t.logins)
    requires forall i :: 0 <= i < |t.polls| ==> PollSound(d, t.polls[i])
    requires forall i :: 0 <= i < |t.logins| ==> LoginSound(d, t.logins[i])
    ensures Sound(t)
  {
    forall flow | flow in t.sessions
      ensures InStep(t, flow, t.sessions[flow])
    {
      assert InStep(d, flow, d.sessions[flow]);
      assert WasGranted(t, flow) <==> WasGranted(d, flow);
      assert WasRecorded(t, flow) <==> WasRecorded(d, flow);
    }
    assert forall i :: 0 <= i < |t.polls| ==> PollSound(d, t.polls[i]) == PollSound(t, t.polls[i]);
    assert forall i :: 0 <= i < |t.logins| ==> LoginSound(d, t.logins[i]) == LoginSound(t, t.logins[i]);
  }

  lemma PollActsKeeps(d: Desk, e: Event)
    requires Sound(d) && e.PollActs? && Possible(d, e)
    ensures Sound(Step(d, e))
  {
    var t, p := Step(d, e), d.polls[e.i];
    assert PollSound(d, p);
    var (drops, logins) := Acts(p);
    var answered := d.(polls := t.polls, logins := t.logins);
    assert forall i :: 0 <= i < |logins| ==> LoginSound(d, logins[i]);
    OnlyAnswersChange(d, answered);
    if drops {
      RemovalKeeps(answered, t, p.flow);
    }
  }

  lemma StepKeepsSound(d: Desk, e: Event)
    requires Sound(d) && Possible(d, e)
    ensures Sound(Step(d, e))
  {
    match e
    case ConnectBrowser(flow, provider, verifier, now, evicted) =>
      MintingKeeps(d, Step(d, e), flow, Session(provider, now, Browser(Some(verifier), None)), evicted,
                   Minted(provider, Some(verifier), now));
    case ConnectDevice(flow, provider, expiresIn, now, evicted) =>
      MintingKeeps(d, Step(d, e), flow, Session(provider, now, Device(expiresIn)), evicted, Minted(provider, None, now));
    case Callback(_, _) => CallbackKeeps(d, e);
    case Exchanged(_, _) => ExchangedKeeps(d, e);
    case PollReads(_, _, _, _) => PollReadsKeeps(d, e);
    case PollActs(_) => PollActsKeeps(d, e);
  }

  // ------------------------------------------------------------------ whole runs

  const EMPTY_DESK := Desk(map[], map[], [], [], {}, [], [])

  predicate PossibleRun(d: Desk, events: seq<Event>)
    decreases |events|
  {
    events == [] || (Possible(d, events[0]) && PossibleRun(Step(d, events[0]), events[1..]))
  }

  function Run(d: Desk, events: seq<Event>): Desk
    requires PossibleRun(d, events)
    decreases |events|
  {
    if events == [] then d else Run(Step(d, events[0]), events[1..])
  }

  lemma {:induction false} RunKeepsSound(d: Desk, events: seq<Event>)
    requires Sound(d) && PossibleRun(d, events)
    ensures Sound(Run(d, events))
    decreases |events|
  {
    if events != [] {
      StepKeepsSound(d, events[0]);
      RunKeepsSound(Step(d, events[0]), events[1..]);
    }
  }

  /** Over every interleaving of connects, callbacks, polls, expiry and eviction: a flow's
      verifier is handed out at most once, to its own provider and within its window; an
      outcome is stored at most once and only after that; a pending flow never holds both; and
      the map holds at most 65 flows. */
  lemma OneVerifierOneOutcome(events: seq<Event>)
    requires PossibleRun(EMPTY_DESK, events)
    ensures var d := Run(EMPTY_DESK, events);
            && |d.sessions| <= 65
            && (forall i, j :: 0 <= i < j < |d.granted| ==> d.granted[i].flow != d.granted[j].flow)
            && (forall i, j :: 0 <= i < j < |d.recorded| ==> d.recorded[i].flow != d.recorded[j].flow)
            && (forall i :: 0 <= i < |d.recorded| ==> WasGranted(d, d.recorded[i].flow))
            && (forall flow :: flow in d.sessions && d.sessions[flow].kind.Browser? ==>
                  d.sessions[flow].kind.verifier.None? || d.sessions[flow].kind.outcome.None?)
            && GrantsSound(d)
  {
    RunKeepsSound(EMPTY_DESK, events);
    var d := Run(EMPTY_DESK, events);
    forall flow | flow in d.sessions && d.sessions[flow].kind.Browser?
      ensures d.sessions[flow].kind.verifier.None? || d.sessions[flow].kind.outcome.None?
    {
      assert InStep(d, flow, d.sessions[flow]);
    }
  }

  /** Whoever signs in with a browser flow does so with the tokens its own callback stored. */
  lemma LoginsUseTheFlowsTokens(events: seq<Event>, i: nat)
    requires PossibleRun(EMPTY_DESK, events) && i < |Run(EMPTY_DESK, events).logins|
    ensures var d, login := Run(EMPTY_DESK, events), Run(EMPTY_DESK, events).logins[i];
            && login.flow in d.minted
            && (d.minted[login.flow].verifier.Some? ==>
                  Recording(login.flow, SignedIn(login.tokens)) in d.recorded && WasGranted(d, login.flow))
  {
    RunKeepsSound(EMPTY_DESK, events);
    var d := Run(EMPTY_DESK, events);
    assert LoginSound(d, d.logins[i]);
    if d.minted[d.logins[i].flow].verifier.Some? {
      var k :| 0 <= k < |d.recorded| && d.recorded[k] == Recording(d.logins[i].flow, SignedIn(d.logins[i].tokens));
    }
  }

  /** A flow that was dropped, evicted or has expired never comes back. */
  lemma {:induction false} GoneIsGone(d: Desk, events: seq<Event>, flow: string)
    requires PossibleRun(d, events) && flow in d.minted && flow !in d.sessions
    ensures flow in Run(d, events).minted && flow !in Run(d, events).sessions
    decreases |events|
  {
    if events != [] {
      GoneIsGone(Step(d, events[0]), events[1..], flow);
    }
  }

  /** The flow an event is about. */
  function Subject(d: Desk, e: Event): string
    requires Possible(d, e)
  {
    if e.PollActs? then d.polls[e.i].flow else e.flow
  }

  /** A pending flow is changed by no event about another one, short of being evicted. */
  lemma OthersDoNotInterfere(d: Desk, e: Event, flow: string)
    requires Possible(d, e) && Subject(d, e) != flow
    requires (e.ConnectBrowser? || e.ConnectDevice?) ==> flow !in e.evicted
    ensures flow in Step(d, e).sessions <==> flow in d.sessions
    ensures flow in d.sessions ==> Step(d, e).sessions[flow] == d.sessions[flow]
    ensures WasGranted(Step(d, e), flow) <==> WasGranted(d, flow)
  {
    var t := Step(d, e);
    if |t.granted| > |d.granted| {
      GrantAdds(d, t, t.granted[|d.granted|]);
    }
  }

  predicate NoPollOf(d: Desk, flow: string) {
    forall i :: 0 <= i < |d.polls| ==> d.polls[i].flow != flow
  }

  lemma NoLoginOfGoneFlow(d: Desk, e: Event, flow: string)
    requires Possible(d, e) && flow in d.minted && flow !in d.sessions && NoPollOf(d, flow)
    ensures var t := Step(d, e);
            && flow in t.minted && flow !in t.sessions && NoPollOf(t, flow) && d.logins <= t.logins
            && forall i :: |d.logins| <= i < |t.logins| ==> t.logins[i].flow != flow
  {
    if e.PollActs? {
      assert d.polls[e.i].flow != flow;
    }
  }

  /** Once a flow is gone and no poll of it is under way, nobody signs in with it any more. */
  lemma {:induction false} NoLateLogin(d: Desk, events: seq<Event>, flow: string)
    requires PossibleRun(d, events) && flow in d.minted && flow !in d.sessions && NoPollOf(d, flow)
    ensures |d.logins| <= |Run(d, events).logins|
    ensures forall i :: |d.logins| <= i < |Run(d, events).logins| ==> Run(d, events).logins[i].flow != flow
    decreases |events|
  {
    if events != [] {
      NoLoginOfGoneFlow(d, events[0], flow);
      NoLateLogin(Step(d, events[0]), events[1..], flow);
      LoginsOnlyGrow(Step(d, events[0]), events[1..]);
    }
  }

  lemma {:induction false} LoginsOnlyGrow(d: Desk, events: seq<Event>)
    requires PossibleRun(d, events)
    ensures d.logins <= Run(d, events).logins
    decreases |events|
  {
    if events != [] {
      LoginsOnlyGrow(Step(d, events[0]), events[1..]);
    }
  }
}
