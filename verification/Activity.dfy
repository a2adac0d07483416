/**
 Reading a chat request's tool activity (src/activity.rs): a request carries its whole
 history, so only the newest batch of tool calls and the results after it are taken, and
 only while no later turn has made it history.
 */
module Activity {
  import opened Wrappers
  import opened Sequences

  const MAX_ACTIONS: nat := 32

  datatype Call = Call(name: string, input: string)

  datatype Part = ToolUse(call: Call) | OtherPart

  /** `toolCalls` and `parts` are empty when the message has no such array. */
  datatype Message = Message(role: string, toolCalls: seq<Call>, parts: seq<Part>, text: string)

  predicate HasToolCall(m: Message) {
    m.toolCalls != [] || exists i :: 0 <= i < |m.parts| && m.parts[i].ToolUse?
  }

  predicate IsTurn(m: Message) {
    m.role == "user" || m.role == "assistant"
  }

  predicate IsToolResult(m: Message) {
    m.role == "tool" || m.role == "function"
  }

  // ------------------------------------------------------------------ which messages

  /** One past the last message with a tool call, or zero. */
  function AfterLastCall(messages: seq<Message>): (n: nat)
    ensures n <= |messages|
  {
    if messages == [] then 0
    else if HasToolCall(messages[|messages| - 1]) then |messages|
    else AfterLastCall(messages[..|messages| - 1])
  }

  function BatchStart(messages: seq<Message>): Option<nat> {
    var n := AfterLastCall(messages);
    if n > 0 then Some(n - 1)
    else if messages != [] && IsToolResult(messages[|messages| - 1]) then Some(|messages| - 1)
    else None
  }

  predicate NoTurn(messages: seq<Message>) {
    forall i :: 0 <= i < |messages| ==> !IsTurn(messages[i])
  }

  predicate NoCall(messages: seq<Message>) {
    forall i :: 0 <= i < |messages| ==> !HasToolCall(messages[i])
  }

  /** Where the batch to extract starts; it goes on to the end of the request. */
  function Batch(messages: seq<Message>): (r: Option<nat>)
    ensures r.Some? ==> r.value < |messages|
  {
    var start := BatchStart(messages);
    if start.None? then None
    else if start.value < |messages| && NoTurn(messages[start.value + 1..]) then start
    else None
  }

  lemma {:induction false} LastCall(messages: seq<Message>)
    ensures var n := AfterLastCall(messages);
            && (n > 0 ==> HasToolCall(messages[n - 1]))
            && forall i :: n <= i < |messages| ==> !HasToolCall(messages[i])
  {
    if messages != [] && !HasToolCall(messages[|messages| - 1]) {
      LastCall(messages[..|messages| - 1]);
    }
  }

  /** The batch is the newest: no tool call follows its first message, and no turn either. */
  lemma BatchIsNewest(messages: seq<Message>, i: nat)
    requires Batch(messages).Some? && Batch(messages).value < i < |messages|
    ensures !HasToolCall(messages[i]) && !IsTurn(messages[i])
  {
    LastCall(messages);
    var start := Batch(messages).value;
    assert messages[start + 1..][i - start - 1] == messages[i];
  }

  predicate CallsATool(m: Message) {
    m.toolCalls != [] || exists part :: part in m.parts && part.ToolUse?
  }

  /** Nothing from a position on is a turn of the user or of the assistant. */
  predicate OnlyResultsFrom(messages: seq<Message>, i: nat) {
    forall j :: i <= j < |messages| ==> messages[j].role !in {"user", "assistant"}
  }

  predicate NoCallFrom(messages: seq<Message>, i: nat) {
    forall j :: i <= j < |messages| ==> !CallsATool(messages[j])
  }

  lemma CallsAre(m: Message)
    ensures HasToolCall(m) <==> CallsATool(m)
  {
    if part :| part in m.parts && part.ToolUse? {
      var i :| 0 <= i < |m.parts| && m.parts[i] == part;
    }
  }

  lemma {:induction false} LastCallIs(messages: seq<Message>, i: nat)
    requires i < |messages| && CallsATool(messages[i]) && NoCallFrom(messages, i + 1)
    ensures AfterLastCall(messages) == i + 1
    decreases |messages|
  {
    CallsAre(messages[|messages| - 1]);
    if i + 1 < |messages| {
      LastCallIs(messages[..|messages| - 1], i);
    }
  }

  lemma NoTurnAfter(messages: seq<Message>, i: nat)
    requires i < |messages|
    ensures NoTurn(messages[i + 1..]) <==> OnlyResultsFrom(messages, i + 1)
  {
    if NoTurn(messages[i + 1..]) {
      forall j | i + 1 <= j < |messages|
        ensures messages[j].role !in {"user", "assistant"}
      {
        assert messages[i + 1..][j - i - 1] == messages[j];
      }
    }
  }

  /** A batch starts with the last message that calls a tool or, in a request without any, with
      a last message that is a result; and no turn of the user or the assistant follows it. */
  lemma BatchStartsExactlyAt(messages: seq<Message>, i: nat)
    ensures Batch(messages) == Some(i) <==>
            && i < |messages| && OnlyResultsFrom(messages, i + 1) && NoCallFrom(messages, i + 1)
            && (CallsATool(messages[i])
                || (NoCallFrom(messages, 0) && i == |messages| - 1 && messages[i].role in {"tool", "function"}))
  {
    LastCall(messages);
    forall j | 0 <= j < |messages|
      ensures HasToolCall(messages[j]) <==> CallsATool(messages[j])
    {
      CallsAre(messages[j]);
    }
    if i < |messages| {
      NoTurnAfter(messages, i);
      if CallsATool(messages[i]) && NoCallFrom(messages, i + 1) {
        LastCallIs(messages, i);
      }
    }
  }

  predicate Extracted(messages: seq<Message>, i: nat) {
    Batch(messages).Some? && Batch(messages).value <= i < |messages|
  }

  /** Two requests extract the message at one position. */
  ghost predicate Overlap(a: seq<Message>, b: seq<Message>) {
    exists i: nat :: Extracted(a, i) && Extracted(b, i)
  }

  lemma {:induction false} CallsBeforeStayLast(messages: seq<Message>, more: seq<Message>)
    requires NoCall(more)
    ensures AfterLastCall(messages + more) == AfterLastCall(messages)
  {
    if more == [] {
      assert messages + more == messages;
    } else {
      var fewer := more[..|more| - 1];
      assert (messages + more)[..|messages + more| - 1] == messages + fewer;
      assert !HasToolCall(more[|more| - 1]);
      CallsBeforeStayLast(messages, fewer);
    }
  }

  lemma LaterCallIsLater(messages: seq<Message>, more: seq<Message>)
    requires !NoCall(more)
    ensures AfterLastCall(messages + more) > |messages|
  {
    var i :| 0 <= i < |more| && HasToolCall(more[i]);
    LastCall(messages + more);
    assert (messages + more)[|messages| + i] == more[i];
  }

  /** A request that goes on with another turn extracts nothing its predecessor could have. */
  lemma ATurnMakesItHistory(messages: seq<Message>, more: seq<Message>)
    requires !NoTurn(more)
    ensures Batch(messages + more).Some? ==> Batch(messages + more).value >= |messages|
  {
    var all := messages + more;
    var i :| 0 <= i < |more| && IsTurn(more[i]);
    assert all[|messages| + i] == more[i];
    if Batch(all).Some? && Batch(all).value < |messages| + i {
      BatchIsNewest(all, |messages| + i);
    }
  }

  lemma NoTurnInBoth(a: seq<Message>, b: seq<Message>)
    ensures NoTurn(a + b) <==> NoTurn(a) && NoTurn(b)
  {
    assert forall i :: 0 <= i < |a| ==> (a + b)[i] == a[i];
    assert forall i :: 0 <= i < |b| ==> (a + b)[|a| + i] == b[i];
  }

  lemma TurnsAfter(messages: seq<Message>, more: seq<Message>, start: nat)
    requires start < |messages|
    ensures NoTurn((messages + more)[start + 1..]) <==> NoTurn(messages[start + 1..]) && NoTurn(more)
  {
    assert (messages + more)[start + 1..] == messages[start + 1..] + more;
    NoTurnInBoth(messages[start + 1..], more);
  }

  /** A later request that goes on from an earlier one repeats part of its batch exactly when
      nothing but further results of the same calls, or nothing at all, was added. */
  lemma RepeatsExactlyWhen(messages: seq<Message>, more: seq<Message>)
    ensures Overlap(messages, messages + more) <==>
            Batch(messages).Some? && NoTurn(more) && NoCall(more) && (more == [] || AfterLastCall(messages) > 0)
  {
    var all := messages + more;
    if Batch(messages).Some? && NoTurn(more) && NoCall(more) && (more == [] || AfterLastCall(messages) > 0) {
      CallsBeforeStayLast(messages, more);
      TurnsAfter(messages, more, Batch(messages).value);
      assert more == [] ==> all == messages;
      assert Extracted(messages, Batch(messages).value) && Extracted(all, Batch(messages).value);
    }
    if Overlap(messages, all) {
      OverlapStartsBefore(messages, more);
    }
  }

  lemma OverlapStartsBefore(messages: seq<Message>, more: seq<Message>)
    requires Overlap(messages, messages + more)
    ensures Batch(messages).Some? && NoTurn(more) && NoCall(more) && (more == [] || AfterLastCall(messages) > 0)
  {
    var all := messages + more;
    var i: nat :| Extracted(messages, i) && Extracted(all, i);
    assert !NoTurn(more) ==> Batch(all).value >= |messages| by {
      if !NoTurn(more) {
        ATurnMakesItHistory(messages, more);
      }
    }
    assert !NoCall(more) ==> AfterLastCall(all) > |messages| by {
      if !NoCall(more) {
        LaterCallIsLater(messages, more);
      }
    }
    assert NoCall(more) ==> AfterLastCall(all) == AfterLastCall(messages) by {
      if NoCall(more) {
        CallsBeforeStayLast(messages, more);
      }
    }
  }

  // ------------------------------------------------------------------ whole conversations

  /** A request goes on from another with at least one turn of its own. */
  predicate GoesOn(a: seq<Message>, b: seq<Message>) {
    a <= b && !NoTurn(b[|a|..])
  }

  predicate Conversation(requests: seq<seq<Message>>) {
    forall k :: 0 <= k < |requests| - 1 ==> GoesOn(requests[k], requests[k + 1])
  }

  lemma {:induction false} GoesOnThroughout(requests: seq<seq<Message>>, i: nat, j: nat)
    requires Conversation(requests) && i < j < |requests|
    ensures GoesOn(requests[i], requests[j])
    decreases j
  {
    assert GoesOn(requests[j - 1], requests[j]);
    if i < j - 1 {
      GoesOnThroughout(requests, i, j - 1);
      var a, b, c := requests[i], requests[j - 1], requests[j];
      var k :| 0 <= k < |b[|a|..]| && IsTurn(b[|a|..][k]);
      assert c[|a|..][k] == b[|a|..][k];
    }
  }

  /** In a conversation whose requests each add a turn, no message is extracted twice. */
  lemma NoBatchTwice(requests: seq<seq<Message>>, i: nat, j: nat)
    requires Conversation(requests) && i < j < |requests|
    ensures !Overlap(requests[i], requests[j])
  {
    GoesOnThroughout(requests, i, j);
    var more := requests[j][|requests[i]|..];
    assert requests[j] == requests[i] + more;
    RepeatsExactlyWhen(requests[i], more);
  }

  // ------------------------------------------------------------------ extracting

  /** How calls and results are turned into actions, if they are. */
  datatype Reader<A> = Reader(call: (string, string) -> Option<A>, result: string -> Option<A>)

  function FromCall<A>(reader: Reader<A>, c: Call): seq<A> {
    if c.name == "" then []
    else
      var action := reader.call(c.name, c.input);
      if action.Some? then [action.value] else []
  }

  function FromCalls<A>(reader: Reader<A>, calls: seq<Call>): seq<A> {
    if calls == [] then [] else FromCall(reader, calls[0]) + FromCalls(reader, calls[1..])
  }

  function FromParts<A>(reader: Reader<A>, parts: seq<Part>): seq<A> {
    if parts == [] then []
    else (if parts[0].ToolUse? then FromCall(reader, parts[0].call) else []) + FromParts(reader, parts[1..])
  }

  function FromResult<A>(reader: Reader<A>, m: Message): seq<A> {
    var action := reader.result(m.text);
    if IsToolResult(m) && action.Some? then [action.value] else []
  }

  function FromMessage<A>(reader: Reader<A>, m: Message): seq<A> {
    FromCalls(reader, m.toolCalls) + FromParts(reader, m.parts) + FromResult(reader, m)
  }

  function FromMessages<A>(reader: Reader<A>, messages: seq<Message>): seq<A> {
    if messages == [] then [] else FromMessage(reader, messages[0]) + FromMessages(reader, messages[1..])
  }

  /** An action is read from a call that has a name. */
  predicate ReadFrom<A(==)>(reader: Reader<A>, c: Call, a: A) {
    c.name != "" && reader.call(c.name, c.input) == Some(a)
  }

  /** An action is read from one of a message's calls, of either kind, or from its result. */
  ghost predicate Tells<A>(reader: Reader<A>, m: Message, a: A) {
    || (exists c :: c in m.toolCalls && ReadFrom(reader, c, a))
    || (exists part :: part in m.parts && part.ToolUse? && ReadFrom(reader, part.call, a))
    || (m.role in {"tool", "function"} && reader.result(m.text) == Some(a))
  }

  lemma {:induction false} CallsTell<A>(reader: Reader<A>, calls: seq<Call>, a: A)
    ensures a in FromCalls(reader, calls) <==> exists c :: c in calls && ReadFrom(reader, c, a)
  {
    if calls != [] {
      CallsTell(reader, calls[1..], a);
      assert forall c :: c in calls <==> c == calls[0] || c in calls[1..];
      assert a in FromCall(reader, calls[0]) <==> ReadFrom(reader, calls[0], a);
    }
  }

  lemma {:induction false} PartsTell<A>(reader: Reader<A>, parts: seq<Part>, a: A)
    ensures a in FromParts(reader, parts) <==>
            exists part :: part in parts && part.ToolUse? && ReadFrom(reader, part.call, a)
  {
    if parts != [] {
      PartsTell(reader, parts[1..], a);
      assert forall part :: part in parts <==> part == parts[0] || part in parts[1..];
    }
  }

  lemma MessageTells<A>(reader: Reader<A>, m: Message, a: A)
    ensures a in FromMessage(reader, m) <==> Tells(reader, m, a)
  {
    CallsTell(reader, m.toolCalls, a);
    PartsTell(reader, m.parts, a);
  }

  /** The actions of some messages are exactly those that one of them tells of. */
  lemma {:induction false} MessagesTell<A>(reader: Reader<A>, messages: seq<Message>, a: A)
    ensures a in FromMessages(reader, messages) <==> exists m :: m in messages && Tells(reader, m, a)
  {
    if messages != [] {
      MessageTells(reader, messages[0], a);
      MessagesTell(reader, messages[1..], a);
      assert forall m :: m in messages <==> m == messages[0] || m in messages[1..];
    }
  }

  /** Earlier messages come first. */
  lemma {:induction false} MessagesInOrder<A>(reader: Reader<A>, a: seq<Message>, b: seq<Message>)
    ensures FromMessages(reader, a + b) == FromMessages(reader, a) + FromMessages(reader, b)
  {
    if a == [] {
      assert a + b == b;
    } else {
      HeadAndTail(a, b);
      MessagesInOrder(reader, a[1..], b);
      Associative(FromMessage(reader, a[0]), FromMessages(reader, a[1..]), FromMessages(reader, b));
    }
  }

  /** Within a message its calls come first, then those among its parts, then its result, each
      at most once. */
  lemma CallsBeforePartsBeforeResult<A>(reader: Reader<A>, m: Message)
    ensures m.toolCalls != [] ==>
              FromMessage(reader, m) == FromCall(reader, m.toolCalls[0])
                                        + FromMessage(reader, m.(toolCalls := m.toolCalls[1..]))
    ensures m.toolCalls == [] && m.parts != [] ==>
              FromMessage(reader, m) == (if m.parts[0].ToolUse? then FromCall(reader, m.parts[0].call) else [])
                                        + FromMessage(reader, m.(parts := m.parts[1..]))
    ensures m.toolCalls == [] && m.parts == [] ==> |FromMessage(reader, m)| <= 1
    ensures forall c {:trigger FromCall(reader, c)} :: |FromCall(reader, c)| <= 1
  {
    if m.toolCalls != [] {
      var rest := FromCalls(reader, m.toolCalls[1..]);
      Associative(FromCall(reader, m.toolCalls[0]), rest, FromParts(reader, m.parts));
      Associative(FromCall(reader, m.toolCalls[0]), rest + FromParts(reader, m.parts), FromResult(reader, m));
    }
  }

  function FirstOf<A>(actions: seq<A>): (r: seq<A>)
    ensures |r| <= MAX_ACTIONS && r <= actions
  {
    if |actions| > MAX_ACTIONS then actions[..MAX_ACTIONS] else actions
  }

  lemma FullStaysFull<A>(actions: seq<A>, more: seq<A>)
    requires |FirstOf(actions)| >= MAX_ACTIONS
    ensures FirstOf(actions + more) == FirstOf(actions)
  {
  }

  method PushCalls<A>(reader: Reader<A>, calls: seq<Call>, actions: seq<A>) returns (r: seq<A>)
    requires |actions| < MAX_ACTIONS
    ensures r == FirstOf(actions + FromCalls(reader, calls))
  {
    r := actions;
    var i := 0;
    assert calls[0..] == calls;
    while i < |calls|
      invariant i <= |calls| && |r| < MAX_ACTIONS
      invariant r + FromCalls(reader, calls[i..]) == actions + FromCalls(reader, calls)
    {
      TailOfTail(calls, i, 1);
      Associative(r, FromCall(reader, calls[i]), FromCalls(reader, calls[i + 1..]));
      if calls[i].name != "" {
        var action := reader.call(calls[i].name, calls[i].input);
        if action.Some? {
          r := r + [action.value];
          if |r| >= MAX_ACTIONS {
            FullStaysFull(r, FromCalls(reader, calls[i + 1..]));
            return;
          }
        }
      }
      i := i + 1;
    }
  }

  method PushParts<A>(reader: Reader<A>, parts: seq<Part>, actions: seq<A>) returns (r: seq<A>)
    requires |actions| < MAX_ACTIONS
    ensures r == FirstOf(actions + FromParts(reader, parts))
  {
    r := actions;
    var i := 0;
    assert parts[0..] == parts;
    while i < |parts|
      invariant i <= |parts| && |r| < MAX_ACTIONS
      invariant r + FromParts(reader, parts[i..]) == actions + FromParts(reader, parts)
    {
      TailOfTail(parts, i, 1);
      Associative(r, if parts[i].ToolUse? then FromCall(reader, parts[i].call) else [], FromParts(reader, parts[i + 1..]));
      if parts[i].ToolUse? && parts[i].call.name != "" {
        var action := reader.call(parts[i].call.name, parts[i].call.input);
        if action.Some? {
          r := r + [action.value];
          if |r| >= MAX_ACTIONS {
            FullStaysFull(r, FromParts(reader, parts[i + 1..]));
            return;
          }
        }
      }
      i := i + 1;
    }
  }

  method PushMessage<A>(reader: Reader<A>, m: Message, actions: seq<A>) returns (r: seq<A>)
    requires |actions| < MAX_ACTIONS
    ensures r == FirstOf(actions + FromMessage(reader, m))
  {
    ghost var calls, parts, result := FromCalls(reader, m.toolCalls), FromParts(reader, m.parts), FromResult(reader, m);
    Regroup(actions, calls, parts, result);
    r := PushCalls(reader, m.toolCalls, actions);
    if |r| >= MAX_ACTIONS {
      FullStaysFull(actions + calls, parts + result);
      return;
    }
    r := PushParts(reader, m.parts, r);
    if |r| >= MAX_ACTIONS {
      FullStaysFull(actions + calls + parts, result);
      return;
    }
    if IsToolResult(m) {
      var action := reader.result(m.text);
      if action.Some? {
        r := r + [action.value];
      }
    }
  }

  lemma Regroup<A>(a: seq<A>, b: seq<A>, c: seq<A>, d: seq<A>)
    ensures a + (b + c + d) == a + b + (c + d)
    ensures a + (b + c + d) == a + b + c + d
  {
  }

  lemma NextMessage<A>(reader: Reader<A>, messages: seq<Message>, i: nat, actions: seq<A>)
    requires i < |messages|
    ensures actions + FromMessages(reader, messages[i..]) ==
            actions + FromMessage(reader, messages[i]) + FromMessages(reader, messages[i + 1..])
  {
    TailOfTail(messages, i, 1);
    Associative(actions, FromMessage(reader, messages[i]), FromMessages(reader, messages[i + 1..]));
  }

  method PushMessages<A>(reader: Reader<A>, messages: seq<Message>) returns (actions: seq<A>)
    ensures actions == FirstOf(FromMessages(reader, messages))
  {
    actions := [];
    var i := 0;
    assert messages[0..] == messages;
    while i < |messages|
      invariant i <= |messages| && |actions| < MAX_ACTIONS
      invariant actions + FromMessages(reader, messages[i..]) == FromMessages(reader, messages)
    {
      NextMessage(reader, messages, i, actions);
      ghost var all := actions + FromMessage(reader, messages[i]);
      actions := PushMessage(reader, messages[i], actions);
      if |actions| >= MAX_ACTIONS {
        FullStaysFull(all, FromMessages(reader, messages[i + 1..]));
        return;
      }
      i := i + 1;
    }
  }

  /** The first 32 actions of the batch, in order. */
  method ExtractActions<A>(reader: Reader<A>, messages: seq<Message>) returns (actions: seq<A>)
    ensures Batch(messages).None? ==> actions == []
    ensures Batch(messages).Some? ==> actions == FirstOf(FromMessages(reader, messages[Batch(messages).value..]))
    ensures Batch(messages).Some? ==>
              var all := FromMessages(reader, messages[Batch(messages).value..]);
              actions <= all && |actions| == if |all| > 32 then 32 else |all|
    ensures |actions| <= MAX_ACTIONS
  {
    var start := Batch(messages);
    if start.None? {
      return [];
    }
    actions := PushMessages(reader, messages[start.value..]);
  }
}
