/** The agent loop: ask the model, run the tools it calls, stop when it is done or the budget is. */
module Agent {
  import opened Prelude
  import opened Budgets
  import opened WriteTools

  datatype Role = Survey | Reduce | Organize | Tag

  datatype Reply = Answer(text: string, calls: seq<Call>) | Refused(exn: Exn)

  datatype Heard = Heard(role: Role, reply: Reply)

  /** The model, with a count of the completions asked of it and all it said. What it answers
    * is arbitrary. */
  class Client {
    var asked: map<Role, nat>
    ghost var heard: seq<Heard>

    constructor ()
      ensures asked == map[Survey := 0, Reduce := 0, Organize := 0, Tag := 0] && heard == []
    {
      asked, heard := map[Survey := 0, Reduce := 0, Organize := 0, Tag := 0], [];
    }

    function Asked(role: Role): nat
      reads this
    {
      if role in asked then asked[role] else 0
    }

    method Complete(role: Role) returns (r: Reply)
      modifies this
      ensures asked == old(asked)[role := old(Asked(role)) + 1]
      ensures heard == old(heard) + [Heard(role, r)]
    {
      asked := asked[role := Asked(role) + 1];
      var reply: Reply := *;
      r := reply;
      heard := heard + [Heard(role, r)];
    }
  }

  // ----- what the model said, attempt by attempt ------------------------------------

  /** The calls of a finished organize attempt, and the replies to the tag prompts after it. */
  datatype Attempt = Attempt(calls: seq<Call>, tags: seq<Reply>)

  /** The finished attempts, and the calls made since the last. */
  datatype Log = Log(done: seq<Attempt>, open: seq<Call>)

  /** An answer without calls ends an attempt; what the tag role says belongs to it. */
  function LogOf(h: seq<Heard>): Log {
    if h == [] then Log([], []) else Logged(LogOf(Init(h)), Last(h))
  }

  function Logged(l: Log, x: Heard): Log {
    match x.role
    case Organize =>
      if x.reply.Refused? then l
      else if x.reply.calls == [] then Log(l.done + [Attempt(l.open, [])], [])
      else Log(l.done, l.open + x.reply.calls)
    case Tag =>
      if l.done == [] then l
      else Log(Init(l.done) + [Last(l.done).(tags := Last(l.done).tags + [x.reply])], l.open)
    case _ => l
  }

  /** What was heard since, all from one role. */
  predicate Spoke(role: Role, before: seq<Heard>, after: seq<Heard>) {
    before <= after && AllFrom(role, after[|before|..])
  }

  predicate AllFrom(role: Role, h: seq<Heard>) { forall i :: 0 <= i < |h| ==> h[i].role == role }

  function Replies(h: seq<Heard>): seq<Reply> { Map((x: Heard) => x.reply, h) }

  lemma SpokeGrows(role: Role, before: seq<Heard>, after: seq<Heard>)
    requires Spoke(role, before, after)
    ensures before <= after
  {
  }

  lemma NothingLogged(role: Role, h: seq<Heard>)
    ensures LogOf(h[|h|..]) == Log([], []) && Spoke(role, h, h)
  {
  }

  lemma LogOfMore(h: seq<Heard>, x: Heard)
    ensures LogOf(h + [x]) == Logged(LogOf(h), x)
  {
    assert Init(h + [x]) == h;
  }

  /** One more reply, or none. */
  lemma OneMoreHeard(role: Role, before: seq<Heard>, h: seq<Heard>, now: seq<Heard>)
    requires Spoke(role, before, h)
    requires now == h || exists reply :: now == h + [Heard(role, reply)]
    ensures Spoke(role, before, now) && before <= now
    ensures now == h ==> LogOf(now[|before|..]) == LogOf(h[|before|..])
    ensures now != h ==> LogOf(now[|before|..]) == Logged(LogOf(h[|before|..]), Last(now))
  {
    if now != h {
      LogOfMore(h[|before|..], Last(now));
      assert now[|before|..] == h[|before|..] + [Last(now)];
    }
    hide LogOf, Logged;
  }

  /** What the organize role says goes on with an attempt, or ends it. */
  lemma OrganizeLogged(l: Log, x: Heard)
    requires x.role == Organize
    ensures x.reply.Refused? ==> Logged(l, x) == l
    ensures x.reply.Answer? && x.reply.calls != [] ==> Logged(l, x) == Log(l.done, l.open + x.reply.calls)
    ensures x.reply.Answer? && x.reply.calls == [] ==> Logged(l, x) == Log(l.done + [Attempt(l.open, [])], [])
  {
  }

  /** The attempts of the organize role alone come after those before. */
  lemma {:induction false} LogConcat(a: seq<Heard>, b: seq<Heard>)
    requires LogOf(a).open == [] && AllFrom(Organize, b)
    ensures LogOf(a + b) == Log(LogOf(a).done + LogOf(b).done, LogOf(b).open)
  {
    if b == [] {
      assert a + b == a;
    } else {
      assert Init(a + b) == a + Init(b) && Last(a + b) == Last(b);
      LogConcat(a, Init(b));
    }
  }

  /** What the tag role says belongs to the last attempt. */
  lemma {:induction false} TagsBelong(a: seq<Heard>, b: seq<Heard>)
    requires AllFrom(Tag, b) && LogOf(a).done != []
    ensures var l := LogOf(a);
      LogOf(a + b) == Log(Init(l.done) + [Last(l.done).(tags := Last(l.done).tags + Replies(b))], l.open)
  {
    var l := LogOf(a);
    if b == [] {
      assert a + b == a && Last(l.done).tags + [] == Last(l.done).tags;
      assert l.done == Init(l.done) + [Last(l.done)];
    } else {
      assert Init(a + b) == a + Init(b) && Last(a + b) == Last(b);
      TagsBelong(a, Init(b));
      RepliesMore(Init(b), Last(b));
      assert b == Init(b) + [Last(b)];
      var before := LogOf(a + Init(b));
      assert Init(before.done) == Init(l.done) && before.done != [] && b[|b| - 1].role == Tag;
      assert Last(before.done).tags + [Last(b).reply] == Last(l.done).tags + Replies(b);
      assert LogOf(a + b) == Logged(before, Last(b));
    }
  }

  lemma RepliesMore(h: seq<Heard>, x: Heard)
    ensures Replies(h + [x]) == Replies(h) + [x.reply]
  {
    MapConcat((y: Heard) => y.reply, h, [x]);
  }

  /** The roles that speak before the organize step do not count. */
  lemma {:induction false} OthersLogNothing(h: seq<Heard>)
    requires forall i :: 0 <= i < |h| ==> h[i].role == Survey || h[i].role == Reduce
    ensures LogOf(h) == Log([], [])
  {
    if h == [] {
    } else {
      OthersLogNothing(Init(h));
    }
  }

  lemma {:induction false} LogAfterNothing(a: seq<Heard>, b: seq<Heard>)
    requires LogOf(a) == Log([], [])
    ensures LogOf(a + b) == LogOf(b)
  {
    if b == [] {
      assert a + b == a;
    } else {
      assert Init(a + b) == a + Init(b) && Last(a + b) == Last(b);
      LogAfterNothing(a, Init(b));
    }
  }

  /** How many tool calls were asked for. */
  function CallsIn(h: seq<Heard>): nat {
    if h == [] then 0 else CallsIn(Init(h)) + (if Last(h).reply.Answer? then |Last(h).reply.calls| else 0)
  }

  lemma NoCallsYet(h: seq<Heard>)
    ensures CallsIn(h[|h|..]) == 0
  {
  }

  /** The calls of the last thing heard, if it is new. */
  function NewCalls(h: seq<Heard>, now: seq<Heard>): nat {
    if now != h && now != [] && Last(now).reply.Answer? then |Last(now).reply.calls| else 0
  }

  lemma OneMoreReply(before: seq<Heard>, h: seq<Heard>, now: seq<Heard>)
    requires before <= h <= now && |now| <= |h| + 1
    ensures CallsIn(now[|before|..]) == CallsIn(h[|before|..]) + NewCalls(h, now)
  {
    if now != h {
      assert now[|before|..] == h[|before|..] + [Last(now)] && Init(h[|before|..] + [Last(now)]) == h[|before|..];
    }
  }

  lemma {:induction false} CallsAdd(a: seq<Heard>, b: seq<Heard>)
    ensures CallsIn(a + b) == CallsIn(a) + CallsIn(b)
  {
    if b == [] {
      assert a + b == a;
    } else {
      assert Init(a + b) == a + Init(b) && Last(a + b) == Last(b);
      CallsAdd(a, Init(b));
    }
  }

  // ----- the message protocol -------------------------------------------------------

  datatype Message = User | Assistant(calls: seq<Call>) | ToolResult(id: string)

  /** The calls a conversation has yet to answer, in order; None if it broke the protocol
    * that every call of a turn is answered once, in order, before anyone else speaks. */
  function Unanswered(messages: seq<Message>): Option<seq<string>> {
    if messages == [] then Some([])
    else
      match Unanswered(Init(messages))
      case None => None
      case Some(ids) =>
        match Last(messages)
        case User => if ids == [] then Some([]) else None
        case Assistant(calls) => if ids == [] then Some(Map((c: Call) => c.id, calls)) else None
        case ToolResult(id) => if ids != [] && ids[0] == id then Some(ids[1..]) else None
  }

  predicate Answered(messages: seq<Message>) { Unanswered(messages) == Some([]) }

  lemma Appended(messages: seq<Message>, m: Message)
    ensures Init(messages + [m]) == messages && Last(messages + [m]) == m
  {
  }

  /** The first call yet to be answered is answered. */
  lemma Answers(messages: seq<Message>, ids: seq<string>)
    requires Unanswered(messages) == Some(ids) && ids != []
    ensures Unanswered(messages + [ToolResult(ids[0])]) == Some(ids[1..])
  {
    Appended(messages, ToolResult(ids[0]));
  }

  /** The model speaks: its calls are then what is to be answered. */
  lemma Speaks(messages: seq<Message>, calls: seq<Call>)
    requires Answered(messages)
    ensures Unanswered(messages + [Assistant(calls)]) == Some(Map((c: Call) => c.id, calls))
    ensures calls == [] ==> Answered(messages + [Assistant(calls)])
  {
  }

  // ----- tool sets ------------------------------------------------------------------

  /** A call that names a tool of the survey and has its argument. */
  predicate IsReadable(call: Call) {
    || call.name == "ls"
    || (call.name == "grep" && !call.args.pattern.Absent?)
    || (call.name == "read" && !call.args.path.Absent?)
  }

  /** How many of the calls are charged as long as there is a budget. */
  function ReadsIn(calls: seq<Call>): nat {
    if calls == [] then 0 else ReadsIn(Init(calls)) + (if IsReadable(Last(calls)) then 1 else 0)
  }

  lemma OneMoreRead(calls: seq<Call>, i: nat)
    requires i < |calls|
    ensures ReadsIn(calls[..i + 1]) == ReadsIn(calls[..i]) + (if IsReadable(calls[i]) then 1 else 0)
  {
    assert Init(calls[..i + 1]) == calls[..i];
  }

  /** The survey's tools. Calls with a bad name or a missing argument are not charged. */
  class ReadOnlyTools {
    const budget: Budget

    constructor (budget: Budget)
      ensures this.budget == budget
    {
      this.budget := budget;
    }

    method Dispatch(call: Call)
      modifies budget
      ensures old(budget.toolCalls) <= budget.maxToolCalls ==> budget.toolCalls <= budget.maxToolCalls
      ensures old(budget.Sane()) ==> budget.Sane()
      ensures old(budget.tripped) ==> budget.tripped
      ensures !IsReadable(call) ==> budget.tripped == old(budget.tripped)
      ensures budget.toolCalls == old(budget.toolCalls) + (if IsReadable(call) && !budget.tripped then 1 else 0)
    {
      if call.name !in ["ls", "grep", "read"] || (call.name == "grep" && call.args.pattern.Absent?)
         || (call.name == "read" && call.args.path.Absent?) {
        return;
      }
      var spent := budget.Exhausted();
      if !spent {
        budget.RecordToolCall();
      }
    }
  }

  datatype ToolSet = Writing(w: WriteTools) | Reading(r: ReadOnlyTools)

  function Meter(tools: ToolSet): Budget {
    match tools
    case Writing(w) => w.budget
    case Reading(r) => r.budget
  }

  function Changes(tools: ToolSet): set<object> {
    match tools
    case Writing(w) => {w, w.budget}
    case Reading(r) => {r.budget}
  }

  ghost predicate Ready(tools: ToolSet)
    reads Changes(tools)
  {
    && Meter(tools).toolCalls <= Meter(tools).maxToolCalls && Meter(tools).Sane()
    && (tools.Writing? ==> tools.w.Valid())
  }

  lemma WithinLimits(tools: ToolSet)
    requires Ready(tools)
    ensures Meter(tools).toolCalls <= Meter(tools).maxToolCalls
  {
  }

  // ----- the loop -------------------------------------------------------------------

  datatype Status = Completed(text: string) | Exhausted | FailedCall(message: string) | NotConverged | Raised(exn: Exn)

  /** Runs the calls of one turn and records their results in order. */
  method RunCalls(calls: seq<Call>, tools: ToolSet, before: seq<Message>) returns (messages: seq<Message>)
    requires Ready(tools) && calls != []
    requires Unanswered(before) == Some(Map((c: Call) => c.id, calls))
    modifies Changes(tools)
    ensures Ready(tools) && Answered(messages)
    ensures old(Meter(tools).toolCalls) <= Meter(tools).toolCalls <= old(Meter(tools).toolCalls) + |calls|
    ensures tools.Writing? ==> Meter(tools).tripped || old(Meter(tools).toolCalls) < Meter(tools).toolCalls
    ensures tools.Writing? && old(Meter(tools).tripped) ==> Meter(tools).tripped
    ensures tools.Reading? && !Meter(tools).tripped ==>
      Meter(tools).toolCalls == old(Meter(tools).toolCalls) + ReadsIn(calls)
    ensures tools.Writing? ==> old(tools.w.charged) <= tools.w.charged
    ensures tools.Writing? && !Meter(tools).tripped ==> tools.w.charged == old(tools.w.charged) + calls
    ensures tools.Writing? ==>
      |tools.w.charged| - |old(tools.w.charged)| == Meter(tools).toolCalls - old(Meter(tools).toolCalls)
  {
    hide Unanswered, AfterCalls, Map, IsReadable;
    messages := before;
    ghost var ids := Map((c: Call) => c.id, calls);
    assert calls[..|calls|] == calls && ids[0..] == ids;
    for i := 0 to |calls|
      invariant Ready(tools)
      invariant Unanswered(messages) == Some(ids[i..])
      invariant old(Meter(tools).toolCalls) <= Meter(tools).toolCalls <= old(Meter(tools).toolCalls) + i
      invariant tools.Writing? && i > 0 ==> Meter(tools).tripped || old(Meter(tools).toolCalls) < Meter(tools).toolCalls
      invariant tools.Writing? && old(Meter(tools).tripped) ==> Meter(tools).tripped
      invariant tools.Reading? && !Meter(tools).tripped ==>
        Meter(tools).toolCalls == old(Meter(tools).toolCalls) + ReadsIn(calls[..i])
      invariant tools.Writing? ==> old(tools.w.charged) <= tools.w.charged
      invariant tools.Writing? && !Meter(tools).tripped ==> tools.w.charged == old(tools.w.charged) + calls[..i]
      invariant tools.Writing? ==>
        |tools.w.charged| - |old(tools.w.charged)| == Meter(tools).toolCalls - old(Meter(tools).toolCalls)
    {
      match tools {
        case Writing(w) => w.Dispatch(calls[i]);
        case Reading(r) => r.Dispatch(calls[i]);
      }
      OneMoreRead(calls, i);
      Answers(messages, ids[i..]);
      assert ids[i..][0] == calls[i].id && ids[i..][1..] == ids[i + 1..];
      assert calls[..i + 1] == calls[..i] + [calls[i]];
      messages := messages + [ToolResult(calls[i].id)];
    }
  }

  /** What ended a turn: the reply just heard, or the budget before anything was. */
  predicate EndedAs(status: Status, before: seq<Heard>, after: seq<Heard>, tripped: bool) {
    if status.Exhausted? then after == before && tripped
    else after != before && after != [] && SaysSo(status, Last(after).reply)
  }

  predicate SaysSo(status: Status, reply: Reply) {
    match status
    case Completed(text) => reply == Answer(text, [])
    case FailedCall(message) => reply.Refused? && reply.exn.Groundtruth() && message == reply.exn.message
    case Raised(exn) => reply == Refused(exn) && !exn.Groundtruth()
    case _ => false
  }

  /** One turn, unless the budget is spent: ask the model, run the tools it calls. */
  method Turn(client: Client, role: Role, before: seq<Message>, tools: ToolSet)
    returns (ended: Option<Status>, messages: seq<Message>)
    requires Ready(tools) && Answered(before)
    modifies client, Changes(tools)
    ensures Ready(tools) && Answered(messages)
    ensures old(Meter(tools).toolCalls) <= Meter(tools).toolCalls
    ensures Meter(tools).toolCalls <= old(Meter(tools).toolCalls) + NewCalls(old(client.heard), client.heard)
    ensures client.asked == old(client.asked) || client.asked == old(client.asked)[role := old(client.Asked(role)) + 1]
    ensures ended.None? ==> client.asked == old(client.asked)[role := old(client.Asked(role)) + 1]
    ensures ended != Some(NotConverged)
    ensures client.heard == old(client.heard) ||
      exists reply :: client.heard == old(client.heard) + [Heard(role, reply)]
    ensures ended.None? ==> client.heard != old(client.heard) && Last(client.heard).reply.Answer?
    ensures ended.None? ==> Last(client.heard).reply.calls != []
    ensures ended.None? && tools.Writing? && !Meter(tools).tripped ==>
      tools.w.charged == old(tools.w.charged) + Last(client.heard).reply.calls
    ensures ended.Some? && tools.Writing? ==> tools.w.charged == old(tools.w.charged)
    ensures ended.Some? && ended.value.Completed? && tools.Writing? ==> !old(Meter(tools).tripped)
    ensures ended.Some? ==> EndedAs(ended.value, old(client.heard), client.heard, Meter(tools).tripped)
    ensures tools.Writing? && old(Meter(tools).tripped) ==> ended.Some? && client.asked == old(client.asked)
    ensures tools.Writing? && ended.None? ==>
      Meter(tools).tripped || old(Meter(tools).toolCalls) < Meter(tools).toolCalls
    ensures tools.Writing? ==> old(tools.w.charged) <= tools.w.charged
    ensures tools.Writing? ==>
      |tools.w.charged| - |old(tools.w.charged)| == Meter(tools).toolCalls - old(Meter(tools).toolCalls)
  {
    hide Unanswered, Answered;
    var budget := Meter(tools);
    messages := before;
    var spent := budget.Exhausted();
    if spent {
      return Some(Exhausted), messages;
    }
    var reply := client.Complete(role);
    match reply {
      case Refused(exn) =>
        return Some(if exn.Groundtruth() then FailedCall(exn.message) else Raised(exn)), messages;
      case Answer(text, calls) =>
        Speaks(messages, calls);
        messages := messages + [Assistant(calls)];
        if calls == [] {
          return Some(Completed(text)), messages;
        }
        messages := RunCalls(calls, tools, messages);
        ended := None;
    }
  }

  /** How a run ended is what the model said last, or the budget, or the hard cap. */
  predicate Explained(status: Status, h: seq<Heard>, tripped: bool, hardCap: nat) {
    match status
    case Exhausted => tripped
    case NotConverged => |h| == hardCap
    case _ => h != [] && SaysSo(status, Last(h).reply)
  }

  lemma EndExplained(status: Status, first: seq<Heard>, before: seq<Heard>, after: seq<Heard>, tripped: bool, cap: nat)
    requires EndedAs(status, before, after, tripped) && first <= before <= after && status != NotConverged
    ensures Explained(status, after[|first|..], tripped, cap)
    ensures status.Completed? ==> before != after && after != [] && Last(after).reply == Answer(status.text, [])
    ensures !status.Completed? && before != after ==> after != [] && Last(after).reply.Refused?
  {
    if !status.Exhausted? {
      assert |before| < |after|;
      assert Last(after[|first|..]) == Last(after);
    }
  }

  lemma CapExplained(h: seq<Heard>, tripped: bool, hardCap: nat)
    requires |h| == hardCap
    ensures Explained(NotConverged, h, tripped, hardCap)
  {
  }

  /** With tools that charge every call, at most one completion more than was charged is
    * asked for and the loop always converges; with any tools it is bounded by the hard cap. */
  method RunAgent(client: Client, role: Role, system: seq<Message>, tools: ToolSet)
    returns (status: Status, messages: seq<Message>)
    requires Ready(tools) && Answered(system)
    modifies client, Changes(tools)
    ensures Ready(tools) && Answered(messages)
    ensures old(Meter(tools).toolCalls) <= Meter(tools).toolCalls
    ensures forall other :: other != role ==> client.Asked(other) == old(client.Asked(other))
    ensures old(client.Asked(role)) <= client.Asked(role)
    ensures client.Asked(role) <= old(client.Asked(role)) + 2 * Meter(tools).maxToolCalls + 10
    ensures tools.Writing? ==> status != NotConverged
    ensures Spoke(role, old(client.heard), client.heard)
    ensures Meter(tools).toolCalls <= old(Meter(tools).toolCalls) + CallsIn(client.heard[|old(client.heard)|..])
    ensures var log := LogOf(client.heard[|old(client.heard)|..]);
      role == Organize ==> if status.Completed? then |log.done| == 1 && log.open == [] else log.done == []
    ensures role == Organize && tools.Writing? && status.Completed? ==>
      tools.w.charged == old(tools.w.charged) + LogOf(client.heard[|old(client.heard)|..]).done[0].calls
    ensures role == Organize && status.Completed? ==> LogOf(client.heard[|old(client.heard)|..]).done[0].tags == []
    ensures Explained(status, client.heard[|old(client.heard)|..], Meter(tools).tripped,
                      2 * Meter(tools).maxToolCalls + 10)
    ensures tools.Writing? ==>
      client.Asked(role) - old(client.Asked(role)) <= Meter(tools).toolCalls - old(Meter(tools).toolCalls) + 1
    ensures tools.Writing? ==> old(tools.w.charged) <= tools.w.charged
    ensures tools.Writing? ==>
      |tools.w.charged| - |old(tools.w.charged)| == Meter(tools).toolCalls - old(Meter(tools).toolCalls)
  {
    hide Unanswered, Answered, LogOf, Spoke, AllFrom, EndedAs, Explained, CallsIn, NewCalls, Logged,
      SaysSo, Init, Ready;
    var budget := Meter(tools);
    messages := system;
    NothingLogged(role, client.heard);
    NoCallsYet(client.heard);
    var hardCap := 2 * budget.maxToolCalls + 10;
    for n := 0 to hardCap
      invariant Ready(tools) && Answered(messages)
      invariant old(budget.toolCalls) <= budget.toolCalls
      invariant forall other :: other != role ==> client.Asked(other) == old(client.Asked(other))
      invariant client.Asked(role) == old(client.Asked(role)) + n
      invariant tools.Writing? ==>
        n <= budget.toolCalls - old(budget.toolCalls) + (if budget.tripped then 1 else 0)
      invariant tools.Writing? ==> old(tools.w.charged) <= tools.w.charged
      invariant tools.Writing? ==>
        |tools.w.charged| - |old(tools.w.charged)| == budget.toolCalls - old(budget.toolCalls)
      invariant Spoke(role, old(client.heard), client.heard) && old(client.heard) <= client.heard
      invariant |client.heard| == |old(client.heard)| + n
      invariant budget.toolCalls <= old(budget.toolCalls) + CallsIn(client.heard[|old(client.heard)|..])
      invariant role == Organize ==> LogOf(client.heard[|old(client.heard)|..]).done == []
      invariant role == Organize && tools.Writing? && !budget.tripped ==>
        tools.w.charged == old(tools.w.charged) + LogOf(client.heard[|old(client.heard)|..]).open
    {
      ghost var h := client.heard;
      var ended;
      ended, messages := Turn(client, role, messages, tools);
      OneMoreHeard(role, old(client.heard), h, client.heard);
      OneMoreReply(old(client.heard), h, client.heard);
      if role == Organize && client.heard != h {
        OrganizeLogged(LogOf(h[|old(client.heard)|..]), Last(client.heard));
      }
      if ended.Some? {
        EndExplained(ended.value, old(client.heard), h, client.heard, budget.tripped, hardCap);
        return ended.value, messages;
      }
    }
    CapExplained(client.heard[|old(client.heard)|..], budget.tripped, hardCap);
    WithinLimits(tools);
    return NotConverged, messages;
  }
}
