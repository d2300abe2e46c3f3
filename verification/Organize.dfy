/** The organize step: a bounded retry loop around the agent loop, with the validator as gate
  * and one narrow repair at the end. */
module Organizing {
  import opened Prelude
  import opened Text
  import opened Frontmatter
  import opened Dedupes
  import opened Budgets
  import opened WriteTools
  import opened Agent
  import opened Validator
  import Links
  import LinkScanner
  import LinkTheorems
  import LinkExactness

  /** What ends a stage: a failure under a stage's name, which a terminal error raised in the
    * stage amounts to as well, or a transient or foreign exception passing through. */
  datatype Failure = StageFailure(stage: string, message: string) | Threw(exn: Exn)

  datatype Settings = Settings(
    c: Context, maxToolCalls: nat, maxWallClock: nat, maxAttempts: int,
    sha: string, today: Date, cleanLines: string -> seq<string>)

  predicate ValidSettings(s: Settings) { IsSha256(s.sha) && ValidDate(s.today) }

  function Attempts(s: Settings): nat { if s.maxAttempts < 1 then 1 else s.maxAttempts }

  // ----- tagging --------------------------------------------------------------------

  predicate TagListOk(tags: seq<string>) {
    tags != [] && Distinct(tags) && forall i :: 0 <= i < |tags| ==> Normalized(tags[i])
  }

  /** The non-empty lines of a cleaned reply. */
  function Items(lines: seq<string>): (r: seq<string>)
    ensures r == [] <==> forall i :: 0 <= i < |lines| ==> lines[i] == ""
  {
    var items := Filter((line: string) => line != "", lines);
    assert items != [] ==> items[0] in lines && items[0] != "";
    items
  }

  lemma ItemsMore(lines: seq<string>, line: string)
    ensures Items(lines + [line]) == if line == "" then Items(lines) else Items(lines) + [line]
  {
    FilterConcat((l: string) => l != "", lines, [line]);
    assert [line][1..] == [];
    var f := (l: string) => l != "";
    assert Filter(f, [line]) == if line == "" then [] else [line];
  }

  lemma ItemsAre(lines: seq<string>)
    ensures ToSet(Items(lines)) == set l | l in lines && l != ""
  {
    var f := (line: string) => line != "";
    forall l | l in lines && l != ""
      ensures l in Items(lines)
    {
      var i :| 0 <= i < |lines| && lines[i] == l;
      assert f(lines[i]);
    }
  }

  predicate AllNormalized(tags: seq<string>) {
    forall i :: 0 <= i < |tags| ==> Normalized(tags[i])
  }

  /** The tags a reply gives: its items, each once, if there are any and all are normalized. */
  function TagsOn(lines: seq<string>): Option<seq<string>> {
    var items := Items(lines);
    if items == [] || !AllNormalized(items) then None else Some(Dedupe(items))
  }

  lemma TagsAreOk(lines: seq<string>)
    requires TagsOn(lines).Some?
    ensures TagListOk(TagsOn(lines).value) && ToSet(TagsOn(lines).value) == set l | l in lines && l != ""
  {
    hide Normalized, Items;
    var items := Items(lines);
    ItemsAre(lines);
    assert items[0] in ToSet(items);
    forall i | 0 <= i < |Dedupe(items)|
      ensures Normalized(Dedupe(items)[i])
    {
      DedupeElements(items, i);
    }
  }

  lemma TagsExactly(lines: seq<string>)
    ensures TagsOn(lines).Some? <==>
      && (exists i :: 0 <= i < |lines| && lines[i] != "")
      && forall i :: 0 <= i < |lines| && lines[i] != "" ==> Normalized(lines[i])
  {
    hide Normalized, Dedupe;
    var f := (line: string) => line != "";
    assert forall i :: 0 <= i < |lines| && lines[i] != "" ==> f(lines[i]) && lines[i] in Items(lines);
    assert forall i :: 0 <= i < |Items(lines)| ==> Items(lines)[i] in lines;
  }

  /** The tags on the cleaned lines of a reply: all normalized, each once, at least one. */
  method ParseTags(lines: seq<string>) returns (r: Option<seq<string>>)
    ensures r == TagsOn(lines)
    ensures r.Some? ==> TagListOk(r.value) && ToSet(r.value) == set l | l in lines && l != ""
    ensures r.Some? <==>
      && (exists i :: 0 <= i < |lines| && lines[i] != "")
      && forall i :: 0 <= i < |lines| && lines[i] != "" ==> Normalized(lines[i])
  {
    hide *;
    var tags: seq<string> := [];
    TagsExactly(lines);
    NothingRead(lines);
    for i := 0 to |lines|
      invariant tags == Dedupe(Items(lines[..i])) && AllNormalized(Items(lines[..i]))
    {
      OneMoreLine(lines, i);
      if lines[i] != "" {
        if !Normalized(lines[i]) {
          return None;
        }
        if lines[i] !in tags {
          tags := tags + [lines[i]];
        }
      }
    }
    AllLinesRead(lines);
    if tags == [] {
      return None;
    }
    r := Some(tags);
    TagsAreOk(lines);
  }

  lemma NothingRead(lines: seq<string>)
    ensures Dedupe(Items(lines[..0])) == [] && AllNormalized(Items(lines[..0]))
  {
    NothingToDedupe();
    assert lines[..0] == [];
  }

  lemma OneMoreLine(lines: seq<string>, i: nat)
    requires i < |lines| && AllNormalized(Items(lines[..i]))
    ensures lines[i] == "" ==> Items(lines[..i + 1]) == Items(lines[..i])
    ensures lines[i] != "" && Normalized(lines[i]) ==> AllNormalized(Items(lines[..i + 1]))
    ensures var tags := Dedupe(Items(lines[..i]));
      lines[i] != "" ==> Dedupe(Items(lines[..i + 1])) == if lines[i] in tags then tags else tags + [lines[i]]
  {
    hide Normalized, Items, Dedupe;
    assert lines[..i + 1] == lines[..i] + [lines[i]];
    ItemsMore(lines[..i], lines[i]);
    if lines[i] != "" {
      DedupeLast(Items(lines[..i + 1]));
      assert Init(Items(lines[..i + 1])) == Items(lines[..i]);
    }
  }

  lemma AllLinesRead(lines: seq<string>)
    requires AllNormalized(Items(lines[..|lines|]))
    ensures TagsOn(lines) ==
      if Dedupe(Items(lines[..|lines|])) == [] then None else Some(Dedupe(Items(lines[..|lines|])))
  {
    hide Normalized, Items, Dedupe;
    assert lines[..|lines|] == lines;
    DedupeIsEmpty(Items(lines));
  }

  lemma DedupeIsEmpty(items: seq<string>)
    ensures Dedupe(items) == [] <==> items == []
  {
    if items != [] {
      assert items[0] in ToSet(items);
    }
  }

  const TAG_ATTEMPTS := 2

  /** What a refused completion is outside the agent loop. */
  function Refusal(exn: Exn): Failure {
    if exn.Groundtruth() && exn.kind != Transient then StageFailure("llm", exn.message) else Threw(exn)
  }

  const BadTags := StageFailure("llm", "tag is not normalized")

  const BodyIsNoText := Threw(Exn(Foreign, "TypeError"))

  function TitleOf(n: PendingNote): string {
    if n.title.Some? && n.title.value != "" then n.title.value else Links.BaseName(Links.Stem(n.path))
  }

  /** A note with the frontmatter the system gives it. */
  function WithTags(s: Settings, n: PendingNote, tags: seq<string>): PendingNote {
    n.(frontmatter := Some(NoteFrontmatter(TitleOf(n), tags, [s.sha], s.today, s.today)))
  }

  ghost predicate StampedBy(s: Settings, n: PendingNote, stamped: PendingNote) {
    && StampOf(n, stamped) && stamped.body == n.body
    && var fm := stamped.frontmatter.value;
       && fm.title == TitleOf(n) && TagListOk(fm.tags) && fm.sources == [s.sha]
       && fm.created == s.today && fm.updated == s.today
  }

  /** The notes stamped so far, whether the next one's first reply was unusable, and what ended
    * the stamping. */
  datatype Stamping = Stamping(out: seq<PendingNote>, strike: bool, failed: Option<Failure>)

  /** Where the replies to the tag prompts lead: two per note at most. */
  function Stamp(s: Settings, notes: seq<PendingNote>, replies: seq<Reply>): Stamping {
    if replies == [] then Stamping([], false, None)
    else OneReply(s, notes, Stamp(s, notes, Init(replies)), Last(replies))
  }

  function OneReply(s: Settings, notes: seq<PendingNote>, b: Stamping, reply: Reply): Stamping {
    if b.failed.Some? || |b.out| >= |notes| then b
    else match reply
      case Refused(exn) => b.(failed := Some(Refusal(exn)))
      case Answer(text, _) =>
        match TagsOn(s.cleanLines(text))
        case Some(tags) => Stamping(b.out + [WithTags(s, notes[|b.out|], tags)], false, None)
        case None => if b.strike then b.(failed := Some(BadTags)) else b.(strike := true)
  }

  lemma StampMore(s: Settings, notes: seq<PendingNote>, replies: seq<Reply>, reply: Reply)
    ensures Stamp(s, notes, replies + [reply]) == OneReply(s, notes, Stamp(s, notes, replies), reply)
  {
    assert Init(replies + [reply]) == replies;
  }

  /** What the replies amount to, once they do: the stamped notes, or the failure. A body that
    * is not text cannot be put into the prompt: that raises `TypeError`. */
  function Stamped(s: Settings, notes: seq<PendingNote>, replies: seq<Reply>):
    Option<Result<seq<PendingNote>, Failure>>
  {
    var b := Stamp(s, notes, replies);
    if b.failed.Some? then Some(Err(b.failed.value))
    else if |b.out| >= |notes| then Some(Ok(b.out))
    else if notes[|b.out|].body.NotText? then Some(Err(BodyIsNoText))
    else None
  }

  predicate Unusable(s: Settings, reply: Reply) { reply.Answer? && TagsOn(s.cleanLines(reply.text)).None? }

  /** What the replies to the prompts for one note come to: the tags of the first usable one of
    * two, or a failure. */
  predicate ComesFrom(s: Settings, n: PendingNote, replies: seq<Reply>, r: Result<seq<string>, Failure>) {
    if n.body.NotText? then replies == [] && r == Err(BodyIsNoText)
    else
      && 1 <= |replies| <= TAG_ATTEMPTS && (|replies| == 2 ==> Unusable(s, replies[0]))
      && match Last(replies)
         case Refused(exn) => r == Err(Refusal(exn))
         case Answer(text, _) =>
           if Unusable(s, Last(replies)) then |replies| == TAG_ATTEMPTS && r == Err(BadTags)
           else r.Ok? && TagsOn(s.cleanLines(text)) == Some(r.value)
  }

  /** Tags one note from its own body, with one re-prompt. `told` is what the tag role has
    * said for the notes before. */
  method TagNote(client: Client, s: Settings, n: PendingNote, ghost notes: seq<PendingNote>, ghost told: seq<Reply>)
    returns (r: Result<seq<string>, Failure>)
    requires Stamp(s, notes, told) == Stamping(Stamp(s, notes, told).out, false, None)
    requires |Stamp(s, notes, told).out| < |notes| && n == notes[|Stamp(s, notes, told).out|]
    modifies client
    ensures r.Ok? ==> TagListOk(r.value) && n.body.Prose?
    ensures n.body.NotText? ==> r == Err(BodyIsNoText) && client.heard == old(client.heard)
    ensures forall role :: role != Tag ==> client.Asked(role) == old(client.Asked(role))
    ensures old(client.Asked(Tag)) <= client.Asked(Tag) <= old(client.Asked(Tag)) + TAG_ATTEMPTS
    ensures Spoke(Tag, old(client.heard), client.heard)
    ensures ComesFrom(s, n, Replies(client.heard[|old(client.heard)|..]), r)
    ensures var now := told + Replies(client.heard[|old(client.heard)|..]);
      if r.Ok? then
        Stamp(s, notes, now) == Stamping(Stamp(s, notes, told).out + [WithTags(s, n, r.value)], false, None)
      else Stamped(s, notes, now) == Some(Err(r.error))
  {
    hide TagsOn, WithTags, Stamp;
    ghost var h0 := client.heard;
    assert told + Replies(h0[|h0|..]) == told;
    if n.body.NotText? {
      return Err(BodyIsNoText);
    }
    ghost var now := told;
    for attempt := 1 to TAG_ATTEMPTS + 1
      invariant forall role :: role != Tag ==> client.Asked(role) == old(client.Asked(role))
      invariant client.Asked(Tag) == old(client.Asked(Tag)) + attempt - 1
      invariant h0 <= client.heard && Spoke(Tag, h0, client.heard)
      invariant now == told + Replies(client.heard[|h0|..])
      invariant attempt <= TAG_ATTEMPTS && |Replies(client.heard[|h0|..])| == attempt - 1
      invariant attempt > 1 ==> Unusable(s, Replies(client.heard[|h0|..])[0])
      invariant Stamp(s, notes, now) == Stamp(s, notes, told).(strike := attempt > 1)
    {
      ghost var before := client.heard;
      var reply := client.Complete(Tag);
      HeardMore(h0, before, client.heard, Heard(Tag, reply));
      StampMore(s, notes, now, reply);
      assert now + [reply] == told + Replies(client.heard[|h0|..]);
      now := now + [reply];
      match reply {
        case Refused(exn) =>
          return Err(Refusal(exn));
        case Answer(text, _) =>
          var tags := ParseTags(s.cleanLines(text));
          if tags.Some? {
            return Ok(tags.value);
          }
          if attempt == TAG_ATTEMPTS {
            return Err(BadTags);
          }
      }
    }
  }

  lemma HeardMore(h0: seq<Heard>, before: seq<Heard>, after: seq<Heard>, x: Heard)
    requires h0 <= before && after == before + [x] && x.role == Tag && Spoke(Tag, h0, before)
    ensures h0 <= after && Spoke(Tag, h0, after)
    ensures Replies(after[|h0|..]) == Replies(before[|h0|..]) + [x.reply]
  {
    assert after[|h0|..] == before[|h0|..] + [x];
    RepliesMore(before[|h0|..], x);
    hide Replies;
  }

  method StampNotes(client: Client, s: Settings, notes: seq<PendingNote>)
    returns (r: Result<seq<PendingNote>, Failure>)
    requires ValidSettings(s)
    modifies client
    ensures r.Ok? ==> |r.value| == |notes|
    ensures r.Ok? ==> forall i :: 0 <= i < |notes| ==> StampedBy(s, notes[i], r.value[i])
    ensures forall role :: role != Tag ==> client.Asked(role) == old(client.Asked(role))
    ensures old(client.Asked(Tag)) <= client.Asked(Tag) <= old(client.Asked(Tag)) + 2 * |notes|
    ensures Spoke(Tag, old(client.heard), client.heard)
    ensures Stamped(s, notes, Replies(client.heard[|old(client.heard)|..])) == Some(r)
  {
    hide OneReply, Replies, Stamped;
    var out: seq<PendingNote> := [];
    ghost var h0 := client.heard;
    NothingToldYet(s, notes, h0);
    for i := 0 to |notes|
      invariant |out| == i
      invariant forall k :: 0 <= k < i ==> StampedBy(s, notes[k], out[k])
      invariant forall role :: role != Tag ==> client.Asked(role) == old(client.Asked(role))
      invariant old(client.Asked(Tag)) <= client.Asked(Tag) <= old(client.Asked(Tag)) + 2 * i
      invariant h0 <= client.heard && Spoke(Tag, h0, client.heard)
      invariant Stamp(s, notes, Replies(client.heard[|h0|..])) == Stamping(out, false, None)
    {
      var n := notes[i];
      ghost var before := client.heard;
      ghost var told := Replies(client.heard[|h0|..]);
      hide Stamp;
      var tags := TagNote(client, s, n, notes, told);
      SpokeOn(Tag, h0, before, client.heard);
      if tags.Err? {
        return Err(tags.error);
      }
      out := out + [WithTags(s, n, tags.value)];
    }
    AllStamped(s, notes, Replies(client.heard[|h0|..]), out);
    r := Ok(out);
  }

  lemma NothingToldYet(s: Settings, notes: seq<PendingNote>, h: seq<Heard>)
    ensures Spoke(Tag, h, h) && Stamp(s, notes, Replies(h[|h|..])) == Stamping([], false, None)
  {
  }

  lemma AllStamped(s: Settings, notes: seq<PendingNote>, replies: seq<Reply>, out: seq<PendingNote>)
    requires Stamp(s, notes, replies) == Stamping(out, false, None) && |out| == |notes|
    ensures Stamped(s, notes, replies) == Some(Ok(out))
  {
  }

  lemma SpokeOn(role: Role, h0: seq<Heard>, h1: seq<Heard>, h: seq<Heard>)
    requires h0 <= h1 && Spoke(role, h0, h1) && Spoke(role, h1, h)
    ensures h0 <= h && Spoke(role, h0, h)
    ensures Replies(h[|h0|..]) == Replies(h1[|h0|..]) + Replies(h[|h1|..])
  {
    assert h[|h0|..] == h1[|h0|..] + h[|h1|..];
    MapConcat((x: Heard) => x.reply, h1[|h0|..], h[|h1|..]);
  }

  // ----- the last resort ------------------------------------------------------------

  /** `after` is `batch` with the dangling links of the note at `path` downgraded, and
    * nothing else changed; `stripped` lists the targets that lost their markup. */
  ghost predicate Repaired(c: Context, batch: seq<PendingNote>, path: string, after: seq<PendingNote>,
                           stripped: seq<string>) {
    exists i :: 0 <= i < |batch| && RepairedAt(c, batch, path, after, stripped, i)
  }

  ghost predicate RepairedAt(c: Context, batch: seq<PendingNote>, path: string, after: seq<PendingNote>,
                             stripped: seq<string>, i: nat)
    requires i < |batch|
  {
    && batch[i].path == path && batch[i].body.Prose?
    && var wanted := Links.TargetsOf(DanglingIn(c, batch, batch[i].body.text));
       && after == batch[i := batch[i].(body := Prose(Links.Downgraded(batch[i].body.text, wanted)))]
       && stripped == Dedupe(Links.DowngradedTargets(batch[i].body.text, wanted))
  }

  method DowngradeDanglingLinks(c: Context, batch: seq<PendingNote>, path: string)
    returns (after: seq<PendingNote>, stripped: seq<string>)
    requires path in PathsOf(batch)
    requires forall i :: 0 <= i < |batch| ==> batch[i].body.Prose?
    ensures Repaired(c, batch, path, after, stripped)
  {
    for i := 0 to |batch|
      invariant forall k :: 0 <= k < i ==> batch[k].path != path
    {
      if batch[i].path == path {
        var dangling := Validator.CheckLinks(c, batch, batch[i].body.text);
        var body;
        body, stripped := LinkScanner.DowngradeLinks(batch[i].body.text, Links.TargetsOf(dangling));
        after := batch[i := batch[i].(body := Prose(body))];
        assert RepairedAt(c, batch, path, after, stripped, i);
        return;
      }
    }
    assert false;
    after, stripped := batch, [];
  }

  // ----- the retry loop -------------------------------------------------------------

  /** How the returned batch came about, from the calls of the attempt that made it. */
  ghost predicate FromAttempt(s: Settings, calls: seq<Call>, drafted: seq<PendingNote>) {
    var notes := AfterCalls(s.c.v, s.c.existing, calls);
    && notes != [] && |drafted| == |notes|
    && forall i :: 0 <= i < |notes| ==> StampedBy(s, notes[i], drafted[i])
  }

  ghost predicate Gated(s: Settings, calls: seq<Call>, drafted: seq<PendingNote>, attempt: nat,
                        batch: seq<PendingNote>, downgrades: map<string, seq<string>>) {
    && FromAttempt(s, calls, drafted) && Verdict(s.c, batch).None?
    && ((batch == drafted && downgrades == map[])
        || (attempt == Attempts(s) && exists path, stripped ::
              Verdict(s.c, drafted) == Some(Rejection(LinkIntegrity, path))
              && Repaired(s.c, drafted, path, batch, stripped)
              && downgrades == if stripped == [] then map[] else map[path := stripped]))
  }

  /** What the calls of an attempt leave in the buffer. */
  function Buffered(s: Settings, a: Attempt): seq<PendingNote> { AfterCalls(s.c.v, s.c.existing, a.calls) }

  /** The outcome of stamping what an attempt wrote, from its own tag replies. */
  function StampedIn(s: Settings, a: Attempt): Option<Result<seq<PendingNote>, Failure>> {
    Stamped(s, Buffered(s, a), a.tags)
  }

  /** An attempt that wrote nothing, or whose stamped batch the validator rejects. */
  ghost predicate TurnedDown(s: Settings, a: Attempt) {
    Buffered(s, a) == []
    || (StampedIn(s, a).Some? && StampedIn(s, a).value.Ok? && Verdict(s.c, StampedIn(s, a).value.value).Some?)
  }

  /** `n` attempts so far, all turned down. */
  ghost predicate AllTurnedDown(s: Settings, h: seq<Heard>, n: nat) {
    LogOf(h).open == [] && |LogOf(h).done| == n && forall i :: 0 <= i < n ==> TurnedDown(s, LogOf(h).done[i])
  }

  /** What the organize role said is this many attempts, the last of these calls, and all
    * before it turned down. */
  ghost predicate Tried(s: Settings, h: seq<Heard>, attempt: nat, calls: seq<Call>) {
    var log := LogOf(h);
    && log.open == [] && 1 <= attempt == |log.done| <= Attempts(s) && calls == Last(log.done).calls
    && forall i :: 0 <= i < attempt - 1 ==> TurnedDown(s, log.done[i])
  }

  /** ... and stamping what the last one wrote came to this. */
  ghost predicate Came(s: Settings, h: seq<Heard>, outcome: Result<seq<PendingNote>, Failure>) {
    LogOf(h).done != [] && Buffered(s, Last(LogOf(h).done)) != [] && StampedIn(s, Last(LogOf(h).done)) == Some(outcome)
  }

  const NoWrites := StageFailure("llm", "organize produced no writes")

  const Rejected := StageFailure("write-validation", "rejected")

  const OrganizeSpent := StageFailure("llm", "organize budget exhausted")

  /** What a refused completion is inside the agent loop. */
  function AgentRefusal(stage: string, otherwise: string, exn: Exn): Failure {
    if exn.Groundtruth() then StageFailure(stage, if exn.message == "" then otherwise else exn.message) else Threw(exn)
  }

  /** A batch the gate does not let through, nor what the last resort makes of it. */
  ghost predicate BeyondRepair(c: Context, drafted: seq<PendingNote>) {
    && Verdict(c, drafted).Some?
    && (Verdict(c, drafted).value.rule == LinkIntegrity ==>
          exists after, stripped ::
            Repaired(c, drafted, Verdict(c, drafted).value.path, after, stripped) && Verdict(c, after).Some?)
  }

  /** The only ways for the organize step to fail, after attempts that were all turned down:
    * the budget is spent, the model refuses, or, once an attempt is complete, stamping what it
    * wrote failed, or it was the last and wrote nothing or a batch that is beyond repair. */
  ghost predicate Fails(s: Settings, h: seq<Heard>, spent: bool, f: Failure) {
    var done := LogOf(h).done;
    && |done| <= Attempts(s)
    && if f == OrganizeSpent && spent && AllDown(s, done) then true
       else if h != [] && Last(h).role == Role.Organize && Last(h).reply.Refused? then
         AllDown(s, done) && f == AgentRefusal("llm", "organize failed", Last(h).reply.exn)
       else
         && done != [] && LogOf(h).open == [] && AllDown(s, Init(done))
         && (|| Came(s, h, Err(f))
             || (|done| == Attempts(s) && Buffered(s, Last(done)) == [] && f == NoWrites)
             || (|done| == Attempts(s) && f == Rejected
                 && exists drafted :: Came(s, h, Ok(drafted)) && BeyondRepair(s.c, drafted)))
  }

  ghost predicate AllDown(s: Settings, done: seq<Attempt>) { forall i :: 0 <= i < |done| ==> TurnedDown(s, done[i]) }

  /** What the agent run of an attempt can fail for. */
  predicate AgentFails(stage: string, spent: Failure, otherwise: string, h: seq<Heard>, tripped: bool, f: Failure) {
    || (f == spent && tripped)
    || (h != [] && Last(h).reply.Refused? && f == AgentRefusal(stage, otherwise, Last(h).reply.exn))
  }

  /** One attempt's agent run, on a fresh buffer and the shared budget. */
  method RunOrganizeAgent(client: Client, s: Settings, budget: Budget, conversation: seq<Message>)
    returns (r: Result<seq<PendingNote>, Failure>, messages: seq<Message>, ghost calls: seq<Call>)
    requires Answered(conversation) && budget.toolCalls <= budget.maxToolCalls && budget.Sane()
    modifies client, budget
    ensures Answered(messages) && budget.Sane()
    ensures r.Ok? ==> r.value == AfterCalls(s.c.v, s.c.existing, calls)
    ensures old(budget.toolCalls) <= budget.toolCalls <= budget.maxToolCalls
    ensures |calls| == budget.toolCalls - old(budget.toolCalls)
    ensures forall role :: role != Role.Organize ==> client.Asked(role) == old(client.Asked(role))
    ensures old(client.Asked(Role.Organize)) <= client.Asked(Role.Organize)
    ensures client.Asked(Role.Organize) <= old(client.Asked(Role.Organize)) + |calls| + 1
    ensures Spoke(Role.Organize, old(client.heard), client.heard)
    ensures budget.toolCalls <= old(budget.toolCalls) + CallsIn(client.heard[|old(client.heard)|..])
    ensures r.Ok? ==> LogOf(client.heard[|old(client.heard)|..]) == Log([Attempt(calls, [])], [])
    ensures r.Ok? ==> LastIsNoRefusal(client.heard[|old(client.heard)|..])
    ensures r.Err? ==> LogOf(client.heard[|old(client.heard)|..]).done == []
    ensures r.Err? ==>
      AgentFails("llm", OrganizeSpent, "organize failed", client.heard[|old(client.heard)|..], budget.tripped, r.error)
  {
    var tools := new WriteTools(s.c.v, s.c.existing, budget);
    var status;
    status, messages := RunAgent(client, Role.Organize, conversation, Writing(tools));
    calls := tools.charged;
    ghost var log := LogOf(client.heard[|old(client.heard)|..]);
    assert status.Completed? ==> [] + log.done[0].calls == log.done[0].calls && log == Log([Attempt(calls, [])], []);
    hide LogOf;
    match status {
      case Completed(_) => r := Ok(tools.notes);
      case Exhausted => r := Err(OrganizeSpent);
      case FailedCall(message) => r := Err(StageFailure("llm", if message == "" then "organize failed" else message));
      case NotConverged =>
        assert false;  // every call is charged, so the loop ends before its hard cap
        r := Err(StageFailure("llm", "agent loop did not converge"));
      case Raised(exn) => r := Err(Threw(exn));
    }
  }

  /** Whatever batch comes back passed the validator as it is, was written by the tool calls
    * of the last attempt alone, and was repaired only after that attempt was the last and
    * was rejected for its links. All attempts share one budget. When none comes back it is for
    * one of the reasons of `Fails`. */
  method OrganizeAndValidate(client: Client, s: Settings)
    returns (r: Result<seq<PendingNote>, Failure>, downgrades: map<string, seq<string>>,
             ghost calls: seq<Call>, ghost drafted: seq<PendingNote>, ghost attempt: nat, ghost meter: Budget)
    requires ValidSettings(s)
    modifies client
    ensures r.Ok? ==> Gated(s, calls, drafted, attempt, r.value, downgrades)
    ensures old(client.heard) <= client.heard
    ensures fresh(meter) && Meters(s, client.heard[|old(client.heard)|..], meter)
    ensures r.Ok? ==> Tried(s, client.heard[|old(client.heard)|..], attempt, calls)
    ensures r.Ok? ==> Came(s, client.heard[|old(client.heard)|..], Ok(drafted))
    ensures r.Err? ==> Fails(s, client.heard[|old(client.heard)|..], meter.tripped, r.error)
    ensures forall role :: role != Role.Organize && role != Tag ==> client.Asked(role) == old(client.Asked(role))
    ensures old(client.Asked(Role.Organize)) <= client.Asked(Role.Organize)
    ensures client.Asked(Role.Organize) <= old(client.Asked(Role.Organize)) + s.maxToolCalls + Attempts(s)
    ensures old(client.Asked(Tag)) <= client.Asked(Tag) <= old(client.Asked(Tag)) + 2 * s.maxToolCalls
  {
    hide LogOf, CallsIn, Spoke, Tried, AllTurnedDown, AfterCalls, Came, Fails, Stamped, AgentFails, BeyondRepair,
      Gated, Verdict, StampedBy, Repaired, LastIsNoRefusal, PathsOf, Acceptable, IsFirstRejection, AllFrom, Replies;
    var conversation := [User];
    var budget := new Budget(s.maxToolCalls, s.maxWallClock);
    meter := budget;
    ghost var h0 := client.heard;
    NoAttemptYet(s, client.heard);
    NoCallsYet(client.heard);
    downgrades, calls, drafted, attempt := map[], [], [], 0;
    assert Unanswered([]) == Some([]);
    var n := 1;
    while n <= Attempts(s)
      invariant 1 <= n <= Attempts(s)
      invariant Answered(conversation)
      invariant fresh(budget) && budget.maxToolCalls == s.maxToolCalls && budget.toolCalls <= s.maxToolCalls
      invariant budget.maxWallClock == s.maxWallClock && budget.Sane()
      invariant forall role :: role != Role.Organize && role != Tag ==> client.Asked(role) == old(client.Asked(role))
      invariant old(client.Asked(Role.Organize)) <= client.Asked(Role.Organize)
      invariant client.Asked(Role.Organize) <= old(client.Asked(Role.Organize)) + budget.toolCalls + n - 1
      invariant old(client.Asked(Tag)) <= client.Asked(Tag) <= old(client.Asked(Tag)) + 2 * budget.toolCalls
      invariant downgrades == map[]
      invariant h0 <= client.heard && AllTurnedDown(s, client.heard[|h0|..], n - 1)
      invariant budget.toolCalls <= CallsIn(client.heard[|h0|..])
      decreases Attempts(s) - n
    {
      ghost var h1 := client.heard;
      attempt := n;
      var pending, messages;
      pending, messages, calls := RunOrganizeAgent(client, s, budget, conversation);
      SpokeGrows(Role.Organize, h1, client.heard);
      MoreCallsIn(h0, h1, client.heard);
      if pending.Err? {
        AgentFailed(s, h0, h1, client.heard, n, budget.tripped, pending.error);
        r := Err(pending.error);
        return;
      }
      AtMostOnePerCall(s, calls);
      Appended(messages, User);
      AttemptLogged(s, h0, h1, client.heard, n, calls);
      if |pending.value| == 0 {
        if n == Attempts(s) {
          NothingWritten(s, client.heard[|h0|..], n, calls, budget.tripped);
          r := Err(NoWrites);
          return;
        }
        WroteNothing(s, client.heard[|h0|..], n, calls);
        conversation := messages + [User];
        n := n + 1;
        continue;
      }
      ghost var h2 := client.heard;
      var stamped := StampNotes(client, s, pending.value);
      SpokeGrows(Tag, h2, client.heard);
      MoreCallsIn(h0, h2, client.heard);
      TagsLogged(s, h0, h2, client.heard, n, calls, stamped);
      if stamped.Err? {
        StampingFailed(s, client.heard[|h0|..], n, calls, budget.tripped, stamped.error);
        r := Err(stamped.error);
        return;
      }
      var batch := stamped.value;
      drafted := batch;
      var verdict := Validate(s.c, batch);
      StampedAreDraftable(s, pending.value, batch);
      if verdict.None? {
        AcceptedIsGated(s, calls, batch, attempt);
        r := Ok(batch);
        return;
      }
      if n < Attempts(s) {
        RejectedOnce(s, client.heard[|h0|..], n, calls, batch);
        conversation := messages + [User];
        n := n + 1;
        continue;
      }
      var rejection := verdict.value;
      if rejection.rule != LinkIntegrity {
        NotForLinks(s.c, batch);
        RejectedAtLast(s, client.heard[|h0|..], n, calls, batch, budget.tripped);
        r := Err(Rejected);
        return;
      }
      RejectedPathIsStaged(s.c, batch);
      var repaired, stripped := DowngradeDanglingLinks(s.c, batch, rejection.path);
      if stripped != [] {
        downgrades := map[rejection.path := stripped];
      }
      verdict := Validate(s.c, repaired);
      if verdict.Some? {
        RepairRejected(s.c, batch, repaired, stripped);
        RejectedAtLast(s, client.heard[|h0|..], n, calls, batch, budget.tripped);
      } else {
        RepairedIsGated(s, calls, batch, attempt, repaired, rejection.path, stripped);
      }
      r := if verdict.None? then Ok(repaired) else Err(Rejected);
      return;
    }
  }

  lemma StampedAreDraftable(s: Settings, notes: seq<PendingNote>, batch: seq<PendingNote>)
    requires |batch| == |notes| && forall i :: 0 <= i < |notes| ==> StampedBy(s, notes[i], batch[i])
    ensures forall i :: 0 <= i < |batch| ==> batch[i].body.Prose?
  {
  }

  lemma AcceptedIsGated(s: Settings, calls: seq<Call>, batch: seq<PendingNote>, attempt: nat)
    requires FromAttempt(s, calls, batch) && Verdict(s.c, batch).None?
    ensures Gated(s, calls, batch, attempt, batch, map[])
  {
    hide FromAttempt, Verdict, Repaired;
  }

  lemma RepairedIsGated(s: Settings, calls: seq<Call>, batch: seq<PendingNote>, attempt: nat,
                        repaired: seq<PendingNote>, path: string, stripped: seq<string>)
    requires FromAttempt(s, calls, batch) && Verdict(s.c, batch) == Some(Rejection(LinkIntegrity, path))
    requires Repaired(s.c, batch, path, repaired, stripped) && Verdict(s.c, repaired).None? && attempt == Attempts(s)
    ensures Gated(s, calls, batch, attempt, repaired, if stripped == [] then map[] else map[path := stripped])
  {
    hide FromAttempt, Verdict, Repaired;
  }

  /** The meter of one step, within the limits that are set, charged for calls that the model
    * asked for and no others. */
  ghost predicate Meters(s: Settings, h: seq<Heard>, b: Budget)
    reads b
  {
    b.maxToolCalls == s.maxToolCalls && b.maxWallClock == s.maxWallClock && b.Sane() && b.toolCalls <= CallsIn(h)
  }

  lemma MoreCallsIn(h0: seq<Heard>, h1: seq<Heard>, h: seq<Heard>)
    requires h0 <= h1 <= h
    ensures CallsIn(h[|h0|..]) == CallsIn(h1[|h0|..]) + CallsIn(h[|h1|..])
  {
    CallsAdd(h1[|h0|..], h[|h1|..]);
    Suffixes(h0, h1, h);
  }

  lemma NoAttemptYet(s: Settings, h: seq<Heard>)
    ensures AllTurnedDown(s, h[|h|..], 0)
  {
  }

  lemma Suffixes(h0: seq<Heard>, h1: seq<Heard>, h: seq<Heard>)
    requires h0 <= h1 <= h
    ensures h[|h0|..] == h1[|h0|..] + h[|h1|..]
  {
  }

  lemma SpokeSays(role: Role, h1: seq<Heard>, h: seq<Heard>)
    requires Spoke(role, h1, h)
    ensures h1 <= h && AllFrom(role, h[|h1|..])
  {
  }

  /** An attempt adds its calls to the log. */
  lemma AttemptLogged(s: Settings, h0: seq<Heard>, h1: seq<Heard>, h: seq<Heard>, n: nat, calls: seq<Call>)
    requires h0 <= h1 && Spoke(Role.Organize, h1, h) && LogOf(h[|h1|..]) == Log([Attempt(calls, [])], [])
    requires 1 <= n <= Attempts(s) && AllTurnedDown(s, h1[|h0|..], n - 1)
    requires LastIsNoRefusal(h[|h1|..])
    ensures h0 <= h && Tried(s, h[|h0|..], n, calls) && Last(LogOf(h[|h0|..]).done) == Attempt(calls, [])
    ensures LastIsNoRefusal(h[|h0|..])
  {
    SomethingHeard(h[|h1|..]);
    hide LogOf, TurnedDown, Spoke;
    SpokeSays(Role.Organize, h1, h);
    LogConcat(h1[|h0|..], h[|h1|..]);
    Suffixes(h0, h1, h);
    assert Last(h[|h0|..]) == Last(h[|h1|..]);
  }

  lemma SomethingHeard(h: seq<Heard>)
    requires LogOf(h).done != []
    ensures h != []
  {
  }

  lemma AgentFailed(s: Settings, h0: seq<Heard>, h1: seq<Heard>, h: seq<Heard>, n: nat, tripped: bool, f: Failure)
    requires h0 <= h1 && Spoke(Role.Organize, h1, h) && LogOf(h[|h1|..]).done == []
    requires 1 <= n <= Attempts(s) && AllTurnedDown(s, h1[|h0|..], n - 1)
    requires AgentFails("llm", OrganizeSpent, "organize failed", h[|h1|..], tripped, f)
    ensures h0 <= h && Fails(s, h[|h0|..], tripped, f)
  {
    hide LogOf, TurnedDown, Spoke;
    SpokeSays(Role.Organize, h1, h);
    LogConcat(h1[|h0|..], h[|h1|..]);
    Suffixes(h0, h1, h);
    var done := LogOf(h[|h0|..]).done;
    assert done == LogOf(h1[|h0|..]).done;
    if h[|h1|..] != [] {
      assert Last(h[|h0|..]) == Last(h[|h1|..]);
    }
  }

  /** ... and the replies to the tag prompts go with it. */
  lemma TagsLogged(s: Settings, h0: seq<Heard>, h1: seq<Heard>, h: seq<Heard>, n: nat, calls: seq<Call>,
                   outcome: Result<seq<PendingNote>, Failure>)
    requires h0 <= h1 && Spoke(Tag, h1, h) && Tried(s, h1[|h0|..], n, calls)
    requires Last(LogOf(h1[|h0|..]).done) == Attempt(calls, []) && AfterCalls(s.c.v, s.c.existing, calls) != []
    requires Stamped(s, AfterCalls(s.c.v, s.c.existing, calls), Replies(h[|h1|..])) == Some(outcome)
    ensures h0 <= h && Tried(s, h[|h0|..], n, calls) && Came(s, h[|h0|..], outcome)
    ensures LastIsNoRefusal(h1[|h0|..]) ==> LastIsNoRefusal(h[|h0|..])
  {
    hide LogOf, TurnedDown, Spoke, AfterCalls, Stamped;
    SpokeSays(Tag, h1, h);
    TagsBelong(h1[|h0|..], h[|h1|..]);
    Suffixes(h0, h1, h);
    var a, b := LogOf(h1[|h0|..]), LogOf(h[|h0|..]);
    assert [] + Replies(h[|h1|..]) == Replies(h[|h1|..]);
    assert b.done == Init(a.done) + [Attempt(calls, Replies(h[|h1|..]))];
    assert forall i :: 0 <= i < n - 1 ==> b.done[i] == a.done[i];
  }

  lemma WroteNothing(s: Settings, h: seq<Heard>, n: nat, calls: seq<Call>)
    requires Tried(s, h, n, calls) && AfterCalls(s.c.v, s.c.existing, calls) == []
    ensures AllTurnedDown(s, h, n)
  {
    hide LogOf, AfterCalls;
  }

  lemma RejectedOnce(s: Settings, h: seq<Heard>, n: nat, calls: seq<Call>, drafted: seq<PendingNote>)
    requires Tried(s, h, n, calls) && Came(s, h, Ok(drafted)) && Verdict(s.c, drafted).Some?
    ensures AllTurnedDown(s, h, n)
  {
    hide LogOf, Verdict, StampedIn, Buffered;
  }

  lemma NothingWritten(s: Settings, h: seq<Heard>, n: nat, calls: seq<Call>, tripped: bool)
    requires Tried(s, h, n, calls) && n == Attempts(s) && AfterCalls(s.c.v, s.c.existing, calls) == []
    requires LastIsNoRefusal(h)
    ensures Fails(s, h, tripped, NoWrites)
  {
    hide LogOf, AfterCalls;
  }

  lemma StampingFailed(s: Settings, h: seq<Heard>, n: nat, calls: seq<Call>, tripped: bool, f: Failure)
    requires Tried(s, h, n, calls) && Came(s, h, Err(f)) && LastIsNoRefusal(h)
    ensures Fails(s, h, tripped, f)
  {
    hide LogOf, TurnedDown, StampedIn, Buffered;
  }

  lemma RejectedAtLast(s: Settings, h: seq<Heard>, n: nat, calls: seq<Call>, drafted: seq<PendingNote>, tripped: bool)
    requires Tried(s, h, n, calls) && n == Attempts(s) && Came(s, h, Ok(drafted)) && BeyondRepair(s.c, drafted)
    requires LastIsNoRefusal(h)
    ensures Fails(s, h, tripped, Rejected)
  {
    hide LogOf, TurnedDown, StampedIn, Buffered, BeyondRepair;
  }

  predicate LastIsNoRefusal(h: seq<Heard>) {
    h == [] || Last(h).role != Role.Organize || !Last(h).reply.Refused?
  }

  lemma NotForLinks(c: Context, batch: seq<PendingNote>)
    requires Verdict(c, batch).Some? && Verdict(c, batch).value.rule != LinkIntegrity
    ensures BeyondRepair(c, batch)
  {
    hide Verdict;
  }

  lemma RepairRejected(c: Context, batch: seq<PendingNote>, after: seq<PendingNote>, stripped: seq<string>)
    requires Verdict(c, batch).Some? && Repaired(c, batch, Verdict(c, batch).value.path, after, stripped)
    requires Verdict(c, after).Some?
    ensures BeyondRepair(c, batch)
  {
    hide Verdict, Repaired;
  }

  lemma {:induction false} AtMostOnePerCall(s: Settings, calls: seq<Call>)
    ensures |AfterCalls(s.c.v, s.c.existing, calls)| <= |calls|
  {
    if calls == [] {
    } else {
      AtMostOnePerCall(s, Init(calls));
      hide CreatePath, ToBody, PathsOf;
    }
  }

  /** A link rejection names a staged note. */
  lemma RejectedPathIsStaged(c: Context, batch: seq<PendingNote>)
    requires Verdict(c, batch).Some? && Verdict(c, batch).value.rule == LinkIntegrity
    ensures Verdict(c, batch).value.path in PathsOf(batch)
  {
    NotesRejectionNone(c, batch, batch);
    hide NoteRule;
    var i :| 0 <= i < |batch| && NotesRejection(c, batch, batch) == RejectionOf(c, batch, batch[i]);
    assert PathsOf(batch)[i] == batch[i].path;
  }

  // ----- all the model calls of one ingest ------------------------------------------

  /** The completions asked of the model so far. */
  function Total(client: Client): nat
    reads client
  {
    client.Asked(Survey) + client.Asked(Reduce) + client.Asked(Role.Organize) + client.Asked(Tag)
  }

  const SurveySpent := StageFailure("retrieval", "retrieval budget exhausted")

  const NotConverging := StageFailure("retrieval", "agent loop did not converge")

  /** What the survey can fail for: a spent budget, a refusal, or turns up to the hard cap. */
  predicate SurveyFails(s: Settings, h: seq<Heard>, tripped: bool, f: Failure) {
    || AgentFails("retrieval", SurveySpent, "retrieval failed", h, tripped, f)
    || (f == NotConverging && |h| == 2 * s.maxToolCalls + 10)
  }

  /** The survey; a spent budget fails the stage rather than risk a duplicate note. */
  method RunSurvey(client: Client, s: Settings)
    returns (r: Result<string, Failure>, ghost status: Status, ghost meter: Budget)
    modifies client
    ensures r.Ok? <==> status.Completed?
    ensures r.Ok? ==> r.value != "" && (status.text != "" ==> r.value == status.text)
    ensures old(client.heard) <= client.heard && Spoke(Survey, old(client.heard), client.heard)
    ensures fresh(meter) && Meters(s, client.heard[|old(client.heard)|..], meter)
    ensures r.Ok? ==>
      |client.heard| > |old(client.heard)| && Last(client.heard).reply == Answer(status.text, [])
    ensures r.Err? ==> SurveyFails(s, client.heard[|old(client.heard)|..], meter.tripped, r.error)
    ensures forall role :: role != Survey ==> client.Asked(role) == old(client.Asked(role))
    ensures old(client.Asked(Survey)) <= client.Asked(Survey) <= old(client.Asked(Survey)) + 2 * s.maxToolCalls + 10
  {
    var budget := new Budget(s.maxToolCalls, s.maxWallClock);
    meter := budget;
    var tools := new ReadOnlyTools(budget);
    assert Unanswered([]) == Some([]);
    var ended, messages := RunAgent(client, Survey, [User], Reading(tools));
    status := ended;
    hide LogOf;
    match ended {
      case Completed(text) => r := Ok(if text == "" then "none" else text);
      case Exhausted => r := Err(SurveySpent);
      case FailedCall(message) =>
        r := Err(StageFailure("retrieval", if message == "" then "retrieval failed" else message));
      case NotConverged => r := Err(NotConverging);
      case Raised(exn) => r := Err(Threw(exn));
    }
  }

  const NoItems := StageFailure("llm", "reduce step produced no items")

  /** What the reduce step can fail for: a refusal, or a reply without items. */
  predicate ReduceFails(s: Settings, reply: Reply, f: Failure) {
    match reply
    case Refused(exn) => f == Refusal(exn)
    case Answer(text, _) => Items(s.cleanLines(text)) == [] && f == NoItems
  }

  /** The distilled items of one completion, of which there must be at least one. */
  method RunReduce(client: Client, s: Settings) returns (r: Result<seq<string>, Failure>, ghost reply: Reply)
    modifies client
    ensures client.Asked(Reduce) == old(client.Asked(Reduce)) + 1
    ensures client.heard == old(client.heard) + [Heard(Reduce, reply)]
    ensures r.Ok? <==> reply.Answer? && exists line :: line in s.cleanLines(reply.text) && line != ""
    ensures r.Ok? ==> r.value == Items(s.cleanLines(reply.text)) && r.value != []
    ensures r.Err? ==> ReduceFails(s, reply, r.error)
    ensures forall role :: role != Reduce ==> client.Asked(role) == old(client.Asked(role))
  {
    var answered := client.Complete(Reduce);
    reply := answered;
    match answered {
      case Refused(exn) =>
        r := Err(Refusal(exn));
      case Answer(text, _) =>
        var items := Items(s.cleanLines(text));
        r := if items == [] then Err(NoItems) else Ok(items);
    }
  }

  /** The only ways for drafting to fail: in the survey, in the reduce step after it, or in the
    * organize step after both. */
  ghost predicate DraftFails(s: Settings, h: seq<Heard>, surveySpent: bool, organizeSpent: bool, f: Failure) {
    || (AllFrom(Survey, h) && SurveyFails(s, h, surveySpent, f))
    || (h != [] && AllFrom(Survey, Init(h)) && Last(h).role == Reduce && ReduceFails(s, Last(h).reply, f))
    || Fails(s, h, organizeSpent, f)
  }

  /** Survey, reduce, organize. Whatever the model answers, one ingest asks it for at most
    * 5M + A + 11 completions, for M tool calls and A attempts. */
  method DraftBatch(client: Client, s: Settings)
    returns (r: Result<seq<PendingNote>, Failure>, downgrades: map<string, seq<string>>,
             ghost calls: seq<Call>, ghost drafted: seq<PendingNote>, ghost attempt: nat,
             ghost surveyed: Budget, ghost organized: Budget)
    requires ValidSettings(s)
    modifies client
    ensures r.Ok? ==> Gated(s, calls, drafted, attempt, r.value, downgrades)
    ensures old(client.heard) <= client.heard
    ensures fresh(surveyed) && Meters(s, client.heard[|old(client.heard)|..], surveyed)
    ensures fresh(organized) && Meters(s, client.heard[|old(client.heard)|..], organized)
    ensures r.Ok? ==> Tried(s, client.heard[|old(client.heard)|..], attempt, calls)
    ensures r.Ok? ==> Came(s, client.heard[|old(client.heard)|..], Ok(drafted))
    ensures r.Err? ==>
      DraftFails(s, client.heard[|old(client.heard)|..], surveyed.tripped, organized.tripped, r.error)
    ensures Total(client) <= old(Total(client)) + 5 * s.maxToolCalls + Attempts(s) + 11
  {
    hide LogOf, CallsIn, Fails, Tried, Came, SurveyFails, ReduceFails, Gated;
    downgrades, calls, drafted, attempt := map[], [], [], 0;
    ghost var h0 := client.heard;
    ghost var status;
    var told;
    told, status, surveyed := RunSurvey(client, s);
    organized := surveyed;
    ghost var h1 := client.heard;
    if told.Err? {
      SpokeSays(Survey, h0, client.heard);
      r := Err(told.error);
      return;
    }
    ghost var reply;
    var reduced;
    reduced, reply := RunReduce(client, s);
    ghost var h := client.heard;
    SurveyThenReduce(h0, h1, h, reply);
    MoreCallsIn(h0, h1, h);
    if reduced.Err? {
      r := Err(reduced.error);
      return;
    }
    r, downgrades, calls, drafted, attempt, organized := OrganizeAndValidate(client, s);
    OthersSpokeFirst(h0, h, client.heard);
    MoreCallsIn(h0, h, client.heard);
    if r.Ok? {
      SameLog(s, h[|h0|..], client.heard[|h|..], attempt, calls, drafted);
    } else {
      SameFailure(s, h[|h0|..], client.heard[|h|..], organized.tripped, r.error);
    }
  }

  lemma SurveyThenReduce(h0: seq<Heard>, h1: seq<Heard>, h: seq<Heard>, reply: Reply)
    requires Spoke(Survey, h0, h1) && h == h1 + [Heard(Reduce, reply)]
    ensures h0 <= h && LogOf(h[|h0|..]) == Log([], [])
    ensures h[|h0|..] != [] && AllFrom(Survey, Init(h[|h0|..])) && Last(h[|h0|..]) == Heard(Reduce, reply)
  {
    assert h[|h0|..] == h1[|h0|..] + [Heard(Reduce, reply)] && Init(h[|h0|..]) == h1[|h0|..];
    OthersLogNothing(h[|h0|..]);
    hide LogOf;
  }

  lemma OthersSpokeFirst(h0: seq<Heard>, h1: seq<Heard>, h: seq<Heard>)
    requires h0 <= h1 <= h
    ensures h[|h0|..] == h1[|h0|..] + h[|h1|..]
  {
  }

  lemma SameLog(s: Settings, a: seq<Heard>, b: seq<Heard>, attempt: nat, calls: seq<Call>, drafted: seq<PendingNote>)
    requires LogOf(a) == Log([], []) && Tried(s, b, attempt, calls) && Came(s, b, Ok(drafted))
    ensures Tried(s, a + b, attempt, calls) && Came(s, a + b, Ok(drafted))
  {
    LogAfterNothing(a, b);
    hide LogOf, TurnedDown, StampedIn, Buffered;
  }

  lemma SameFailure(s: Settings, a: seq<Heard>, b: seq<Heard>, spent: bool, f: Failure)
    requires LogOf(a) == Log([], []) && Fails(s, b, spent, f)
    requires a != [] && Last(a).role != Role.Organize
    ensures Fails(s, a + b, spent, f)
  {
    LogAfterNothing(a, b);
    hide LogOf, TurnedDown, StampedIn, Buffered, BeyondRepair;
    if b == [] {
      assert a + b == a;
    } else {
      assert Last(a + b) == Last(b);
    }
    forall drafted | Came(s, b, Ok(drafted))
      ensures Came(s, a + b, Ok(drafted))
    {
    }
  }

  /** An attempt whose stamped batch the gate accepts is never answered by a failure. */
  lemma AcceptedIsReturned(s: Settings, h: seq<Heard>, spent: bool, drafted: seq<PendingNote>, f: Failure)
    requires Came(s, h, Ok(drafted)) && Verdict(s.c, drafted).None?
    ensures !Fails(s, h, spent, f)
  {
    hide LogOf, Verdict;
    var done := LogOf(h).done;
    assert !TurnedDown(s, done[|done| - 1]);
  }

  // ----- what a returned batch is ---------------------------------------------------

  /** A returned batch is gated as it stands: distinct paths, new exactly where nothing was,
    * never the schema, every note with text and the system's frontmatter. */
  lemma GatedBatch(s: Settings, calls: seq<Call>, drafted: seq<PendingNote>, attempt: nat,
                   batch: seq<PendingNote>, downgrades: map<string, seq<string>>)
    requires ValidSettings(s) && Gated(s, calls, drafted, attempt, batch, downgrades)
    ensures batch != [] && Distinct(PathsOf(batch)) && PathsOf(batch) == PathsOf(drafted)
    ensures forall i :: 0 <= i < |batch| ==> Accepted(s, batch[i])
  {
    hide *;
    KeepsFrontmatter(s, calls, drafted, attempt, batch, downgrades);
    AcceptedByRules(s.c, batch);
    forall i | 0 <= i < |batch|
      ensures Accepted(s, batch[i])
    {
      PassingIsAccepted(s, batch, batch[i]);
    }
  }

  lemma PassingIsAccepted(s: Settings, batch: seq<PendingNote>, n: PendingNote)
    requires NoteRule(s.c, batch, n).None? && StampedText(s, n)
    ensures Accepted(s, n)
  {
    hide Split, DanglingIn;
  }

  predicate Accepted(s: Settings, n: PendingNote) {
    && (n.isNew <==> n.path !in s.c.existing) && Last(Split(n.path, '/')) != "schema.md"
    && StampedText(s, n)
  }

  predicate StampedText(s: Settings, n: PendingNote) {
    n.body.Prose? && n.frontmatter.Some? && Valid(n.frontmatter.value) && n.frontmatter.value.sources == [s.sha]
  }

  lemma DraftIsStamped(s: Settings, calls: seq<Call>, drafted: seq<PendingNote>)
    requires FromAttempt(s, calls, drafted)
    ensures forall i :: 0 <= i < |drafted| ==> StampedText(s, drafted[i])
  {
  }

  /** The repair changes one body and nothing else. */
  lemma RepairKeeps(c: Context, batch: seq<PendingNote>, path: string, after: seq<PendingNote>, stripped: seq<string>)
    requires Repaired(c, batch, path, after, stripped)
    ensures |after| == |batch| && PathsOf(after) == PathsOf(batch)
    ensures forall k :: 0 <= k < |batch| ==>
      after[k] == batch[k].(body := after[k].body) && (batch[k].body.Prose? ==> after[k].body.Prose?)
    ensures forall k :: 0 <= k < |batch| && batch[k].path != path ==> after[k] == batch[k]
  {
  }

  /** Paths and frontmatter of a returned batch are those of the draft. */
  lemma KeepsFrontmatter(s: Settings, calls: seq<Call>, drafted: seq<PendingNote>, attempt: nat,
                         batch: seq<PendingNote>, downgrades: map<string, seq<string>>)
    requires Gated(s, calls, drafted, attempt, batch, downgrades)
    ensures Verdict(s.c, batch).None? && PathsOf(batch) == PathsOf(drafted)
    ensures forall i :: 0 <= i < |batch| ==> StampedText(s, batch[i])
  {
    hide AfterCalls, Verdict, FromAttempt, Repaired;
    DraftIsStamped(s, calls, drafted);
    if !(batch == drafted && downgrades == map[]) {
      var path, stripped :| Verdict(s.c, drafted) == Some(Rejection(LinkIntegrity, path))
        && Repaired(s.c, drafted, path, batch, stripped);
      RepairKeeps(s.c, drafted, path, batch, stripped);
      hide PathsOf;
    }
  }

  /** The repair leaves the rejected note no dangling link if and only if the dangling links
    * that it adds, and that a new fence reveals, are those that one hides. */
  lemma RepairClearsLinks(c: Context, batch: seq<PendingNote>, path: string, after: seq<PendingNote>,
                          stripped: seq<string>, i: nat)
    requires i < |batch| && RepairedAt(c, batch, path, after, stripped, i)
    ensures after[i].body.Prose?
    ensures var body := batch[i].body.text; var wanted := Links.TargetsOf(DanglingIn(c, batch, body));
      DanglingIn(c, after, after[i].body.text) == [] <==>
      multiset(StillDangling(c, batch, LinkExactness.HiddenLinks(body, wanted)))
        == multiset(StillDangling(c, batch, LinkExactness.AddedLinks(body, wanted)))
           + multiset(StillDangling(c, batch, LinkExactness.RevealedLinks(body, wanted)))
  {
    LinkExactness.ClearsExactly(batch[i].body.text, c.existing, ToSet(PathsOf(batch)));
    assert Repaired(c, batch, path, after, stripped);
    RepairKeeps(c, batch, path, after, stripped);
  }

  function StillDangling(c: Context, batch: seq<PendingNote>, links: seq<Links.Link>): seq<Links.Link> {
    Links.Dangling(links, c.existing, ToSet(PathsOf(batch)))
  }
}
