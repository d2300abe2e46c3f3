/** The only tools by which model output becomes a write: calls are metered and buffered. */
module WriteTools {
  import opened Prelude
  import opened Text
  import opened Paths
  import opened Frontmatter
  import opened Budgets

  /** A tool argument as the model sent it. */
  datatype Arg = Absent | Str(s: string) | NotString

  datatype Args = Args(folder: Arg, title: Arg, body: Arg, path: Arg, pattern: Arg)

  datatype Call = Call(id: string, name: string, args: Args)

  datatype Body = Prose(text: string) | NotText

  /** A buffered create or update; the frontmatter is attached later. */
  datatype PendingNote = PendingNote(
    path: string, body: Body, isNew: bool,
    folder: Option<string>, title: Option<string>, frontmatter: Option<NoteFrontmatter>)

  /** What the derivation of a path depends on: the Unicode tables, the file system's view of
    * containment, and the two text heuristics that clean up arguments. */
  datatype Vault = Vault(
    tables: Tables, contained: string -> bool,
    normalizeTitle: string -> string, stripFrontmatter: string -> string)

  function PathsOf(notes: seq<PendingNote>): seq<string> {
    Map((n: PendingNote) => n.path, notes)
  }

  function ToBody(v: Vault, body: Arg): Body {
    if body.Str? then Prose(v.stripFrontmatter(body.s)) else NotText
  }

  /** The vault-relative path a create derives from its folder and title. */
  function CreatePath(v: Vault, folder: Arg, title: Arg): Result<string, Exn> {
    if !title.Str? then Err(Unsafe)
    else
      var stem :- SanitizeTitle(v.tables, v.normalizeTitle(title.s));
      if !folder.Str? then Err(Unsafe)
      else ResolveInVault(v.tables, v.contained, [folder.s, stem + ".md"])
  }

  /** The buffer after a `create_note`: an existing path makes it an update. */
  function WithCreate(v: Vault, existing: set<string>, notes: seq<PendingNote>, args: Args): seq<PendingNote> {
    match CreatePath(v, args.folder, args.title)
    case Err(_) => notes
    case Ok(rel) =>
      if rel in PathsOf(notes) then notes
      else if rel in existing then notes + [PendingNote(rel, ToBody(v, args.body), false, None, None, None)]
      else notes + [PendingNote(rel, ToBody(v, args.body), true, Some(args.folder.s),
                                Some(v.normalizeTitle(args.title.s)), None)]
  }

  /** The buffer after an `update_note`. */
  function WithUpdate(v: Vault, existing: set<string>, notes: seq<PendingNote>, args: Args): seq<PendingNote> {
    if !args.path.Str? then notes
    else
      match ResolveInVault(v.tables, v.contained, [args.path.s])
      case Err(_) => notes
      case Ok(rel) =>
        if rel !in existing || rel in PathsOf(notes) then notes
        else notes + [PendingNote(rel, ToBody(v, args.body), false, None, None, None)]
  }

  /** The buffer after a charged call. A missing argument is an error told to the model. */
  function AfterCall(v: Vault, existing: set<string>, notes: seq<PendingNote>, call: Call): seq<PendingNote> {
    var a := call.args;
    if call.name == "create_note" then
      if a.folder.Absent? || a.title.Absent? || a.body.Absent? then notes else WithCreate(v, existing, notes, a)
    else if call.name == "update_note" then
      if a.path.Absent? || a.body.Absent? then notes else WithUpdate(v, existing, notes, a)
    else notes
  }

  function AfterCalls(v: Vault, existing: set<string>, calls: seq<Call>): seq<PendingNote> {
    if calls == [] then [] else AfterCall(v, existing, AfterCalls(v, existing, Init(calls)), Last(calls))
  }

  class WriteTools {
    const v: Vault
    const existing: set<string>
    const budget: Budget
    var notes: seq<PendingNote>
    /** The calls that were charged. */
    ghost var charged: seq<Call>

    ghost predicate Valid()
      reads this
    {
      notes == AfterCalls(v, existing, charged)
    }

    constructor (v: Vault, existing: set<string>, budget: Budget)
      ensures Valid() && this.v == v && this.existing == existing && this.budget == budget
      ensures notes == [] && charged == []
    {
      this.v, this.existing, this.budget := v, existing, budget;
      notes, charged := [], [];
    }

    method CreateNote(args: Args)
      requires !args.folder.Absent? && !args.title.Absent? && !args.body.Absent?
      modifies `notes
      ensures notes == WithCreate(v, existing, old(notes), args)
    {
      var derived := CreatePath(v, args.folder, args.title);
      if derived.Err? || derived.value in PathsOf(notes) {
        return;
      }
      var body := ToBody(v, args.body);
      if derived.value in existing {
        notes := notes + [PendingNote(derived.value, body, false, None, None, None)];
      } else {
        notes := notes + [PendingNote(derived.value, body, true, Some(args.folder.s),
                                      Some(v.normalizeTitle(args.title.s)), None)];
      }
    }

    method UpdateNote(args: Args)
      requires !args.path.Absent? && !args.body.Absent?
      modifies `notes
      ensures notes == WithUpdate(v, existing, old(notes), args)
    {
      if !args.path.Str? {
        return;
      }
      var rel := ResolveInVault(v.tables, v.contained, [args.path.s]);
      if rel.Err? || rel.value !in existing || rel.value in PathsOf(notes) {
        return;
      }
      notes := notes + [PendingNote(rel.value, ToBody(v, args.body), false, None, None, None)];
    }

    /** Charges the budget and buffers the call, or refuses once the budget is spent. */
    method Dispatch(call: Call)
      requires Valid()
      modifies this, budget
      ensures Valid() && budget.elapsed >= old(budget.elapsed) && (old(budget.Sane()) ==> budget.Sane())
      ensures old(budget.tripped) || old(budget.toolCalls) >= budget.maxToolCalls ==> budget.tripped
      ensures budget.tripped ==> budget.toolCalls == old(budget.toolCalls) && charged == old(charged)
      ensures !budget.tripped ==>
        budget.toolCalls == old(budget.toolCalls) + 1 <= budget.maxToolCalls && charged == old(charged) + [call]
    {
      var spent := budget.Exhausted();
      if spent {
        return;
      }
      budget.RecordToolCall();
      assert Init(charged + [call]) == charged;
      charged := charged + [call];
      var a := call.args;
      if call.name == "create_note" {
        if !a.folder.Absent? && !a.title.Absent? && !a.body.Absent? {
          CreateNote(a);
        }
      } else if call.name == "update_note" {
        if !a.path.Absent? && !a.body.Absent? {
          UpdateNote(a);
        }
      }
    }
  }

  // ----- what every buffer satisfies ------------------------------------------------

  /** A create's path is its folder and sanitized title, both carried along. */
  ghost predicate Derived(v: Vault, n: PendingNote) {
    && n.folder.Some? && n.title.Some? && SafePart(v.tables, n.folder.value)
    && SanitizeTitle(v.tables, n.title.value).Ok?
    && n.path == n.folder.value + "/" + (SanitizeTitle(v.tables, n.title.value).value + ".md")
  }

  ghost predicate WellStaged(v: Vault, existing: set<string>, n: PendingNote) {
    && (n.isNew <==> n.path !in existing)
    && (n.isNew ==> Derived(v, n))
    && ResolveInVault(v.tables, v.contained, [n.path]) == Ok(n.path)
  }

  ghost predicate WellBuffered(v: Vault, existing: set<string>, notes: seq<PendingNote>) {
    && Distinct(PathsOf(notes))
    && forall i :: 0 <= i < |notes| ==> WellStaged(v, existing, notes[i])
  }

  lemma {:induction false} SplitConcat(a: string, b: string, c: char)
    ensures Split(a + [c] + b, c) == Split(a, c) + Split(b, c)
  {
    if a == "" {
      assert a + [c] + b == [c] + b;
    } else {
      assert (a + [c] + b)[1..] == a[1..] + [c] + b;
      SplitConcat(a[1..], b, c);
    }
  }

  lemma JoinTwo(a: string, b: string)
    ensures Join([a, b], "/") == a + "/" + b
  {
  }

  /** A path resolved from two parts resolves to itself as one part. */
  lemma ResolvedPathResolves(v: Vault, folder: string, name: string)
    requires !v.tables.control('/')
    requires ResolveInVault(v.tables, v.contained, [folder, name]).Ok?
    ensures SafePart(v.tables, folder)
    ensures ResolveInVault(v.tables, v.contained, [folder, name]) == Ok(folder + "/" + name)
    ensures ResolveInVault(v.tables, v.contained, [folder + "/" + name]) == Ok(folder + "/" + name)
  {
    hide SafeSegment;
    var path := folder + "/" + name;
    JoinTwo(folder, name);
    assert Join([path], "/") == path;
    assert SafePart(v.tables, [folder, name][0]) && SafePart(v.tables, [folder, name][1]);
    SplitConcat(folder, name, '/');
    assert path == folder + ['/'] + name;
    forall i | 0 <= i < |path|
      ensures (path[i] == '/' || !Forbidden(path[i])) && !v.tables.control(path[i])
    {
      if i < |folder| {
        assert path[i] == folder[i];
      } else if i > |folder| {
        assert path[i] == name[i - |folder| - 1];
      }
    }
  }

  lemma SinglePartResolves(v: Vault, path: string)
    requires ResolveInVault(v.tables, v.contained, [path]).Ok?
    ensures ResolveInVault(v.tables, v.contained, [path]) == Ok(path)
  {
  }

  lemma AppendKeeps(v: Vault, existing: set<string>, notes: seq<PendingNote>, n: PendingNote)
    requires WellBuffered(v, existing, notes) && WellStaged(v, existing, n) && n.path !in PathsOf(notes)
    ensures WellBuffered(v, existing, notes + [n])
  {
  }

  /** A path that a call derives is its entry's own. */
  lemma CreatedIsWellStaged(v: Vault, existing: set<string>, args: Args)
    requires CreatePath(v, args.folder, args.title).Ok? && !v.tables.control('/')
    ensures var rel := CreatePath(v, args.folder, args.title).value;
      if rel in existing then WellStaged(v, existing, PendingNote(rel, ToBody(v, args.body), false, None, None, None))
      else WellStaged(v, existing, PendingNote(rel, ToBody(v, args.body), true, Some(args.folder.s),
                                               Some(v.normalizeTitle(args.title.s)), None))
  {
    hide ResolveInVault, SanitizeTitle, SafePart;
    ResolvedPathResolves(v, args.folder.s, SanitizeTitle(v.tables, v.normalizeTitle(args.title.s)).value + ".md");
  }

  lemma UpdatedIsWellStaged(v: Vault, existing: set<string>, args: Args)
    requires args.path.Str? && ResolveInVault(v.tables, v.contained, [args.path.s]).Ok?
    ensures var rel := ResolveInVault(v.tables, v.contained, [args.path.s]).value;
      rel in existing ==> WellStaged(v, existing, PendingNote(rel, ToBody(v, args.body), false, None, None, None))
  {
    hide ResolveInVault, SafePart;
    SinglePartResolves(v, args.path.s);
  }

  lemma CallKeeps(v: Vault, existing: set<string>, notes: seq<PendingNote>, call: Call)
    requires WellBuffered(v, existing, notes) && !v.tables.control('/')
    ensures WellBuffered(v, existing, AfterCall(v, existing, notes, call))
    ensures |AfterCall(v, existing, notes, call)| <= |notes| + 1
  {
    hide ResolveInVault, CreatePath, PathsOf, WellStaged, WellBuffered;
    var a := call.args;
    if CreatePath(v, a.folder, a.title).Ok? {
      CreatedIsWellStaged(v, existing, a);
    }
    if a.path.Str? && ResolveInVault(v.tables, v.contained, [a.path.s]).Ok? {
      UpdatedIsWellStaged(v, existing, a);
    }
    var after := AfterCall(v, existing, notes, call);
    if after != notes {
      AppendKeeps(v, existing, notes, Last(after));
    }
  }

  /** For every sequence of tool calls: paths are distinct, an entry is new exactly when its
    * path does not exist, and every create path is the one its folder and title derive. */
  lemma {:induction false} EveryBufferIsWellBuffered(v: Vault, existing: set<string>, calls: seq<Call>)
    requires !v.tables.control('/')
    ensures WellBuffered(v, existing, AfterCalls(v, existing, calls))
    ensures |AfterCalls(v, existing, calls)| <= |calls|
  {
    if calls == [] {
    } else {
      EveryBufferIsWellBuffered(v, existing, Init(calls));
      CallKeeps(v, existing, AfterCalls(v, existing, Init(calls)), Last(calls));
    }
  }

  // ----- what every buffer holds ----------------------------------------------------

  /** The path that a complete call writes to, if any: the one a create derives from its folder
    * and its cleaned title, or that of a note that exists. */
  function Target(v: Vault, existing: set<string>, call: Call): Option<string> {
    var a := call.args;
    if call.name == "create_note" && a.folder.Str? && a.title.Str? && !a.body.Absent? then
      match SanitizeTitle(v.tables, v.normalizeTitle(a.title.s))
      case Err(_) => None
      case Ok(stem) => Resolved(v, [a.folder.s, stem + ".md"])
    else if call.name == "update_note" && a.path.Str? && !a.body.Absent? then
      var path := Resolved(v, [a.path.s]);
      if path.Some? && path.value in existing then path else None
    else None
  }

  function Resolved(v: Vault, parts: seq<string>): Option<string> {
    match ResolveInVault(v.tables, v.contained, parts)
    case Ok(path) => Some(path)
    case Err(_) => None
  }

  /** What such a call asks to be written: its own body, cleaned; a create of a new note also
    * carries its folder and title. */
  predicate Writes(v: Vault, existing: set<string>, call: Call, n: PendingNote) {
    var a := call.args;
    && Target(v, existing, call) == Some(n.path)
    && n.body == (if a.body.Str? then Prose(v.stripFrontmatter(a.body.s)) else NotText)
    && n.isNew == (n.path !in existing) && n.frontmatter.None?
    && (if n.isNew then a.folder.Str? && a.title.Str? && n.folder == Some(a.folder.s)
                        && n.title == Some(v.normalizeTitle(a.title.s))
        else n.folder.None? && n.title.None?)
  }

  /** No call before this one writes to the same path. */
  predicate IsFirst(v: Vault, existing: set<string>, calls: seq<Call>, i: nat)
    requires i < |calls|
  {
    Target(v, existing, calls[i]).Some?
    && forall j :: 0 <= j < i ==> Target(v, existing, calls[j]) != Target(v, existing, calls[i])
  }

  /** A call that writes to a path not yet buffered adds its entry; any other adds nothing. */
  lemma CallAdds(v: Vault, existing: set<string>, notes: seq<PendingNote>, call: Call)
    ensures var after := AfterCall(v, existing, notes, call); var path := Target(v, existing, call);
      if path.None? || path.value in PathsOf(notes) then after == notes
      else |after| == |notes| + 1 && Init(after) == notes && Writes(v, existing, call, Last(after))
  {
    hide SanitizeTitle, ResolveInVault, PathsOf;
  }

  lemma PathsGrow(notes: seq<PendingNote>, n: PendingNote)
    ensures ToSet(PathsOf(notes + [n])) == ToSet(PathsOf(notes)) + {n.path}
  {
    MapConcat((m: PendingNote) => m.path, notes, [n]);
    assert PathsOf([n]) == [n.path];
    assert PathsOf(notes + [n]) == PathsOf(notes) + [n.path];
    ToSetAppend(PathsOf(notes), n.path);
  }

  /** A path is in the buffer if and only if some call writes to it. */
  lemma {:induction false} BufferedExactly(v: Vault, existing: set<string>, calls: seq<Call>, path: string)
    ensures path in PathsOf(AfterCalls(v, existing, calls)) <==>
      exists i :: 0 <= i < |calls| && Target(v, existing, calls[i]) == Some(path)
  {
    hide AfterCall, PathsOf, Target, Writes;
    if calls == [] {
      NoPaths();
    } else {
      var before, last := AfterCalls(v, existing, Init(calls)), Last(calls);
      BufferedExactly(v, existing, Init(calls), path);
      CallAdds(v, existing, before, last);
      var after := AfterCall(v, existing, before, last);
      if after != before {
        PathsGrow(before, Last(after));
        WritesThere(v, existing, last, Last(after));
        assert after == before + [Last(after)];
      }
      assert path in ToSet(PathsOf(after)) <==> path in PathsOf(after);
      assert path in ToSet(PathsOf(before)) <==> path in PathsOf(before);
      assert forall i :: 0 <= i < |Init(calls)| ==> Init(calls)[i] == calls[i];
      assert calls[|calls| - 1] == last;
    }
  }

  lemma NoPaths()
    ensures PathsOf([]) == []
  {
  }

  lemma WritesThere(v: Vault, existing: set<string>, call: Call, n: PendingNote)
    requires Writes(v, existing, call, n)
    ensures Target(v, existing, call) == Some(n.path)
  {
  }

  /** For every sequence of calls the buffer holds, in the order of the calls, one entry for
    * each call that is the first to write to its path, and it is what that call asks for. */
  lemma {:induction false} BufferHoldsTheFirsts(v: Vault, existing: set<string>, calls: seq<Call>)
    returns (at: seq<nat>)
    ensures |at| == |AfterCalls(v, existing, calls)|
    ensures forall k :: 0 <= k < |at| ==> at[k] < |calls| && IsFirst(v, existing, calls, at[k])
    ensures forall k :: 0 <= k < |at| ==> Writes(v, existing, calls[at[k]], AfterCalls(v, existing, calls)[k])
    ensures forall j, k :: 0 <= j < k < |at| ==> at[j] < at[k]
    ensures forall i :: 0 <= i < |calls| && IsFirst(v, existing, calls, i) ==> i in at
  {
    hide AfterCall, PathsOf, Target, Writes;
    if calls == [] {
      at := [];
    } else {
      var before, last := AfterCalls(v, existing, Init(calls)), Last(calls);
      var n := |calls| - 1;
      at := BufferHoldsTheFirsts(v, existing, Init(calls));
      CallAdds(v, existing, before, last);
      assert forall i :: 0 <= i < n ==> IsFirst(v, existing, calls, i) == IsFirst(v, existing, Init(calls), i);
      if Target(v, existing, last).Some? {
        BufferedExactly(v, existing, Init(calls), Target(v, existing, last).value);
      }
      if IsFirst(v, existing, calls, n) {
        at := at + [n];
      }
    }
  }
}
