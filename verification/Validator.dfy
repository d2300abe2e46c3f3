/** The gate between model output and the repository: the first violation rejects the batch. */
module Validator {
  import opened Prelude
  import opened Text
  import opened Paths
  import opened Frontmatter
  import opened WriteTools
  import Links
  import LinkScanner
  import Utf8

  /** The checks, in the order they are made. */
  datatype Rule =
    | EmptyBatch | NoteCount | DuplicatePath                       // per batch
    | BodyType | NoteSubstance | Containment                       // per note
    | PathSuffix | PathSchema | PathRoot | StemUnsafe | StemUnsanitized
    | Collision | MissingTarget
    | CreateFields | UndeclaredFolder | TitleUnsafe | PathMismatch // creates only
    | NoFrontmatter | NoteSize | LinkIntegrity

  datatype Rejection = Rejection(rule: Rule, path: string)

  datatype Limits = Limits(maxNotes: int, maxNoteBytes: int)

  /** What a batch is checked against. `substantial` is the body-substance heuristic. */
  datatype Context = Context(
    v: Vault, folders: seq<string>, limits: Limits, existing: set<string>, y: TitleCodec,
    substantial: string -> bool)

  function LinksOf(text: string): seq<Links.Link> { Links.ExtractedLinks(text) }

  function DanglingIn(c: Context, batch: seq<PendingNote>, text: string): seq<Links.Link> {
    Links.Dangling(LinksOf(text), c.existing, ToSet(PathsOf(batch)))
  }

  /** The first path staged twice, if any. */
  function FirstDuplicate(paths: seq<string>, seen: set<string>): Option<string> {
    if paths == [] then None
    else if paths[0] in seen then Some(paths[0])
    else FirstDuplicate(paths[1..], seen + {paths[0]})
  }

  function BatchRejection(c: Context, batch: seq<PendingNote>): Option<Rejection> {
    if batch == [] then Some(Rejection(EmptyBatch, "<batch>"))
    else if |batch| > c.limits.maxNotes then Some(Rejection(NoteCount, "<batch>"))
    else match FirstDuplicate(PathsOf(batch), {})
      case Some(path) => Some(Rejection(DuplicatePath, path))
      case None => None
  }

  function FirstSegment(path: string): string { Split(path, '/')[0] }

  function PathShapeRule(c: Context, path: string): Option<Rule> {
    var name := Last(Split(path, '/'));
    var first := FirstSegment(path);
    if !EndsWith(name, ".md") then Some(PathSuffix)
    else if name == "schema.md" then Some(PathSchema)
    else if first == "external" || first == ".git" || (StartsWith(first, ".") && first != path) then Some(PathRoot)
    else
      match SanitizeTitle(c.v.tables, name[..|name| - 3])
      case Err(_) => Some(StemUnsafe)
      case Ok(safe) => if safe != name[..|name| - 3] then Some(StemUnsanitized) else None
  }

  /** The path a create must have, re-derived from its folder and title. */
  function ExpectedPath(folder: string, stem: string): string {
    if folder == "" then stem + ".md" else StripSlashes(folder) + "/" + (stem + ".md")
  }

  function CreateRule(c: Context, n: PendingNote): Option<Rule> {
    if n.folder.None? || n.title.None? then Some(CreateFields)
    else if n.folder.value !in c.folders then Some(UndeclaredFolder)
    else
      match SanitizeTitle(c.v.tables, n.title.value)
      case Err(_) => Some(TitleUnsafe)
      case Ok(stem) => if n.path != ExpectedPath(n.folder.value, stem) then Some(PathMismatch) else None
  }

  function NoteBytes(c: Context, n: PendingNote): nat
    requires n.frontmatter.Some? && Valid(n.frontmatter.value) && n.body.Prose?
  {
    |Utf8.Encode(RenderNote(c.y, Note(n.path, n.frontmatter.value, n.body.text)))|
  }

  /** The first check a note fails, if any. */
  function NoteRule(c: Context, batch: seq<PendingNote>, n: PendingNote): Option<Rule> {
    if n.body.NotText? then Some(BodyType)
    else if !c.substantial(n.body.text) then Some(NoteSubstance)
    else if ResolveInVault(c.v.tables, c.v.contained, [n.path]).Err? then Some(Containment)
    else if PathShapeRule(c, n.path).Some? then PathShapeRule(c, n.path)
    else if n.isNew && n.path in c.existing then Some(Collision)
    else if !n.isNew && n.path !in c.existing then Some(MissingTarget)
    else if n.isNew && CreateRule(c, n).Some? then CreateRule(c, n)
    else if n.frontmatter.None? || !Valid(n.frontmatter.value) then Some(NoFrontmatter)
    else if NoteBytes(c, n) > c.limits.maxNoteBytes then Some(NoteSize)
    else if DanglingIn(c, batch, n.body.text) != [] then Some(LinkIntegrity)
    else None
  }

  function NotesRejection(c: Context, batch: seq<PendingNote>, notes: seq<PendingNote>): Option<Rejection> {
    if notes == [] then None
    else match NoteRule(c, batch, notes[0])
      case Some(rule) => Some(Rejection(rule, notes[0].path))
      case None => NotesRejection(c, batch, notes[1..])
  }

  /** The rejection of a batch; None accepts it. */
  function Verdict(c: Context, batch: seq<PendingNote>): Option<Rejection> {
    match BatchRejection(c, batch)
    case Some(rejection) => Some(rejection)
    case None => NotesRejection(c, batch, batch)
  }

  method CheckBatch(c: Context, batch: seq<PendingNote>) returns (r: Option<Rejection>)
    ensures r == BatchRejection(c, batch)
  {
    if |batch| == 0 {
      return Some(Rejection(EmptyBatch, "<batch>"));
    }
    if |batch| > c.limits.maxNotes {
      return Some(Rejection(NoteCount, "<batch>"));
    }
    var paths := PathsOf(batch);
    var seen: set<string> := {};
    for i := 0 to |paths|
      invariant FirstDuplicate(paths[i..], seen) == FirstDuplicate(paths, {})
    {
      assert paths[i..][0] == paths[i] && paths[i..][1..] == paths[i + 1..];
      if paths[i] in seen {
        return Some(Rejection(DuplicatePath, paths[i]));
      }
      seen := seen + {paths[i]};
    }
    r := None;
  }

  method CheckLinks(c: Context, batch: seq<PendingNote>, text: string) returns (dangling: seq<Links.Link>)
    ensures dangling == DanglingIn(c, batch, text)
  {
    var links := LinkScanner.ExtractLinks(text);
    dangling := LinkScanner.CheckLinks(links, c.existing, ToSet(PathsOf(batch)));
  }

  method Validate(c: Context, batch: seq<PendingNote>) returns (r: Option<Rejection>)
    ensures r == Verdict(c, batch)
    ensures r.None? <==> Acceptable(c, batch)
    ensures r.Some? ==> IsFirstRejection(c, batch, r.value)
  {
    AcceptedExactly(c, batch);
    hide Acceptable, IsFirstRejection, NoteRule;
    r := CheckBatch(c, batch);
    if r.Some? {
      return;
    }
    for i := 0 to |batch|
      invariant NotesRejection(c, batch, batch[i..]) == Verdict(c, batch)
    {
      assert batch[i..][0] == batch[i] && batch[i..][1..] == batch[i + 1..];
      var rule := NoteRule(c, batch, batch[i]);
      if rule.Some? {
        return Some(Rejection(rule.value, batch[i].path));
      }
    }
    r := None;
  }

  // ----- what acceptance means ------------------------------------------------------

  lemma {:induction false} FirstDuplicateNone(paths: seq<string>, seen: set<string>)
    ensures FirstDuplicate(paths, seen).None? <==> Distinct(paths) && forall p :: p in paths ==> p !in seen
  {
    if paths == [] {
    } else {
      var rest := paths[1..];
      FirstDuplicateNone(rest, seen + {paths[0]});
      assert paths == [paths[0]] + rest;
      if FirstDuplicate(paths, seen).None? {
        forall i, j | 0 <= i < j < |paths|
          ensures paths[i] != paths[j]
        {
          assert paths[j] == rest[j - 1];
          if i > 0 {
            assert paths[i] == rest[i - 1];
          }
        }
      } else if Distinct(paths) {
        forall i, j | 0 <= i < j < |rest|
          ensures rest[i] != rest[j]
        {
          assert rest[i] == paths[i + 1] && rest[j] == paths[j + 1];
        }
        forall p | p in rest
          ensures p != paths[0]
        {
          var j :| 0 <= j < |rest| && rest[j] == p;
          assert paths[j + 1] == p;
        }
      }
    }
  }

  lemma {:induction false} NotesRejectionNone(c: Context, batch: seq<PendingNote>, notes: seq<PendingNote>)
    ensures NotesRejection(c, batch, notes).None? <==>
      forall i :: 0 <= i < |notes| ==> NoteRule(c, batch, notes[i]).None?
    ensures NotesRejection(c, batch, notes).Some? ==>
      exists i :: 0 <= i < |notes| && NotesRejection(c, batch, notes) == RejectionOf(c, batch, notes[i])
  {
    hide NoteRule, RejectionOf;
    if notes == [] {
    } else {
      var rest := notes[1..];
      NotesRejectionNone(c, batch, rest);
      FirstRejection(c, batch, notes);
      assert forall i :: 0 <= i < |rest| ==> rest[i] == notes[i + 1];
      if NoteRule(c, batch, notes[0]).None? {
        if NotesRejection(c, batch, rest).Some? {
          var i :| 0 <= i < |rest| && NotesRejection(c, batch, rest) == RejectionOf(c, batch, rest[i]);
          assert NotesRejection(c, batch, notes) == RejectionOf(c, batch, notes[i + 1]);
        }
      }
      assert forall i :: 1 <= i < |notes| ==> notes[i] == rest[i - 1];
    }
  }

  lemma FirstRejection(c: Context, batch: seq<PendingNote>, notes: seq<PendingNote>)
    requires notes != []
    ensures NotesRejection(c, batch, notes) ==
      if NoteRule(c, batch, notes[0]).Some? then RejectionOf(c, batch, notes[0])
      else NotesRejection(c, batch, notes[1..])
    ensures NoteRule(c, batch, notes[0]).Some? <==> RejectionOf(c, batch, notes[0]).Some?
  {
    hide NoteRule;
  }

  function RejectionOf(c: Context, batch: seq<PendingNote>, n: PendingNote): Option<Rejection> {
    match NoteRule(c, batch, n)
    case Some(rule) => Some(Rejection(rule, n.path))
    case None => None
  }

  lemma AcceptedByRules(c: Context, batch: seq<PendingNote>)
    ensures Verdict(c, batch).None? <==>
      && batch != [] && |batch| <= c.limits.maxNotes && Distinct(PathsOf(batch))
      && forall i :: 0 <= i < |batch| ==> NoteRule(c, batch, batch[i]).None?
  {
    FirstDuplicateNone(PathsOf(batch), {});
    NotesRejectionNone(c, batch, batch);
  }

  // ----- the checks, each by itself ---------------------------------------------------

  /** A link may say the path of an existing or staged note, or its last part, without ".md". */
  ghost predicate Answers(c: Context, batch: seq<PendingNote>, target: string) {
    exists path :: (path in c.existing || path in PathsOf(batch))
      && (target == Links.Stem(path) || target == Links.BaseName(Links.Stem(path)))
  }

  function FileName(path: string): string { Last(Split(path, '/')) }

  /** What one check objects to, whatever the others say of the note. */
  ghost predicate Violates(c: Context, batch: seq<PendingNote>, n: PendingNote, rule: Rule) {
    var name, first := FileName(n.path), FirstSegment(n.path);
    match rule
    case BodyType => !n.body.Prose?
    case NoteSubstance => n.body.Prose? && !c.substantial(n.body.text)
    case Containment => ResolveInVault(c.v.tables, c.v.contained, [n.path]).Err?
    case PathSuffix => !EndsWith(name, ".md")
    case PathSchema => name == "schema.md"
    case PathRoot => first == "external" || first == ".git" || (StartsWith(first, ".") && first != n.path)
    case StemUnsafe => |name| >= 3 && SanitizeTitle(c.v.tables, name[..|name| - 3]).Err?
    case StemUnsanitized =>
      |name| >= 3 && SanitizeTitle(c.v.tables, name[..|name| - 3]).Ok?
      && SanitizeTitle(c.v.tables, name[..|name| - 3]).value != name[..|name| - 3]
    case Collision => n.isNew && n.path in c.existing
    case MissingTarget => !n.isNew && n.path !in c.existing
    case CreateFields => n.isNew && (n.folder.None? || n.title.None?)
    case UndeclaredFolder => n.isNew && n.folder.Some? && n.folder.value !in c.folders
    case TitleUnsafe => n.isNew && n.title.Some? && SanitizeTitle(c.v.tables, n.title.value).Err?
    case PathMismatch =>
      n.isNew && n.folder.Some? && n.title.Some? && SanitizeTitle(c.v.tables, n.title.value).Ok?
      && var file := SanitizeTitle(c.v.tables, n.title.value).value + ".md";
         n.path != (if n.folder.value == "" then file else StripSlashes(n.folder.value) + "/" + file)
    case NoFrontmatter => n.frontmatter.None? || !Valid(n.frontmatter.value)
    case NoteSize =>
      n.body.Prose? && n.frontmatter.Some? && Valid(n.frontmatter.value)
      && |Utf8.Encode(RenderNote(c.y, Note(n.path, n.frontmatter.value, n.body.text)))| > c.limits.maxNoteBytes
    case LinkIntegrity =>
      n.body.Prose? && exists l :: l in Links.ExtractedLinks(n.body.text) && !Answers(c, batch, l.target)
    case _ => false
  }

  /** A note that no check objects to. */
  ghost predicate Passes(c: Context, batch: seq<PendingNote>, n: PendingNote) {
    && n.body.Prose? && c.substantial(n.body.text)
    && ResolveInVault(c.v.tables, c.v.contained, [n.path]).Ok?
    && EndsWith(FileName(n.path), ".md") && FileName(n.path) != "schema.md"
    && FirstSegment(n.path) !in ["external", ".git"]
    && (StartsWith(FirstSegment(n.path), ".") ==> FirstSegment(n.path) == n.path)
    && SanitizeTitle(c.v.tables, FileName(n.path)[..|FileName(n.path)| - 3])
       == Ok(FileName(n.path)[..|FileName(n.path)| - 3])
    && (n.isNew <==> n.path !in c.existing)
    && (n.isNew ==>
          n.folder.Some? && n.title.Some? && n.folder.value in c.folders
          && SanitizeTitle(c.v.tables, n.title.value).Ok?
          && var file := SanitizeTitle(c.v.tables, n.title.value).value + ".md";
             n.path == (if n.folder.value == "" then file else StripSlashes(n.folder.value) + "/" + file))
    && n.frontmatter.Some? && Valid(n.frontmatter.value)
    && |Utf8.Encode(RenderNote(c.y, Note(n.path, n.frontmatter.value, n.body.text)))| <= c.limits.maxNoteBytes
    && forall l :: l in Links.ExtractedLinks(n.body.text) ==> Answers(c, batch, l.target)
  }

  /** The checks are made in this order. */
  function Order(rule: Rule): nat {
    match rule
    case EmptyBatch => 0
    case NoteCount => 1
    case DuplicatePath => 2
    case BodyType => 3
    case NoteSubstance => 4
    case Containment => 5
    case PathSuffix => 6
    case PathSchema => 7
    case PathRoot => 8
    case StemUnsafe => 9
    case StemUnsanitized => 10
    case Collision => 11
    case MissingTarget => 12
    case CreateFields => 13
    case UndeclaredFolder => 14
    case TitleUnsafe => 15
    case PathMismatch => 16
    case NoFrontmatter => 17
    case NoteSize => 18
    case LinkIntegrity => 19
  }

  /** The first check that objects to the note. */
  ghost predicate IsFirstViolation(c: Context, batch: seq<PendingNote>, n: PendingNote, rule: Rule) {
    Violates(c, batch, n, rule) && forall other :: Order(other) < Order(rule) ==> !Violates(c, batch, n, other)
  }

  lemma KeysAnswer(c: Context, batch: seq<PendingNote>, link: Links.Link)
    ensures Links.Resolves(link, c.existing, ToSet(PathsOf(batch))) <==> Answers(c, batch, link.target)
  {
    hide PathsOf, Links.Stem, Links.BaseName;
    if Links.Resolves(link, c.existing, ToSet(PathsOf(batch))) {
      var path :| path in c.existing + ToSet(PathsOf(batch))
        && (link.target == Links.Stem(path) || link.target == Links.BaseName(Links.Stem(path)));
    }
  }

  lemma {:induction false} DanglingMeans(c: Context, batch: seq<PendingNote>, links: seq<Links.Link>)
    ensures Links.Dangling(links, c.existing, ToSet(PathsOf(batch))) == [] <==>
            forall l :: l in links ==> Answers(c, batch, l.target)
  {
    hide Answers, Links.Resolves, PathsOf;
    if links == [] {
    } else {
      DanglingMeans(c, batch, links[1..]);
      KeysAnswer(c, batch, links[0]);
      assert links == [links[0]] + links[1..];
    }
  }

  /** The first check a note fails is the one the gate names. */
  lemma NoteRuleIsFirst(c: Context, batch: seq<PendingNote>, n: PendingNote)
    ensures NoteRule(c, batch, n).Some? ==> IsFirstViolation(c, batch, n, NoteRule(c, batch, n).value)
    ensures NoteRule(c, batch, n).None? <==> Passes(c, batch, n)
  {
    hide *;
    PassesNoRule(c, batch, n);
    if NoteRule(c, batch, n).Some? {
      NamesFirst(c, batch, n);
    }
  }

  lemma PassesNoRule(c: Context, batch: seq<PendingNote>, n: PendingNote)
    ensures NoteRule(c, batch, n).None? <==> Passes(c, batch, n)
  {
    hide Answers, DanglingIn, SanitizeTitle, ResolveInVault, RenderNote, Valid, Split, StripSlashes,
      Links.ExtractedLinks, Links.Dangling, Utf8.Encode;
    if n.body.Prose? {
      DanglingMeans(c, batch, Links.ExtractedLinks(n.body.text));
      DanglingIs(c, batch, n.body.text);
    }
  }

  lemma NamesFirst(c: Context, batch: seq<PendingNote>, n: PendingNote)
    requires NoteRule(c, batch, n).Some?
    ensures IsFirstViolation(c, batch, n, NoteRule(c, batch, n).value)
  {
    hide NoteRule, Violates, Order;
    NamesViolation(c, batch, n);
    forall other | Order(other) < Order(NoteRule(c, batch, n).value)
      ensures !Violates(c, batch, n, other)
    {
      NothingBefore(c, batch, n, other);
    }
  }

  lemma NamesViolation(c: Context, batch: seq<PendingNote>, n: PendingNote)
    requires NoteRule(c, batch, n).Some?
    ensures Violates(c, batch, n, NoteRule(c, batch, n).value)
  {
    hide Answers, DanglingIn, SanitizeTitle, ResolveInVault, RenderNote, Valid, Split, StripSlashes,
      Links.ExtractedLinks, Links.Dangling, Utf8.Encode, ToSet, PathsOf;
    if n.body.Prose? {
      DanglingMeans(c, batch, Links.ExtractedLinks(n.body.text));
      DanglingIs(c, batch, n.body.text);
    }
  }

  lemma NothingBefore(c: Context, batch: seq<PendingNote>, n: PendingNote, other: Rule)
    requires NoteRule(c, batch, n).Some? && Order(other) < Order(NoteRule(c, batch, n).value)
    ensures !Violates(c, batch, n, other)
  {
    hide Answers, DanglingIn, SanitizeTitle, ResolveInVault, RenderNote, Valid, Split, StripSlashes,
      Links.ExtractedLinks, Links.Dangling, Utf8.Encode;
    if n.body.Prose? {
      DanglingMeans(c, batch, Links.ExtractedLinks(n.body.text));
      DanglingIs(c, batch, n.body.text);
    }
  }

  lemma DanglingIs(c: Context, batch: seq<PendingNote>, text: string)
    ensures DanglingIn(c, batch, text) == Links.Dangling(Links.ExtractedLinks(text), c.existing, ToSet(PathsOf(batch)))
  {
  }

  ghost predicate Acceptable(c: Context, batch: seq<PendingNote>) {
    && batch != [] && |batch| <= c.limits.maxNotes && Distinct(PathsOf(batch))
    && forall i :: 0 <= i < |batch| ==> Passes(c, batch, batch[i])
  }

  /** The first violation of a batch: its size, its first repeated path, or the first check that
    * the first note to fail one fails. */
  ghost predicate IsFirstRejection(c: Context, batch: seq<PendingNote>, r: Rejection) {
    match r.rule
    case EmptyBatch => batch == [] && r.path == "<batch>"
    case NoteCount => batch != [] && |batch| > c.limits.maxNotes && r.path == "<batch>"
    case DuplicatePath =>
      && batch != [] && |batch| <= c.limits.maxNotes
      && exists j :: 0 <= j < |batch| && RepeatsAt(PathsOf(batch), j, r.path)
    case _ =>
      && batch != [] && |batch| <= c.limits.maxNotes && Distinct(PathsOf(batch))
      && exists i :: 0 <= i < |batch| && FailsAt(c, batch, i, r)
  }

  predicate RepeatsAt(paths: seq<string>, j: nat, path: string)
    requires j < |paths|
  {
    paths[j] == path && path in paths[..j] && Distinct(paths[..j])
  }

  ghost predicate FailsAt(c: Context, batch: seq<PendingNote>, i: nat, r: Rejection)
    requires i < |batch|
  {
    && batch[i].path == r.path && IsFirstViolation(c, batch, batch[i], r.rule)
    && forall j :: 0 <= j < i ==> Passes(c, batch, batch[j])
  }

  /** A batch is accepted exactly when no check objects, and otherwise the gate names the first
    * violation. */
  lemma AcceptedExactly(c: Context, batch: seq<PendingNote>)
    ensures Verdict(c, batch).None? <==> Acceptable(c, batch)
    ensures Verdict(c, batch).Some? ==> IsFirstRejection(c, batch, Verdict(c, batch).value)
  {
    hide NoteRule, Passes, IsFirstViolation, Violates;
    AcceptedByRules(c, batch);
    forall n
      ensures NoteRule(c, batch, n).None? <==> Passes(c, batch, n)
    {
      NoteRuleIsFirst(c, batch, n);
    }
    if Verdict(c, batch).Some? {
      if BatchRejection(c, batch).Some? {
        BatchRejectionIsFirst(c, batch);
      } else {
        FirstDuplicateNone(PathsOf(batch), {});
        NotesRejectionIsFirst(c, batch, 0);
      }
    }
  }

  lemma BatchRejectionIsFirst(c: Context, batch: seq<PendingNote>)
    requires BatchRejection(c, batch).Some?
    ensures IsFirstRejection(c, batch, BatchRejection(c, batch).value)
  {
    hide FailsAt;
    if batch != [] && |batch| <= c.limits.maxNotes {
      var path := FirstDuplicate(PathsOf(batch), {}).value;
      assert PathsOf(batch)[..0] == [] && PathsOf(batch)[0..] == PathsOf(batch) && ToSet<string>([]) == {};
      var j := DuplicateIsFirst(PathsOf(batch), 0);
      assert RepeatsAt(PathsOf(batch), j, path);
    }
  }

  lemma {:induction false} DuplicateIsFirst(paths: seq<string>, i: nat) returns (j: nat)
    requires i <= |paths| && Distinct(paths[..i])
    requires FirstDuplicate(paths[i..], ToSet(paths[..i])).Some?
    ensures j < |paths| && RepeatsAt(paths, j, FirstDuplicate(paths[i..], ToSet(paths[..i])).value)
    decreases |paths| - i
  {
    assert paths[i..][0] == paths[i] && paths[i..][1..] == paths[i + 1..];
    if paths[i] in ToSet(paths[..i]) {
      j := i;
    } else {
      assert paths[..i + 1] == paths[..i] + [paths[i]];
      ToSetAppend(paths[..i], paths[i]);
      j := DuplicateIsFirst(paths, i + 1);
    }
  }

  lemma {:induction false} NotesRejectionIsFirst(c: Context, batch: seq<PendingNote>, i: nat)
    requires i <= |batch| && NotesRejection(c, batch, batch[i..]).Some? && BatchRejection(c, batch).None?
    requires Distinct(PathsOf(batch))
    requires forall j :: 0 <= j < i ==> Passes(c, batch, batch[j])
    ensures IsFirstRejection(c, batch, NotesRejection(c, batch, batch[i..]).value)
    decreases |batch| - i
  {
    hide NoteRule, Passes, PathsOf, Violates;
    assert batch[i..][0] == batch[i] && batch[i..][1..] == batch[i + 1..];
    NoteRuleIsFirst(c, batch, batch[i]);
    if NoteRule(c, batch, batch[i]).Some? {
      var r := NotesRejection(c, batch, batch[i..]).value;
      assert FailsAt(c, batch, i, r);
      PerNote(c, batch, batch[i], r.rule);
    } else {
      NotesRejectionIsFirst(c, batch, i + 1);
    }
  }

  lemma PerNote(c: Context, batch: seq<PendingNote>, n: PendingNote, rule: Rule)
    requires IsFirstViolation(c, batch, n, rule)
    ensures !rule.EmptyBatch? && !rule.NoteCount? && !rule.DuplicatePath?
  {
    hide Answers, SanitizeTitle, ResolveInVault, RenderNote, Valid, Split, StripSlashes;
  }

  // ----- rules that can no longer fire ----------------------------------------------

  /** The rules left for a batch that came out of the write tools and was stamped. */
  predicate Alive(rule: Rule, isNew: bool) {
    || rule == NoteCount
    || rule == NoteSubstance || rule == PathSchema || rule == PathRoot || rule == NoteSize || rule == LinkIntegrity
    || (isNew && rule == UndeclaredFolder)
    || (!isNew && (rule == StemUnsafe || rule == StemUnsanitized))
  }

  /** `stamped` is `n` with valid frontmatter, and its body has been seen to be text. */
  predicate StampOf(n: PendingNote, stamped: PendingNote) {
    && stamped.frontmatter.Some? && Valid(stamped.frontmatter.value) && stamped.body.Prose?
    && n.path == stamped.path && n.isNew == stamped.isNew && n.folder == stamped.folder && n.title == stamped.title
  }

  lemma SafePartLastSegment(folder: string, name: string)
    requires '/' !in name
    ensures Last(Split(folder + "/" + name, '/')) == name
  {
    SplitConcat(folder, name, '/');
    SplitFree(name, '/');
    assert folder + "/" + name == folder + ['/'] + name;
  }

  lemma StemHasNoSlash(v: Vault, title: string)
    requires SanitizeTitle(v.tables, title).Ok? && LawfulTitle(v.tables, title)
    ensures '/' !in SanitizeTitle(v.tables, title).value
  {
    var n := v.tables.nfc(title);
    assert SafeChars(v.tables, n);
    if |Utf8.Encode(n)| > MAX_STEM_BYTES {
      TruncatedIsPrefix(n);
      assert forall i :: 0 <= i < |Truncated(n)| ==> Truncated(n)[i] == n[i];
      assert forall i :: 0 <= i < |v.tables.digest(n)| ==> HexChar(v.tables.digest(n)[i]);
    }
  }

  /** A created note passes the path, derivation and already-sanitized checks. */
  lemma CreatePassesShape(c: Context, n: PendingNote)
    requires Derived(c.v, n) && LawfulTitle(c.v.tables, n.title.value)
    ensures PathShapeRule(c, n.path).None? || PathShapeRule(c, n.path) == Some(PathSchema)
         || PathShapeRule(c, n.path) == Some(PathRoot)
    ensures CreateRule(c, n).None? || CreateRule(c, n) == Some(UndeclaredFolder)
  {
    var stem := SanitizeTitle(c.v.tables, n.title.value).value;
    SanitizeIsIdempotent(c.v.tables, n.title.value);
    StemHasNoSlash(c.v, n.title.value);
    SafePartLastSegment(n.folder.value, stem + ".md");
    SafePartHasBareEnds(c.v.tables, n.folder.value);
    hide SanitizeTitle, SafePart, StripSlashes;
    assert (stem + ".md")[..|stem + ".md"| - 3] == stem;
    assert EndsWith(stem + ".md", ".md");
  }

  lemma {:induction false} LastSegmentSuffix(path: string, suffix: string)
    requires '/' !in suffix && EndsWith(path, suffix)
    ensures EndsWith(Last(Split(path, '/')), suffix)
  {
    if |path| == |suffix| {
      assert path[0..] == path;
      SplitFree(path, '/');
    } else {
      var rest := path[1..];
      assert rest[|rest| - |suffix|..] == path[|path| - |suffix|..];
      LastSegmentSuffix(rest, suffix);
      var tail := Split(rest, '/');
      if path[0] != '/' && |tail| == 1 {
        var whole := [path[0]] + tail[0];
        assert whole[|whole| - |suffix|..] == tail[0][|tail[0]| - |suffix|..];
      }
    }
  }

  lemma NewNoteCases(c: Context, batch: seq<PendingNote>, n: PendingNote)
    requires n.body.Prose? && n.frontmatter.Some? && Valid(n.frontmatter.value) && n.isNew && n.path !in c.existing
    requires ResolveInVault(c.v.tables, c.v.contained, [n.path]).Ok?
    requires PathShapeRule(c, n.path) in [None, Some(PathSchema), Some(PathRoot)]
    requires CreateRule(c, n) in [None, Some(UndeclaredFolder)]
    ensures NoteRule(c, batch, n).Some? ==> Alive(NoteRule(c, batch, n).value, true)
  {
    hide ResolveInVault, CreateRule, DanglingIn, NoteBytes, PathShapeRule, Valid;
  }

  lemma NewNoteRuleIsAlive(c: Context, batch: seq<PendingNote>, n: PendingNote)
    requires n.body.Prose? && n.frontmatter.Some? && Valid(n.frontmatter.value) && n.isNew && n.path !in c.existing
    requires ResolveInVault(c.v.tables, c.v.contained, [n.path]).Ok?
    requires Derived(c.v, n) && LawfulTitle(c.v.tables, n.title.value)
    ensures NoteRule(c, batch, n).Some? ==> Alive(NoteRule(c, batch, n).value, true)
  {
    hide NoteRule, Alive, PathShapeRule, CreateRule, Derived, LawfulTitle, ResolveInVault;
    CreatePassesShape(c, n);
    NewNoteCases(c, batch, n);
  }

  lemma OldNoteCases(c: Context, batch: seq<PendingNote>, n: PendingNote)
    requires n.body.Prose? && n.frontmatter.Some? && Valid(n.frontmatter.value) && !n.isNew && n.path in c.existing
    requires ResolveInVault(c.v.tables, c.v.contained, [n.path]).Ok?
    requires PathShapeRule(c, n.path) in
      [None, Some(PathSchema), Some(PathRoot), Some(StemUnsafe), Some(StemUnsanitized)]
    ensures NoteRule(c, batch, n).Some? ==> Alive(NoteRule(c, batch, n).value, false)
  {
    hide ResolveInVault, CreateRule, DanglingIn, NoteBytes, PathShapeRule, Valid;
  }

  lemma OldNoteRuleIsAlive(c: Context, batch: seq<PendingNote>, n: PendingNote)
    requires n.body.Prose? && n.frontmatter.Some? && Valid(n.frontmatter.value) && !n.isNew && n.path in c.existing
    requires ResolveInVault(c.v.tables, c.v.contained, [n.path]).Ok?
    requires EndsWith(n.path, ".md")
    ensures NoteRule(c, batch, n).Some? ==> Alive(NoteRule(c, batch, n).value, false)
  {
    hide *;
    SuffixHasNoSlash();
    LastSegmentSuffix(n.path, ".md");
    UpdatePassesSuffix(c, n.path);
    OldNoteCases(c, batch, n);
  }

  lemma SuffixHasNoSlash()
    ensures '/' !in ".md"
  {
  }

  /** What a stamped note that came out of the write tools can still be rejected for. */
  lemma NoteRuleIsAlive(c: Context, batch: seq<PendingNote>, n: PendingNote, stamped: PendingNote)
    requires WellStaged(c.v, c.existing, n) && StampOf(n, stamped)
    requires n.isNew ==> LawfulTitle(c.v.tables, n.title.value)
    requires !n.isNew ==> EndsWith(n.path, ".md")
    ensures NoteRule(c, batch, stamped).Some? ==> Alive(NoteRule(c, batch, stamped).value, stamped.isNew)
  {
    if n.isNew {
      assert Derived(c.v, stamped);
      NewNoteRuleIsAlive(c, batch, stamped);
    } else {
      OldNoteRuleIsAlive(c, batch, stamped);
    }
    hide NoteRule, Derived;
  }

  lemma UpdatePassesSuffix(c: Context, path: string)
    requires EndsWith(Last(Split(path, '/')), ".md")
    ensures PathShapeRule(c, path) in [None, Some(PathSchema), Some(PathRoot), Some(StemUnsafe), Some(StemUnsanitized)]
  {
  }

  /** `batch` is the buffer of some tool calls, stamped note by note. */
  predicate Stamps(notes: seq<PendingNote>, batch: seq<PendingNote>) {
    |notes| == |batch| && forall i :: 0 <= i < |batch| ==> StampOf(notes[i], batch[i])
  }

  lemma StampsKeepPaths(notes: seq<PendingNote>, batch: seq<PendingNote>)
    requires Stamps(notes, batch)
    ensures PathsOf(notes) == PathsOf(batch)
  {
  }

  /** Whatever the model calls: no empty batch, repeated path, uncontained path, collision,
    * missing target, underived create or bad frontmatter can be what a batch is rejected for. */
  lemma DeadRules(c: Context, calls: seq<Call>, batch: seq<PendingNote>)
    requires !c.v.tables.control('/') && batch != []
    requires Stamps(AfterCalls(c.v, c.existing, calls), batch)
    requires forall path :: path in c.existing ==> EndsWith(path, ".md")
    requires forall i :: 0 <= i < |batch| && batch[i].isNew ==>
      batch[i].title.Some? ==> LawfulTitle(c.v.tables, batch[i].title.value)
    ensures Verdict(c, batch).Some? ==>
      var rejection := Verdict(c, batch).value;
      rejection.rule == NoteCount
      || exists i :: 0 <= i < |batch| && batch[i].path == rejection.path && Alive(rejection.rule, batch[i].isNew)
  {
    var notes := AfterCalls(c.v, c.existing, calls);
    EveryBufferIsWellBuffered(c.v, c.existing, calls);
    StampsKeepPaths(notes, batch);
    FirstDuplicateNone(PathsOf(batch), {});
    NotesRejectionNone(c, batch, batch);
    forall i | 0 <= i < |batch|
      ensures NoteRule(c, batch, batch[i]).Some? ==> Alive(NoteRule(c, batch, batch[i]).value, batch[i].isNew)
    {
      assert StampOf(notes[i], batch[i]) && WellStaged(c.v, c.existing, notes[i]);
      NoteRuleIsAlive(c, batch, notes[i], batch[i]);
    }
    hide NoteRule, AfterCalls, Alive, LawfulTitle, WellStaged;
  }
}
