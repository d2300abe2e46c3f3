/** The filesystem layer for notes: `sources` only grows, `created` is kept. */
module Notes {
  import opened Prelude
  import opened Text
  import opened Frontmatter
  import opened Dedupes

  // ----- one write ------------------------------------------------------------------

  /** The note a write stores over `prior`, the text already at the path. */
  function Persist(y: TitleCodec, prior: Option<string>, note: Note, today: Date): (r: Result<Note, Exn>)
  {
    match prior
    case None =>
      Ok(note.(frontmatter := note.frontmatter.(sources := Dedupe(note.frontmatter.sources), updated := today)))
    case Some(text) =>
      var existing :- ParseNote(y, text);
      Ok(note.(frontmatter := note.frontmatter.(
        sources := Dedupe(existing.frontmatter.sources + note.frontmatter.sources),
        created := existing.frontmatter.created,
        updated := today)))
  }

  lemma ParsedIsValid(y: TitleCodec, text: string)
    requires ParseNote(y, text).Ok?
    ensures Valid(ParseNote(y, text).value.frontmatter)
    ensures Readable(ParseNote(y, text).value.frontmatter)
  {
    var lines := Split(text, '\n');
    var k := ClosingLine(lines, 1).value;
    LoadedIsReadable(y, lines[1..k]);
  }

  lemma LoadedIsReadable(y: TitleCodec, lines: seq<string>)
    requires LoadHeader(y, lines).Ok?
    ensures Valid(LoadHeader(y, lines).value) && Readable(LoadHeader(y, lines).value)
  {
    hide Valid, LoadTitle, LoadDate, LoadTags, LoadSources, ReadsAsString;
    TagsRead(lines[1]);
    SourcesRead(lines[2..|lines| - 2]);
  }

  lemma TagsRead(line: string)
    requires LoadTags(line).Ok?
    ensures forall i :: 0 <= i < |LoadTags(line).value| ==> ReadsAsString(LoadTags(line).value[i])
  {
    hide ReadsAsString, Strip, Split, After;
  }

  lemma SourcesRead(lines: seq<string>)
    requires LoadSources(lines).Ok?
    ensures forall i :: 0 <= i < |LoadSources(lines).value| ==> ReadsAsString(LoadSources(lines).value[i])
  {
    hide ReadsAsString, Hashes;
  }

  lemma PersistIsValid(y: TitleCodec, prior: Option<string>, note: Note, today: Date)
    requires Valid(note.frontmatter) && ValidDate(today)
    requires Persist(y, prior, note, today).Ok?
    ensures Valid(Persist(y, prior, note, today).value.frontmatter)
    ensures Readable(note.frontmatter) ==> Readable(Persist(y, prior, note, today).value.frontmatter)
  {
    hide ParseNote;
    var hashes := note.frontmatter.sources;
    if prior.Some? {
      ParsedIsValid(y, prior.value);
      hashes := ParseNote(y, prior.value).value.frontmatter.sources + hashes;
    }
    forall i | 0 <= i < |Dedupe(hashes)|
      ensures Dedupe(hashes)[i] in hashes
    {
      DedupeElements(hashes, i);
    }
  }

  // ----- the repository -------------------------------------------------------------

  const SchemaFilename := "schema.md"

  predicate IsSchema(path: string) {
    path == SchemaFilename || EndsWith(path, "/" + SchemaFilename)
  }

  /** Every note file parses: what listing the vault needs. */
  ghost predicate AllReadable(y: TitleCodec, files: map<string, string>) {
    forall path :: path in files && !IsSchema(path) ==> ParseNote(y, files[path]).Ok?
  }

  function At(files: map<string, string>, path: string): Option<string> {
    if path in files then Some(files[path]) else None
  }

  class NoteRepository {
    const y: TitleCodec
    /** Whether a path resolves inside the vault without crossing a symlink. */
    const contained: string -> bool
    var files: map<string, string>
    /** What the file system refused. */
    ghost var failures: seq<Exn>

    constructor (y: TitleCodec, contained: string -> bool, files: map<string, string>)
      ensures this.y == y && this.contained == contained && this.files == files && failures == []
    {
      this.y, this.contained, this.files, failures := y, contained, files, [];
    }

    /** Reads a note, or raises; changes nothing. */
    method Read(path: string) returns (r: Result<Note, Exn>)
      ensures r.Ok? <==> contained(path) && path in files && ParseNote(y, files[path]).Ok?
      ensures r.Ok? ==> r.value.path == path
      ensures r.Ok? ==> ParseNote(y, files[path]) == Ok(Parsed(r.value.frontmatter, r.value.body))
    {
      if !contained(path) {
        return Err(Exn(Terminal, "unsafe path"));
      }
      if path !in files {
        return Err(Exn(Terminal, "no such note"));
      }
      var parsed :- ParseNote(y, files[path]);
      return Ok(Note(path, parsed.frontmatter, parsed.body));
    }

    /** Stores a note over what is there, or raises with nothing changed: because the path
      * leaves the vault, what is there does not parse, or the file system refuses. */
    method Write(note: Note, today: Date) returns (r: Result<Note, Exn>)
      requires Valid(note.frontmatter) && ValidDate(today)
      modifies this
      ensures r.Ok? ==> contained(note.path) && Persist(y, At(old(files), note.path), note, today) == r
      ensures r.Ok? ==> Valid(r.value.frontmatter) && files == old(files)[note.path := RenderNote(y, r.value)]
      ensures r.Err? ==> files == old(files)
      ensures r.Ok? ==> failures == old(failures)
      ensures r.Err? ==>
        || failures == old(failures) + [r.error]
        || (failures == old(failures)
            && (!contained(note.path) || Persist(y, At(old(files), note.path), note, today) == Err(r.error)))
    {
      if !contained(note.path) {
        return Err(Exn(Terminal, "unsafe path"));
      }
      var priorSources: seq<string> := [];
      var created := note.frontmatter.created;
      if note.path in files {
        var existing :- ParseNote(y, files[note.path]);
        created := existing.frontmatter.created;
        priorSources := existing.frontmatter.sources;
      }
      var sources := DedupeList(priorSources + note.frontmatter.sources);
      assert [] + note.frontmatter.sources == note.frontmatter.sources;
      var persisted := Note(note.path,
        NoteFrontmatter(note.frontmatter.title, note.frontmatter.tags, sources, created, today), note.body);
      PersistIsValid(y, At(files, note.path), note, today);
      if * {  // a hard link, or the atomic replace failed
        failures := failures + [Exn(Terminal, "unsafe path")];
        return Err(Exn(Terminal, "unsafe path"));
      }
      files := files[note.path := RenderNote(y, persisted)];
      return Ok(persisted);
    }

    /** The paths of all notes; one unparseable note fails the whole listing. */
    method ExistingPaths() returns (r: Result<set<string>, Exn>)
      ensures r.Ok? <==> AllReadable(y, files)
      ensures r.Ok? ==> r.value == set path | path in files && !IsSchema(path)
    {
      var todo := files.Keys;
      var paths: set<string> := {};
      while todo != {}
        invariant todo <= files.Keys
        invariant forall path :: path in files.Keys - todo && !IsSchema(path) ==> ParseNote(y, files[path]).Ok?
        invariant paths == set path | path in files.Keys - todo && !IsSchema(path)
        decreases |todo|
      {
        var path :| path in todo;
        if !IsSchema(path) {
          var _ :- ParseNote(y, files[path]);
          paths := paths + {path};
        }
        todo := todo - {path};
      }
      return Ok(paths);
    }
  }

  /** What `Write` returns is what `Read` then gives, exactly when the note is readable. */
  lemma ReadAfterWrite(y: TitleCodec, prior: Option<string>, note: Note, today: Date)
    requires Valid(note.frontmatter) && ValidDate(today) && FaithfulTitle(y, note.frontmatter.title)
    requires Persist(y, prior, note, today).Ok?
    ensures Valid(Persist(y, prior, note, today).value.frontmatter)
    ensures var persisted := Persist(y, prior, note, today).value;
      if Readable(note.frontmatter)
      then ParseNote(y, RenderNote(y, persisted)) == Ok(Parsed(persisted.frontmatter, persisted.body))
      else ParseNote(y, RenderNote(y, persisted)).Err?
  {
    hide ParseNote, RenderNote;
    PersistIsValid(y, prior, note, today);
    var persisted := Persist(y, prior, note, today).value;
    ParseAfterRender(y, persisted);
    if !Readable(note.frontmatter) {
      var all := if prior.None? then note.frontmatter.sources
        else ParseNote(y, prior.value).value.frontmatter.sources + note.frontmatter.sources;
      if i :| 0 <= i < |note.frontmatter.sources| && !ReadsAsString(note.frontmatter.sources[i]) {
        assert note.frontmatter.sources[i] in ToSet(all);
        assert note.frontmatter.sources[i] in ToSet(persisted.frontmatter.sources);
      }
    }
  }

  // ----- histories of writes --------------------------------------------------------

  datatype WriteCall = WriteCall(note: Note, today: Date)

  /** The files after one write; a write that raises leaves them. */
  function AfterWrite(y: TitleCodec, files: map<string, string>, w: WriteCall): map<string, string> {
    match Persist(y, At(files, w.note.path), w.note, w.today)
    case Ok(n) => if Valid(n.frontmatter) then files[w.note.path := RenderNote(y, n)] else files
    case Err(_) => files
  }

  function AfterWrites(y: TitleCodec, files: map<string, string>, ws: seq<WriteCall>): map<string, string> {
    if ws == [] then files else AfterWrite(y, AfterWrites(y, files, Init(ws)), Last(ws))
  }

  /** The writes among `ws` that go to `path`. */
  function To(path: string, ws: seq<WriteCall>): seq<WriteCall> {
    if ws == [] then []
    else if Last(ws).note.path == path then To(path, Init(ws)) + [Last(ws)]
    else To(path, Init(ws))
  }

  function HashesOf(ws: seq<WriteCall>): seq<string> {
    if ws == [] then [] else HashesOf(Init(ws)) + Last(ws).note.frontmatter.sources
  }

  lemma HashesOfAppend(ws: seq<WriteCall>, w: WriteCall)
    ensures HashesOf(ws + [w]) == HashesOf(ws) + w.note.frontmatter.sources
  {
  }

  /** What the file at a path holds after the writes `mine`, in order, to it. */
  function Provenance(mine: seq<WriteCall>): Parsed
    requires |mine| > 0
  {
    var fm := Last(mine).note.frontmatter;
    Parsed(NoteFrontmatter(fm.title, fm.tags, Dedupe(HashesOf(mine)), mine[0].note.frontmatter.created,
                           Last(mine).today),
           Last(mine).note.body)
  }

  predicate Sound(y: TitleCodec, w: WriteCall) {
    && Valid(w.note.frontmatter) && ValidDate(w.today)
    && FaithfulTitle(y, w.note.frontmatter.title) && Readable(w.note.frontmatter)
  }

  /** After any sequence of writes to a fresh vault every note's `sources` is the
    * first-occurrence list of all hashes written to it, with its first `created` and its
    * last title, tags, body and date; and nothing else is on disk. */
  lemma {:induction false} ProvenanceOverHistories(y: TitleCodec, ws: seq<WriteCall>, path: string)
    requires forall i :: 0 <= i < |ws| ==> Sound(y, ws[i])
    ensures path in AfterWrites(y, map[], ws) <==> To(path, ws) != []
    ensures To(path, ws) != [] ==>
      ParseNote(y, AfterWrites(y, map[], ws)[path]) == Ok(Provenance(To(path, ws)))
  {
    hide ParseNote, RenderNote, FaithfulTitle, Readable, Valid;
    if ws == [] {
    } else {
      var w := Last(ws);
      var files := AfterWrites(y, map[], Init(ws));
      ProvenanceOverHistories(y, Init(ws), path);
      if w.note.path == path {
        var mine := To(path, Init(ws));
        var prior := At(files, path);
        assert Sound(y, w);
        assert To(path, ws) == mine + [w];
        HashesOfAppend(mine, w);
        if mine == [] {
          assert [] + w.note.frontmatter.sources == w.note.frontmatter.sources;
        } else {
          DedupeAbsorbs(HashesOf(mine), w.note.frontmatter.sources);
        }
        WrittenIsReadBack(y, prior, w);
      }
    }
  }

  lemma WrittenIsReadBack(y: TitleCodec, prior: Option<string>, w: WriteCall)
    requires Sound(y, w)
    requires Persist(y, prior, w.note, w.today).Ok?
    ensures var n := Persist(y, prior, w.note, w.today).value;
      Valid(n.frontmatter) && ParseNote(y, RenderNote(y, n)) == Ok(Parsed(n.frontmatter, n.body))
  {
    ReadAfterWrite(y, prior, w.note, w.today);
  }

  /** Nothing ever recorded is lost or moved by what is written later. */
  lemma {:induction false} SourcesOnlyGrow(y: TitleCodec, ws: seq<WriteCall>, more: seq<WriteCall>, path: string)
    requires forall i :: 0 <= i < |ws| ==> Sound(y, ws[i])
    requires forall i :: 0 <= i < |more| ==> Sound(y, more[i])
    requires To(path, ws) != []
    ensures To(path, ws + more) != []
    ensures Provenance(To(path, ws)).frontmatter.sources <= Provenance(To(path, ws + more)).frontmatter.sources
    ensures Provenance(To(path, ws)).frontmatter.created == Provenance(To(path, ws + more)).frontmatter.created
  {
    if more == [] {
      assert ws + more == ws;
    } else {
      assert Init(ws + more) == ws + Init(more);
      SourcesOnlyGrow(y, ws, Init(more), path);
      var mine := To(path, ws + Init(more));
      if Last(more).note.path == path {
        assert To(path, ws + more) == mine + [Last(more)];
        HashesOfAppend(mine, Last(more));
        DedupeGrows(HashesOf(mine), Last(more).note.frontmatter.sources);
        assert Dedupe(HashesOf(To(path, ws))) <= Dedupe(HashesOf(mine)) <= Dedupe(HashesOf(mine + [Last(more)]));
      }
    }
  }

  /** A note written with a tag such as `true` or `2026` is lost to the system: no later
    * write can update it and no later listing of its vault succeeds. */
  lemma {:induction false} UnreadableNoteIsStuck(
      y: TitleCodec, files: map<string, string>, w: WriteCall, later: seq<WriteCall>)
    requires Valid(w.note.frontmatter) && ValidDate(w.today) && FaithfulTitle(y, w.note.frontmatter.title)
    requires !Readable(w.note.frontmatter) && !IsSchema(w.note.path)
    requires Persist(y, At(files, w.note.path), w.note, w.today).Ok?
    ensures var after := AfterWrites(y, AfterWrite(y, files, w), later);
      w.note.path in after && ParseNote(y, after[w.note.path]).Err? && !AllReadable(y, after)
    ensures AfterWrites(y, AfterWrite(y, files, w), later + [w]) == AfterWrites(y, AfterWrite(y, files, w), later)
  {
    hide ParseNote, RenderNote, FaithfulTitle, Readable, Valid, AfterWrite, AfterWrites, Persist, AllReadable, At;
    var first := AfterWrite(y, files, w);
    if later == [] {
      NothingLater(y, first);
      WrittenUnreadable(y, files, w);
    } else {
      UnreadableNoteIsStuck(y, files, w, Init(later));
      LastWrite(y, first, later);
      OneMoreWrite(y, AfterWrites(y, first, Init(later)), w.note.path, Last(later));
    }
    OneMoreWrite(y, AfterWrites(y, first, later), w.note.path, w);
    LastWrite(y, first, later + [w]);
    assert Init(later + [w]) == later && Last(later + [w]) == w;
  }

  lemma NothingLater(y: TitleCodec, files: map<string, string>)
    ensures AfterWrites(y, files, []) == files
  {
  }

  lemma LastWrite(y: TitleCodec, files: map<string, string>, ws: seq<WriteCall>)
    requires ws != []
    ensures AfterWrites(y, files, ws) == AfterWrite(y, AfterWrites(y, files, Init(ws)), Last(ws))
  {
    hide AfterWrite;
  }

  /** The first write makes the note unreadable. */
  lemma WrittenUnreadable(y: TitleCodec, files: map<string, string>, w: WriteCall)
    requires Valid(w.note.frontmatter) && ValidDate(w.today) && FaithfulTitle(y, w.note.frontmatter.title)
    requires !Readable(w.note.frontmatter) && !IsSchema(w.note.path)
    requires Persist(y, At(files, w.note.path), w.note, w.today).Ok?
    ensures var after := AfterWrite(y, files, w);
      w.note.path in after && ParseNote(y, after[w.note.path]).Err? && !AllReadable(y, after)
  {
    hide ParseNote, RenderNote, FaithfulTitle, Readable, Valid;
    ReadAfterWrite(y, At(files, w.note.path), w.note, w.today);
  }

  /** No write changes an unreadable note. */
  lemma OneMoreWrite(y: TitleCodec, files: map<string, string>, path: string, w: WriteCall)
    requires path in files && ParseNote(y, files[path]).Err? && !IsSchema(path)
    ensures var after := AfterWrite(y, files, w);
      path in after && ParseNote(y, after[path]).Err? && !AllReadable(y, after)
    ensures w.note.path == path ==> AfterWrite(y, files, w) == files
  {
    hide ParseNote, RenderNote, Valid;
  }
}
