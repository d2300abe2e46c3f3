/** Every note names every source that was ever merged into it, across whole ingests. */
module Provenances {
  import opened Prelude
  import opened Dedupes
  import opened Frontmatter
  import opened Git
  import opened Ingest
  import Notes

  /** The note at `path` reads back and lists `sha` among its sources. */
  ghost predicate Names(y: TitleCodec, t: Tree, path: string, sha: string) {
    && NoteFile(path) in t && ParseNote(y, TextAt(t, NoteFile(path)).value).Ok?
    && sha in ParseNote(y, TextAt(t, NoteFile(path)).value).value.frontmatter.sources
  }

  /** A draft the round trip holds for. */
  ghost predicate SoundDraft(q: Request, d: Draft) {
    && Valid(d.note.frontmatter) && ValidDate(q.day) && Readable(d.note.frontmatter)
    && FaithfulTitle(q.y, d.note.frontmatter.title) && d.note.frontmatter.sources == [q.sha]
  }

  lemma WriteNames(q: Request, t: Tree, d: Draft)
    requires SoundDraft(q, d) && WithNote(q, t, d.note).Ok?
    ensures var u := WithNote(q, t, d.note).value;
      && Names(q.y, u, d.note.path, q.sha)
      && forall path, sha :: Names(q.y, t, path, sha) ==> Names(q.y, u, path, sha)
  {
    hide ParseNote, RenderNote, Readable, FaithfulTitle, Valid;
    var file := NoteFile(d.note.path);
    var prior := TextAt(t, file);
    Notes.WrittenIsReadBack(q.y, prior, Notes.WriteCall(d.note, q.day));
    var u := WithNote(q, t, d.note).value;
    var n := Notes.Persist(q.y, prior, d.note, q.day).value;
    var all := if prior.None? then [q.sha] else ParseNote(q.y, prior.value).value.frontmatter.sources + [q.sha];
    assert q.sha in all;
    forall sha | sha in all
      ensures sha in n.frontmatter.sources
    {
      assert sha in ToSet(all) && ToSet(Dedupe(all)) == ToSet(all);
      assert sha in ToSet(Dedupe(all));
    }
  }

  /** The notes of a batch, written in order: nothing named before is lost. */
  lemma {:induction false} NotesName(q: Request, t: Tree, batch: seq<Draft>)
    requires WithNotes(q, t, batch).Ok? && forall i :: 0 <= i < |batch| ==> SoundDraft(q, batch[i])
    ensures var u := WithNotes(q, t, batch).value;
      && (forall i :: 0 <= i < |batch| ==> Names(q.y, u, batch[i].note.path, q.sha))
      && forall path, sha :: Names(q.y, t, path, sha) ==> Names(q.y, u, path, sha)
  {
    hide WithNote, Names, SoundDraft;
    if batch == [] {
    } else {
      NotesName(q, t, Init(batch));
      WriteNames(q, WithNotes(q, t, Init(batch)).value, Last(batch));
    }
  }

  lemma ArchiveKeepsNames(q: Request, t: Tree, batch: seq<Draft>)
    ensures forall path, sha :: Names(q.y, t, path, sha) ==> Names(q.y, Archived(q, t, batch), path, sha)
  {
  }

  lemma ManifestKeepsNames(q: Request, t: Tree, id: nat)
    requires WithCommitId(q, t, id).Ok?
    ensures forall path, sha :: Names(q.y, t, path, sha) ==> Names(q.y, WithCommitId(q, t, id).value, path, sha)
  {
  }

  /** One completed ingest: its batch over the tree of its base, with the manifest amended. */
  datatype Ingested = Ingested(q: Request, batch: seq<Draft>, first: nat)

  function TreeOf(d: Ingested, base: Tree): Result<Tree, Exn> {
    var draft :- DraftTree(d.q, base, d.batch);
    if d.q.archive then WithCommitId(d.q, draft, d.first) else Ok(draft)
  }

  ghost predicate SoundIngest(y: TitleCodec, d: Ingested) {
    d.q.y == y && forall i :: 0 <= i < |d.batch| ==> SoundDraft(d.q, d.batch[i])
  }

  lemma IngestNames(d: Ingested, base: Tree)
    requires TreeOf(d, base).Ok? && SoundIngest(d.q.y, d)
    ensures var t := TreeOf(d, base).value;
      && (forall path :: path in Touched(d.batch) ==> Names(d.q.y, t, path, d.q.sha))
      && forall path, sha :: Names(d.q.y, base, path, sha) ==> Names(d.q.y, t, path, sha)
  {
    hide Names, Archived, WithNotes, WithCommitId, SoundDraft;
    var draft := DraftTree(d.q, base, d.batch).value;
    ArchiveKeepsNames(d.q, base, d.batch);
    NotesName(d.q, Archived(d.q, base, d.batch), d.batch);
    if d.q.archive {
      ManifestKeepsNames(d.q, draft, d.first);
    }
    forall path | path in Touched(d.batch)
      ensures exists i :: 0 <= i < |d.batch| && d.batch[i].note.path == path
    {
      TouchedIsDrafted(d.batch, path);
    }
  }

  lemma TouchedIsDrafted(batch: seq<Draft>, path: string)
    requires path in Touched(batch)
    ensures exists i :: 0 <= i < |batch| && batch[i].note.path == path
  {
  }
}
