/** What the one commit of an ingest holds, stated file by file. */
module Contents {
  import opened Prelude
  import opened Git
  import opened Frontmatter
  import opened Ingest
  import Notes
  import Ordering

  /** The files an ingest may change. */
  predicate IsTouched(q: Request, batch: seq<Draft>, f: File) {
    match f
    case NoteFile(path) => InBatch(batch, path)
    case ArchiveText(sha) => q.archive && sha == q.sha
    case ArchiveManifest(sha) => q.archive && sha == q.sha
    case OtherFile(_) => false
  }

  function FileAt(t: Tree, f: File): Option<Blob> { if f in t then Some(t[f]) else None }

  /** `after` holds `blob` at `f`, unless something was there before. */
  predicate Filed(before: Tree, after: Tree, f: File, blob: Blob) {
    f in after && after[f] == if f in before then before[f] else blob
  }

  /** The text of a note merged over what the base has at its path. */
  ghost predicate Merged(q: Request, base: Tree, note: Note, blob: Option<Blob>) {
    var n := Notes.Persist(q.y, TextAt(base, NoteFile(note.path)), note, q.day);
    n.Ok? && Valid(n.value.frontmatter) && blob == Some(Text(RenderNote(q.y, n.value)))
  }

  lemma WriteIsLocal(q: Request, t: Tree, note: Note)
    requires WithNote(q, t, note).Ok?
    ensures var u := WithNote(q, t, note).value;
      && Merged(q, t, note, FileAt(u, NoteFile(note.path)))
      && forall f :: f != NoteFile(note.path) ==> FileAt(u, f) == FileAt(t, f)
  {
    hide Notes.Persist, RenderNote, Valid;
  }

  lemma MergedSameBase(q: Request, a: Tree, b: Tree, note: Note, blob: Option<Blob>)
    requires FileAt(a, NoteFile(note.path)) == FileAt(b, NoteFile(note.path))
    ensures Merged(q, a, note, blob) <==> Merged(q, b, note, blob)
  {
    assert TextAt(a, NoteFile(note.path)) == TextAt(b, NoteFile(note.path));
    hide Notes.Persist, RenderNote, Valid;
  }

  lemma {:induction false} WritesAreLocal(q: Request, t: Tree, batch: seq<Draft>, f: File)
    requires WithNotes(q, t, batch).Ok? && forall i :: 0 <= i < |batch| ==> f != NoteFile(batch[i].note.path)
    ensures FileAt(WithNotes(q, t, batch).value, f) == FileAt(t, f)
  {
    hide WithNote;
    if batch == [] {
    } else {
      WritesAreLocal(q, t, Init(batch), f);
      WriteIsLocal(q, WithNotes(q, t, Init(batch)).value, Last(batch).note);
    }
  }

  /** Each note is merged over what was there before the batch: paths are distinct. */
  lemma {:induction false} WritesMerge(q: Request, t: Tree, batch: seq<Draft>, i: nat)
    requires WithNotes(q, t, batch).Ok? && DistinctPaths(batch) && i < |batch|
    ensures Merged(q, t, batch[i].note, FileAt(WithNotes(q, t, batch).value, NoteFile(batch[i].note.path)))
  {
    hide WithNote, Merged, FileAt;
    var before := WithNotes(q, t, Init(batch)).value;
    WriteIsLocal(q, before, Last(batch).note);
    if i == |batch| - 1 {
      WritesAreLocal(q, t, Init(batch), NoteFile(batch[i].note.path));
      MergedSameBase(q, before, t, batch[i].note, FileAt(WithNotes(q, t, batch).value, NoteFile(batch[i].note.path)));
    } else {
      assert Init(batch)[i] == batch[i];
      WritesMerge(q, t, Init(batch), i);
    }
  }

  lemma ArchiveIsLocal(q: Request, t: Tree, batch: seq<Draft>)
    ensures var u := Archived(q, t, batch);
      && (forall f: File :: !(f.ArchiveText? || f.ArchiveManifest?) || !q.archive ==> FileAt(u, f) == FileAt(t, f))
      && (forall f: File :: (f.ArchiveText? || f.ArchiveManifest?) && f.sha != q.sha ==> FileAt(u, f) == FileAt(t, f))
      && (q.archive ==> Filed(t, u, ArchiveText(q.sha), Text(q.text)))
      && (q.archive ==> Filed(t, u, ArchiveManifest(q.sha), Manifest(q.job, Touched(batch), None)))
  {
    hide Touched;
  }

  /** The tree committed is the base, with each note of the batch merged over what was there,
    * the text and the manifest filed under the hash unless they were there, and no other
    * file added, changed or removed. */
  lemma CommitHoldsExactly(q: Request, base: Tree, batch: seq<Draft>)
    requires DraftTree(q, base, batch).Ok? && DistinctPaths(batch)
    ensures var t := DraftTree(q, base, batch).value;
      && (forall f: File :: !IsTouched(q, batch, f) ==> FileAt(t, f) == FileAt(base, f))
      && (forall i :: 0 <= i < |batch| ==> Merged(q, base, batch[i].note, FileAt(t, NoteFile(batch[i].note.path))))
      && (q.archive ==> Filed(base, t, ArchiveText(q.sha), Text(q.text)))
      && (q.archive ==> Filed(base, t, ArchiveManifest(q.sha), Manifest(q.job, Touched(batch), None)))
  {
    hide WithNotes, Archived, Merged, Touched;
    var filed := Archived(q, base, batch);
    var t := DraftTree(q, base, batch).value;
    ArchiveIsLocal(q, base, batch);
    forall f | !IsTouched(q, batch, f)
      ensures FileAt(t, f) == FileAt(base, f)
    {
      WritesAreLocal(q, filed, batch, f);
    }
    forall i | 0 <= i < |batch|
      ensures Merged(q, base, batch[i].note, FileAt(t, NoteFile(batch[i].note.path)))
    {
      var file := NoteFile(batch[i].note.path);
      WritesMerge(q, filed, batch, i);
      MergedSameBase(q, filed, base, batch[i].note, FileAt(t, file));
    }
    if q.archive {
      WritesAreLocal(q, filed, batch, ArchiveText(q.sha));
      WritesAreLocal(q, filed, batch, ArchiveManifest(q.sha));
    }
  }

  predicate InBatch(batch: seq<Draft>, path: string) {
    exists i :: 0 <= i < |batch| && batch[i].note.path == path
  }

  /** The recorded paths are the batch's: created ones are those that did not exist, updated
    * ones those that did, and each is there once. */
  lemma RecordedPathsAreTheBatch(q: Request, batch: seq<Draft>, existing: set<string>)
    requires Gate(q, batch, existing)
    ensures forall path :: path in Created(batch) <==> InBatch(batch, path) && path !in existing
    ensures forall path :: path in Updated(batch) <==> InBatch(batch, path) && path in existing
    ensures |Touched(batch)| == |batch| && Distinct(Touched(batch))
  {
    PathsSplit(batch);
    forall path
      ensures path in Created(batch) <==> InBatch(batch, path) && path !in existing
      ensures path in Updated(batch) <==> InBatch(batch, path) && path in existing
    {
      CreatedOrUpdated(batch, path);
    }
    assert Distinct(BatchPaths(batch));
    Ordering.SameElements(BatchPaths(batch), Touched(batch));
  }

  lemma CreatedOrUpdated(batch: seq<Draft>, path: string)
    ensures path in Created(batch) <==> exists i :: 0 <= i < |batch| && batch[i].note.path == path && batch[i].isNew
    ensures path in Updated(batch) <==> exists i :: 0 <= i < |batch| && batch[i].note.path == path && !batch[i].isNew
  {
    var isNew := (d: Draft) => d.isNew;
    var isOld := (d: Draft) => !d.isNew;
    assert forall d :: d in Filter(isNew, batch) <==> d in batch && d.isNew;
    assert forall d :: d in Filter(isOld, batch) <==> d in batch && !d.isNew;
  }

  function BatchPaths(batch: seq<Draft>): seq<string> { Map((d: Draft) => d.note.path, batch) }

  lemma {:induction false} PathsSplit(batch: seq<Draft>)
    ensures multiset(BatchPaths(batch)) == multiset(Touched(batch))
  {
    hide *;
    if batch == [] {
      NothingTouched();
    } else {
      PathsSplit(batch[1..]);
      FirstPath(batch);
      FirstTouched(batch);
    }
  }

  lemma NothingTouched()
    ensures BatchPaths([]) == [] && Touched([]) == []
  {
  }

  lemma FirstPath(batch: seq<Draft>)
    requires batch != []
    ensures multiset(BatchPaths(batch)) == multiset{batch[0].note.path} + multiset(BatchPaths(batch[1..]))
  {
    assert BatchPaths(batch) == [batch[0].note.path] + BatchPaths(batch[1..]);
  }

  lemma FirstTouched(batch: seq<Draft>)
    requires batch != []
    ensures multiset(Touched(batch)) == multiset{batch[0].note.path} + multiset(Touched(batch[1..]))
  {
    FirstSplit(batch);
    hide Created, Updated;
    var path := [batch[0].note.path];
    var c, u := Created(batch[1..]), Updated(batch[1..]);
    assert multiset(path + c + u) == multiset(path) + multiset(c) + multiset(u);
    assert multiset(c + (path + u)) == multiset(c) + (multiset(path) + multiset(u));
  }

  lemma FirstSplit(batch: seq<Draft>)
    requires batch != []
    ensures Created(batch) == if batch[0].isNew then [batch[0].note.path] + Created(batch[1..]) else Created(batch[1..])
    ensures Updated(batch) == if batch[0].isNew then Updated(batch[1..]) else [batch[0].note.path] + Updated(batch[1..])
  {
    var path := (d: Draft) => d.note.path;
    MapConcat(path, [batch[0]], Filter((d: Draft) => d.isNew, batch[1..]));
    MapConcat(path, [batch[0]], Filter((d: Draft) => !d.isNew, batch[1..]));
  }
}
