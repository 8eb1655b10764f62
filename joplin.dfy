/**
 * The Joplin client (src/jopper/joplin.py) over a snapshot of what the Joplin
 * data API would answer. The REST calls of the `joppy` library become reads
 * of that snapshot; `reachable` says whether the calls succeed at all.
 */
module Joplin {
  import opened Wrappers
  import opened Text

  /** A note as the client returns it. Missing or null fields are "". */
  datatype Note = Note(id: string, title: string, body: string, updatedTime: string, parentId: string)

  datatype Tag = Tag(id: string, title: string)

  /** What the Joplin server holds, as far as these calls can see. */
  datatype Server = Server(
    reachable: bool,
    notes: seq<Note>,
    tags: seq<Tag>,
    noteTags: map<string, seq<string>>,
    notebooks: map<string, string>)

  /** The tag ids attached to a note (`api.get_tags(note.id)`). */
  function TagIdsOfNote(s: Server, noteId: string): seq<string> {
    if noteId in s.noteTags then s.noteTags[noteId] else []
  }

  /** `get_all_notes`; `None` stands for the exception the API call raises. */
  function GetAllNotes(s: Server): (r: Option<seq<Note>>)
    ensures r.None? <==> !s.reachable
    ensures r.Some? ==> r.value == s.notes
  {
    if s.reachable then Some(s.notes) else None
  }

  /** `[tag["id"] for tag in all_tags if tag.get("title") in tag_names]`. */
  function MatchingTagIds(tags: seq<Tag>, names: seq<string>): (ids: seq<string>)
    ensures forall id :: id in ids <==> exists i :: 0 <= i < |tags| && tags[i].id == id && tags[i].title in names
    ensures ids == [] <==> forall i :: 0 <= i < |tags| ==> tags[i].title !in names
    decreases |tags|
  {
    if tags == [] then []
    else
      var rest := MatchingTagIds(tags[1..], names);
      assert forall i :: 1 <= i < |tags| ==> tags[i] == tags[1..][i - 1];
      if tags[0].title in names then [tags[0].id] + rest else rest
  }

  /** `any(tag_id in note_tag_ids for tag_id in tag_ids)`. */
  predicate CarriesAny(noteTagIds: seq<string>, tagIds: seq<string>) {
    exists t :: t in tagIds && t in noteTagIds
  }

  /** The order-preserving selection of the notes that carry one of `tagIds`. */
  function Carrying(s: Server, notes: seq<Note>, tagIds: seq<string>): (r: seq<Note>)
    ensures |r| <= |notes|
    decreases |notes|
  {
    if notes == [] then []
    else
      var n := notes[|notes| - 1];
      var rest := Carrying(s, notes[..|notes| - 1], tagIds);
      if CarriesAny(TagIdsOfNote(s, n.id), tagIds) then rest + [n] else rest
  }

  /** What `get_notes_by_tags(tag_names)` returns: nothing is asked for, the
      server fails, or no requested name is the title of an existing tag. */
  function NotesByTags(s: Server, names: seq<string>): (r: Option<seq<Note>>)
    ensures r.None? <==> names != [] && !s.reachable
    ensures names == [] ==> r == Some([])
    ensures (forall i :: 0 <= i < |s.tags| ==> s.tags[i].title !in names) ==> r.None? || r == Some([])
  {
    if names == [] then Some([])
    else if !s.reachable then None
    else
      var tagIds := MatchingTagIds(s.tags, names);
      if tagIds == [] then Some([]) else Some(Carrying(s, s.notes, tagIds))
  }

  /** `get_notes_by_tags`: the loop over all notes that keeps those carrying
      at least one of the requested tags. */
  method GetNotesByTags(s: Server, names: seq<string>) returns (r: Option<seq<Note>>)
    ensures r == NotesByTags(s, names)
    ensures names == [] ==> r == Some([])
  {
    if names == [] {
      return Some([]);
    }
    if !s.reachable {
      return None;
    }
    var tagIds := MatchingTagIds(s.tags, names);
    if tagIds == [] {
      return Some([]);
    }
    var filtered: seq<Note> := [];
    var i := 0;
    while i < |s.notes|
      invariant 0 <= i <= |s.notes|
      invariant filtered == Carrying(s, s.notes[..i], tagIds)
    {
      var note := s.notes[i];
      assert s.notes[..i + 1][..i] == s.notes[..i];
      if CarriesAny(TagIdsOfNote(s, note.id), tagIds) {
        filtered := filtered + [note];
      }
      i := i + 1;
    }
    assert s.notes[..i] == s.notes;
    r := Some(filtered);
  }

  /** The selection keeps the notes' order and holds exactly the notes that
      carry a requested tag. */
  lemma {:induction false} CarryingSelects(s: Server, notes: seq<Note>, tagIds: seq<string>)
    ensures IsSubsequence(Carrying(s, notes, tagIds), notes)
    ensures forall n :: n in Carrying(s, notes, tagIds) <==> n in notes && CarriesAny(TagIdsOfNote(s, n.id), tagIds)
    decreases |notes|
  {
    if notes != [] {
      var init := notes[..|notes| - 1];
      CarryingSelects(s, init, tagIds);
      assert notes == init + [notes[|notes| - 1]];
      var rest := Carrying(s, init, tagIds);
      if CarriesAny(TagIdsOfNote(s, notes[|notes| - 1].id), tagIds) {
        assert (rest + [notes[|notes| - 1]])[..|rest|] == rest;
      }
    }
  }

  /** Tag filtering is a union over the tags, not an intersection: a note is
      selected for `a + b` exactly when it is selected for `a` or for `b`. */
  lemma TagFilterIsUnion(s: Server, a: seq<string>, b: seq<string>, n: Note)
    requires s.reachable
    ensures NotesByTags(s, a + b).Some?
    ensures n in NotesByTags(s, a + b).value <==>
              (n in NotesByTags(s, a).value || n in NotesByTags(s, b).value)
  {
    var ids := MatchingTagIds(s.tags, a + b);
    var idsA := MatchingTagIds(s.tags, a);
    var idsB := MatchingTagIds(s.tags, b);
    assert forall t :: t in ids <==> t in idsA || t in idsB;
    CarryingSelects(s, s.notes, ids);
    CarryingSelects(s, s.notes, idsA);
    CarryingSelects(s, s.notes, idsB);
  }

  /** `get_note(note_id)`: the note with that id, or `None` on any failure. */
  function GetNote(s: Server, noteId: string): (r: Option<Note>)
    ensures r.Some? ==> r.value.id == noteId && r.value in s.notes
    ensures r.None? <==> !s.reachable || forall i :: 0 <= i < |s.notes| ==> s.notes[i].id != noteId
  {
    if s.reachable then FirstWithId(s.notes, noteId) else None
  }

  function FirstWithId(notes: seq<Note>, noteId: string): (r: Option<Note>)
    ensures r.Some? ==> r.value.id == noteId && r.value in notes
    ensures r.None? <==> forall i :: 0 <= i < |notes| ==> notes[i].id != noteId
    decreases |notes|
  {
    if notes == [] then None
    else if notes[0].id == noteId then Some(notes[0])
    else
      assert forall i :: 1 <= i < |notes| ==> notes[i] == notes[1..][i - 1];
      FirstWithId(notes[1..], noteId)
  }

  /** `get_notebook_title(notebook_id)`: the notebook's title, "" on any failure. */
  function GetNotebookTitle(s: Server, notebookId: string): (r: string)
    ensures !s.reachable || notebookId !in s.notebooks ==> r == ""
    ensures s.reachable && notebookId in s.notebooks ==> r == s.notebooks[notebookId]
  {
    if s.reachable && notebookId in s.notebooks then s.notebooks[notebookId] else ""
  }
}
