/**
 * The sync-state store (src/jopper/state.py). The two SQLite tables become
 * two fields of `StateManager`: `notes`, keyed by note id (the primary key
 * of the `notes` table), and `syncLog`, the rows of the append-only
 * `sync_log` table in insertion order. SHA-256 is the uninterpreted function
 * `computeHash`, and the `datetime.utcnow()` timestamps are passed in.
 */
module State {
  import opened Wrappers

  /** A row of the `notes` table. */
  datatype NoteState = NoteState(
    noteId: string,
    title: string,
    contentHash: string,
    lastSynced: string,
    openwebuiFileId: Option<string>)

  /** A row of the `sync_log` table. */
  datatype LogEntry = LogEntry(
    timestamp: string,
    notesSynced: int,
    notesUpdated: int,
    notesDeleted: int,
    errors: int)

  /** The dictionary `get_stats` returns: `total_notes`, and the five
      `last_sync_*` keys exactly when `lastSync` is present. */
  datatype Stats = Stats(totalNotes: nat, lastSync: Option<LogEntry>)

  /** Every row is stored under its own note id. */
  ghost predicate WellKeyed(notes: map<string, NoteState>) {
    forall id :: id in notes ==> notes[id].noteId == id
  }

  /** `get_note_state`: the row for `noteId`, if any. */
  function NoteStateOf(notes: map<string, NoteState>, noteId: string): Option<NoteState> {
    if noteId in notes then Some(notes[noteId]) else None
  }

  /** `has_note_changed`: a note needs syncing when it has no row or the
      stored hash differs from the hash of its current content. */
  function NoteChanged(notes: map<string, NoteState>, hash: string -> string, noteId: string, content: string): bool {
    match NoteStateOf(notes, noteId)
    case None => true
    case Some(s) => s.contentHash != hash(content)
  }

  /** A row with a truthy `openwebui_file_id`. */
  predicate HasFile(s: NoteState) {
    s.openwebuiFileId.Some? && s.openwebuiFileId.value != ""
  }

  /** The `notes` table after `save_note_state` (INSERT OR REPLACE). */
  function Saved(notes: map<string, NoteState>, hash: string -> string, noteId: string, title: string,
                 content: string, fileId: Option<string>, now: string): map<string, NoteState> {
    notes[noteId := NoteState(noteId, title, hash(content), now, fileId)]
  }

  /** Saving is an exact round trip: the note reads back as saved and no
      longer counts as changed; every other row is untouched. */
  lemma SaveRoundTrip(notes: map<string, NoteState>, hash: string -> string, noteId: string, title: string,
                      content: string, fileId: Option<string>, now: string, other: string)
    requires other != noteId
    ensures var after := Saved(notes, hash, noteId, title, content, fileId, now);
      && NoteStateOf(after, noteId) == Some(NoteState(noteId, title, hash(content), now, fileId))
      && !NoteChanged(after, hash, noteId, content)
      && NoteStateOf(after, other) == NoteStateOf(notes, other)
  {
  }

  /** Strict lexicographic order on strings, the order SQLite's
      `ORDER BY timestamp` uses for ISO-8601 text. */
  predicate LexLess(a: string, b: string)
    decreases |a|
  {
    if a == [] then b != []
    else b != [] && (a[0] < b[0] || (a[0] == b[0] && LexLess(a[1..], b[1..])))
  }

  lemma {:induction false} LexLessIrreflexive(a: string)
    ensures !LexLess(a, a)
    decreases |a|
  {
    if a != [] {
      LexLessIrreflexive(a[1..]);
    }
  }

  lemma {:induction false} LexLessTransitive(a: string, b: string, c: string)
    requires LexLess(a, b) && LexLess(b, c)
    ensures LexLess(a, c)
    decreases |a|
  {
    if a != [] && a[0] == b[0] && b[0] == c[0] {
      LexLessTransitive(a[1..], b[1..], c[1..]);
    }
  }

  lemma {:induction false} LexLessAsymmetric(a: string, b: string)
    requires LexLess(a, b)
    ensures !LexLess(b, a)
    decreases |a|
  {
    if a != [] && a[0] == b[0] {
      LexLessAsymmetric(a[1..], b[1..]);
    }
  }

  lemma {:induction false} LexLessTotal(a: string, b: string)
    ensures LexLess(a, b) || a == b || LexLess(b, a)
    decreases |a|
  {
    if a != [] && b != [] && a[0] == b[0] {
      LexLessTotal(a[1..], b[1..]);
      if a[1..] == b[1..] {
        assert a == [a[0]] + a[1..] && b == [b[0]] + b[1..];
      }
    }
  }

  /** A row `ORDER BY timestamp DESC LIMIT 1` may select: an entry whose
      timestamp no other entry exceeds. SQLite leaves open which of several
      entries with the same timestamp it picks; among those the model picks
      the latest appended. */
  function LatestEntry(log: seq<LogEntry>): (r: Option<LogEntry>)
    ensures r.None? <==> log == []
    ensures r.Some? ==> r.value in log
    ensures r.Some? ==> forall i :: 0 <= i < |log| ==> !LexLess(r.value.timestamp, log[i].timestamp)
    decreases |log|
  {
    if log == [] then None
    else
      var last := log[|log| - 1];
      match LatestEntry(log[..|log| - 1])
      case None =>
        assert log == [last];
        LexLessIrreflexive(last.timestamp);
        Some(last)
      case Some(best) =>
        if LexLess(last.timestamp, best.timestamp) then
          assert forall i :: 0 <= i < |log| - 1 ==> log[i] == log[..|log| - 1][i];
          LexLessAsymmetric(last.timestamp, best.timestamp);
          Some(best)
        else
          assert forall i :: 0 <= i < |log| - 1 ==> log[i] == log[..|log| - 1][i];
          LexLessTotal(last.timestamp, best.timestamp);
          assert forall i :: 0 <= i < |log| - 1 ==> !LexLess(last.timestamp, log[i].timestamp) by {
            forall i | 0 <= i < |log| - 1 ensures !LexLess(last.timestamp, log[i].timestamp) {
              if LexLess(last.timestamp, log[i].timestamp) {
                if last.timestamp != best.timestamp {
                  LexLessTransitive(best.timestamp, last.timestamp, log[i].timestamp);
                }
              }
            }
          }
          LexLessIrreflexive(last.timestamp);
          Some(last)
  }

  /** `get_stats`. */
  function StatsOf(notes: map<string, NoteState>, log: seq<LogEntry>): (s: Stats)
    ensures s.totalNotes == |notes.Keys|
    ensures s.lastSync.Some? <==> log != []
    ensures s.lastSync.Some? ==> s.lastSync.value in log
    ensures s.lastSync.Some? ==> forall i :: 0 <= i < |log| ==> !LexLess(s.lastSync.value.timestamp, log[i].timestamp)
  {
    Stats(|notes.Keys|, LatestEntry(log))
  }

  /** The store of one database file. */
  class StateManager {
    /** `StateManager.compute_hash`: SHA-256 as an uninterpreted function. */
    const computeHash: string -> string
    /** The `notes` table. */
    var notes: map<string, NoteState>
    /** The `sync_log` table, oldest row first. */
    var syncLog: seq<LogEntry>

    ghost predicate Valid()
      reads this
    {
      WellKeyed(notes)
    }

    /** Opens the database holding the given tables (`_ensure_db_exists`
        creates them empty on first use). */
    constructor (computeHash: string -> string, notes: map<string, NoteState>, syncLog: seq<LogEntry>)
      requires WellKeyed(notes)
      ensures Valid()
      ensures this.computeHash == computeHash && this.notes == notes && this.syncLog == syncLog
    {
      this.computeHash := computeHash;
      this.notes := notes;
      this.syncLog := syncLog;
    }

    /** `get_note_state`. */
    function GetNoteState(noteId: string): (r: Option<NoteState>)
      reads this
      ensures r.Some? <==> noteId in notes
      ensures r.Some? ==> r.value == notes[noteId]
    {
      NoteStateOf(notes, noteId)
    }

    /** `has_note_changed`: true exactly when there is no row for the note or
        its stored hash differs from the hash of `content`; reads only. */
    function HasNoteChanged(noteId: string, content: string): (r: bool)
      reads this
      ensures r <==> GetNoteState(noteId).None? || GetNoteState(noteId).value.contentHash != computeHash(content)
    {
      NoteChanged(notes, computeHash, noteId, content)
    }

    /** `get_all_synced_note_ids`: the key set of the `notes` table. */
    function GetAllSyncedNoteIds(): (r: set<string>)
      reads this
      ensures forall id :: id in r <==> GetNoteState(id).Some?
    {
      notes.Keys
    }

    /** `get_stats`. */
    function GetStats(): (s: Stats)
      reads this
      ensures s.totalNotes == |notes.Keys|
      ensures s.lastSync.Some? <==> syncLog != []
      ensures s.lastSync.Some? ==> s.lastSync.value in syncLog
      ensures s.lastSync.Some? ==> forall i :: 0 <= i < |syncLog| ==> !LexLess(s.lastSync.value.timestamp, syncLog[i].timestamp)
    {
      StatsOf(notes, syncLog)
    }

    /** `save_note_state`: INSERT OR REPLACE of the row for `noteId`. */
    method SaveNoteState(noteId: string, title: string, content: string, fileId: Option<string>, now: string)
      requires Valid()
      modifies this
      ensures Valid()
      ensures notes == Saved(old(notes), computeHash, noteId, title, content, fileId, now)
      ensures syncLog == old(syncLog)
      ensures GetNoteState(noteId) == Some(NoteState(noteId, title, computeHash(content), now, fileId))
      ensures !HasNoteChanged(noteId, content)
      ensures forall id :: id != noteId ==> GetNoteState(id) == old(GetNoteState(id))
    {
      notes := notes[noteId := NoteState(noteId, title, computeHash(content), now, fileId)];
    }

    /** `delete_note_state`: removes the row if there is one. */
    method DeleteNoteState(noteId: string)
      requires Valid()
      modifies this
      ensures Valid()
      ensures notes == old(notes) - {noteId}
      ensures noteId !in old(notes) ==> notes == old(notes)
      ensures syncLog == old(syncLog)
      ensures GetNoteState(noteId) == None
      ensures forall id :: id != noteId ==> GetNoteState(id) == old(GetNoteState(id))
    {
      notes := notes - {noteId};
    }

    /** `log_sync`: appends one row to the log; the notes table is untouched. */
    method LogSync(notesSynced: int, notesUpdated: int, notesDeleted: int, errors: int, now: string)
      requires Valid()
      modifies this
      ensures Valid()
      ensures syncLog == old(syncLog) + [LogEntry(now, notesSynced, notesUpdated, notesDeleted, errors)]
      ensures notes == old(notes)
    {
      syncLog := syncLog + [LogEntry(now, notesSynced, notesUpdated, notesDeleted, errors)];
    }
  }
}
