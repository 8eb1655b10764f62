/**
 * Properties of whole runs of the sync engine (src/jopper/sync.py), stated
 * about the specification function `Sync.Run` that `SyncEngine.Sync` is
 * proved to compute.
 */
module SyncProofs {
  import opened Wrappers
  import opened Config
  import opened State
  import opened Joplin
  import opened OpenWebUI
  import opened Sync

  /** Joplin note ids identify notes: two fetched entries with the same id
      are the same note. */
  predicate IdsIdentify(ns: seq<Note>) {
    forall i, j :: 0 <= i < |ns| && 0 <= j < |ns| && ns[i].id == ns[j].id ==> ns[i] == ns[j]
  }

  lemma IdsIdentifyPrefix(ns: seq<Note>)
    requires IdsIdentify(ns) && ns != []
    ensures IdsIdentify(ns[..|ns| - 1])
    ensures forall i :: 0 <= i < |ns| && ns[i].id == ns[|ns| - 1].id ==> ns[i] == ns[|ns| - 1]
  {
    var init := ns[..|ns| - 1];
    forall i, j | 0 <= i < |init| && 0 <= j < |init| && init[i].id == init[j].id ensures init[i] == init[j] {
      assert init[i] == ns[i] && init[j] == ns[j];
    }
  }

  /** The notes pass once the fetch has succeeded. */
  function NotesOf(e: RunEnv, notes: map<string, NoteState>, ns: seq<Note>): Pass {
    NotesPass(e, notes.Keys, Pass(notes, NoCounts), ns)
  }

  /** Every counter of a finished run counts one iteration: their sum is at
      most the number of fetched notes plus the number of vanished ids. */
  lemma RunCountsBounded(e: RunEnv, sc: SyncConfig, notes: map<string, NoteState>, log: seq<LogEntry>)
    requires !NothingToSync(sc) && Fetch(e.src, sc).Some?
    ensures var r := Run(e, sc, notes, log).outcome.result;
            var ns := Fetch(e.src, sc).value;
            r.notesSynced + r.notesUpdated + r.notesDeleted + r.errors <= |ns| + |notes.Keys - IdsOf(ns)|
  {
    var ns := Fetch(e.src, sc).value;
    var p := NotesOf(e, notes, ns);
    var q := DeletePass(e, p, notes.Keys - IdsOf(ns));
    assert Total(q.counts) == Total(p.counts) + |notes.Keys - IdsOf(ns)|;
  }

  /** The ids the deletion pass walks are exactly the stored ids that were
      not fetched: such an id keeps its row exactly when it is not
      removable, an id that was fetched is only touched by its own
      iteration, and no row appears for an id neither stored nor fetched. */
  lemma RunRemovesVanished(e: RunEnv, sc: SyncConfig, notes: map<string, NoteState>, log: seq<LogEntry>, id: string)
    requires !NothingToSync(sc) && Fetch(e.src, sc).Some?
    ensures var ns := Fetch(e.src, sc).value;
            var r := Run(e, sc, notes, log);
            && (id in notes && id !in IdsOf(ns) ==> (id in r.notes <==> !Removable(e, notes, id)))
            && (id in IdsOf(ns) ==> NoteStateOf(r.notes, id) == NoteStateOf(NotesOf(e, notes, ns).notes, id))
            && (id !in notes && id !in IdsOf(ns) ==> id !in r.notes)
  {
    var ns := Fetch(e.src, sc).value;
    var p := NotesOf(e, notes, ns);
    if id !in IdsOf(ns) {
      assert NoteStateOf(p.notes, id) == NoteStateOf(notes, id);
      assert Removable(e, p.notes, id) == Removable(e, notes, id);
    }
  }

  /** A run that started with an empty state store reports no updated and
      no deleted notes. */
  lemma FirstRunOnlyCreates(e: RunEnv, sc: SyncConfig, log: seq<LogEntry>)
    requires !NothingToSync(sc) && Fetch(e.src, sc).Some?
    ensures var r := Run(e, sc, map[], log).outcome.result;
            r.notesUpdated == 0 && r.notesDeleted == 0
  {
    var ns := Fetch(e.src, sc).value;
    var empty: map<string, NoteState> := map[];
    NotesPassNothingKnown(e, {}, Pass(empty, NoCounts), ns);
    assert empty.Keys - IdsOf(ns) == {};
    DeletePassEmpty(e, NotesOf(e, empty, ns));
  }

  /** With no id known before the run, no note counts as updated. */
  lemma {:induction false} NotesPassNothingKnown(e: RunEnv, known: set<string>, p: Pass, ns: seq<Note>)
    requires forall i :: 0 <= i < |ns| ==> ns[i].id !in known
    ensures NotesPass(e, known, p, ns).counts.updated == p.counts.updated
    decreases |ns|
  {
    if ns != [] {
      NotesPassNothingKnown(e, known, p, ns[..|ns| - 1]);
    }
  }

  /** The answers of `DELETE /api/v1/files/{id}` and of the collection add
      play no part in the notes pass: the delete of the old file before a
      re-upload is fire and forget. */
  lemma {:induction false} NotesPassIgnoresDelete(e1: RunEnv, e2: RunEnv, known: set<string>, p: Pass, ns: seq<Note>)
    requires e2 == e1.(http := e2.http)
    requires e2.http.upload == e1.http.upload
    ensures NotesPass(e1, known, p, ns) == NotesPass(e2, known, p, ns)
    decreases |ns|
  {
    if ns != [] {
      var n := ns[|ns| - 1];
      NotesPassIgnoresDelete(e1, e2, known, p, ns[..|ns| - 1]);
      var content := FormatNoteContent(e1.src, n);
      SyncNoteIgnoresAttach(e1.owui, e1.http, e2.http, n.id, n.title, content);
    }
  }

  /** A pass over notes the store already holds, in a run in which the store
      never raises for them, changes nothing. */
  lemma {:induction false} NotesPassQuiet(e: RunEnv, known: set<string>, p: Pass, ns: seq<Note>)
    requires forall i :: 0 <= i < |ns| ==> !e.fails(ns[i].id) && !Pending(e, p.notes, ns[i])
    ensures NotesPass(e, known, p, ns) == p
    decreases |ns|
  {
    if ns != [] {
      var init := ns[..|ns| - 1];
      assert forall i :: 0 <= i < |init| ==> !e.fails(init[i].id) && !Pending(e, p.notes, init[i]) by {
        forall i | 0 <= i < |init| ensures !e.fails(init[i].id) && !Pending(e, p.notes, init[i]) {
          assert init[i] == ns[i];
        }
      }
      NotesPassQuiet(e, known, p, init);
      assert NotesPass(e, known, p, ns) == NoteStep(e, known, p, ns[|ns| - 1]);
    }
  }

  /** A step without error leaves its note settled. */
  lemma NoteStepSettles(e: RunEnv, known: set<string>, p: Pass, n: Note)
    requires NoteStep(e, known, p, n).counts.errors == p.counts.errors
    ensures var q := NoteStep(e, known, p, n);
            n.id in q.notes && !Pending(e, q.notes, n)
  {
  }

  /** A step for one note leaves every other note as settled as it was. */
  lemma NoteStepKeepsSettled(e: RunEnv, known: set<string>, p: Pass, n: Note, m: Note)
    requires m.id != n.id && m.id in p.notes && !Pending(e, p.notes, m)
    ensures var q := NoteStep(e, known, p, n);
            m.id in q.notes && !Pending(e, q.notes, m)
  {
    var q := NoteStep(e, known, p, n);
    assert NoteStateOf(q.notes, m.id) == NoteStateOf(p.notes, m.id);
  }

  /** After a notes pass without errors, every fetched note has a row that
      matches its current content. */
  lemma {:induction false} NotesPassSettles(e: RunEnv, known: set<string>, p: Pass, ns: seq<Note>)
    requires IdsIdentify(ns)
    requires NotesPass(e, known, p, ns).counts.errors == p.counts.errors
    ensures var q := NotesPass(e, known, p, ns);
            forall i :: 0 <= i < |ns| ==> ns[i].id in q.notes && !Pending(e, q.notes, ns[i])
    decreases |ns|
  {
    if ns != [] {
      var init := ns[..|ns| - 1];
      var last := ns[|ns| - 1];
      var q' := NotesPass(e, known, p, init);
      var q := NotesPass(e, known, p, ns);
      assert q == NoteStep(e, known, q', last);
      IdsIdentifyPrefix(ns);
      NotesPassSettles(e, known, p, init);
      NoteStepSettles(e, known, q', last);
      forall i | 0 <= i < |init| && init[i].id != last.id ensures init[i].id in q.notes && !Pending(e, q.notes, init[i]) {
        NoteStepKeepsSettled(e, known, q', last, init[i]);
      }
      forall i | 0 <= i < |ns| - 1 ensures ns[i].id in q.notes && !Pending(e, q.notes, ns[i]) {
        assert ns[i] == init[i];
      }
    }
  }

  /** After a run without errors, the notes table holds exactly the fetched
      ids, each with a row matching its note's current content. */
  lemma KeysAfterCleanRun(e: RunEnv, sc: SyncConfig, notes: map<string, NoteState>, log: seq<LogEntry>)
    requires !NothingToSync(sc) && Fetch(e.src, sc).Some?
    requires IdsIdentify(Fetch(e.src, sc).value)
    requires Run(e, sc, notes, log).outcome.result.errors == 0
    ensures var ns := Fetch(e.src, sc).value;
            var r := Run(e, sc, notes, log);
            && r.notes.Keys == IdsOf(ns)
            && forall i :: 0 <= i < |ns| ==> !Pending(e, r.notes, ns[i])
  {
    var ns := Fetch(e.src, sc).value;
    var p := NotesOf(e, notes, ns);
    var q := DeletePass(e, p, notes.Keys - IdsOf(ns));
    assert Run(e, sc, notes, log).notes == q.notes && q.counts.errors == 0;
    FetchedSettled(e, notes, ns);
    NoStrayRows(e, notes, ns);
    KeysOfFetched(q.notes, ns);
  }

  /** A table that has a row for every fetched note and no other row has the
      fetched ids as its keys. */
  lemma KeysOfFetched(m: map<string, NoteState>, ns: seq<Note>)
    requires forall i :: 0 <= i < |ns| ==> ns[i].id in m
    requires forall id :: id in m ==> id in IdsOf(ns)
    ensures m.Keys == IdsOf(ns)
  {
    forall id | id in IdsOf(ns) ensures id in m {
      var i :| 0 <= i < |ns| && ns[i].id == id;
    }
  }

  /** After a clean run every fetched note has a settled row. */
  lemma FetchedSettled(e: RunEnv, notes: map<string, NoteState>, ns: seq<Note>)
    requires IdsIdentify(ns)
    requires DeletePass(e, NotesOf(e, notes, ns), notes.Keys - IdsOf(ns)).counts.errors == 0
    ensures var q := DeletePass(e, NotesOf(e, notes, ns), notes.Keys - IdsOf(ns));
            forall i :: 0 <= i < |ns| ==> ns[i].id in q.notes && !Pending(e, q.notes, ns[i])
  {
    var p := NotesOf(e, notes, ns);
    var d := notes.Keys - IdsOf(ns);
    var q := DeletePass(e, p, d);
    assert p.counts.errors == 0 by {
      assert p.counts.errors <= q.counts.errors;
    }
    NotesPassSettles(e, notes.Keys, Pass(notes, NoCounts), ns);
    forall i | 0 <= i < |ns| ensures ns[i].id in q.notes && !Pending(e, q.notes, ns[i]) {
      assert ns[i].id !in d by {
        assert ns[i].id in IdsOf(ns);
      }
      PendingByRow(e, p.notes, q.notes, ns[i]);
    }
  }

  /** Whether a note is pending depends on its own row only. */
  lemma PendingByRow(e: RunEnv, m1: map<string, NoteState>, m2: map<string, NoteState>, n: Note)
    requires NoteStateOf(m1, n.id) == NoteStateOf(m2, n.id)
    ensures (n.id in m1 <==> n.id in m2) && (Pending(e, m1, n) <==> Pending(e, m2, n))
  {
  }

  /** After a clean run no row is left for an id that was not fetched. */
  lemma NoStrayRows(e: RunEnv, notes: map<string, NoteState>, ns: seq<Note>)
    requires DeletePass(e, NotesOf(e, notes, ns), notes.Keys - IdsOf(ns)).counts.errors == 0
    ensures var q := DeletePass(e, NotesOf(e, notes, ns), notes.Keys - IdsOf(ns));
            forall id :: id in q.notes ==> id in IdsOf(ns)
  {
    var p := NotesOf(e, notes, ns);
    var q := DeletePass(e, p, notes.Keys - IdsOf(ns));
    forall id | id !in IdsOf(ns) ensures id !in q.notes {
      assert NoteStateOf(p.notes, id) == NoteStateOf(notes, id);
    }
  }

  /** Idempotence: after a run that finished without errors, a second run
      against the same notes and the same hash function, in which the store
      raises for none of them, reports 0/0/0/0 and leaves the notes table as
      it was. */
  lemma SecondRunIsQuiet(e1: RunEnv, e2: RunEnv, sc: SyncConfig, notes: map<string, NoteState>, log: seq<LogEntry>)
    requires e2.src == e1.src && e2.hash == e1.hash
    requires !NothingToSync(sc) && Fetch(e1.src, sc).Some?
    requires IdsIdentify(Fetch(e1.src, sc).value)
    requires Run(e1, sc, notes, log).outcome.result.errors == 0
    requires forall id :: id in IdsOf(Fetch(e1.src, sc).value) ==> !e2.fails(id)
    ensures var r1 := Run(e1, sc, notes, log);
            var r2 := Run(e2, sc, r1.notes, r1.log);
            r2.outcome == Finished(ResultOf(NoCounts)) && r2.notes == r1.notes
  {
    var ns := Fetch(e1.src, sc).value;
    var r1 := Run(e1, sc, notes, log);
    KeysAfterCleanRun(e1, sc, notes, log);
    forall i | 0 <= i < |ns| ensures !e2.fails(ns[i].id) && !Pending(e2, r1.notes, ns[i]) {
      assert ns[i].id in IdsOf(ns);
      assert !Pending(e1, r1.notes, ns[i]);
    }
    NotesPassQuiet(e2, r1.notes.Keys, Pass(r1.notes, NoCounts), ns);
    assert r1.notes.Keys - IdsOf(ns) == {};
    DeletePassEmpty(e2, Pass(r1.notes, NoCounts));
  }
}
