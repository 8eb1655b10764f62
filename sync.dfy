/**
 * The sync engine (src/jopper/sync.py). One run of `SyncEngine.sync` is the
 * method `SyncEngine.Sync`, proved equal to the specification function
 * `Run`, which is built from one step per fetched note (`NoteStep`, folded
 * by `NotesPass`) and the deletion pass (`DeletePass`).
 *
 * The outside world of a run is a `RunEnv`: the Joplin server, the OpenWebUI
 * server, the hash function of the state store, the timestamp of the run and
 * `fails`, which says for which note ids the state store raises inside the
 * `try` of their iteration.
 */
module Sync {
  import opened Wrappers
  import opened Text
  import opened Config
  import opened State
  import opened Joplin
  import opened OpenWebUI

  // ---------------------------------------------------------------------
  // Rendering (`_format_note_content`)
  // ---------------------------------------------------------------------

  /** `note.get("title") or "Untitled"`. */
  function DisplayTitle(n: Note): (t: string)
    ensures t != ""
    ensures n.title != "" ==> t == n.title
  {
    if n.title == "" then "Untitled" else n.title
  }

  /** The H1 heading put in front of the body, "" when the stripped body
      already opens with it. */
  function Heading(n: Note): (h: string)
    ensures h == "" <==> StartsWith(Strip(n.body), "# " + DisplayTitle(n))
    ensures h != "" ==> h == "# " + DisplayTitle(n) + "\n\n"
  {
    if StartsWith(Strip(n.body), "# " + DisplayTitle(n)) then "" else "# " + DisplayTitle(n) + "\n\n"
  }

  /** The "Last updated" footer, present exactly when the note has an update time. */
  function Footer(n: Note): (f: string)
    ensures f == "" <==> n.updatedTime == ""
    ensures f != "" ==> f == "\n\n---\n*Last updated: " + n.updatedTime + "*\n"
  {
    if n.updatedTime == "" then "" else "\n\n---\n*Last updated: " + n.updatedTime + "*\n"
  }

  /** The notebook line, present exactly when the note has a parent notebook
      whose title can be looked up and is not empty. */
  function NotebookLine(src: Server, n: Note): (l: string)
    ensures l == "" <==> n.parentId == "" || GetNotebookTitle(src, n.parentId) == ""
    ensures l != "" ==> l == "*Notebook: " + GetNotebookTitle(src, n.parentId) + "*\n"
  {
    if n.parentId == "" then ""
    else
      var nb := GetNotebookTitle(src, n.parentId);
      if nb == "" then "" else "*Notebook: " + nb + "*\n"
  }

  /** `_format_note_content`: the heading when needed, the body verbatim,
      then the footer and the notebook line. After leading white space the
      result always opens with the note's heading. */
  function FormatNoteContent(src: Server, n: Note): (r: string)
    ensures StartsWith(LStrip(r), "# " + DisplayTitle(n))
    ensures |r| == |Heading(n)| + |n.body| + |Footer(n) + NotebookLine(src, n)|
    ensures r[..|Heading(n)|] == Heading(n)
    ensures r[|Heading(n)|..|Heading(n)| + |n.body|] == n.body
    ensures r[|Heading(n)| + |n.body|..] == Footer(n) + NotebookLine(src, n)
  {
    var h := Heading(n);
    var rest := Footer(n) + NotebookLine(src, n);
    var r := h + n.body + rest;
    Concat3(h, n.body, rest);
    var p := "# " + DisplayTitle(n);
    assert StartsWith(LStrip(r), p) by {
      if h == "" {
        EmptyHead(h, n.body, rest);
        StrippedPrefix(n.body, rest, p);
      } else {
        assert StartsWith(h, p);
        Assoc(h, n.body, rest);
        StartsWithAppend(h, n.body + rest, p);
        assert r[0] == p[0] == '#';
      }
    }
    r
  }

  /** Rendering is not injective: a body that is exactly the heading gives
      the same content as an empty body, so editing one into the other is
      not seen as a change. */
  lemma RenderingMergesHeadingOnly()
    ensures var n1 := Note("n", "T", "", "", "");
            var n2 := Note("n", "T", "# T\n\n", "", "");
            n1 != n2 && FormatNoteContent(Server(false, [], [], map[], map[]), n1) ==
                        FormatNoteContent(Server(false, [], [], map[], map[]), n2)
  {
    var src := Server(false, [], [], map[], map[]);
    var n1 := Note("n", "T", "", "", "");
    var n2 := Note("n", "T", "# T\n\n", "", "");
    HeadingOnlyStrips();
    assert Heading(n2) == "";
    assert Heading(n1) == "# T\n\n" by {
      assert Strip("") == "";
    }
    assert FormatNoteContent(src, n1) == "# T\n\n" + "" + "" + "";
    assert FormatNoteContent(src, n2) == "" + "# T\n\n" + "" + "";
  }

  lemma HeadingOnlyStrips()
    ensures Strip("# T\n\n") == "# T"
  {
    assert LStrip("# T\n\n") == "# T\n\n";
    assert RStrip("# T\n\n") == RStrip("# T\n") == RStrip("# T");
  }

  // ---------------------------------------------------------------------
  // One run, as a function of its inputs
  // ---------------------------------------------------------------------

  /** The four counters of a run. */
  datatype Counts = Counts(synced: nat, updated: nat, deleted: nat, errors: nat)

  const NoCounts := Counts(0, 0, 0, 0)

  function Total(c: Counts): nat {
    c.synced + c.updated + c.deleted + c.errors
  }

  /** The dictionary `sync` returns. */
  datatype SyncResult = SyncResult(success: bool, notesSynced: nat, notesUpdated: nat, notesDeleted: nat, errors: nat)

  /** A run either returns its result or lets the exception of the note
      fetch propagate to the caller. */
  datatype RunOutcome = Finished(result: SyncResult) | FetchFailed

  function ResultOf(c: Counts): SyncResult {
    SyncResult(true, c.synced, c.updated, c.deleted, c.errors)
  }

  datatype RunEnv = RunEnv(
    hash: string -> string,
    src: Server,
    http: Http,
    owui: OpenWebUIClient,
    fails: string -> bool,
    now: string)

  /** The notes table and the counters between two iterations. */
  datatype Pass = Pass(notes: map<string, NoteState>, counts: Counts)

  /** Whether `n` needs uploading: it has no row or its content changed. */
  predicate Pending(e: RunEnv, notes: map<string, NoteState>, n: Note) {
    NoteChanged(notes, e.hash, n.id, FormatNoteContent(e.src, n))
  }

  /** One iteration of the loop over the fetched notes. `known` is the set
      of synced ids taken before the loop; a note outside it is new. */
  function NoteStep(e: RunEnv, known: set<string>, p: Pass, n: Note): (q: Pass)
    ensures Total(q.counts) <= Total(p.counts) + 1
    ensures q.counts.synced >= p.counts.synced && q.counts.updated >= p.counts.updated
    ensures q.counts.deleted == p.counts.deleted && q.counts.errors >= p.counts.errors
    ensures q.counts.synced > p.counts.synced ==> n.id !in known
    ensures q.counts.updated > p.counts.updated ==> n.id in known
    ensures !e.fails(n.id) && !Pending(e, p.notes, n) ==> q == p
    ensures q.counts.errors > p.counts.errors ==> q.notes == p.notes
    ensures q.counts.errors == p.counts.errors ==> !Pending(e, q.notes, n)
    ensures q.notes != p.notes ==>
              q.notes == Saved(p.notes, e.hash, n.id, n.title, FormatNoteContent(e.src, n),
                               e.owui.SyncNoteResult(e.http, n.id, n.title, FormatNoteContent(e.src, n)), e.now)
    ensures forall id :: id != n.id ==> NoteStateOf(q.notes, id) == NoteStateOf(p.notes, id)
    ensures WellKeyed(p.notes) ==> WellKeyed(q.notes)
  {
    var c := p.counts;
    if e.fails(n.id) then Pass(p.notes, c.(errors := c.errors + 1))
    else
      var content := FormatNoteContent(e.src, n);
      if !NoteChanged(p.notes, e.hash, n.id, content) then p
      else Upload(e, known, p, n, content)
  }

  /** The changed-note branch of `NoteStep`: upload, then save the row and
      count the note as new or updated, or count an error and save nothing. */
  function Upload(e: RunEnv, known: set<string>, p: Pass, n: Note, content: string): (q: Pass)
    ensures Total(q.counts) == Total(p.counts) + 1
    ensures q.counts.deleted == p.counts.deleted
    ensures q.counts.synced > p.counts.synced ==> n.id !in known && q.counts == p.counts.(synced := p.counts.synced + 1)
    ensures q.counts.updated > p.counts.updated ==> n.id in known && q.counts == p.counts.(updated := p.counts.updated + 1)
    ensures q.counts.errors > p.counts.errors ==> q == Pass(p.notes, p.counts.(errors := p.counts.errors + 1))
    ensures q.counts.errors == p.counts.errors ==> !NoteChanged(q.notes, e.hash, n.id, content)
    ensures q.notes != p.notes ==>
              q.notes == Saved(p.notes, e.hash, n.id, n.title, content, e.owui.SyncNoteResult(e.http, n.id, n.title, content), e.now)
    ensures forall id :: id != n.id ==> NoteStateOf(q.notes, id) == NoteStateOf(p.notes, id)
    ensures WellKeyed(p.notes) ==> WellKeyed(q.notes)
  {
    var c := p.counts;
    match e.owui.SyncNoteResult(e.http, n.id, n.title, content)
    case None => Pass(p.notes, c.(errors := c.errors + 1))
    case Some(fid) =>
      var notes := Saved(p.notes, e.hash, n.id, n.title, content, Some(fid), e.now);
      assert !NoteChanged(notes, e.hash, n.id, content);
      if n.id in known then Pass(notes, c.(updated := c.updated + 1))
      else Pass(notes, c.(synced := c.synced + 1))
  }

  /** The ids of a list of notes. */
  function IdsOf(ns: seq<Note>): set<string> {
    set i | 0 <= i < |ns| :: ns[i].id
  }

  /** The loop over the fetched notes. */
  function NotesPass(e: RunEnv, known: set<string>, p: Pass, ns: seq<Note>): (q: Pass)
    ensures Total(q.counts) <= Total(p.counts) + |ns|
    ensures q.counts.synced >= p.counts.synced && q.counts.updated >= p.counts.updated
    ensures q.counts.deleted == p.counts.deleted && q.counts.errors >= p.counts.errors
    ensures forall id :: id !in IdsOf(ns) ==> NoteStateOf(q.notes, id) == NoteStateOf(p.notes, id)
    ensures WellKeyed(p.notes) ==> WellKeyed(q.notes)
    decreases |ns|
  {
    if ns == [] then p
    else
      var init := ns[..|ns| - 1];
      assert IdsOf(init) <= IdsOf(ns) by {
        forall id | id in IdsOf(init) ensures id in IdsOf(ns) {
          var i :| 0 <= i < |init| && init[i].id == id;
          assert ns[i] == init[i];
        }
      }
      assert ns[|ns| - 1].id in IdsOf(ns);
      NoteStep(e, known, NotesPass(e, known, p, init), ns[|ns| - 1])
  }

  /** A deleted id whose row and remote file can be removed: the store does
      not raise, and the row has no file id or the remote delete succeeds. */
  predicate Removable(e: RunEnv, notes: map<string, NoteState>, id: string) {
    !e.fails(id) &&
    (id !in notes || !HasFile(notes[id]) || e.owui.DeleteFile(e.http, notes[id].openwebuiFileId.value))
  }

  /** The deleted ids the deletion pass removes. */
  function Gone(e: RunEnv, notes: map<string, NoteState>, deleted: set<string>): (g: set<string>)
    ensures g <= deleted
    ensures forall id :: id in g <==> id in deleted && Removable(e, notes, id)
  {
    set id | id in deleted && Removable(e, notes, id)
  }

  lemma CardSplit(a: set<string>, b: set<string>)
    requires b <= a
    ensures |a| == |b| + |a - b|
  {
    assert a == b + (a - b);
  }

  /** The loop over the deleted ids. Every id counts once: as deleted when
      its row goes, as an error when it stays. Which ids go does not depend
      on the order the set is walked in. */
  function DeletePass(e: RunEnv, p: Pass, deleted: set<string>): (q: Pass)
    ensures forall id :: id in deleted ==> (id in q.notes <==> id in p.notes && !Removable(e, p.notes, id))
    ensures forall id :: id !in deleted ==> NoteStateOf(q.notes, id) == NoteStateOf(p.notes, id)
    ensures q.counts.deleted + q.counts.errors == p.counts.deleted + p.counts.errors + |deleted|
    ensures q.counts.synced == p.counts.synced && q.counts.updated == p.counts.updated
    ensures q.counts.deleted >= p.counts.deleted && q.counts.errors >= p.counts.errors
    ensures q.counts.errors == p.counts.errors <==> forall id :: id in deleted ==> Removable(e, p.notes, id)
    ensures WellKeyed(p.notes) ==> WellKeyed(q.notes)
  {
    var g := Gone(e, p.notes, deleted);
    CardSplit(deleted, g);
    assert (forall id :: id in deleted ==> Removable(e, p.notes, id)) <==> deleted - g == {};
    Pass(p.notes - g, p.counts.(deleted := p.counts.deleted + |g|, errors := p.counts.errors + |deleted - g|))
  }

  /** One iteration of the loop over the deleted ids. */
  function DeleteStep(e: RunEnv, p: Pass, id: string): (q: Pass)
    ensures Removable(e, p.notes, id) ==> q.notes == p.notes - {id} && q.counts == p.counts.(deleted := p.counts.deleted + 1)
    ensures !Removable(e, p.notes, id) ==> q.notes == p.notes && q.counts == p.counts.(errors := p.counts.errors + 1)
  {
    if Removable(e, p.notes, id) then Pass(p.notes - {id}, p.counts.(deleted := p.counts.deleted + 1))
    else Pass(p.notes, p.counts.(errors := p.counts.errors + 1))
  }

  /** Removing or keeping the row of `id` does not change whether any other
      id is removable. */
  lemma GoneAfterStep(e: RunEnv, p: Pass, s: set<string>, id: string)
    requires id in s
    ensures Gone(e, DeleteStep(e, p, id).notes, s - {id}) == Gone(e, p.notes, s) - {id}
  {
    var n' := DeleteStep(e, p, id).notes;
    forall x | x in s - {id} ensures Removable(e, n', x) == Removable(e, p.notes, x) {
      assert (x in n') == (x in p.notes);
      if x in p.notes {
        assert n'[x] == p.notes[x];
      }
    }
  }

  lemma MinusRemovedKey(m: map<string, NoteState>, g: set<string>, id: string)
    requires id in g
    ensures (m - {id}) - (g - {id}) == m - g
  {
  }

  /** The deletion pass over a set is its iteration for any one member
      followed by the pass over the rest: the order of the walk does not
      matter. */
  lemma DeletePassPeel(e: RunEnv, p: Pass, s: set<string>, id: string)
    requires id in s
    ensures DeletePass(e, p, s) == DeletePass(e, DeleteStep(e, p, id), s - {id})
  {
    GoneAfterStep(e, p, s, id);
    if Removable(e, p.notes, id) {
      PeelRemoved(e, p, s, id);
    } else {
      PeelKept(e, p, s, id);
    }
  }

  lemma PeelRemoved(e: RunEnv, p: Pass, s: set<string>, id: string)
    requires id in s && Removable(e, p.notes, id)
    requires Gone(e, DeleteStep(e, p, id).notes, s - {id}) == Gone(e, p.notes, s) - {id}
    ensures DeletePass(e, p, s) == DeletePass(e, DeleteStep(e, p, id), s - {id})
  {
    var g := Gone(e, p.notes, s);
    var p' := Pass(p.notes - {id}, p.counts.(deleted := p.counts.deleted + 1));
    assert DeleteStep(e, p, id) == p';
    assert p'.notes - (g - {id}) == p.notes - g by {
      MinusRemovedKey(p.notes, g, id);
    }
    assert (s - {id}) - (g - {id}) == s - g;
    assert |g| == |g - {id}| + 1 by {
      assert g == (g - {id}) + {id};
      AddFresh(g - {id}, id);
    }
  }

  lemma PeelKept(e: RunEnv, p: Pass, s: set<string>, id: string)
    requires id in s && !Removable(e, p.notes, id)
    requires Gone(e, DeleteStep(e, p, id).notes, s - {id}) == Gone(e, p.notes, s) - {id}
    ensures DeletePass(e, p, s) == DeletePass(e, DeleteStep(e, p, id), s - {id})
  {
    var g := Gone(e, p.notes, s);
    var p' := Pass(p.notes, p.counts.(errors := p.counts.errors + 1));
    assert DeleteStep(e, p, id) == p';
    assert Gone(e, p'.notes, s - {id}) == g by {
      assert id !in g;
      assert g - {id} == g;
    }
    assert |s - g| == |(s - {id}) - g| + 1 by {
      var d := (s - {id}) - g;
      assert s - g == d + {id};
      AddFresh(d, id);
    }
  }

  lemma AddFresh(d: set<string>, id: string)
    requires id !in d
    ensures |d + {id}| == |d| + 1
  {
  }

  /** The deletion pass over no id changes nothing. */
  lemma DeletePassEmpty(e: RunEnv, p: Pass)
    ensures DeletePass(e, p, {}) == p
  {
    assert Gone(e, p.notes, {}) == {};
    assert p.notes - {} == p.notes;
  }

  /** The notes a run fetches: tagged notes in "tagged" mode, all notes
      otherwise; `None` when the Joplin call raises. */
  function Fetch(src: Server, sc: SyncConfig): Option<seq<Note>> {
    if sc.mode == "tagged" then NotesByTags(src, sc.tags) else GetAllNotes(src)
  }

  /** The configuration asks for nothing: tagged mode without tags. */
  predicate NothingToSync(sc: SyncConfig) {
    sc.mode == "tagged" && sc.tags == []
  }

  /** The outcome of a run and the two tables after it. */
  datatype RunResult = RunResult(outcome: RunOutcome, notes: map<string, NoteState>, log: seq<LogEntry>)

  /** One run of `sync` from the tables `notes` and `log`. */
  function Run(e: RunEnv, sc: SyncConfig, notes: map<string, NoteState>, log: seq<LogEntry>): (r: RunResult)
    ensures NothingToSync(sc) ==> r == RunResult(Finished(ResultOf(NoCounts)), notes, log)
    ensures !NothingToSync(sc) && Fetch(e.src, sc).None? ==> r == RunResult(FetchFailed, notes, log)
    ensures r.outcome.Finished? ==> r.outcome.result.success
    ensures !NothingToSync(sc) && r.outcome.Finished? ==>
              var c := r.outcome.result;
              r.log == log + [LogEntry(e.now, c.notesSynced, c.notesUpdated, c.notesDeleted, c.errors)]
    ensures r.outcome.FetchFailed? || NothingToSync(sc) ==> r.notes == notes && r.log == log
    ensures WellKeyed(notes) ==> WellKeyed(r.notes)
  {
    if NothingToSync(sc) then RunResult(Finished(ResultOf(NoCounts)), notes, log)
    else
      match Fetch(e.src, sc)
      case None => RunResult(FetchFailed, notes, log)
      case Some(ns) =>
        var deleted := notes.Keys - IdsOf(ns);
        var p := NotesPass(e, notes.Keys, Pass(notes, NoCounts), ns);
        var q := DeletePass(e, p, deleted);
        var c := q.counts;
        RunResult(Finished(ResultOf(c)), q.notes, log + [LogEntry(e.now, c.synced, c.updated, c.deleted, c.errors)])
  }

  // ---------------------------------------------------------------------
  // The engine
  // ---------------------------------------------------------------------

  /** The dictionary `get_status` returns. */
  datatype Status = Status(
    joplinHost: string,
    openwebuiUrl: string,
    knowledgeBaseName: string,
    syncMode: string,
    syncTags: seq<string>,
    syncInterval: int,
    stats: Stats)

  class SyncEngine {
    const config: AppConfig
    const state: StateManager
    const openwebui: OpenWebUIClient

    ghost predicate Valid()
      reads this, state, openwebui
    {
      state.Valid() && openwebui.Valid() && openwebui.config == config.openwebui
    }

    /** `SyncEngine(config)`, over a state database holding `notes` and `log`. */
    constructor (config: AppConfig, computeHash: string -> string, notes: map<string, NoteState>, log: seq<LogEntry>)
      requires WellKeyed(notes)
      ensures Valid()
      ensures this.config == config && fresh(state) && fresh(openwebui)
      ensures state.computeHash == computeHash && state.notes == notes && state.syncLog == log
      ensures openwebui.knowledgeBaseId.None?
    {
      this.config := config;
      this.state := new StateManager(computeHash, notes, log);
      this.openwebui := new OpenWebUIClient(config.openwebui);
    }

    /** `get_status`: the configuration summary and the store's statistics. */
    function GetStatus(): (s: Status)
      reads this, state
      ensures s.joplinHost == config.joplin.host + ":" + ShowInt(config.joplin.port)
      ensures s.openwebuiUrl == config.openwebui.url && s.knowledgeBaseName == config.openwebui.knowledgeBaseName
      ensures s.syncMode == config.sync.mode && s.syncTags == config.sync.tags
      ensures s.syncInterval == config.sync.intervalMinutes
      ensures s.stats == StatsOf(state.notes, state.syncLog)
      ensures s.stats.totalNotes == |state.notes.Keys|
      ensures s.stats.lastSync.Some? <==> state.syncLog != []
    {
      Status(config.joplin.host + ":" + ShowInt(config.joplin.port), config.openwebui.url,
             config.openwebui.knowledgeBaseName, config.sync.mode, config.sync.tags,
             config.sync.intervalMinutes, state.GetStats())
    }

    /** The environment a call to `Sync` runs in. */
    ghost function Env(src: Server, http: Http, fails: string -> bool, now: string): RunEnv
      reads this
    {
      RunEnv(state.computeHash, src, http, openwebui, fails, now)
    }

    /** `sync`: one reconciliation run against the Joplin server `src` and
        the OpenWebUI server `http`. */
    method Sync(src: Server, http: Http, fails: string -> bool, now: string) returns (out: RunOutcome)
      requires Valid()
      modifies state, openwebui
      ensures Valid()
      ensures var r := Run(Env(src, http, fails, now), config.sync, old(state.notes), old(state.syncLog));
              out == r.outcome && state.notes == r.notes && state.syncLog == r.log
      ensures openwebui.knowledgeBaseId == ConfiguredCollection(config.openwebui)
    {
      var _ := openwebui.GetOrPromptCollection();

      if config.sync.mode == "tagged" && config.sync.tags == [] {
        return Finished(ResultOf(NoCounts));
      }
      var fetched: Option<seq<Note>>;
      if config.sync.mode == "tagged" {
        fetched := GetNotesByTags(src, config.sync.tags);
      } else {
        fetched := GetAllNotes(src);
      }
      if fetched.None? {
        return FetchFailed;
      }
      var notes := fetched.value;
      var current := set i | 0 <= i < |notes| :: notes[i].id;
      var synced := state.GetAllSyncedNoteIds();
      var deletedIds := synced - current;
      var c := SyncNotes(src, http, fails, now, synced, notes);
      c := RemoveDeleted(src, http, fails, now, deletedIds, c);
      state.LogSync(c.synced, c.updated, c.deleted, c.errors, now);
      out := Finished(ResultOf(c));
    }

    /** The loop over the fetched notes. */
    method SyncNotes(src: Server, http: Http, fails: string -> bool, now: string, synced: set<string>, notes: seq<Note>)
      returns (c: Counts)
      requires Valid()
      requires openwebui.knowledgeBaseId == ConfiguredCollection(config.openwebui)
      modifies state, openwebui
      ensures Valid()
      ensures state.syncLog == old(state.syncLog)
      ensures openwebui.knowledgeBaseId == ConfiguredCollection(config.openwebui)
      ensures Pass(state.notes, c) == NotesPass(Env(src, http, fails, now), synced, Pass(old(state.notes), NoCounts), notes)
    {
      c := NoCounts;
      var i := 0;
      while i < |notes|
        invariant 0 <= i <= |notes|
        invariant Valid()
        invariant state.syncLog == old(state.syncLog)
        invariant openwebui.knowledgeBaseId == ConfiguredCollection(config.openwebui)
        invariant Pass(state.notes, c) == NotesPass(Env(src, http, fails, now), synced, Pass(old(state.notes), NoCounts), notes[..i])
      {
        assert notes[..i + 1][..i] == notes[..i];
        c := SyncNote(src, http, fails, now, synced, notes[i], c);
        i := i + 1;
      }
      assert notes[..i] == notes;
    }

    /** One iteration of the loop over the fetched notes. */
    method SyncNote(src: Server, http: Http, fails: string -> bool, now: string, synced: set<string>, note: Note, c0: Counts)
      returns (c: Counts)
      requires Valid()
      requires openwebui.knowledgeBaseId == ConfiguredCollection(config.openwebui)
      modifies state, openwebui
      ensures Valid()
      ensures state.syncLog == old(state.syncLog)
      ensures openwebui.knowledgeBaseId == ConfiguredCollection(config.openwebui)
      ensures Pass(state.notes, c) == NoteStep(Env(src, http, fails, now), synced, Pass(old(state.notes), c0), note)
    {
      var content := FormatNoteContent(src, note);
      if fails(note.id) {
        c := c0.(errors := c0.errors + 1);
      } else if state.HasNoteChanged(note.id, content) {
        c := UploadNote(src, http, fails, now, synced, note, content, c0);
      } else {
        c := c0;
      }
    }

    /** The changed-note branch of one iteration: the old remote file, if
        any, is deleted without looking at the answer, then the note is
        uploaded and its row saved. */
    method UploadNote(src: Server, http: Http, fails: string -> bool, now: string, synced: set<string>, note: Note,
                      content: string, c0: Counts)
      returns (c: Counts)
      requires Valid()
      requires openwebui.knowledgeBaseId == ConfiguredCollection(config.openwebui)
      modifies state, openwebui
      ensures Valid()
      ensures state.syncLog == old(state.syncLog)
      ensures openwebui.knowledgeBaseId == ConfiguredCollection(config.openwebui)
      ensures Pass(state.notes, c) == Upload(Env(src, http, fails, now), synced, Pass(old(state.notes), c0), note, content)
    {
      var isNew := note.id !in synced;
      var existing := state.GetNoteState(note.id);
      if existing.Some? && Present(existing.value.openwebuiFileId) {
        // The answer of the delete is ignored.
        var _ := openwebui.DeleteFile(http, existing.value.openwebuiFileId.value);
      }
      var fileId;
      ghost var attached;
      fileId, attached := openwebui.SyncNote(http, note.id, note.title, content);
      if fileId.Some? {
        state.SaveNoteState(note.id, note.title, content, fileId, now);
        if isNew {
          c := c0.(synced := c0.synced + 1);
        } else {
          c := c0.(updated := c0.updated + 1);
        }
      } else {
        c := c0.(errors := c0.errors + 1);
      }
    }

    /** The loop over the deleted ids; the set is walked in any order. */
    method RemoveDeleted(src: Server, http: Http, fails: string -> bool, now: string, deletedIds: set<string>, c0: Counts)
      returns (c: Counts)
      requires state.Valid()
      modifies state
      ensures state.Valid()
      ensures state.syncLog == old(state.syncLog)
      ensures Pass(state.notes, c) == DeletePass(Env(src, http, fails, now), Pass(old(state.notes), c0), deletedIds)
    {
      ghost var e := Env(src, http, fails, now);
      ghost var goal := DeletePass(e, Pass(state.notes, c0), deletedIds);
      c := c0;
      var remaining := deletedIds;
      while remaining != {}
        invariant state.Valid()
        invariant state.syncLog == old(state.syncLog)
        invariant DeletePass(e, Pass(state.notes, c), remaining) == goal
        decreases remaining
      {
        var id :| id in remaining;
        DeletePassPeel(e, Pass(state.notes, c), remaining, id);
        c := RemoveOne(src, http, fails, now, id, c);
        remaining := remaining - {id};
      }
      DeletePassEmpty(e, Pass(state.notes, c));
    }

    /** One iteration of the loop over the deleted ids: the row of `id` and
        its remote file go, or an error is counted. */
    method RemoveOne(src: Server, http: Http, fails: string -> bool, now: string, id: string, c0: Counts)
      returns (c: Counts)
      requires state.Valid()
      modifies state
      ensures state.Valid()
      ensures state.syncLog == old(state.syncLog)
      ensures Pass(state.notes, c) == DeleteStep(Env(src, http, fails, now), Pass(old(state.notes), c0), id)
    {
      if fails(id) {
        return c0.(errors := c0.errors + 1);
      }
      var st := state.GetNoteState(id);
      if st.Some? && Present(st.value.openwebuiFileId) {
        if openwebui.DeleteFile(http, st.value.openwebuiFileId.value) {
          state.DeleteNoteState(id);
          return c0.(deleted := c0.deleted + 1);
        }
        return c0.(errors := c0.errors + 1);
      }
      state.DeleteNoteState(id);
      return c0.(deleted := c0.deleted + 1);
    }
  }
}
