/** The document synchronisation adapter as objects: the connection as an
    append-only log, one `TextEditorSyncAdapter` per tracked editor with
    its version counter, and the `DocumentSyncAdapter` that keeps the map
    from editors to sessions. Every operation is proved against the pure
    state machines of SyncSpec and CoordinatorSpec. */
module DocumentSync {
  import opened Protocol
  import opened Host
  import opened SyncSpec
  import opened CoordinatorSpec

  /** The language client connection: every notification sent is appended
      to the log, and nothing is ever taken back. */
  class Connection {
    var log: seq<Notification>

    constructor ()
      ensures log == []
    {
      log := [];
    }

    method Send(n: Notification)
      modifies this
      ensures log == old(log) + [n]
    {
      log := log + [n];
    }
  }

  /** The session of one editor. */
  class TextEditorSyncAdapter {
    const connection: Connection
    const env: Env
    /** The change subscription installed by the constructor. */
    const tracking: Option<SyncMode>
    var version: int
    /** False once the session's subscriptions have been disposed. */
    var subscribed: bool

    ghost function State(): SessionState
      reads this
    {
      SessionState(version, tracking, subscribed)
    }

    /** Installs the subscriptions for the sync kind and opens the document. */
    constructor (ed: EditorState, connection: Connection, documentSyncKind: int, env: Env)
      modifies connection
      ensures this.connection == connection && this.env == env
      ensures State() == Start(env, documentSyncKind, ed).0
      ensures connection.log == old(connection.log) + Start(env, documentSyncKind, ed).1
    {
      this.connection := connection;
      this.env := env;
      this.tracking := ChangeTracking(documentSyncKind);
      version := 1;
      subscribed := true;
      new;
      DidOpen(ed);
    }

    function GetVersionedTextDocumentIdentifier(ed: EditorState): VersionedTextDocumentIdentifier
      reads this
    {
      VersionedTextDocumentIdentifier(GetEditorUri(env, ed), version)
    }

    /** Sends the open notification, unless the editor has no URI yet. */
    method DidOpen(ed: EditorState)
      modifies connection
      ensures connection.log == old(connection.log) + OpenMessages(env, ed, version)
    {
      if ed.uri.None? {
        return;
      }
      connection.Send(Notification.DidOpen(TextDocumentItem(
        GetEditorUri(env, ed), ToLowerCase(GetLanguageId(env, ed)), version, ed.text)));
    }

    /** Full mode: a new version carrying the whole current text. */
    method SendFullChanges(ed: EditorState)
      modifies this`version, connection
      ensures version == old(version) + 1
      ensures connection.log == old(connection.log) + [FullChangeMessage(env, ed, version)]
    {
      version := version + 1;
      connection.Send(Notification.DidChange(GetVersionedTextDocumentIdentifier(ed), [WholeText(ed.text)]));
    }

    /** Incremental mode: a new version carrying the batch's edits, or
        nothing at all for an empty batch. */
    method SendIncrementalChanges(ed: EditorState, changes: seq<TextEdit>)
      modifies this`version, connection
      ensures changes == [] ==> version == old(version) && connection.log == old(connection.log)
      ensures changes != [] ==>
        && version == old(version) + 1
        && connection.log == old(connection.log) + [IncrementalChangeMessage(env, ed, version, changes)]
    {
      if |changes| > 0 {
        version := version + 1;
        connection.Send(Notification.DidChange(GetVersionedTextDocumentIdentifier(ed), ContentChanges(env, changes)));
      }
    }

    /** Sends the close notification, unless the editor has no URI. */
    method DidDestroy(ed: EditorState)
      modifies connection
      ensures connection.log == old(connection.log) + CloseMessages(env, ed)
    {
      if ed.uri.None? {
        return;
      }
      connection.Send(Notification.DidClose(GetEditorUri(env, ed)));
    }

    /** Sends the save notification and then a watched-files change. */
    method DidSave(ed: EditorState)
      modifies connection
      ensures connection.log == old(connection.log) + SaveMessages(env, ed)
    {
      connection.Send(Notification.DidSave(GetEditorUri(env, ed)));
      connection.Send(DidChangeWatchedFiles([FileEvent(GetEditorUri(env, ed), Changed)]));
    }

    method Dispose()
      modifies this`subscribed
      ensures !subscribed
    {
      subscribed := false;
    }

    /** Delivers an editor event to whichever of the session's handlers is
        subscribed to it. */
    method HandleEvent(ev: EditorEvent)
      modifies this`version, connection
      ensures State() == Step(env, old(State()), ev).0
      ensures connection.log == old(connection.log) + Step(env, old(State()), ev).1
    {
      if !subscribed {
        return;
      }
      match ev
      case BufferChanged(ed) =>
        if tracking == Some(Full) {
          SendFullChanges(ed);
        }
      case TextChanged(ed, changes) =>
        if tracking == Some(Incremental) {
          SendIncrementalChanges(ed, changes);
        }
      case Saved(ed) =>
        DidSave(ed);
      case Destroyed(ed) =>
        DidDestroy(ed);
    }
  }

  /** The coordinator: one session per accepted editor. */
  class DocumentSyncAdapter {
    const connection: Connection
    const documentSyncKind: int
    const editorSelector: (EditorId, EditorState) -> bool
    const env: Env
    var editors: map<EditorId, TextEditorSyncAdapter>
    /** False once the coordinator's subscriptions have been disposed. */
    var observing: bool

    ghost function Config(): Setup {
      Setup(env, documentSyncKind, editorSelector)
    }

    /** Every session shares the coordinator's connection and collaborators,
        is live exactly while the coordinator is, and belongs to one editor. */
    ghost predicate Valid()
      reads this, editors.Values
    {
      && (forall id :: id in editors ==>
            editors[id].connection == connection && editors[id].env == env && editors[id].subscribed == observing)
      && (forall i, j :: i in editors && j in editors && i != j ==> editors[i] != editors[j])
    }

    ghost function Abstract(): CoordState
      reads this, editors.Values
    {
      CoordState(map id | id in editors :: editors[id].State(), observing)
    }

    constructor (connection: Connection, documentSyncKind: int,
                 editorSelector: (EditorId, EditorState) -> bool, env: Env)
      ensures this.connection == connection && this.documentSyncKind == documentSyncKind
      ensures this.editorSelector == editorSelector && this.env == env
      ensures Valid() && Abstract() == CoordState(map[], true)
    {
      this.connection := connection;
      this.documentSyncKind := documentSyncKind;
      this.editorSelector := editorSelector;
      this.env := env;
      editors := map[];
      observing := true;
    }

    /** Called by the editor observer, which is live while the coordinator
        is: starts a session for a new editor the selector accepts. */
    method ObserveTextEditors(id: EditorId, ed: EditorState)
      requires Valid() && observing
      modifies this, connection
      ensures Valid()
      ensures Abstract() == CoordStep(Config(), old(Abstract()), EditorAdded(id, ed)).0
      ensures connection.log == old(connection.log) + CoordStep(Config(), old(Abstract()), EditorAdded(id, ed)).1
      ensures forall other :: other in old(editors) ==> other in editors && editors[other] == old(editors[other])
    {
      if id !in editors && editorSelector(id, ed) {
        var sync := new TextEditorSyncAdapter(ed, connection, documentSyncKind, env);
        editors := editors[id := sync];
      }
    }

    /** Delivers an event of one editor: to its session, and for a destroy
        to the coordinator's hook, which forgets and disposes the session. */
    method HandleEditorEvent(id: EditorId, ev: EditorEvent)
      requires Valid()
      modifies this, connection, editors.Values
      ensures Valid()
      ensures Abstract() == CoordStep(Config(), old(Abstract()), ForEditor(id, ev)).0
      ensures connection.log == old(connection.log) + CoordStep(Config(), old(Abstract()), ForEditor(id, ev)).1
    {
      if id in editors {
        var sync := editors[id];
        ghost var before := Abstract();
        sync.HandleEvent(ev);
        if ev.Destroyed? && observing {
          editors := editors - {id};
          sync.Dispose();
          assert Abstract().sessions == before.sessions - {id};
        } else {
          assert Abstract().sessions == before.sessions[id := sync.State()];
        }
      }
    }

    /** Disposes every session and stops observing. */
    method Dispose()
      requires Valid()
      modifies this, editors.Values
      ensures Valid()
      ensures Abstract() == CoordStep(Config(), old(Abstract()), DisposeAll).0
    {
      observing := false;
      var pending := editors.Keys;
      while pending != {}
        invariant pending <= editors.Keys
        invariant editors == old(editors) && !observing
        invariant forall id :: id in editors ==> editors[id].version == old(editors[id].version)
        invariant forall id :: id in editors && id !in pending ==> !editors[id].subscribed
        invariant forall id :: id in pending ==> editors[id].subscribed == old(editors[id].subscribed)
        decreases pending
      {
        var id :| id in pending;
        editors[id].Dispose();
        pending := pending - {id};
      }
    }

    /** Delivers one host event to the coordinator. */
    method HandleHostEvent(hev: HostEvent)
      requires Valid()
      modifies this, connection, editors.Values
      ensures Valid()
      ensures Abstract() == CoordStep(Config(), old(Abstract()), hev).0
      ensures connection.log == old(connection.log) + CoordStep(Config(), old(Abstract()), hev).1
    {
      match hev
      case EditorAdded(id, ed) =>
        if observing {
          ObserveTextEditors(id, ed);
        }
      case ForEditor(id, ev) =>
        HandleEditorEvent(id, ev);
      case DisposeAll =>
        Dispose();
    }
  }
}

/** Two traces of one document, checked against the contracts alone. */
module Scenarios {
  import opened Protocol
  import opened Host
  import opened SyncSpec
  import opened CoordinatorSpec
  import opened DocumentSync

  function ToLsRange(r: AtomRange): Range {
    Range(Position(r.start.row, r.start.column), Position(r.end.row, r.end.column))
  }

  /** Full mode: the open at version 1, then one edit sends version 2 with
      the whole new text. */
  method FullModeTrace()
  {
    var env := Env(p => "file://" + p, ToLsRange, None);
    var connection := new Connection();
    var adapter := new DocumentSyncAdapter(connection, SYNC_FULL, (id, ed) => true, env);
    var before := EditorState(Some("file:///a.txt"), Some("/a.txt"), "hello", "");
    assert GetEditorUri(env, before) == "file:///a.txt";
    adapter.HandleHostEvent(EditorAdded(7, before));
    assert connection.log == [Notification.DidOpen(TextDocumentItem("file:///a.txt", "", 1, "hello"))];
    var after := before.(text := "hello world");
    adapter.HandleHostEvent(ForEditor(7, BufferChanged(after)));
    assert connection.log[1] == DidChange(VersionedTextDocumentIdentifier("file:///a.txt", 2), [WholeText("hello world")]);
  }

  /** Incremental mode: replacing "hello" by "hi" sends version 2 with one
      range change of replaced length 5. */
  method IncrementalTrace()
  {
    var env := Env(p => "file://" + p, ToLsRange, None);
    var connection := new Connection();
    var adapter := new DocumentSyncAdapter(connection, SYNC_INCREMENTAL, (id, ed) => true, env);
    var before := EditorState(Some("file:///a.txt"), Some("/a.txt"), "hello", "");
    adapter.HandleHostEvent(EditorAdded(7, before));
    var edit := TextEdit(AtomRange(Point(0, 0), Point(0, 5)), "hello", "hi");
    adapter.HandleHostEvent(ForEditor(7, TextChanged(before.(text := "hi"), [edit])));
    assert |connection.log| == 2;
    assert connection.log[1] == DidChange(VersionedTextDocumentIdentifier("file:///a.txt", 2),
      [RangeChange(Range(Position(0, 0), Position(0, 5)), 5, "hi")]);
    adapter.HandleHostEvent(ForEditor(7, TextChanged(before, [])));
    assert |connection.log| == 2;
  }
}
