# Document synchronisation for an Atom language client

This project models the document synchronisation adapter of the Atom
language client (`lib/adapters/document-sync-adapter.js`) and proves its
behaviour. The adapter tells a language server which text documents the
user has open and how they change. It does this by sending `didOpen`,
`didChange`, `didSave`, `didChangeWatchedFiles` and `didClose`
notifications over the language server connection.

The adapter has two parts:

- **`DocumentSyncAdapter`** is the coordinator. It decides from the server
  capabilities whether document sync can be used (`canAdapt`). It then
  observes the editors, applies an editor selector, and keeps a map from
  each accepted editor to its session. A session's entry is removed when
  its editor is destroyed.
- **`TextEditorSyncAdapter`** is the session for one editor. It holds a
  version counter that starts at 1. It opens the document when it is
  created and sends a change notification for each change: the whole text
  in Full mode, or the batch's edits in Incremental mode. It also sends the
  save and close notifications.

The files:

- `protocol.dfy` (module `Protocol`): the notification records and the
  protocol constants. These are TextDocumentSyncKind None = 0, Full = 1 and
  Incremental = 2, and FileChangeType Changed.
- `host.dfy` (module `Host`): what the adapter reads from an editor. An
  `EditorState` is the editor at the moment an event is delivered. It holds
  `getURI()` and `getPath()` as two separate optional values, the text and
  the grammar name. An `Env` holds the collaborators the adapter calls but
  does not define: the path-to-URI and range conversions and the optional
  language identifier transform.
- `sync_spec.dfy` (module `SyncSpec`): the pure part of the adapter. It
  holds `CanAdapt`, the payload builders (`GetLanguageId`, `GetEditorUri`,
  `TextEditToContentChange`, `ContentChanges`) and a state machine for one
  session. `Step` gives the new session state and the notifications
  appended for one event, and `Run` does the same for a sequence of events.
- `coordinator_spec.dfy` (module `CoordinatorSpec`): the coordinator as a
  pure state machine over the editor map.
- `document_sync.dfy`: the imperative model in module `DocumentSync`.
  - `Connection` is an append-only log of notifications.
  - `TextEditorSyncAdapter` is a class with a `version` field and a
    `subscribed` flag. Its constructor and its `DidOpen`, `SendFullChanges`,
    `SendIncrementalChanges`, `DidSave` and `DidDestroy` methods each state
    exactly what they append to the log.
  - `DocumentSyncAdapter` is a class with a `map` from editors to sessions.
    Its `Valid()` invariant says that no session object serves two editors,
    and that every session is live exactly while the coordinator is.
  - Every method that handles a host event is proved equal to the pure
    step of `SyncSpec` or `CoordinatorSpec`.
  - Module `Scenarios` plays two example traces against the classes.

Host events are explicit method calls:

- `BufferChanged` is the editor's `onDidChange`, which Full mode subscribes
  to.
- `TextChanged` is the buffer's batched `onDidChangeText`, which
  Incremental mode subscribes to.
- `Saved` is `onDidSave`.
- `Destroyed` is `onDidDestroy`.
- `EditorAdded` is a call of the editor observer.
- `DisposeAll` is `dispose()` on the coordinator.

A subscription is a flag, and disposing clears it.

Where the code differs from the adapter's documented design, the model
follows the code:

- An editor without a URI at construction is never opened later. A change
  or a save still sends its notification for such an editor.
- On destroy, the session's close listener and the coordinator's removal
  hook are two independent listeners. Nothing makes the session unsubscribe
  before it sends the close. In the model the close comes first, which is
  the order the listeners are registered in. Either order appends the same
  log and leaves the same map.
- The sync kind is compared against the two numbers only. There is no
  preference rule between Full and Incremental.
- Full mode has no guard against an empty change.

## Model

| member | source | states |
|---|---|---|
| SyncSpec.CanAdapt | lib/adapters/document-sync-adapter.js:17-20 | the adapter is usable exactly when `textDocumentSync` is a plain sync kind for which a session installs a change subscription (Full or Incremental); an absent field or an options object gives false |
| SyncSpec.ChangeTracking | lib/adapters/document-sync-adapter.js:73-81 | Full installs the editor change subscription, Incremental the buffer text change subscription, any other kind none |
| SyncSpec.ToLowerCase | lib/adapters/document-sync-adapter.js:108 | the language identifier sent on open keeps its length, maps each character to its lower case, and contains no upper-case letter |
| SyncSpec.ContentChanges | lib/adapters/document-sync-adapter.js:128-139 | an incremental batch maps to one content change per edit in the host's order, each with the converted old range, `rangeLength` equal to the length of the old text, and the new text |
| SyncSpec.Step | lib/adapters/document-sync-adapter.js:115-149 | no session event alters the change subscription or the subscribed flag, and the version either stays or rises by exactly one |
| SyncSpec.StartOpens | lib/adapters/document-sync-adapter.js:52-113 | a new session is at version 1 and subscribed, and it sends exactly one open carrying version 1, the current text and the lower-cased (transformed) grammar name exactly when the editor has a URI, and nothing otherwise |
| SyncSpec.FullModeChanges | lib/adapters/document-sync-adapter.js:115-121 | in Full mode the k-th change event of a run sends one change notification with the start version plus k + 1 whose only content change is the editor's whole text at that event, and the version ends raised by the number of events |
| SyncSpec.IncrementalBatch | lib/adapters/document-sync-adapter.js:123-131 | in Incremental mode an empty batch sends nothing and keeps the version; a batch of k edits sends one notification with k content changes in order and raises the version by one |
| SyncSpec.UntrackedChangesSilent | lib/adapters/document-sync-adapter.js:60-81 | a session whose sync kind installed no change subscription sends nothing and changes nothing on any sequence of change events |
| SyncSpec.SaveSequence | lib/adapters/document-sync-adapter.js:146-149 | save sends `didSave` then one watched-files change of type Changed for the same URI, and leaves the version unchanged |
| SyncSpec.CloseIffUri | lib/adapters/document-sync-adapter.js:141-144 | destroy sends one `didClose` for the editor's URI exactly when `getURI()` is present, and changes no state |
| SyncSpec.DisposedSilent | lib/adapters/document-sync-adapter.js:83-85 | once its subscriptions are disposed a session ignores every event sequence |
| SyncSpec.VersionsConsecutive | lib/adapters/document-sync-adapter.js:115-131 | over any event sequence the versions of the change notifications are the consecutive numbers after the start version, and the final version is the start version plus their count |
| CoordinatorSpec.CoordStep | lib/adapters/document-sync-adapter.js:30-45 | the coordinator stays live through every host event except its disposal |
| CoordinatorSpec.StepConsistent | lib/adapters/document-sync-adapter.js:30-43 | every host event keeps each session live exactly while the coordinator is |
| CoordinatorSpec.ObserveAccepted | lib/adapters/document-sync-adapter.js:34-38 | a new editor the selector accepts gets one session at version 1 and only that session's open is sent |
| CoordinatorSpec.ObserveIdempotent | lib/adapters/document-sync-adapter.js:34-45 | observing the same editor twice gives the same map and log as observing it once, with at most one open; an editor already present or rejected gives no session and no notification |
| CoordinatorSpec.DestroyRemoves | lib/adapters/document-sync-adapter.js:39-43 | the destroy hook of a live coordinator removes the editor's entry, keeps all other entries, and the only notification is the session's close, sent exactly when the editor has a URI |
| CoordinatorSpec.UntrackedEditorLeavesNoTrace | lib/adapters/document-sync-adapter.js:34-45 | an editor with no session that the selector rejects whenever it is observed never gets a session, and a run with its events is identical (map and log) to the run without them; this also covers an editor after its entry was removed |
| CoordinatorSpec.DisposedIsSilent | lib/adapters/document-sync-adapter.js:30-32 | after the coordinator is disposed, no sequence of host events sends anything or changes any session |
| DocumentSync.TextEditorSyncAdapter.constructor | lib/adapters/document-sync-adapter.js:55-71 | the new session's state and the appended notifications are those of `Start`: version 1, subscribed, the subscription for the kind, the open when there is a URI |
| DocumentSync.TextEditorSyncAdapter.DidOpen | lib/adapters/document-sync-adapter.js:102-113 | appends the open of the current version exactly when the editor has a URI |
| DocumentSync.TextEditorSyncAdapter.SendFullChanges | lib/adapters/document-sync-adapter.js:115-121 | raises the version by one and appends one change carrying the new version and the whole text |
| DocumentSync.TextEditorSyncAdapter.SendIncrementalChanges | lib/adapters/document-sync-adapter.js:123-131 | for an empty batch changes nothing; otherwise raises the version by one and appends one change carrying the mapped edits |
| DocumentSync.TextEditorSyncAdapter.DidDestroy | lib/adapters/document-sync-adapter.js:141-144 | appends the close exactly when the editor has a URI |
| DocumentSync.TextEditorSyncAdapter.DidSave | lib/adapters/document-sync-adapter.js:146-149 | appends the save and then the watched-files change for the same URI |
| DocumentSync.TextEditorSyncAdapter.Dispose | lib/adapters/document-sync-adapter.js:83-85 | clears the session's subscriptions |
| DocumentSync.TextEditorSyncAdapter.HandleEvent | lib/adapters/document-sync-adapter.js:60-68 | delivering an editor event to the session's live subscriptions changes its state and the log exactly as `SyncSpec.Step` says |
| DocumentSync.DocumentSyncAdapter.constructor | lib/adapters/document-sync-adapter.js:22-28 | a new coordinator is live, holds no sessions and sends nothing |
| DocumentSync.DocumentSyncAdapter.ObserveTextEditors | lib/adapters/document-sync-adapter.js:34-45 | keeps the invariant (one session object per editor, sessions live with the coordinator), never replaces an existing entry, and changes the map and log as `CoordStep` says for an observed editor |
| DocumentSync.DocumentSyncAdapter.HandleEditorEvent | lib/adapters/document-sync-adapter.js:39-43 | routes an editor event to its session and, for a destroy, runs the removal hook, keeping the invariant, as `CoordStep` says |
| DocumentSync.DocumentSyncAdapter.Dispose | lib/adapters/document-sync-adapter.js:30-32 | stops observing and disposes every session, leaving the map and versions and sending nothing |
| DocumentSync.DocumentSyncAdapter.HandleHostEvent | lib/adapters/document-sync-adapter.js:27-45 | every host event, including an observation after disposal, changes the map and the log exactly as `CoordStep` says |

`GetLanguageId` (lines 87-93), `GetEditorUri` (lines 151-153),
`TextEditToContentChange` (lines 133-139) and
`GetVersionedTextDocumentIdentifier` (lines 95-100) are modelled as plain
functions with no contract of their own. The members above use them, and
their contracts state what these functions contribute.

## Left out

- The Atom machinery is not modelled: `atom.textEditors.observe`, the
  editor and buffer event emitters, and `CompositeDisposable`. Subscriptions
  are flags and events are method calls. `DocumentSyncAdapter.Dispose`
  walks the editor map to dispose each session. The source does this by
  disposing one composite of the same sessions.
- DocumentSync.DocumentSyncAdapter.ObserveTextEditors: requires the
  coordinator to be live, because only the live editor observer calls it.
  `HandleHostEvent` makes that check for an observation that arrives
  after disposal.
- `Convert.pathToUri` and `Convert.atomRangeToLSRange` are arbitrary
  functions in `Env`, because `lib/convert.js` is not part of this model.
  The language identifier transform is an optional arbitrary function.
- SyncSpec.ToLowerCase: lower-cases the ASCII letters only, whereas
  JavaScript's `toLowerCase` also maps non-ASCII letters.
- SyncSpec.ContentChanges: `rangeLength` is the number of characters of
  the old text, whereas JavaScript's `length` counts UTF-16 code units.
  The two differ for characters outside the Basic Multilingual Plane.
- The connection transport is not modelled. A notification is an
  appended log entry, and a failed send is not modelled, because the code
  does not handle one.
- An exception thrown by the editor selector is not modelled. The selector
  is a total function of the editor's identity and state.
- The `WeakMap` keeps no destroyed editor alive. This garbage-collection
  behaviour is not modelled, and the map is an ordinary map. The entry of
  a destroyed editor is removed by the hook, as in the code. After the
  coordinator is disposed the map keeps its entries, also as in the code.
- The loose `==` in `canAdapt` is modelled as equality. The field is
  declared as a number or an options object, and for those `==` and `===`
  agree. An options object is never accepted, whatever its `change` member
  says.
