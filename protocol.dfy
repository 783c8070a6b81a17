/** The language-server side: the notification records the document
    synchronisation sends over its connection, and the constants of the
    Language Server Protocol that it compares against. */
module Protocol {

  datatype Option<+T> = None | Some(value: T)

  /** TextDocumentSyncKind of the Language Server Protocol. */
  const SYNC_NONE: int := 0
  const SYNC_FULL: int := 1
  const SYNC_INCREMENTAL: int := 2

  /** The `textDocumentSync` field of the server capabilities: absent, a
      plain sync kind number, or an options object. */
  datatype SyncCapability =
    | Absent
    | SyncKind(kind: int)
    | SyncOptions(change: Option<int>)

  datatype ServerCapabilities = ServerCapabilities(textDocumentSync: SyncCapability)

  /** A zero-based position and a range as the protocol writes them. */
  datatype Position = Position(line: int, character: int)
  datatype Range = Range(start: Position, end: Position)

  /** One entry of `contentChanges`: either the whole document text, or a
      replaced range with the length of the text it replaced. */
  datatype ContentChange =
    | WholeText(text: string)
    | RangeChange(range: Range, rangeLength: nat, text: string)

  /** FileChangeType of the protocol: Created = 1, Changed = 2, Deleted = 3. */
  datatype FileChangeType = Created | Changed | Deleted

  datatype FileEvent = FileEvent(uri: string, changeType: FileChangeType)

  datatype TextDocumentItem = TextDocumentItem(uri: string, languageId: string, version: int, text: string)

  datatype VersionedTextDocumentIdentifier = VersionedTextDocumentIdentifier(uri: string, version: int)

  /** The five notifications the adapter sends. */
  datatype Notification =
    | DidOpen(textDocument: TextDocumentItem)
    | DidChange(versioned: VersionedTextDocumentIdentifier, contentChanges: seq<ContentChange>)
    | DidClose(uri: string)
    | DidSave(uri: string)
    | DidChangeWatchedFiles(changes: seq<FileEvent>)
}
