/** The editor side: what the adapter reads from an Atom text editor, and
    the collaborators it calls but does not define. */
module Host {
  import opened Protocol

  /** The identity of an editor object (the key of the editor map). */
  type EditorId = nat

  /** A zero-based Atom point and range. */
  datatype Point = Point(row: int, column: int)
  datatype AtomRange = AtomRange(start: Point, end: Point)

  /** The state of an editor at the moment an event is delivered. `uri` is
      what `getURI()` answers and `path` what `getPath()` answers; both are
      absent for a buffer that has never been saved. */
  datatype EditorState = EditorState(
    uri: Option<string>,
    path: Option<string>,
    text: string,
    grammarName: string)

  /** One edit of a buffer change batch. */
  datatype TextEdit = TextEdit(oldRange: AtomRange, oldText: string, newText: string)

  /** The collaborators the adapter is given: the path to URI and range
      conversions, and the optional language identifier transform. */
  datatype Env = Env(
    pathToUri: string -> string,
    atomRangeToLsRange: AtomRange -> Range,
    languageIdTransform: Option<string -> string>)
}
