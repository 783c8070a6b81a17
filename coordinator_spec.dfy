/** The coordinator of the document synchronisation adapter as a pure
    state machine: the map from editors to their sessions, and what each
    host event does to it and to the connection. */
module CoordinatorSpec {
  import opened Protocol
  import opened Host
  import opened SyncSpec

  /** The session of each tracked editor, and whether the coordinator's
      subscriptions (the editor observer and the destroy hooks) are live. */
  datatype CoordState = CoordState(sessions: map<EditorId, SessionState>, observing: bool)

  /** What the host delivers to the coordinator: an editor observed, an
      event of one editor, or the disposal of the coordinator. */
  datatype HostEvent =
    | EditorAdded(id: EditorId, editor: EditorState)
    | ForEditor(id: EditorId, event: EditorEvent)
    | DisposeAll

  /** The parameters a coordinator is built with. */
  datatype Setup = Setup(env: Env, kind: int, selector: (EditorId, EditorState) -> bool)

  function CoordStep(setup: Setup, c: CoordState, hev: HostEvent): (r: (CoordState, seq<Notification>))
    ensures r.0.observing == (c.observing && !hev.DisposeAll?)
  {
    match hev
    case EditorAdded(id, ed) =>
      if c.observing && id !in c.sessions && setup.selector(id, ed) then
        var started := Start(setup.env, setup.kind, ed);
        (c.(sessions := c.sessions[id := started.0]), started.1)
      else (c, [])
    case ForEditor(id, ev) =>
      if id !in c.sessions then (c, [])
      else
        var stepped := Step(setup.env, c.sessions[id], ev);
        if ev.Destroyed? && c.observing then (c.(sessions := c.sessions - {id}), stepped.1)
        else (c.(sessions := c.sessions[id := stepped.0]), stepped.1)
    case DisposeAll =>
      (CoordState(map id | id in c.sessions :: c.sessions[id].(subscribed := false), false), [])
  }

  function CoordRun(setup: Setup, c: CoordState, evs: seq<HostEvent>): (CoordState, seq<Notification>)
    decreases |evs|
  {
    if evs == [] then (c, [])
    else
      var first := CoordStep(setup, c, evs[0]);
      var rest := CoordRun(setup, first.0, evs[1..]);
      (rest.0, first.1 + rest.1)
  }

  /** Whether a host event is about the given editor. */
  predicate Concerns(id: EditorId, hev: HostEvent) {
    (hev.EditorAdded? || hev.ForEditor?) && hev.id == id
  }

  /** The events of a trace that are not about the given editor. */
  function Without(id: EditorId, evs: seq<HostEvent>): (r: seq<HostEvent>)
    ensures forall k :: 0 <= k < |r| ==> !Concerns(id, r[k])
    decreases |evs|
  {
    if evs == [] then []
    else if Concerns(id, evs[0]) then Without(id, evs[1..])
    else [evs[0]] + Without(id, evs[1..])
  }

  /** Every session's subscriptions are live exactly while the coordinator's are. */
  predicate Consistent(c: CoordState) {
    forall id :: id in c.sessions ==> c.sessions[id].subscribed == c.observing
  }

  /** A disposed coordinator: nothing it holds is subscribed any more. */
  predicate Quiet(c: CoordState) {
    !c.observing && forall id :: id in c.sessions ==> !c.sessions[id].subscribed
  }

  // ---------------------------------------------------------------------
  // Properties of the coordinator

  lemma StepConsistent(setup: Setup, c: CoordState, hev: HostEvent)
    requires Consistent(c)
    ensures Consistent(CoordStep(setup, c, hev).0)
  {
  }

  /** An accepted editor gets one fresh session at version 1, and the open
      notification of that session is all that is sent. */
  lemma ObserveAccepted(setup: Setup, c: CoordState, id: EditorId, ed: EditorState)
    requires c.observing && id !in c.sessions && setup.selector(id, ed)
    ensures var (t, out) := CoordStep(setup, c, EditorAdded(id, ed));
      && t.sessions == c.sessions[id := SessionState(1, ChangeTracking(setup.kind), true)]
      && out == OpenMessages(setup.env, ed, 1)
  {
  }

  /** Observing an editor that already has a session, or one the selector
      rejects, creates nothing and sends nothing; so observing an editor
      twice yields one session and at most one open notification. */
  lemma ObserveIdempotent(setup: Setup, c: CoordState, id: EditorId, ed: EditorState)
    ensures var (t, out) := CoordRun(setup, c, [EditorAdded(id, ed), EditorAdded(id, ed)]);
      && t == CoordStep(setup, c, EditorAdded(id, ed)).0
      && out == CoordStep(setup, c, EditorAdded(id, ed)).1
      && |out| <= 1
      && (id in c.sessions || !c.observing || !setup.selector(id, ed) ==> t == c && out == [])
  {
    var first := CoordStep(setup, c, EditorAdded(id, ed));
    var second := CoordStep(setup, first.0, EditorAdded(id, ed));
    assert second == (first.0, []);
    assert [EditorAdded(id, ed), EditorAdded(id, ed)][1..] == [EditorAdded(id, ed)];
    assert CoordRun(setup, first.0, [EditorAdded(id, ed)]) == (first.0, [] + []);
    assert first.1 + ([] + []) == first.1;
  }

  /** The destroy hook of a live coordinator removes the editor's entry and
      leaves every other entry alone; the session closes the document
      exactly when the editor has a URI. */
  lemma DestroyRemoves(setup: Setup, c: CoordState, id: EditorId, ed: EditorState)
    requires Consistent(c) && c.observing && id in c.sessions
    ensures var (t, out) := CoordStep(setup, c, ForEditor(id, Destroyed(ed)));
      && t == c.(sessions := c.sessions - {id})
      && out == CloseMessages(setup.env, ed)
      && (out != [] <==> ed.uri.Some?)
  {
  }

  /** An editor without a session that the selector rejects every time it
      is observed leaves no trace: the run is the same as the run of the
      other editors' events alone, and the editor never gets a session.
      This covers an editor after its destroy hook removed it. */
  lemma {:induction false} UntrackedEditorLeavesNoTrace(setup: Setup, c: CoordState, id: EditorId, evs: seq<HostEvent>)
    requires id !in c.sessions
    requires forall k :: 0 <= k < |evs| && evs[k].EditorAdded? && evs[k].id == id ==> !setup.selector(id, evs[k].editor)
    ensures CoordRun(setup, c, evs) == CoordRun(setup, c, Without(id, evs))
    ensures id !in CoordRun(setup, c, evs).0.sessions
    decreases |evs|
  {
    if evs != [] {
      var first := CoordStep(setup, c, evs[0]);
      assert id !in first.0.sessions;
      UntrackedEditorLeavesNoTrace(setup, first.0, id, evs[1..]);
      var rest := CoordRun(setup, first.0, evs[1..]);
      if Concerns(id, evs[0]) {
        assert first == (c, []);
        assert Without(id, evs) == Without(id, evs[1..]);
        assert [] + rest.1 == rest.1;
      } else {
        assert Without(id, evs) == [evs[0]] + Without(id, evs[1..]);
        assert ([evs[0]] + Without(id, evs[1..]))[1..] == Without(id, evs[1..]);
      }
    }
  }

  lemma StepQuiet(setup: Setup, c: CoordState, hev: HostEvent)
    requires Quiet(c)
    ensures CoordStep(setup, c, hev) == (c, [])
  {
    if hev.ForEditor? && hev.id in c.sessions {
      assert Step(setup.env, c.sessions[hev.id], hev.event) == (c.sessions[hev.id], []);
      assert c.sessions[hev.id := c.sessions[hev.id]] == c.sessions;
    } else if hev.DisposeAll? {
      var m := map id | id in c.sessions :: c.sessions[id].(subscribed := false);
      assert forall id :: id in c.sessions ==> c.sessions[id].(subscribed := false) == c.sessions[id];
      assert m == c.sessions;
      assert CoordStep(setup, c, hev).0.sessions == c.sessions;
    }
  }

  /** After the coordinator is disposed no host event sends anything or
      changes any session. */
  lemma {:induction false} DisposedIsSilent(setup: Setup, c: CoordState, evs: seq<HostEvent>)
    ensures var d := CoordStep(setup, c, DisposeAll).0;
      Quiet(d) && CoordRun(setup, d, evs) == (d, [])
  {
    var d := CoordStep(setup, c, DisposeAll).0;
    QuietRun(setup, d, evs);
  }

  lemma {:induction false} QuietRun(setup: Setup, c: CoordState, evs: seq<HostEvent>)
    requires Quiet(c)
    ensures CoordRun(setup, c, evs) == (c, [])
    decreases |evs|
  {
    if evs != [] {
      var first := CoordStep(setup, c, evs[0]);
      StepQuiet(setup, c, evs[0]);
      QuietRun(setup, c, evs[1..]);
      var rest := CoordRun(setup, c, evs[1..]);
      assert first == (c, []) && rest == (c, []);
      assert first.1 + rest.1 == [];
      assert CoordRun(setup, c, evs) == (rest.0, first.1 + rest.1);
    }
  }
}
