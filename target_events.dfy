/**
 * The domain events of the Target aggregate, the state they describe when
 * replayed in order, and the rule that keeps a single pending
 * `TargetStateChanged` in a log of uncommitted events.
 */
module TargetEvents {
  import opened Wrappers
  import opened DomainValues

  datatype TargetEvent =
    | TargetCreated(id: TargetId, name: string, url: Url, provider: ProviderConfig, state: TargetState, createdBy: UserId)
    | TargetRenamed(id: TargetId, name: string)
    | TargetUrlChanged(id: TargetId, url: Url)
    | TargetProviderChanged(id: TargetId, provider: ProviderConfig)
    | TargetStateChanged(id: TargetId, state: TargetState)
    | TargetCleanupRequested(id: TargetId, requestedBy: UserId)
    | TargetDeleted(id: TargetId)
  {
    function Kind(): EventKind {
      match this
      case TargetCreated(_, _, _, _, _, _) => CreatedKind
      case TargetRenamed(_, _) => RenamedKind
      case TargetUrlChanged(_, _) => UrlChangedKind
      case TargetProviderChanged(_, _) => ProviderChangedKind
      case TargetStateChanged(_, _) => StateChangedKind
      case TargetCleanupRequested(_, _) => CleanupRequestedKind
      case TargetDeleted(_) => DeletedKind
    }
  }

  datatype EventKind =
    CreatedKind | RenamedKind | UrlChangedKind | ProviderChangedKind | StateChangedKind | CleanupRequestedKind | DeletedKind

  /** Everything the events of a target say about it. */
  datatype TargetSnapshot = TargetSnapshot(
    id: TargetId, name: string, url: Url, provider: ProviderConfig, state: TargetState,
    cleanupRequestedBy: Option<UserId>, createdBy: UserId)

  /** How one event changes what is known about the target (nothing is known before its creation). */
  function Evolve(o: Option<TargetSnapshot>, e: TargetEvent): Option<TargetSnapshot> {
    match o
    case None =>
      if e.TargetCreated? then Some(TargetSnapshot(e.id, e.name, e.url, e.provider, e.state, None, e.createdBy)) else None
    case Some(s) =>
      match e
      case TargetCreated(_, _, _, _, _, _) => o
      case TargetRenamed(_, n) => Some(s.(name := n))
      case TargetUrlChanged(_, u) => Some(s.(url := u))
      case TargetProviderChanged(_, p) => Some(s.(provider := p))
      case TargetStateChanged(_, st) => Some(s.(state := st))
      case TargetCleanupRequested(_, who) => Some(s.(cleanupRequestedBy := Some(who)))
      case TargetDeleted(_) => o
  }

  /** The target described by a log of events, applied oldest first. */
  function Replay(es: seq<TargetEvent>): Option<TargetSnapshot> {
    if es == [] then None else Evolve(Replay(es[..|es| - 1]), es[|es| - 1])
  }

  /** Number of events of kind `k` in `es`. */
  function Count(es: seq<TargetEvent>, k: EventKind): nat {
    if es == [] then 0
    else Count(es[..|es| - 1], k) + (if es[|es| - 1].Kind() == k then 1 else 0)
  }

  /** `es` without its `TargetStateChanged` events, the others kept in order. */
  function WithoutStateChanges(es: seq<TargetEvent>): seq<TargetEvent> {
    if es == [] then []
    else WithoutStateChanges(es[..|es| - 1]) + (if es[|es| - 1].TargetStateChanged? then [] else [es[|es| - 1]])
  }

  /**
   * The log after a `TargetStateChanged` carrying `st` is raised: an earlier,
   * still uncommitted `TargetStateChanged` is superseded and dropped, and the
   * new one goes last.
   */
  function RaiseStateChanged(es: seq<TargetEvent>, id: TargetId, st: TargetState): (r: seq<TargetEvent>)
    ensures |r| > 0 && r[|r| - 1] == TargetStateChanged(id, st)
    ensures forall i | 0 <= i < |r| - 1 :: !r[i].TargetStateChanged? && r[i] in es
  {
    WithoutStateChangesKeepsOnlyLogEvents(es);
    WithoutStateChanges(es) + [TargetStateChanged(id, st)]
  }

  function WithState(o: Option<TargetSnapshot>, st: TargetState): Option<TargetSnapshot> {
    if o.None? then None else Some(o.value.(state := st))
  }

  /** Appending one event applies it to the replayed target. */
  lemma ReplayAppend(es: seq<TargetEvent>, e: TargetEvent)
    ensures Replay(es + [e]) == Evolve(Replay(es), e)
  {
    assert (es + [e])[..|es|] == es;
  }

  /** Appending one event adds one to the count of its kind only. */
  lemma CountAppend(es: seq<TargetEvent>, e: TargetEvent, k: EventKind)
    ensures Count(es + [e], k) == Count(es, k) + (if e.Kind() == k then 1 else 0)
  {
    assert (es + [e])[..|es|] == es;
  }

  /** Appending one event keeps it after the removal of state changes unless it is one. */
  lemma WithoutAppend(es: seq<TargetEvent>, e: TargetEvent)
    ensures WithoutStateChanges(es + [e]) == WithoutStateChanges(es) + (if e.TargetStateChanged? then [] else [e])
  {
    assert (es + [e])[..|es|] == es;
  }

  /** A log holding only a creation describes the created target and counts that one creation. */
  lemma CreatedLog(e: TargetEvent)
    requires e.TargetCreated?
    ensures Replay([e]) == Some(TargetSnapshot(e.id, e.name, e.url, e.provider, e.state, None, e.createdBy))
    ensures forall k :: Count([e], k) == if k == CreatedKind then 1 else 0
  {
    assert [e][..0] == [];
  }

  /** Dropping the state changes leaves every other kind of event as often as it was. */
  lemma {:induction false} CountWithoutStateChanges(es: seq<TargetEvent>, k: EventKind)
    ensures Count(WithoutStateChanges(es), k) == if k == StateChangedKind then 0 else Count(es, k)
  {
    if es != [] {
      var p, e := es[..|es| - 1], es[|es| - 1];
      CountWithoutStateChanges(p, k);
      if e.TargetStateChanged? {
        assert WithoutStateChanges(es) == WithoutStateChanges(p);
      } else {
        assert WithoutStateChanges(es) == WithoutStateChanges(p) + [e];
        CountAppend(WithoutStateChanges(p), e, k);
      }
    }
  }

  /** Every event that survives the removal of state changes was in the log. */
  lemma {:induction false} WithoutStateChangesKeepsOnlyLogEvents(es: seq<TargetEvent>)
    ensures forall e | e in WithoutStateChanges(es) :: e in es && !e.TargetStateChanged?
    ensures |es| > 0 && !es[0].TargetStateChanged? ==>
      |WithoutStateChanges(es)| > 0 && WithoutStateChanges(es)[0] == es[0]
  {
    if es != [] {
      var p, e := es[..|es| - 1], es[|es| - 1];
      assert es == p + [e];
      WithoutStateChangesKeepsOnlyLogEvents(p);
      WithoutAppend(p, e);
    }
  }

  /** A log without state changes is left as it is. */
  lemma {:induction false} WithoutStateChangesNone(es: seq<TargetEvent>)
    requires forall i | 0 <= i < |es| :: !es[i].TargetStateChanged?
    ensures WithoutStateChanges(es) == es
  {
    if es != [] {
      var p, e := es[..|es| - 1], es[|es| - 1];
      assert es == p + [e];
      WithoutStateChangesNone(p);
      WithoutAppend(p, e);
    }
  }

  /** Every event other than a state change leaves the state untouched. */
  lemma EvolveKeepsState(o: Option<TargetSnapshot>, e: TargetEvent, st: TargetState)
    requires !e.TargetStateChanged?
    ensures WithState(Evolve(o, e), st) == WithState(Evolve(WithState(o, st), e), st)
  {
  }

  /**
   * Removing the state changes from a log loses nothing but the state: once
   * the state is overwritten, both logs describe the same target.
   */
  lemma {:induction false} ReplayWithoutStateChanges(es: seq<TargetEvent>, st: TargetState)
    ensures WithState(Replay(WithoutStateChanges(es)), st) == WithState(Replay(es), st)
  {
    if es != [] {
      var p, e := es[..|es| - 1], es[|es| - 1];
      assert es == p + [e];
      ReplayAppend(p, e);
      WithoutAppend(p, e);
      ReplayWithoutStateChanges(p, st);
      if e.TargetStateChanged? {
        assert WithoutStateChanges(es) == WithoutStateChanges(p);
        assert Replay(es) == WithState(Replay(p), e.state);
      } else {
        ReplayAppend(WithoutStateChanges(p), e);
        EvolveKeepsState(Replay(WithoutStateChanges(p)), e, st);
        EvolveKeepsState(Replay(p), e, st);
      }
    }
  }

  /** Raising a state change on a log describes the same target with the new state. */
  lemma RaiseStateChangedReplay(es: seq<TargetEvent>, id: TargetId, st: TargetState)
    ensures Replay(RaiseStateChanged(es, id, st)) == WithState(Replay(es), st)
  {
    ReplayAppend(WithoutStateChanges(es), TargetStateChanged(id, st));
    ReplayWithoutStateChanges(es, st);
  }

  /** Raising a state change leaves exactly one state change and every other kind of event as often as before. */
  lemma RaiseStateChangedCounts(es: seq<TargetEvent>, id: TargetId, st: TargetState)
    ensures forall k :: Count(RaiseStateChanged(es, id, st), k) == if k == StateChangedKind then 1 else Count(es, k)
  {
    var w, sc := WithoutStateChanges(es), TargetStateChanged(id, st);
    forall k
      ensures Count(w + [sc], k) == if k == StateChangedKind then 1 else Count(es, k)
    {
      CountAppend(w, sc, k);
      CountWithoutStateChanges(es, k);
    }
  }

  /** Raising a state change adds no event but the state change, and keeps the first event. */
  lemma RaiseStateChangedKeeps(es: seq<TargetEvent>, id: TargetId, st: TargetState)
    ensures forall e | e in RaiseStateChanged(es, id, st) :: e in es || e == TargetStateChanged(id, st)
    ensures |es| > 0 && !es[0].TargetStateChanged? ==> RaiseStateChanged(es, id, st)[0] == es[0]
  {
    WithoutStateChangesKeepsOnlyLogEvents(es);
  }
}
