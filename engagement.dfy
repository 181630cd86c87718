/** The engagement session: the id, status and context the host reports, the in-memory
    note form, and how host events and form edits change them and the store. */
module Engagement {
  import opened Wrappers
  import opened Json
  import opened Form
  import opened Interests
  import opened FormStore

  /** `{ engagementContext: { engagementId, queueName? } }`; every level may be missing. */
  datatype ContextInfo = ContextInfo(engagementId: Option<string>, queueName: Option<string>)
  datatype ContextEvent = ContextEvent(engagementContext: Option<ContextInfo>)

  /** `{ engagementStatus: { state } }`; every level may be missing. */
  datatype StatusInfo = StatusInfo(state: Option<string>)
  datatype StatusEvent = StatusEvent(engagementStatus: Option<StatusInfo>)

  const END := "end"

  /** `event?.engagementContext?.engagementId ?? ""` */
  function ContextId(e: Option<ContextEvent>): (id: string)
    ensures id != "" ==> e.Some? && e.value.engagementContext.Some?
                         && e.value.engagementContext.value.engagementId == Some(id)
    ensures e.Some? && e.value.engagementContext.Some? && e.value.engagementContext.value.engagementId.Some?
            ==> id == e.value.engagementContext.value.engagementId.value
  {
    if e.Some? && e.value.engagementContext.Some? && e.value.engagementContext.value.engagementId.Some?
    then e.value.engagementContext.value.engagementId.value
    else ""
  }

  /** `event?.engagementContext?.queueName ?? ""` */
  function ContextQueue(e: Option<ContextEvent>): (queue: string)
    ensures queue != "" ==> e.Some? && e.value.engagementContext.Some?
                            && e.value.engagementContext.value.queueName == Some(queue)
    ensures e.Some? && e.value.engagementContext.Some? && e.value.engagementContext.value.queueName.Some?
            ==> queue == e.value.engagementContext.value.queueName.value
  {
    if e.Some? && e.value.engagementContext.Some? && e.value.engagementContext.value.queueName.Some?
    then e.value.engagementContext.value.queueName.value
    else ""
  }

  /** `event?.engagementStatus?.state ?? ""`: any string is kept verbatim. */
  function StatusState(e: Option<StatusEvent>): (state: string)
    ensures state != "" ==> e.Some? && e.value.engagementStatus.Some?
                            && e.value.engagementStatus.value.state == Some(state)
    ensures e.Some? && e.value.engagementStatus.Some? && e.value.engagementStatus.value.state.Some?
            ==> state == e.value.engagementStatus.value.state.value
  {
    if e.Some? && e.value.engagementStatus.Some? && e.value.engagementStatus.value.state.Some?
    then e.value.engagementStatus.value.state.value
    else ""
  }

  /** One `handleChange(field, value)` call, with the value's type fixed by the field. */
  datatype Edit =
    | SetText(text: string)
    | SetDate(date: string)
    | SetContactMethod(contactMethod: string)
    | SetInterests(interests: seq<Value>)
    | SetRange(range: real)

  function FieldOf(e: Edit): FieldName
  {
    match e
    case SetText(_) => Text
    case SetDate(_) => Date
    case SetContactMethod(_) => ContactMethod
    case SetInterests(_) => Interests
    case SetRange(_) => Range
  }

  /** `{ [field]: value }`: the patch an edit persists, holding that field only. */
  function PatchOf(e: Edit): (p: Patch)
    ensures WellFormedPatch(p)
    ensures forall k: FieldName :: PatchGet(p, k).Some? <==> k == FieldOf(e)
    ensures e.SetText? ==> p.text == Some(JString(e.text))
    ensures e.SetDate? ==> p.date == Some(JString(e.date))
    ensures e.SetContactMethod? ==> p.contactMethod == Some(JString(e.contactMethod))
    ensures e.SetInterests? ==> p.interests == Some(e.interests)
    ensures e.SetRange? ==> p.range == Some(e.range)
  {
    match e
    case SetText(v) => Patch(Some(JString(v)), None, None, None, None)
    case SetDate(v) => Patch(None, Some(JString(v)), None, None, None)
    case SetContactMethod(v) => Patch(None, None, Some(JString(v)), None, None)
    case SetInterests(v) => Patch(None, None, None, Some(v), None)
    case SetRange(v) => Patch(None, None, None, None, Some(v))
  }

  /** The whole state the session works on: the component's four state variables and
      the store's contents. */
  datatype SessionState = SessionState(
    engagementId: string,
    engagementStatus: string,
    engagementContext: string,
    formData: FormData,
    items: map<string, Raw>)

  /** A new id takes effect; the reload effect then replaces the form with the stored
      record, but only for a non-empty id that differs from the one before. */
  function WithId(s: SessionState, newId: string): (r: SessionState)
    ensures r.engagementId == newId
    ensures r.engagementStatus == s.engagementStatus && r.engagementContext == s.engagementContext
    ensures r.items == s.items
    ensures newId != "" && newId != s.engagementId ==> r.formData == LoadFromStorage(s.items, newId)
    ensures newId == "" || newId == s.engagementId ==> r.formData == s.formData
  {
    s.(engagementId := newId,
       formData := if newId != "" && newId != s.engagementId then LoadFromStorage(s.items, newId) else s.formData)
  }

  /** The startup snapshot sets id, context and status from the two answers, each ""
      when missing; the form is reloaded exactly as on a context change, and the store is
      not touched. */
  function SnapshotStep(s: SessionState, ctx: Option<ContextEvent>, status: Option<StatusEvent>): (r: SessionState)
    ensures r.engagementId == ContextId(ctx) && r.engagementContext == ContextQueue(ctx)
    ensures r.engagementStatus == StatusState(status) && r.items == s.items
    ensures r.formData == ContextStep(s, ctx).formData
    ensures ctx.None? ==> r.engagementId == "" && r.engagementContext == ""
    ensures status.None? ==> r.engagementStatus == ""
  {
    WithId(s.(engagementContext := ContextQueue(ctx), engagementStatus := StatusState(status)), ContextId(ctx))
  }

  /** `onContextChange`, with the reload effect: id and context come from the payload. A
      new non-empty id replaces the form by what is stored for it, so nothing of the
      previous engagement's form survives; an empty or unchanged id leaves the form alone.
      The status and the store are not touched. */
  function ContextStep(s: SessionState, e: Option<ContextEvent>): (r: SessionState)
    ensures r.engagementId == ContextId(e) && r.engagementContext == ContextQueue(e)
    ensures r.engagementStatus == s.engagementStatus && r.items == s.items
    ensures ContextId(e) != "" && ContextId(e) != s.engagementId ==>
              r.formData == LoadFromStorage(s.items, ContextId(e))
    ensures ContextId(e) == "" || ContextId(e) == s.engagementId ==> r.formData == s.formData
  {
    WithId(s.(engagementContext := ContextQueue(e)), ContextId(e))
  }

  /** `onStatusChange`: the status is stored verbatim. `end` with an active id erases that
      id's record, so it loads as the default afterwards, and resets the form; any other
      status, or no active id, changes nothing else. */
  function StatusStep(s: SessionState, e: Option<StatusEvent>): (r: SessionState)
    ensures r.engagementStatus == StatusState(e)
    ensures r.engagementId == s.engagementId && r.engagementContext == s.engagementContext
    ensures StatusState(e) == END && s.engagementId != "" ==>
              && r.items == Erase(s.items, s.engagementId)
              && StorageKey(s.engagementId) !in r.items
              && LoadFromStorage(r.items, s.engagementId) == DEFAULT_FORM
              && r.formData == DEFAULT_FORM
    ensures StatusState(e) != END || s.engagementId == "" ==> r.items == s.items && r.formData == s.formData
  {
    var state := StatusState(e);
    if state == END && s.engagementId != "" then
      s.(engagementStatus := state, items := Erase(s.items, s.engagementId), formData := DEFAULT_FORM)
    else
      s.(engagementStatus := state)
  }

  /** `handleChange(field, value)`: the edited field takes the edit's value and every other
      field is kept. Under an active id the patch holding that field alone is persisted,
      after which the store loads the edited field back as the form holds it; without an
      active id the store is not touched. */
  function ChangeStep(s: SessionState, e: Edit): (r: SessionState)
    ensures forall k: FieldName :: k != FieldOf(e) ==> Get(r.formData, k) == Get(s.formData, k)
    ensures e.SetText? ==> r.formData.text == JString(e.text)
    ensures e.SetDate? ==> r.formData.date == JString(e.date)
    ensures e.SetContactMethod? ==> r.formData.contactMethod == JString(e.contactMethod)
    ensures e.SetInterests? ==> r.formData.interests == e.interests
    ensures e.SetRange? ==> r.formData.range == e.range
    ensures r.engagementId == s.engagementId && r.engagementStatus == s.engagementStatus
    ensures r.engagementContext == s.engagementContext
    ensures s.engagementId == "" ==> r.items == s.items
    ensures s.engagementId != "" ==> r.items == Persist(s.items, s.engagementId, PatchOf(e))
    ensures s.engagementId != "" ==>
              Get(LoadFromStorage(r.items, s.engagementId), FieldOf(e)) == Get(r.formData, FieldOf(e))
  {
    if s.engagementId != "" then
      PersistRoundTrip(s.items, s.engagementId, PatchOf(e));
      s.(formData := Overlay(s.formData, PatchOf(e)),
         items := Persist(s.items, s.engagementId, PatchOf(e)))
    else
      s.(formData := Overlay(s.formData, PatchOf(e)))
  }

  /** `handleCheckboxToggle(value, checked)`: the interests become the toggled list and the
      other fields are kept. Under an active id the patch holding the interests alone is
      persisted, after which the store loads the toggled list back; without an active id
      the store is not touched. */
  function ToggleStep(s: SessionState, tag: string, checked: bool): (r: SessionState)
    ensures r.formData == s.formData.(interests := ToggleInterests(s.formData.interests, tag, checked))
    ensures r.engagementId == s.engagementId && r.engagementStatus == s.engagementStatus
    ensures r.engagementContext == s.engagementContext
    ensures s.engagementId == "" ==> r.items == s.items
    ensures s.engagementId != "" ==>
              r.items == Persist(s.items, s.engagementId, Patch(None, None, None, Some(r.formData.interests), None))
    ensures s.engagementId != "" ==> LoadFromStorage(r.items, s.engagementId).interests == r.formData.interests
  {
    ChangeStep(s, SetInterests(ToggleInterests(s.formData.interests, tag, checked)))
  }

  /** The in-memory form is exactly the record the store holds for the active id. */
  ghost predicate Synced(s: SessionState)
  {
    s.engagementId != "" ==> s.formData == LoadFromStorage(s.items, s.engagementId)
  }

  /** No step ever changes the record stored for an id other than the active one, so
      one engagement's notes never leak into another's. */
  lemma OtherRecordsUntouched(s: SessionState, other: string, ctx: Option<ContextEvent>,
                              st: Option<StatusEvent>, e: Edit, tag: string, checked: bool)
    requires other != s.engagementId
    ensures GetItem(SnapshotStep(s, ctx, st).items, StorageKey(other)) == GetItem(s.items, StorageKey(other))
    ensures GetItem(ContextStep(s, ctx).items, StorageKey(other)) == GetItem(s.items, StorageKey(other))
    ensures GetItem(StatusStep(s, st).items, StorageKey(other)) == GetItem(s.items, StorageKey(other))
    ensures GetItem(ChangeStep(s, e).items, StorageKey(other)) == GetItem(s.items, StorageKey(other))
    ensures GetItem(ToggleStep(s, tag, checked).items, StorageKey(other)) == GetItem(s.items, StorageKey(other))
  {
    EraseIsolation(s.items, s.engagementId, other);
    PersistIsolation(s.items, s.engagementId, other, PatchOf(e));
    PersistIsolation(s.items, s.engagementId, other,
                     PatchOf(SetInterests(ToggleInterests(s.formData.interests, tag, checked))));
  }

  /** A repeated `end` notification is a no-op. */
  lemma EndIdempotent(s: SessionState, e: Option<StatusEvent>)
    requires StatusState(e) == END
    ensures StatusStep(StatusStep(s, e), e) == StatusStep(s, e)
  {
  }

  lemma SnapshotKeepsSynced(s: SessionState, ctx: Option<ContextEvent>, status: Option<StatusEvent>)
    requires Synced(s)
    ensures Synced(SnapshotStep(s, ctx, status))
  {
  }

  lemma ContextKeepsSynced(s: SessionState, e: Option<ContextEvent>)
    requires Synced(s)
    ensures Synced(ContextStep(s, e))
  {
  }

  lemma StatusKeepsSynced(s: SessionState, e: Option<StatusEvent>)
    requires Synced(s)
    ensures Synced(StatusStep(s, e))
  {
    if StatusState(e) == END && s.engagementId != "" {
      EraseLoadsDefault(s.items, s.engagementId);
    }
  }

  /** Writing through: after an edit under an active id, the form in memory and the form
      the store gives back agree again. */
  lemma ChangeKeepsSynced(s: SessionState, e: Edit)
    requires Synced(s)
    ensures Synced(ChangeStep(s, e))
  {
    if s.engagementId != "" {
      PersistRoundTrip(s.items, s.engagementId, PatchOf(e));
    }
  }

  lemma ToggleKeepsSynced(s: SessionState, tag: string, checked: bool)
    requires Synced(s)
    ensures Synced(ToggleStep(s, tag, checked))
  {
    ChangeKeepsSynced(s, SetInterests(ToggleInterests(s.formData.interests, tag, checked)));
  }

  /** The component: its state variables, and the store it writes through to. */
  class Session {
    var engagementId: string
    var engagementStatus: string
    var engagementContext: string
    var formData: FormData
    const store: Store

    ghost function State(): SessionState
      reads this, store
    {
      SessionState(engagementId, engagementStatus, engagementContext, formData, store.items)
    }

    /** The first render: every state variable at its initial value. */
    constructor (store: Store)
      ensures this.store == store
      ensures engagementId == "" && engagementStatus == "" && engagementContext == ""
      ensures formData == DEFAULT_FORM
      ensures Synced(State())
    {
      this.store := store;
      engagementId, engagementStatus, engagementContext := "", "", "";
      formData := DEFAULT_FORM;
    }

    /** The reload effect, run after `engagementId` has moved on from `prevId`. */
    method ReloadOnIdChange(prevId: string)
      modifies this`formData
      ensures formData == if engagementId != "" && engagementId != prevId
                          then LoadFromStorage(store.items, engagementId) else old(formData)
    {
      if engagementId == "" || engagementId == prevId {
        return;
      }
      formData := LoadFromStorage(store.items, engagementId);
    }

    /** The startup snapshot once both queries have answered. */
    method ApplySnapshot(ctx: Option<ContextEvent>, status: Option<StatusEvent>)
      modifies this
      ensures State() == SnapshotStep(old(State()), ctx, status)
      ensures Synced(old(State())) ==> Synced(State())
    {
      var prevId := engagementId;
      engagementId := ContextId(ctx);
      engagementContext := ContextQueue(ctx);
      engagementStatus := StatusState(status);
      ReloadOnIdChange(prevId);
      if Synced(old(State())) {
        SnapshotKeepsSynced(old(State()), ctx, status);
      }
    }

    /** `onContextChange`, followed by the reload effect. */
    method OnContextChange(e: Option<ContextEvent>)
      modifies this
      ensures State() == ContextStep(old(State()), e)
      ensures Synced(old(State())) ==> Synced(State())
    {
      var prevId := engagementId;
      engagementId := ContextId(e);
      engagementContext := ContextQueue(e);
      ReloadOnIdChange(prevId);
      if Synced(old(State())) {
        ContextKeepsSynced(old(State()), e);
      }
    }

    /** `onStatusChange` */
    method OnStatusChange(e: Option<StatusEvent>)
      modifies this, store
      ensures State() == StatusStep(old(State()), e)
      ensures Synced(old(State())) ==> Synced(State())
    {
      var state := StatusState(e);
      engagementStatus := state;
      if state == END && engagementId != "" {
        store.RemoveItem(StorageKey(engagementId));
        formData := DEFAULT_FORM;
      }
      if Synced(old(State())) {
        StatusKeepsSynced(old(State()), e);
      }
    }

    /** `handleChange(field, value)` */
    method HandleChange(e: Edit)
      modifies this, store
      ensures State() == ChangeStep(old(State()), e)
      ensures Synced(old(State())) ==> Synced(State())
    {
      var patch := PatchOf(e);
      var next := Overlay(formData, patch);
      if engagementId != "" {
        store.PersistToStorage(engagementId, patch);
      }
      formData := next;
      if Synced(old(State())) {
        ChangeKeepsSynced(old(State()), e);
      }
    }

    /** `handleCheckboxToggle(value, checked)` */
    method HandleCheckboxToggle(tag: string, checked: bool)
      modifies this, store
      ensures State() == ToggleStep(old(State()), tag, checked)
      ensures Synced(old(State())) ==> Synced(State())
    {
      var nextInterests := ToggleInterests(formData.interests, tag, checked);
      var next := formData.(interests := nextInterests);
      if engagementId != "" {
        store.PersistToStorage(engagementId, Patch(None, None, None, Some(nextInterests), None));
      }
      formData := next;
      if Synced(old(State())) {
        ToggleKeepsSynced(old(State()), tag, checked);
      }
    }

    /** The slider's `onValueChange`: the first value, or 50 when there is none. */
    method HandleRangeChange(vals: seq<real>)
      modifies this, store
      ensures State() == ChangeStep(old(State()), SetRange(SliderValue(vals)))
      ensures formData.range == (if |vals| > 0 then vals[0] else 50.0)
      ensures Synced(old(State())) ==> Synced(State())
    {
      HandleChange(SetRange(SliderValue(vals)));
    }
  }
}
