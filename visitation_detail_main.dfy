/**
 * The visit detail page of the new layout
 * (src/components/main/VisitationDetail.tsx).  Its fetch is not wired to
 * a server yet and always ends in the not-found error; save and cancel
 * are merges handed to the state setters.
 */
module MainVisitationDetail {
  import opened Common
  import opened Visitation

  const NotFound := "심방 기록을 찾을 수 없습니다."

  datatype PageState = PageState(
    visit: Option<Visit>, form: EditForm, isEditing: bool, error: Option<string>, loading: bool)

  const Initial := PageState(None, EmptyForm, false, None, true)

  /** `fetchVisitationDetail`: nothing without an id; otherwise the not-found error and loading off. */
  function Fetch(st: PageState, id: Option<string>): (r: PageState)
  {
    if id.None? || id.value == "" then st
    else st.(error := Some(NotFound), loading := false)
  }

  /** With an id the fetch always ends in the not-found error, loading off and the rest unchanged. */
  lemma {:induction false} FetchAlwaysNotFound(st: PageState, id: string)
    requires id != ""
    ensures var r := Fetch(st, Some(id));
      r.error == Some(NotFound) && !r.loading && r.visit == st.visit && r.form == st.form
    ensures Fetch(st, None) == st
  {
  }

  /** `handleSave`: without a record nothing happens; otherwise the form is merged and editing ends. */
  function HandleSave(st: PageState): (r: PageState)
  {
    if st.visit.None? then st
    else st.(visit := Some(Save(st.visit.value, st.form)), isEditing := false)
  }

  /** `handleCancel`: without a record nothing happens; otherwise the form is reset and editing ends. */
  function HandleCancel(st: PageState): (r: PageState)
  {
    if st.visit.None? then st
    else st.(form := FormOf(st.visit.value), isEditing := false)
  }

  /**
   * Saving changes only the three edited fields of the record and ends
   * editing; cancelling discards the edits without touching the record;
   * both are no-ops without a record.
   */
  lemma {:induction false} SaveAndCancel(st: PageState)
    ensures st.visit.None? ==> HandleSave(st) == st && HandleCancel(st) == st
    ensures st.visit.Some? ==>
      && FormOf(HandleSave(st).visit.value) == st.form
      && Save(HandleSave(st).visit.value, FormOf(st.visit.value)) == st.visit.value
      && !HandleSave(st).isEditing
    ensures st.visit.Some? ==>
      && HandleCancel(st).visit == st.visit
      && HandleCancel(st).form == FormOf(st.visit.value)
      && !HandleCancel(st).isEditing
  {
    if st.visit.Some? {
      SaveOnlyEditedFields(st.visit.value, st.form);
    }
  }

  /** Cancelling right after saving keeps what was saved in the form. */
  lemma {:induction false} CancelAfterSave(st: PageState)
    requires st.visit.Some?
    ensures HandleCancel(HandleSave(st)).form == st.form
  {
    SaveOnlyEditedFields(st.visit.value, st.form);
  }
}
