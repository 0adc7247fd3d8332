/** The areas tab of a site: an error panel when the areas failed to load,
    otherwise the area list and one form, opened to create an area or to edit
    one, whose submission goes to the create or the update callback. */
module AreaTab {
  import opened Wrappers
  import opened Entities
  import opened JsText

  /** A call of one of the component's callbacks. */
  datatype AreaCall = CreateArea(data: NewArea) | UpdateArea(area: Area)

  /** The component's state fields, as one value. */
  datatype TabState = TabState(
    searchTerm: string, isModalOpen: bool, editingArea: Option<Area>,
    isSubmitting: bool, calls: seq<AreaCall>)

  /** What the tab shows. */
  datatype TabScreen =
    | AreasError(details: string)
    | AreasTab(searchTerm: string, form: bool, formArea: Option<Area>, formBusy: bool)

  /** A truthy `error` prop renders the error panel and nothing else. */
  function Screen(error: Option<string>, s: TabState): (r: TabScreen)
    ensures IsTruthy(error) ==> r == AreasError(error.value)
    ensures !IsTruthy(error) ==>
              r == AreasTab(s.searchTerm, s.isModalOpen, if s.isModalOpen then s.editingArea else None,
                            s.isSubmitting)
  {
    if IsTruthy(error) then AreasError(error.value)
    else AreasTab(s.searchTerm, s.isModalOpen, if s.isModalOpen then s.editingArea else None, s.isSubmitting)
  }

  /** The callback a submission reaches, if the parent passed it: the update
      callback, with the edited area's id, while editing; the create callback
      otherwise. */
  function SubmitCall(editingArea: Option<Area>, data: NewArea, hasCreate: bool, hasUpdate: bool): (r: seq<AreaCall>)
    ensures |r| <= 1
    ensures editingArea.Some? ==> (r == [] <==> !hasUpdate)
    ensures editingArea.None? ==> (r == [] <==> !hasCreate)
    ensures editingArea.Some? && r != [] ==> r[0] == UpdateArea(WithId(data, editingArea.value.id_area))
    ensures editingArea.None? && r != [] ==> r[0] == CreateArea(data)
  {
    if editingArea.Some? then (if hasUpdate then [UpdateArea(WithId(data, editingArea.value.id_area))] else [])
    else (if hasCreate then [CreateArea(data)] else [])
  }

  /** An update submission carries the form's fields and the edited area's id. */
  lemma UpdateKeepsEditedId(editing: Area, data: NewArea, hasCreate: bool)
    ensures var c := SubmitCall(Some(editing), data, hasCreate, true);
            c != [] && c[0].UpdateArea? && c[0].area.id_area == editing.id_area &&
            c[0].area.nombre == data.nombre && c[0].area.id_obra == data.id_obra &&
            c[0].area.id_supervisor == data.id_supervisor && c[0].area.descripcion == data.descripcion
  {
  }

  /** `handleCloseModal`: the form closes and the edited area is forgotten. */
  function CloseForm(s: TabState): (r: TabState)
    ensures !r.isModalOpen && r.editingArea.None?
    ensures r.searchTerm == s.searchTerm && r.isSubmitting == s.isSubmitting && r.calls == s.calls
  {
    s.(editingArea := None, isModalOpen := false)
  }

  /** The state after `handleSubmit`: the callback's call is logged; unless
      that callback threw, the form is closed and the edited area forgotten;
      `isSubmitting` is false once the handler is done, on every path. */
  function Submitted(s: TabState, data: NewArea, result: Outcome<bool>, hasCreate: bool, hasUpdate: bool): (r: TabState)
    ensures r.searchTerm == s.searchTerm && !r.isSubmitting
    ensures r.calls == s.calls + SubmitCall(s.editingArea, data, hasCreate, hasUpdate)
  {
    var call := SubmitCall(s.editingArea, data, hasCreate, hasUpdate);
    var threw := call != [] && result.Throws?;
    var logged := s.(calls := s.calls + call, isSubmitting := false);
    if threw then logged else CloseForm(logged)
  }

  /** A submission whose callback returns, whatever it returns, closes the
      form and forgets the edited area: the tab then shows the list alone,
      not busy. */
  lemma SubmitClosesForm(error: Option<string>, s: TabState, data: NewArea, v: bool, hasCreate: bool, hasUpdate: bool)
    requires !IsTruthy(error)
    ensures Screen(error, Submitted(s, data, Returns(v), hasCreate, hasUpdate)) == AreasTab(s.searchTerm, false, None, false)
    ensures var r := Submitted(s, data, Returns(v), hasCreate, hasUpdate);
            !r.isModalOpen && r.editingArea.None?
  {
  }

  /** A submission whose callback throws keeps the form open on the same
      area, so the user can try again. */
  lemma SubmitThrowKeepsForm(s: TabState, data: NewArea, hasCreate: bool, hasUpdate: bool)
    requires SubmitCall(s.editingArea, data, hasCreate, hasUpdate) != []
    ensures var r := Submitted(s, data, Throws, hasCreate, hasUpdate);
            r.isModalOpen == s.isModalOpen && r.editingArea == s.editingArea
  {
  }

  /** Without the callback it would reach, a submission closes the form and
      calls nothing, even when asked to throw. */
  lemma SubmitWithoutCallbackCloses(s: TabState, data: NewArea, result: Outcome<bool>, hasCreate: bool, hasUpdate: bool)
    requires if s.editingArea.Some? then !hasUpdate else !hasCreate
    ensures Submitted(s, data, result, hasCreate, hasUpdate) == s.(isModalOpen := false, editingArea := None, isSubmitting := false)
  {
  }

  /** While the error prop is truthy the form is never shown, whatever the state. */
  lemma ErrorHidesForm(error: Option<string>, s: TabState)
    requires IsTruthy(error)
    ensures !Screen(error, s).AreasTab?
  {
  }

  /** What the rendered tab lets the user do: type in the list's search box
      (`onSearchChange`), and, only while the form is rendered, close it or
      submit it. The list receives the parent's callbacks directly, so no
      element is wired to `handleOpenModal`. */
  datatype TabEvent = SearchChanged(term: string) | FormClosed | FormSubmitted(data: NewArea, result: Outcome<bool>)

  /** One event as the tab experiences it: the form's events occur only while
      the form is open. The search branch is `SetSearchTerm`'s update, and the
      close and submit branches are `CloseForm` and `Submitted`, the functions
      `HandleCloseModal` and `HandleSubmit` are proved against. */
  function TabStep(s: TabState, e: TabEvent, hasCreate: bool, hasUpdate: bool): TabState {
    match e
    case SearchChanged(t) => s.(searchTerm := t)
    case FormClosed => if s.isModalOpen then CloseForm(s) else s
    case FormSubmitted(d, res) => if s.isModalOpen then Submitted(s, d, res, hasCreate, hasUpdate) else s
  }

  /** A sequence of events, in order. */
  function TabRun(s: TabState, es: seq<TabEvent>, hasCreate: bool, hasUpdate: bool): TabState
    decreases |es|
  {
    if |es| == 0 then s else TabRun(TabStep(s, es[0], hasCreate, hasUpdate), es[1..], hasCreate, hasUpdate)
  }

  /** Starting with the form closed, as the tab mounts, no sequence of the
      events it wires opens the form, so the tab's own submit logs no call. */
  lemma {:induction false} FormNeverOpens(s: TabState, es: seq<TabEvent>, hasCreate: bool, hasUpdate: bool)
    requires !s.isModalOpen
    ensures !TabRun(s, es, hasCreate, hasUpdate).isModalOpen
    ensures TabRun(s, es, hasCreate, hasUpdate).calls == s.calls
    decreases |es|
  {
    if |es| > 0 {
      FormNeverOpens(TabStep(s, es[0], hasCreate, hasUpdate), es[1..], hasCreate, hasUpdate);
    }
  }

  /** The tab's controller. `hasCreate` and `hasUpdate` say whether the
      parent passed `onCreateArea` and `onUpdateArea`. */
  class AreaTabController {
    const hasCreate: bool
    const hasUpdate: bool
    var searchTerm: string
    var isModalOpen: bool
    var editingArea: Option<Area>
    var isSubmitting: bool
    var calls: seq<AreaCall>

    function State(): TabState
      reads this
    {
      TabState(searchTerm, isModalOpen, editingArea, isSubmitting, calls)
    }

    constructor (hasCreate: bool, hasUpdate: bool)
      ensures this.hasCreate == hasCreate && this.hasUpdate == hasUpdate
      ensures State() == TabState("", false, None, false, [])
    {
      this.hasCreate := hasCreate;
      this.hasUpdate := hasUpdate;
      searchTerm := "";
      isModalOpen := false;
      editingArea := None;
      isSubmitting := false;
      calls := [];
    }

    /** The list's search box. */
    method SetSearchTerm(term: string)
      modifies this
      ensures State() == old(State()).(searchTerm := term)
    {
      searchTerm := term;
    }

    /** `handleOpenModal`: open the form, editing the given area or, without
        one, creating. The component defines it but hands it to no element,
        so it is the only way to open the form and nothing calls it
        (`FormNeverOpens`). */
    method HandleOpenModal(area: Option<Area>)
      modifies this
      ensures State() == old(State()).(editingArea := area, isModalOpen := true)
    {
      editingArea := area;
      isModalOpen := true;
    }

    /** Close the form and forget the edited area. */
    method HandleCloseModal()
      modifies this
      ensures State() == CloseForm(old(State()))
    {
      editingArea := None;
      isModalOpen := false;
    }

    /** The form's submit: call the update or the create callback; once it
        returns, whatever it returned, or when there was none to call, close
        the form. A callback that throws leaves the form as it was.
        `isSubmitting` ends false on every path. */
    method HandleSubmit(data: NewArea, result: Outcome<bool>)
      modifies this
      ensures State() == Submitted(old(State()), data, result, hasCreate, hasUpdate)
    {
      isSubmitting := true;
      var threw := false;
      if editingArea.Some? {
        if hasUpdate {
          calls := calls + [UpdateArea(WithId(data, editingArea.value.id_area))];
          threw := result.Throws?;
        }
      } else {
        if hasCreate {
          calls := calls + [CreateArea(data)];
          threw := result.Throws?;
        }
      }
      if !threw {
        HandleCloseModal();
      }
      isSubmitting := false;
    }
  }
}
