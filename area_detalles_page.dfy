/** The detail page of one work area: it loads the area named by the route,
    derives an error message, offers editing and deletion to coordinators, and
    decorates the area with its supervisor and its number of cameras. */
module AreaDetalles {
  import opened Wrappers
  import opened Entities
  import opened JsText
  import opened JsNumbers
  import opened Seqs

  /** The calls the page makes to its area hook and to the supervisor service. */
  datatype Request =
    | GetArea(id: JsNumber)
    | UpdateArea(area: Area)
    | DeleteArea(id: JsNumber)
    | FetchSupervisores(id_obra: int)

  /** What the edit form submits: a whole area, or one without `id_area`. */
  datatype AreaSubmission = Existing(area: Area) | WithoutId(fields: NewArea)

  /** A row of `getSupervisoresConAreas`. */
  datatype SupervisorRow = SupervisorRow(
    id_usuario: int, correo: string, nombres: Option<string>, apellidos: Option<string>)

  /** A supervisor row as a `User`: no login name, a local account, the
      supervisor role, and the row's id, mail and names. */
  function ToUser(s: SupervisorRow): (u: User)
    ensures u.id_usuario == s.id_usuario && u.correo == s.correo
    ensures u.nombres == s.nombres && u.apellidos == s.apellidos
    ensures u.usuario == "" && u.auth_provider == Local && u.global_role == Supervisor
    ensures u.google_id.None? && u.documento.None? && u.telefono.None?
  {
    User(s.id_usuario, "", Local, None, None, s.nombres, s.apellidos, s.correo, None, Supervisor)
  }

  /** The supervisor list after the service call settles: every row mapped
      in order, or nothing when the call fails. */
  function SupervisoresFrom(fetched: Outcome<seq<SupervisorRow>>): (r: seq<User>)
    ensures fetched.Throws? ==> r == []
    ensures fetched.Returns? ==>
              |r| == |fetched.value| && forall i :: 0 <= i < |r| ==> r[i] == ToUser(fetched.value[i])
  {
    match fetched
    case Throws => []
    case Returns(rows) => seq(|rows|, i requires 0 <= i < |rows| => ToUser(rows[i]))
  }

  /** Every mapped user is a local supervisor account carrying its row's id. */
  lemma MappedSupervisoresAreSupervisors(fetched: Outcome<seq<SupervisorRow>>, i: int)
    requires 0 <= i < |SupervisoresFrom(fetched)|
    ensures fetched.Returns?
    ensures SupervisoresFrom(fetched)[i].global_role == Supervisor
    ensures SupervisoresFrom(fetched)[i].auth_provider == Local
    ensures SupervisoresFrom(fetched)[i].id_usuario == fetched.value[i].id_usuario
  {
  }

  /** The message the page derives: the hook's error if it has one, nothing
      while loading, "Área no encontrada" once loading found no area. */
  function DisplayedError(areaError: Option<string>, loading: bool, area: Option<Area>): (r: Option<string>)
    ensures IsTruthy(areaError) ==> r == areaError
    ensures !IsTruthy(areaError) && loading ==> r.None?
    ensures !IsTruthy(areaError) && !loading && area.None? ==> r == Some("Área no encontrada")
    ensures !IsTruthy(areaError) && !loading && area.Some? ==> r.None?
    ensures IsTruthy(r) <==> IsTruthy(areaError) || (!loading && area.None?)
  {
    if IsTruthy(areaError) then areaError
    else if loading then None
    else if area.None? then Some("Área no encontrada")
    else None
  }

  /** `users.find(s => s.id_usuario === id)`. */
  function UserById(users: seq<User>, id: int): (r: Option<User>)
    ensures r.Some? ==> r.value in users && r.value.id_usuario == id
    ensures r.None? ==> forall j :: 0 <= j < |users| ==> users[j].id_usuario != id
    ensures r.Some? ==> exists j :: 0 <= j < |users| && users[j] == r.value &&
                                   forall i :: 0 <= i < j ==> users[i].id_usuario != id
  {
    Find(users, (u: User) => u.id_usuario == id)
  }

  /** The supervisor lookup as the page writes it: it reads `area.id_usuario`,
      a property the `Area` record does not declare; `rawIdUsuario` is that
      property's runtime value, absent for an area of the declared shape. */
  function SupervisorAsWritten(rawIdUsuario: Option<int>, supervisores: seq<User>): (r: Option<User>)
    ensures rawIdUsuario.None? || rawIdUsuario == Some(0) ==> r.None?
    ensures r.Some? ==> r.value in supervisores && rawIdUsuario == Some(r.value.id_usuario)
    ensures rawIdUsuario.Some? && rawIdUsuario.value != 0 &&
            (exists j :: 0 <= j < |supervisores| && supervisores[j].id_usuario == rawIdUsuario.value) ==>
              r.Some?
    ensures r.Some? ==> exists j :: 0 <= j < |supervisores| && supervisores[j] == r.value &&
                                   forall i :: 0 <= i < j ==> supervisores[i].id_usuario != r.value.id_usuario
  {
    if rawIdUsuario.Some? && rawIdUsuario.value != 0 then UserById(supervisores, rawIdUsuario.value)
    else None
  }

  /** The supervisor of an area, looked up by the reference the area declares:
      the first supervisor with that id when the reference is truthy. */
  function SupervisorOf(area: Area, supervisores: seq<User>): (r: Option<User>)
    ensures area.id_supervisor.None? || area.id_supervisor == Some(0) ==> r.None?
    ensures r.Some? ==> r.value in supervisores && area.id_supervisor == Some(r.value.id_usuario)
    ensures area.id_supervisor.Some? && area.id_supervisor.value != 0 &&
            (exists j :: 0 <= j < |supervisores| && supervisores[j].id_usuario == area.id_supervisor.value) ==>
              r.Some?
    ensures r.Some? ==> exists j :: 0 <= j < |supervisores| && supervisores[j] == r.value &&
                                   forall i :: 0 <= i < j ==> supervisores[i].id_usuario != r.value.id_usuario
  {
    if area.id_supervisor.Some? && area.id_supervisor.value != 0
    then UserById(supervisores, area.id_supervisor.value)
    else None
  }

  /** An area with a supervisor who is in the list: the page as written shows
      no supervisor, the lookup by `id_supervisor` finds them. */
  lemma SupervisorMissedAsWritten()
    ensures var sup := User(7, "", Local, None, None, Some("Ana"), None, "ana@obra.co", None, Supervisor);
            var area := Area(1, 5, "Zona Norte", None, Some(7));
            SupervisorAsWritten(None, [sup]) == None && SupervisorOf(area, [sup]) == Some(sup)
  {
  }

  /** `camaras.filter(c => c.id_area === id).length`. */
  function CamarasCount(camaras: seq<Camara>, idArea: int): (r: nat)
    ensures r <= |camaras|
    ensures r == 0 <==> forall j :: 0 <= j < |camaras| ==> camaras[j].id_area != idArea
  {
    var p := (c: Camara) => c.id_area == idArea;
    var kept := Filter(camaras, p);
    assert |kept| == 0 <==> forall j :: 0 <= j < |camaras| ==> camaras[j].id_area != idArea by {
      if |kept| > 0 {
        assert p(kept[0]) && kept[0] in camaras;
      } else {
        forall j | 0 <= j < |camaras| ensures camaras[j].id_area != idArea {
          FilterMembership(camaras, p, camaras[j]);
        }
      }
    }
    |kept|
  }

  /** The count adds up over a split of the camera list, and a single camera
      counts once exactly when it belongs to the area. */
  lemma CamarasCountAdditive(a: seq<Camara>, b: seq<Camara>, idArea: int)
    ensures CamarasCount(a + b, idArea) == CamarasCount(a, idArea) + CamarasCount(b, idArea)
  {
    FilterConcat(a, b, (c: Camara) => c.id_area == idArea);
  }

  lemma CamarasCountSingle(c: Camara, idArea: int)
    ensures CamarasCount([c], idArea) == if c.id_area == idArea then 1 else 0
  {
  }

  /** The area as the detail component receives it. */
  datatype AreaDetail = AreaDetail(area: Area, supervisor: Option<User>, camaras_count: nat)

  /** What the page shows. `canEdit` and `canDelete` say whether the edit and
      delete callbacks are passed down. */
  datatype AreaScreen =
    | LoadingArea
    | AreaLoadError(message: string)
    | AreaPage(detail: AreaDetail, isCoordinador: bool, canEdit: bool, canDelete: bool,
               deleteDialog: bool, deleteInProgress: bool, editForm: bool, editFormBusy: bool)

  const FallbackMessage: string := "No se pudo cargar la información del área. Por favor, intenta de nuevo."

  /** The page's state fields, as one value. */
  datatype AreaPageState = AreaPageState(
    area: Option<Area>, loading: bool, showDeleteModal: bool, isDeleting: bool,
    isEditModalOpen: bool, isSubmitting: bool, supervisores: seq<User>,
    requests: seq<Request>, navigations: seq<string>)

  /** The page: a spinner while loading, then the error panel when there is
      an error or no area, else the area with its supervisor and camera count.
      The supervisor is the one the area declares (`SupervisorOf`), where the
      page as written reads `area.id_usuario` (`SupervisorAsWritten`). */
  function Screen(s: AreaPageState, areaError: Option<string>, camaras: seq<Camara>,
                  isCoordinador: bool): (r: AreaScreen)
    ensures s.loading ==> r == LoadingArea
    ensures !s.loading && (IsTruthy(areaError) || s.area.None?) ==> r.AreaLoadError?
    ensures !s.loading && !IsTruthy(areaError) && s.area.Some? ==>
              r.AreaPage? && r.detail.area == s.area.value &&
              r.detail.supervisor == SupervisorOf(s.area.value, s.supervisores) &&
              r.detail.camaras_count == CamarasCount(camaras, s.area.value.id_area) &&
              r.canEdit == isCoordinador && r.canDelete == isCoordinador &&
              r.deleteDialog == s.showDeleteModal && r.deleteInProgress == s.isDeleting &&
              r.editForm == s.isEditModalOpen && r.editFormBusy == s.isSubmitting
  {
    if s.loading then LoadingArea
    else
      var error := DisplayedError(areaError, s.loading, s.area);
      if IsTruthy(error) || s.area.None? then
        AreaLoadError(if IsTruthy(error) then error.value else FallbackMessage)
      else
        var a := s.area.value;
        AreaPage(AreaDetail(a, SupervisorOf(a, s.supervisores), CamarasCount(camaras, a.id_area)),
                 isCoordinador, isCoordinador, isCoordinador,
                 s.showDeleteModal, s.isDeleting, s.isEditModalOpen, s.isSubmitting)
  }

  /** The error panel shows the hook's error or "Área no encontrada"; its own
      fallback text appears only when the hook's error is that very text. */
  lemma ErrorPanelMessage(s: AreaPageState, areaError: Option<string>, camaras: seq<Camara>, isCoordinador: bool)
    requires Screen(s, areaError, camaras, isCoordinador).AreaLoadError?
    ensures var m := Screen(s, areaError, camaras, isCoordinador).message;
            (IsTruthy(areaError) && m == areaError.value) ||
            (!IsTruthy(areaError) && s.area.None? && m == "Área no encontrada")
    ensures Screen(s, areaError, camaras, isCoordinador).message == FallbackMessage ==>
              areaError == Some(FallbackMessage)
  {
  }

  /** The page's controller: the state hooks and the handlers that update them.
      `requests` records the calls made, `navigations` the routes navigated to. */
  class AreaDetallesController {
    const numericAreaId: JsNumber
    const isCoordinador: bool
    var area: Option<Area>
    var loading: bool
    var showDeleteModal: bool
    var isDeleting: bool
    var isEditModalOpen: bool
    var isSubmitting: bool
    var supervisores: seq<User>
    var requests: seq<Request>
    var navigations: seq<string>

    function State(): AreaPageState
      reads this
    {
      AreaPageState(area, loading, showDeleteModal, isDeleting, isEditModalOpen, isSubmitting,
                    supervisores, requests, navigations)
    }

    /** The page mounts on route `/areas/:areaId` for the session user:
        no area yet, loading, every modal closed. */
    constructor (areaId: Option<string>, user: Option<User>)
      ensures numericAreaId == ToNumber(areaId) && isCoordinador == IsCoordinador(user)
      ensures State() == AreaPageState(None, true, false, false, false, false, [], [], [])
    {
      numericAreaId := ToNumber(areaId);
      isCoordinador := IsCoordinador(user);
      area := None;
      loading := true;
      showDeleteModal := false;
      isDeleting := false;
      isEditModalOpen := false;
      isSubmitting := false;
      supervisores := [];
      requests := [];
      navigations := [];
    }

    /** The mount effect: only for a truthy id, fetch the area, keep what came
        back (or nothing), and stop loading whether or not the fetch threw.
        With a falsy id nothing happens, so the page stays loading. */
    method LoadArea(fetched: Outcome<Option<Area>>)
      modifies this
      ensures Truthy(numericAreaId) ==>
                State() == old(State()).(
                  requests := old(requests) + [GetArea(numericAreaId)],
                  area := if fetched.Returns? then fetched.value else old(area),
                  loading := false)
      ensures !Truthy(numericAreaId) ==> State() == old(State())
    {
      if Truthy(numericAreaId) {
        loading := true;
        requests := requests + [GetArea(numericAreaId)];
        match fetched {
          case Returns(data) => area := data;
          case Throws =>
        }
        loading := false;
      }
    }

    /** The supervisors effect: once an area with a truthy `id_obra` is loaded,
        fetch the obra's supervisors and keep them as users, or none on failure. */
    method LoadSupervisores(fetched: Outcome<seq<SupervisorRow>>)
      modifies this
      ensures old(area).Some? && old(area).value.id_obra != 0 ==>
                State() == old(State()).(
                  requests := old(requests) + [FetchSupervisores(old(area).value.id_obra)],
                  supervisores := SupervisoresFrom(fetched))
      ensures !(old(area).Some? && old(area).value.id_obra != 0) ==> State() == old(State())
    {
      if area.Some? && area.value.id_obra != 0 {
        requests := requests + [FetchSupervisores(area.value.id_obra)];
        supervisores := SupervisoresFrom(fetched);
      }
    }

    method HandleOpenEditModal()
      modifies this
      ensures State() == old(State()).(isEditModalOpen := true)
    {
      isEditModalOpen := true;
    }

    method HandleCloseEditModal()
      modifies this
      ensures State() == old(State()).(isEditModalOpen := false)
    {
      isEditModalOpen := false;
    }

    /** The edit form's submit. Only a submission carrying `id_area` is sent;
        a successful update is followed by a refetch, whose non-null result
        replaces the area, and then the form closes. `isSubmitting` is cleared
        on every path; `threw` says whether an awaited call's error escaped. */
    method HandleSubmitEdit(data: AreaSubmission, updated: Outcome<bool>, refetched: Outcome<Option<Area>>)
      returns (threw: bool)
      modifies this
      ensures !isSubmitting
      ensures threw <==> data.Existing? && (updated.Throws? || (updated == Returns(true) && refetched.Throws?))
      ensures var completed := data.Existing? && updated == Returns(true) && refetched.Returns?;
              State() == old(State()).(
                isSubmitting := false,
                requests := old(requests) +
                  (if data.Existing? then
                     [UpdateArea(data.area)] +
                     (if updated == Returns(true) then [GetArea(Int(data.area.id_area))] else [])
                   else []),
                area := if completed && refetched.value.Some? then refetched.value else old(area),
                isEditModalOpen := if completed then false else old(isEditModalOpen))
    {
      isSubmitting := true;
      threw := false;
      if data.Existing? {
        requests := requests + [UpdateArea(data.area)];
        match updated {
          case Throws => threw := true;
          case Returns(success) =>
            if success {
              requests := requests + [GetArea(Int(data.area.id_area))];
              match refetched {
                case Throws => threw := true;
                case Returns(u) =>
                  if u.Some? {
                    area := u;
                  }
                  isEditModalOpen := false;
              }
            }
        }
      }
      isSubmitting := false;
    }

    /** `handleEdit`, which the page defines but never hands out: update, and
        on success refetch and keep a non-null result. */
    method HandleEdit(data: Area, updated: Outcome<bool>, refetched: Outcome<Option<Area>>)
      returns (threw: bool)
      modifies this
      ensures threw <==> updated.Throws? || (updated == Returns(true) && refetched.Throws?)
      ensures State() == old(State()).(
                requests := old(requests) + [UpdateArea(data)] +
                  (if updated == Returns(true) then [GetArea(Int(data.id_area))] else []),
                area := if updated == Returns(true) && refetched.Returns? && refetched.value.Some?
                        then refetched.value else old(area))
    {
      threw := false;
      requests := requests + [UpdateArea(data)];
      match updated {
        case Throws => threw := true;
        case Returns(success) =>
          if success {
            requests := requests + [GetArea(Int(data.id_area))];
            match refetched {
              case Throws => threw := true;
              case Returns(u) =>
                if u.Some? {
                  area := u;
                }
            }
          }
      }
    }

    /** The delete button of the detail view: only opens the confirmation. */
    method HandleDelete(id: int)
      modifies this
      ensures State() == old(State()).(showDeleteModal := true)
    {
      showDeleteModal := true;
    }

    /** The confirmation: delete the route's area; once the call resolves,
        clear `isDeleting`, go to `/obras` on success, close the dialog either
        way. A thrown error skips all of that. */
    method HandleConfirmDelete(deleted: Outcome<bool>) returns (threw: bool)
      modifies this
      ensures threw <==> deleted.Throws?
      ensures deleted.Throws? ==>
                State() == old(State()).(isDeleting := true, requests := old(requests) + [DeleteArea(numericAreaId)])
      ensures deleted.Returns? ==>
                State() == old(State()).(
                  isDeleting := false, showDeleteModal := false,
                  requests := old(requests) + [DeleteArea(numericAreaId)],
                  navigations := old(navigations) + (if deleted.value then ["/obras"] else []))
    {
      threw := false;
      isDeleting := true;
      requests := requests + [DeleteArea(numericAreaId)];
      match deleted {
        case Throws =>
          threw := true;
        case Returns(success) =>
          isDeleting := false;
          if success {
            navigations := navigations + ["/obras"];
          }
          showDeleteModal := false;
      }
    }

    /** Cancelling only hides the confirmation. */
    method HandleCancelDelete()
      modifies this
      ensures State() == old(State()).(showDeleteModal := false)
    {
      showDeleteModal := false;
    }
  }
}
