/** The detail page of one site ("obra"): it parses the route id, shows a
    status badge, titles the dashboard after the obra, and lets coordinators
    edit or delete it. */
module ObraDetalleView {
  import opened Wrappers
  import opened Entities
  import opened JsText
  import opened JsNumbers

  /** `obraId`: the route id read by `parseInt(id, 10)`, or 0 without a
      (non-empty) route id. */
  function ObraId(id: Option<string>): (r: JsNumber)
    ensures id.None? || id == Some("") ==> r == Int(0)
  {
    if id.Some? && id.value != "" then ParseInt(id.value, Radix10) else Int(0)
  }

  /** A route id that is some integer's decimal text parses back to it. */
  lemma ObraIdOfDecimal(n: int)
    ensures ObraId(Some(IntToString(n))) == Int(n)
  {
    ParseIntOfIntToString(n, Radix10);
  }

  /** The id `handleDeleteObra` deletes as the page writes it: `parseInt(id)`,
      without the radix that `obraId` passes. */
  function DeleteTargetAsWritten(id: string): (r: JsNumber) {
    ParseInt(id, NoRadix)
  }

  /** On the decimal text of an integer both parses agree... */
  lemma DeleteTargetAgreesOnDecimal(n: int)
    ensures DeleteTargetAsWritten(IntToString(n)) == ObraId(Some(IntToString(n)))
  {
    ParseIntOfIntToString(n, Radix10);
    ParseIntOfIntToString(n, NoRadix);
  }

  /** ...but on `/obras/0x10` the page asks for obra 0 and the delete as
      written would remove obra 16. The detail, and with it the delete dialog,
      is rendered only when obra 0 exists; otherwise the page shows "No se
      encontró la obra especificada" and no delete can be confirmed. */
  lemma DeleteTargetDiffersOnHex()
    ensures ObraId(Some("0x10")) == Int(0)
    ensures DeleteTargetAsWritten("0x10") == Int(16)
  {
    HexTextDecimal();
    HexTextAuto();
  }

  lemma HexTextDecimal()
    ensures ParseInt("0x10", Radix10) == Int(0)
  {
    var s := "0x10";
    assert !IsWhitespace(s[0]);
    assert TrimStart(s) == s;
    assert DigitPrefix(s[1..], 10) == [];
    assert DigitPrefix(s, 10) == "0";
    assert DigitsValue("0", 10) == 0;
  }

  lemma HexTextAuto()
    ensures ParseInt("0x10", NoRadix) == Int(16)
  {
    var s := "0x10";
    assert !IsWhitespace(s[0]);
    assert TrimStart(s) == s;
    var body := s[2..];
    assert body == "10";
    assert DigitPrefix(body[2..], 16) == [];
    assert DigitPrefix(body[1..], 16) == "0";
    assert DigitPrefix(body, 16) == "10";
    assert "10"[..1] == "1";
    assert DigitsValue("10", 16) == 16;
  }

  /** A badge's entry in the status table (its colours are left out). */
  datatype BadgeConfig = BadgeConfig(caption: string)

  const ActivoConfig := BadgeConfig("Activo")
  const InactivoConfig := BadgeConfig("Inactivo")
  const FinalizadoConfig := BadgeConfig("Finalizado")

  /** The estado as the server sends it. */
  function EstadoText(e: EstadoObra): string {
    match e
    case Activo => "activo"
    case Inactivo => "inactivo"
    case Finalizado => "finalizado"
  }

  /** `statusConfig[estado] || statusConfig.activo`: the three known estados
      have their own badge, any other text gets the activo badge. */
  function BadgeForEstado(estado: string): (r: BadgeConfig)
    ensures estado == "activo" ==> r == ActivoConfig
    ensures estado == "inactivo" ==> r == InactivoConfig
    ensures estado == "finalizado" ==> r == FinalizadoConfig
    ensures estado !in {"activo", "inactivo", "finalizado"} ==> r == ActivoConfig
  {
    if estado == "inactivo" then InactivoConfig
    else if estado == "finalizado" then FinalizadoConfig
    else ActivoConfig
  }

  /** `getStatusBadge`: no badge without an obra, else the badge of its estado. */
  function StatusBadge(obra: Option<Obra>): (r: Option<BadgeConfig>)
    ensures obra.None? <==> r.None?
  {
    if obra.None? then None else Some(BadgeForEstado(EstadoText(obra.value.estado)))
  }

  /** Each estado of an obra shows its own label. */
  lemma StatusBadgeLabels(o: Obra)
    ensures o.estado == EstadoObra.Activo ==> StatusBadge(Some(o)).value.caption == "Activo"
    ensures o.estado == EstadoObra.Inactivo ==> StatusBadge(Some(o)).value.caption == "Inactivo"
    ensures o.estado == EstadoObra.Finalizado ==> StatusBadge(Some(o)).value.caption == "Finalizado"
  {
  }

  /** The dashboard title: named after a loaded obra, generic otherwise. */
  function Title(obra: Option<Obra>): (r: string)
    ensures obra.Some? ==> r == "Obra: " + obra.value.nombre
    ensures obra.None? ==> r == "Detalle de Obra"
  {
    if obra.Some? then "Obra: " + obra.value.nombre else "Detalle de Obra"
  }

  /** What the page shows. `showActions` says whether the edit and delete
      buttons are rendered. */
  datatype ObraScreen =
    | LoadingObra
    | ObraError(message: string)
    | ObraNotFound(message: string)
    | ObraPage(obra: Obra, badge: BadgeConfig, showActions: bool,
               editForm: bool, deleteDialog: bool)

  /** The page: loading, then the query's error, then a missing obra, then
      the detail, whose actions only a coordinator sees. */
  function Screen(isLoading: bool, hasError: bool, obra: Option<Obra>, isCoordinador: bool,
                  isEditModalOpen: bool, isDeleteModalOpen: bool): (r: ObraScreen)
    ensures isLoading ==> r == LoadingObra
    ensures !isLoading && hasError ==> r == ObraError("Error al cargar los detalles de la obra")
    ensures !isLoading && !hasError && obra.None? ==> r == ObraNotFound("No se encontró la obra especificada")
    ensures !isLoading && !hasError && obra.Some? ==>
              r.ObraPage? && r.obra == obra.value && Some(r.badge) == StatusBadge(obra) &&
              r.showActions == isCoordinador &&
              r.editForm == isEditModalOpen && r.deleteDialog == isDeleteModalOpen
  {
    if isLoading then LoadingObra
    else if hasError then ObraError("Error al cargar los detalles de la obra")
    else if obra.None? then ObraNotFound("No se encontró la obra especificada")
    else ObraPage(obra.value, BadgeForEstado(EstadoText(obra.value.estado)), isCoordinador,
                  isEditModalOpen, isDeleteModalOpen)
  }

  /** Edit and delete buttons appear only for a coordinator session. */
  lemma ActionsOnlyForCoordinador(isLoading: bool, hasError: bool, obra: Option<Obra>, user: Option<User>,
                                  isEditModalOpen: bool, isDeleteModalOpen: bool)
    requires Screen(isLoading, hasError, obra, IsCoordinador(user), isEditModalOpen, isDeleteModalOpen).ObraPage?
    requires Screen(isLoading, hasError, obra, IsCoordinador(user), isEditModalOpen, isDeleteModalOpen).showActions
    ensures user.Some? && user.value.global_role == Coordinador
  {
  }

  /** The page's controller: its two modal flags, the deletions it asks the
      obra mutation for, and the routes it navigates to. */
  class ObraDetalleController {
    const id: Option<string>
    const obraId: JsNumber
    const isCoordinador: bool
    var isEditModalOpen: bool
    var isDeleteModalOpen: bool
    var deletions: seq<JsNumber>
    var navigations: seq<string>

    constructor (routeId: Option<string>, user: Option<User>)
      ensures id == routeId && obraId == ObraId(routeId) && isCoordinador == IsCoordinador(user)
      ensures !isEditModalOpen && !isDeleteModalOpen && deletions == [] && navigations == []
    {
      id := routeId;
      obraId := ObraId(routeId);
      isCoordinador := IsCoordinador(user);
      isEditModalOpen := false;
      isDeleteModalOpen := false;
      deletions := [];
      navigations := [];
    }

    method OpenEdit()
      modifies this
      ensures isEditModalOpen
      ensures isDeleteModalOpen == old(isDeleteModalOpen)
      ensures deletions == old(deletions) && navigations == old(navigations)
    {
      isEditModalOpen := true;
    }

    method CloseEdit()
      modifies this
      ensures !isEditModalOpen
      ensures isDeleteModalOpen == old(isDeleteModalOpen)
      ensures deletions == old(deletions) && navigations == old(navigations)
    {
      isEditModalOpen := false;
    }

    method OpenDelete()
      modifies this
      ensures isDeleteModalOpen
      ensures isEditModalOpen == old(isEditModalOpen)
      ensures deletions == old(deletions) && navigations == old(navigations)
    {
      isDeleteModalOpen := true;
    }

    method CancelDelete()
      modifies this
      ensures !isDeleteModalOpen
      ensures isEditModalOpen == old(isEditModalOpen)
      ensures deletions == old(deletions) && navigations == old(navigations)
    {
      isDeleteModalOpen := false;
    }

    /** `handleDeleteObra` deleting the obra the page shows, `obraId`:
        without a route id nothing happens; otherwise the obra is deleted and,
        on success, the dialog closes and the page goes to `/obras`; a failed
        deletion is logged and changes nothing else. */
    method HandleDeleteObra(deleted: Outcome<()>)
      modifies this
      ensures var acts := id.Some? && id.value != "";
              deletions == old(deletions) + (if acts then [obraId] else [])
      ensures var done := id.Some? && id.value != "" && deleted.Returns?;
              isDeleteModalOpen == (if done then false else old(isDeleteModalOpen)) &&
              navigations == old(navigations) + (if done then ["/obras"] else [])
      ensures isEditModalOpen == old(isEditModalOpen)
    {
      if id.Some? && id.value != "" {
        deletions := deletions + [obraId];
        if deleted.Returns? {
          isDeleteModalOpen := false;
          navigations := navigations + ["/obras"];
        }
      }
    }
  }
}
