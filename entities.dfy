/** The records the dashboard exchanges with its server: users, sites
    ("obras"), work areas ("áreas") and cameras. Optional properties are
    `Option`s; the string unions are datatypes. */
module Entities {
  import opened Wrappers

  datatype AuthProvider = Local | Google

  datatype GlobalRole = Coordinador | Supervisor

  datatype User = User(
    id_usuario: int,
    usuario: string,
    auth_provider: AuthProvider,
    google_id: Option<string>,
    documento: Option<string>,
    nombres: Option<string>,
    apellidos: Option<string>,
    correo: string,
    telefono: Option<string>,
    global_role: GlobalRole)

  datatype EstadoObra = Activo | Inactivo | Finalizado

  datatype Obra = Obra(
    id_obra: int,
    id_coordinador: int,
    nombre: string,
    descripcion: string,
    fecha_inicio: Option<string>,
    estado: EstadoObra)

  /** `id_supervisor` may be a number, `null` or missing; the last two are `None`. */
  datatype Area = Area(
    id_area: int,
    id_obra: int,
    nombre: string,
    descripcion: Option<string>,
    id_supervisor: Option<int>)

  /** An area as a creation form submits it: `Omit<Area, 'id_area'>`. */
  datatype NewArea = NewArea(
    id_obra: int,
    nombre: string,
    descripcion: Option<string>,
    id_supervisor: Option<int>)

  datatype EstadoCamara = Activo | Inactivo

  datatype Camara = Camara(
    id_camara: int,
    id_area: int,
    ip_stream: string,
    nombre: string,
    estado: EstadoCamara,
    ultima_conexion: Option<string>)

  /** `{ ...data, id_area: id }`: the form fields completed with an area id. */
  function WithId(data: NewArea, id: int): (a: Area)
    ensures a.id_area == id
    ensures a.id_obra == data.id_obra && a.nombre == data.nombre
    ensures a.descripcion == data.descripcion && a.id_supervisor == data.id_supervisor
  {
    Area(id, data.id_obra, data.nombre, data.descripcion, data.id_supervisor)
  }

  /** `user?.global_role === 'coordinador'` for the session user, who may be absent. */
  predicate IsCoordinador(user: Option<User>) {
    user.Some? && user.value.global_role == Coordinador
  }
}
