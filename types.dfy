/** The records the back office exchanges with the server (src/lib/types.d.ts),
    reduced to the fields the views read or write. A field the TypeScript
    marks optional is an `Option`; the two `PedidoDTO` declarations merge into
    one record. */
module Types {
  import opened Common

  /** An order. `nestedDriverId` is the `domiciliario.idDomiciliario` of the
      nested object the assignment sends along with the flat id. */
  datatype Pedido = Pedido(
    idPedido: Option<int>,
    idUsuario: int,
    nombreSucursal: string,
    idSucursal: Option<int>,
    idAuxiliar: Option<int>,
    idDomiciliario: Option<int>,
    fechaPedido: string,
    direccionEntrega: string,
    costoEnvio: int,
    costoPedido: int,
    listaDeProductos: seq<int>,
    totalPagar: int,
    estado: string,
    nestedDriverId: Option<int>)

  /** A driver. `estado` is the active flag the server sends, read for its
      truthiness. */
  datatype Domiciliario = Domiciliario(
    idDomiciliario: Option<int>,
    nombre: string,
    apellido: string,
    telefono: string,
    placaVehiculo: string,
    idSucursal: int,
    estado: bool)

  /** The `estado` of a user as it arrives: missing, `null`, a boolean or a text. */
  datatype EstadoValue = Undefined | Null | Flag(b: bool) | Text(t: string)

  datatype Usuario = Usuario(
    idUsuario: Option<int>,
    nombre: string,
    apellido: string,
    email: string,
    telefono: string,
    password: Option<string>,
    direccion: string,
    fechaRegistro: string,
    estado: EstadoValue)

  datatype Sucursal = Sucursal(
    idSucursal: Option<int>,
    nombre: string,
    direccion: string,
    ciudad: string,
    horarioApertura: Option<string>,
    horarioCierre: Option<string>)

  datatype Auxiliar = Auxiliar(
    idAuxiliar: Option<int>,
    nombre: string,
    apellido: string,
    telefono: string,
    idSucursal: int)

  // The order states the views compare against.
  const Pendiente: string := "PENDIENTE"
  const Aceptado: string := "ACEPTADO"
  const Enviado: string := "ENVIADO"
  const Entregado: string := "ENTREGADO"
  const Cancelado: string := "CANCELADO"
  const Borrado: string := "BORRADO"

  /** An optional id used as a condition: present and not 0. */
  predicate Truthy(id: Option<int>) {
    id.Some? && id.value != 0
  }

  /** `id || 0` */
  function IdOrZero(id: Option<int>): int {
    if id.Some? then id.value else 0
  }

  /** The delete (or status toggle) of every back-office editor:
      `window.confirm` guards the request, so it is sent, for that id, only
      when the user confirms. */
  function ConfirmedRequest(id: int, confirmed: bool): (r: Option<int>)
    ensures r.Some? <==> confirmed
    ensures r.Some? ==> r.value == id
  {
    if confirmed then Some(id) else None
  }

  /** A status change sent to the server: order id and new state. */
  datatype StatusChange = StatusChange(id: int, estado: string)

  /** The comparator `(a, b) => (b.idPedido || 0) - (a.idPedido || 0)` as a
      sort key: newest order first. */
  function NewestFirst(): Pedido -> int {
    (o: Pedido) => -IdOrZero(o.idPedido)
  }
}
