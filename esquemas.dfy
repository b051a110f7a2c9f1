/**
 * The request bodies the order, menu and staff endpoints accept, with the
 * field constraints the framework checks before a handler runs. A request
 * that breaks one is answered with a validation error and never reaches
 * the handler. Lengths count characters; decimals are integers in their
 * smallest unit (cents for prices).
 */
module Esquemas {
  import opened Base
  import opened Enums

  // ---------- orders (app/schemas/pedido.py) ----------

  /** `ItemPedidoRequest`: one cart line. */
  datatype ItemPedidoRequest = ItemPedidoRequest(menuDiaId: int, cantidad: int, exclusiones: seq<int>)

  /** `CrearPedidoRequest` (the position fields `latitud`/`longitud` are not modelled). */
  datatype CrearPedidoRequest = CrearPedidoRequest(
    zonaId: int,
    googleMapsLink: Option<string>,
    direccionReferencia: Option<string>,
    metodoPago: MetodoPago,
    items: seq<ItemPedidoRequest>)

  const CantidadMinima: int := 1
  const CantidadMaxima: int := 10

  predicate ItemValido(x: ItemPedidoRequest)
  {
    CantidadMinima <= x.cantidad <= CantidadMaxima
  }

  /** At least one line, each with a quantity from 1 to 10. */
  predicate CarritoValido(r: CrearPedidoRequest)
  {
    |r.items| >= 1 && forall k :: 0 <= k < |r.items| ==> ItemValido(r.items[k])
  }

  /** A line sent without `exclusiones` excludes nothing. */
  function ItemPorDefecto(menuDiaId: int, cantidad: int): (x: ItemPedidoRequest)
    ensures x.exclusiones == []
    ensures ItemValido(x) <==> 1 <= cantidad <= 10
  {
    ItemPedidoRequest(menuDiaId, cantidad, [])
  }

  /** Units ordered over a list of lines. */
  function UnidadesPedidas(items: seq<ItemPedidoRequest>): int
  {
    if items == [] then 0 else UnidadesPedidas(items[..|items| - 1]) + items[|items| - 1].cantidad
  }

  /** A valid cart orders at least one unit per line and at most ten. */
  lemma {:induction false} UnidadesAcotadas(items: seq<ItemPedidoRequest>)
    requires forall k :: 0 <= k < |items| ==> ItemValido(items[k])
    ensures |items| <= UnidadesPedidas(items) <= 10 * |items|
  {
    if items != [] {
      UnidadesAcotadas(items[..|items| - 1]);
      assert ItemValido(items[|items| - 1]);
    }
  }

  /** A valid cart orders at least one unit. */
  lemma CarritoNoVacio(r: CrearPedidoRequest)
    requires CarritoValido(r)
    ensures UnidadesPedidas(r.items) >= 1
  {
    UnidadesAcotadas(r.items);
  }

  // ---------- menus (app/schemas/admin.py) ----------

  /** `CrearMenuRequest` (the dish ids, date and nutrition text are not modelled). */
  datatype CrearMenuRequest = CrearMenuRequest(imagenUrl: Option<string>, cantidadDisponible: int, precioMenu: int, publicado: bool)

  const StockInicialPorDefecto: int := 50

  predicate CrearMenuValido(r: CrearMenuRequest)
  {
    r.cantidadDisponible > 0 && r.precioMenu > 0
  }

  /** A menu request giving only the price: 50 units, unpublished, no image. */
  function CrearMenuPorDefecto(precioMenu: int): (r: CrearMenuRequest)
    ensures r.cantidadDisponible == StockInicialPorDefecto && !r.publicado && r.imagenUrl.None?
    ensures CrearMenuValido(r) <==> precioMenu > 0
  {
    CrearMenuRequest(None, StockInicialPorDefecto, precioMenu, false)
  }

  /** `ActualizarMenuRequest`: every field optional. */
  datatype ActualizarMenuRequest = ActualizarMenuRequest(
    cantidadDisponible: Option<int>, precioMenu: Option<int>, imagenUrl: Option<string>, publicado: Option<bool>)

  /** Stock may drop to 0 but not below; a price must stay positive. */
  predicate ActualizarMenuValido(r: ActualizarMenuRequest)
  {
    (r.cantidadDisponible.None? || r.cantidadDisponible.value >= 0)
    && (r.precioMenu.None? || r.precioMenu.value > 0)
  }

  /** The request with no field set is accepted. */
  lemma ActualizacionVaciaValida()
    ensures ActualizarMenuValido(ActualizarMenuRequest(None, None, None, None))
  {
  }

  // ---------- dishes, ingredients, staff (app/schemas/admin.py) ----------

  datatype CrearPlatoRequest = CrearPlatoRequest(nombre: string, descripcion: Option<string>)

  predicate CrearPlatoValido(r: CrearPlatoRequest)
  {
    1 <= |r.nombre| <= 100 && (r.descripcion.None? || |r.descripcion.value| <= 500)
  }

  datatype CrearIngredienteRequest = CrearIngredienteRequest(nombre: string, stockActual: int)

  predicate CrearIngredienteValido(r: CrearIngredienteRequest)
  {
    1 <= |r.nombre| <= 100 && r.stockActual >= 0
  }

  /** An ingredient sent without `stock_actual` starts at 0, which is accepted for any valid name. */
  function IngredientePorDefecto(nombre: string): (r: CrearIngredienteRequest)
    ensures r.stockActual == 0
    ensures CrearIngredienteValido(r) <==> 1 <= |nombre| <= 100
  {
    CrearIngredienteRequest(nombre, 0)
  }

  datatype CrearEmpleadoRequest = CrearEmpleadoRequest(
    email: string, password: string, nombreCompleto: string, telefono: Option<string>, rolId: int, zonaRepartoId: Option<int>)

  /** The role id is not range-checked by the schema. */
  predicate CrearEmpleadoValido(r: CrearEmpleadoRequest)
  {
    |r.password| >= 6 && 1 <= |r.nombreCompleto| <= 100 && (r.telefono.None? || |r.telefono.value| <= 20)
  }
}
