/** Order states, payment methods and role ids (app/models/enums.py, the role table). */
module Enums {

  datatype Estado =
    | Pendiente
    | Confirmado
    | EnCocina
    | ListoParaEntrega
    | EnReparto
    | Entregado
    | Cancelado

  datatype MetodoPago = Efectivo | QR

  const RolAdmin := 1
  const RolCocina := 2
  const RolDelivery := 3
  const RolCliente := 4

  /** The enum member's `.value`, as stored and shown ("En Cocina"). */
  function Valor(e: Estado): string
  {
    match e
    case Pendiente => "Pendiente"
    case Confirmado => "Confirmado"
    case EnCocina => "En Cocina"
    case ListoParaEntrega => "Listo para Entrega"
    case EnReparto => "En Reparto"
    case Entregado => "Entregado"
    case Cancelado => "Cancelado"
  }

  /** The enum member's name ("EN_COCINA"). */
  function Nombre(e: Estado): string
  {
    match e
    case Pendiente => "PENDIENTE"
    case Confirmado => "CONFIRMADO"
    case EnCocina => "EN_COCINA"
    case ListoParaEntrega => "LISTO_PARA_ENTREGA"
    case EnReparto => "EN_REPARTO"
    case Entregado => "ENTREGADO"
    case Cancelado => "CANCELADO"
  }
}
