/** The errors the endpoints raise, one constructor per distinct `HTTPException` or exception. */
module Errores {
  import opened Enums

  datatype Fallo =
    | Prohibido                         // 403: the caller's role is not allowed
    | NoEsDueno                         // 403: the order belongs to someone else
    | NoAsignado                        // 403: the order is not assigned to the caller
    | ZonaNoEncontrada                  // 404
    | MenuNoEncontrado(menuId: int)     // 404
    | MenuNoPublicado(menuId: int)      // 400
    | StockInsuficiente(menuId: int, disponible: int)  // 400
    | PedidoNoEncontrado                // 404
    | EstadoNoCancelable(actual: Estado)  // 400: customer cancel outside PENDIENTE
    | EstadoIncorrecto(actual: Estado)  // 400: wrong source state
    | EstadoNoPermitido                 // 400: target state not allowed from the kitchen
    | DeliveryNoEncontrado              // 404
    | NoEsDelivery                      // 400
    | YaCancelado                       // 400
    | YaEntregado                       // 400
    | MenuInexistente                   // 404: menu update on a missing id
    | EmpleadoNoEncontrado              // 404
    | AutoEliminacion                   // 400
    | NoEsEmpleado                      // 400
    | DeliveryConPedidosActivos         // 400
    | TokenAgotado                      // every token draw collided
    | RolDesconocido                    // KeyError: no event buffer for that role
    | ParametroInvalido                 // 422: a query parameter or request field outside its declared bounds
    | ErrorInterno                      // 500: an exception raised by the handler itself
}
