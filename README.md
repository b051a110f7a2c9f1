# Solandre order lifecycle, in Dafny

A model of the order core of the Solandre meal-delivery backend (a FastAPI
service over a relational database), with proofs about it.

- **Orders.** A customer places an order for menus of the day (`crear_pedido`).
  The request is validated: the zone, then every cart line against the menu's
  publication flag and stock. The pickup token is drawn, a courier of the zone
  is picked, and the order, its lines and their ingredient exclusions are
  stored. The stock is decremented. The kitchen, the administrators and the
  courier are notified. The customer may cancel while the order is PENDIENTE.
  Cancelling gives the stock back and deletes the order with its lines.
- **Kitchen and couriers.** The kitchen lists its queue and moves orders to
  EN_COCINA or LISTO_PARA_ENTREGA. Couriers list their deliveries, take a
  ready order (EN_REPARTO) and hand it over (ENTREGADO, optionally paid).
- **Administration.** An administrator can update a menu of the day, remove a
  staff member, confirm an order, reassign its courier, force any state, or
  cancel it.
- **Notifications.** Every step publishes events into an in-memory
  notification manager. It keeps one bounded FIFO buffer per role and one per
  addressed user. The polling endpoints read the events back, the unseen
  counter counts them, and an administrator can purge old ones.
- **Supporting pieces.** The token generator, the request-schema bounds, the
  model defaults and the CORS origin list are modelled as well.

The model is layered as the program is:

- **Value modules.**
  - `Base`, `Enums` and `Errores` hold options, results, the order states and
    the HTTP errors.
  - `Modelos` holds the table rows and the column defaults.
  - `Esquemas` holds the request validators.
  - `Config` holds `cors_origins_list`.
  - `Tokens` holds the token generator.
- **The manager.** `Notificaciones` is the manager. Its state is a datatype.
  Each operation is a pure function, and the class `GestorNotificaciones`
  updates its fields with `modifies` methods proved equal to those functions.
  `Publicadores` holds the `notificar_*` helpers.
- **The database.** `Tienda` is the database: the class `BaseDatos`, whose
  tables are maps and sequences. `Stock` holds the line validation, the stored
  lines and exclusions, and the stock arithmetic. `Orden` holds the stable sort
  and the ascending-id order used for unordered queries.
- **The routers.** `RutasPedido`, `RutasAdmin`, `RutasCocina`, `RutasDelivery`
  and `RutasNotificaciones` are the routers. Each endpoint is written twice:
  - a pure function of the tables, giving the error or the new tables plus the
    events to publish;
  - a method on `BaseDatos` and `GestorNotificaciones` whose `ensures` ties the
    new state to that function.

  The properties are lemmas about the functions: errors in the source's order,
  what changes and what does not, round trips (create then cancel), idempotence,
  stability of the sorts, and preservation of the table and manager invariants.

Some behaviour of the source is modelled as written and stated as a lemma:

- Two cart lines for the same menu are each checked against the stock as it was
  before the order. The stock can therefore go negative (`Stock.DuplicadoNegativo`).
- Forcing CANCELADO on a delivered order gives its units back
  (`RutasAdmin.EntregadoForzadoRepone`).
- A user-addressed event is returned twice to its user (`Notificaciones.SinDeduplicar`).
- An event for user id 0 is stored in no user buffer (`Notificaciones.UsuarioCeroNoGuarda`).

Time is integer seconds and money is integer cents. Clocks, random draws and
the database session are parameters.

## Model

| member | source | states |
|---|---|---|
| Config.QuitarIzq | app/config.py:31-34 | Left strip drops exactly a whitespace prefix and leaves a non-space first character |
| Config.QuitarDer | app/config.py:31-34 | Right strip drops exactly a whitespace suffix and leaves a non-space last character |
| Config.Strip | app/config.py:31-34 | `str.strip()` leaves neither leading nor trailing whitespace; `Config.StripRecorte` adds that the result is a slice of the argument with only whitespace cut off |
| Config.StripRecorte | app/config.py:31-34 | What `strip` returns is a slice of its argument with only whitespace before and after it |
| Config.CorteIzq | app/config.py:31-34 | Left strip removes a whitespace prefix of some length and keeps the rest |
| Config.CorteDer | app/config.py:31-34 | Right strip keeps a prefix and removes only whitespace after it |
| Config.PrimeroDer | app/config.py:31-34 | Right strip keeps the first character whenever it keeps anything |
| Config.RecorteCompuesto | app/config.py:31-34 | Cutting whitespace from the front and then from the back of what is left leaves a slice of the original |
| Config.StripSinEspacios | app/config.py:31-34 | A string with no surrounding whitespace is unchanged by strip |
| Config.Dividir | app/config.py:34 | `split(",")` always yields at least one piece |
| Config.DividirPiezas | app/config.py:34 | There is one piece more than there are commas, and no piece contains a comma |
| Config.UnirDividir | app/config.py:34 | Joining the pieces with commas gives back the original string |
| Config.DividirSinComa | app/config.py:34 | A comma-free string splits into itself alone |
| Config.DividirComa | app/config.py:34 | A comma-free prefix followed by a comma becomes the first piece |
| Config.Limpiar | app/config.py:34 | Every piece is stripped, none dropped, order kept |
| Config.CorsOriginsList | app/config.py:28-34 | `"*"` (after stripping) gives `["*"]`; otherwise one stripped origin per comma-separated piece, in order |
| Config.DosOrigenes | app/config.py:28-34 | Two clean origins joined by a comma give exactly those two origins |
| Config.OrigenesPorDefectoLista | app/config.py:25 | The default `CORS_ORIGINS` allows exactly the two local front ends |
| Config.ComodinConEspacios | app/config.py:29-30 | A wildcard surrounded by spaces is still the wildcard |
| Esquemas.ItemPorDefecto | app/schemas/pedido.py:13-18 | A line without `exclusiones` excludes nothing; it is accepted iff 1 <= cantidad <= 10 |
| Esquemas.UnidadesAcotadas | app/schemas/pedido.py:16 | A cart of valid lines orders between one and ten units per line |
| Esquemas.CarritoNoVacio | app/schemas/pedido.py:29 | A valid cart (`min_length=1`) orders at least one unit |
| Esquemas.CrearMenuPorDefecto | app/schemas/admin.py:11-23 | A menu request with only a price starts with 50 units, unpublished, no image; accepted iff the price is positive |
| Esquemas.ActualizacionVaciaValida | app/schemas/admin.py:26-33 | The update request with no field set is accepted |
| Esquemas.IngredientePorDefecto | app/schemas/admin.py:106-111 | An ingredient without `stock_actual` starts at 0 and is accepted iff its name has 1 to 100 characters |
| Modelos.TokensDe | app/models/pedido.py:37 | The set of stored tokens is exactly the tokens of the stored orders |
| Modelos.PedidoInicial | app/models/pedido.py:25-66 | A new order is PENDIENTE, unpaid, stamped with its creation instant only, and carries the given owner, token, total and courier |
| Modelos.TokensUnicosAlta | app/models/pedido.py:37 | Adding an order with a token nobody holds keeps tokens unique |
| Modelos.TokensUnicosCambio | app/models/pedido.py:37 | Changing an order while keeping its token keeps tokens unique |
| Modelos.TokensUnicosBaja | app/models/pedido.py:37 | Deleting an order keeps tokens unique |
| Modelos.Estampado | app/routers/admin.py:1222-1233 | A forced state is set; its own date (CONFIRMADO, LISTO_PARA_ENTREGA, EN_REPARTO, ENTREGADO) is stamped now; every other date, owner, token, money and courier is unchanged |
| Notificaciones.Inicial | app/utils/notificaciones.py:39-58 | A fresh manager has four empty role buffers, no user buffers and the counter at 0 |
| Notificaciones.Anexar | app/utils/notificaciones.py:99-106 | `deque(maxlen).append`: length min(n+1, max), the new event last, the oldest dropped from the front |
| Notificaciones.Publicado | app/utils/notificaciones.py:60-108 | `crear_evento` never adds or removes a role buffer |
| Notificaciones.Creado | app/utils/notificaciones.py:60-108 | `crear_evento` returns the event with id counter+1 and the current instant iff the role has a buffer, else the KeyError |
| Notificaciones.PublicarTodos | app/utils/notificaciones.py:219-362 | A sequence of publications advances the counter by its length and keeps the role buffers' keys |
| Notificaciones.PublicarTodosConcat | app/utils/notificaciones.py:219-362 | Publishing two batches in turn equals publishing their concatenation |
| Notificaciones.PublicadoEnRol | app/utils/notificaciones.py:84-99 | The role buffer gains the new event last (bounded by max) and no other role buffer changes |
| Notificaciones.PublicadoSinUsuario | app/utils/notificaciones.py:102-106 | An event without a truthy recipient touches no user buffer |
| Notificaciones.PublicadoEnUsuario | app/utils/notificaciones.py:102-106 | A truthy recipient's buffer is created or appended to, and no other user buffer changes |
| Notificaciones.UsuarioCeroNoGuarda | app/utils/notificaciones.py:102 | A recipient id of 0 is falsy, so no user buffer is created |
| Notificaciones.PublicadoRolDesconocido | app/utils/notificaciones.py:84-99 | An unknown role still consumes an id, stores nothing and raises |
| Notificaciones.InicialValido | app/utils/notificaciones.py:39-58 | The fresh manager satisfies the buffer invariant |
| Notificaciones.AnexarCreciente | app/utils/notificaciones.py:84-99 | Appending the next id keeps a buffer's ids strictly increasing |
| Notificaciones.AnexarDestino | app/utils/notificaciones.py:99 | After an append every element is the new event or an old one |
| Notificaciones.BufferDeRolAnexar | app/utils/notificaciones.py:99 | A role buffer stays bounded, increasing and of its own role after an append |
| Notificaciones.BufferDeUsuarioAnexar | app/utils/notificaciones.py:102-106 | A user buffer stays bounded, increasing and addressed to its user after an append |
| Notificaciones.IdsCrecientesMonotono | app/utils/notificaciones.py:84 | A valid buffer stays valid when the counter grows |
| Notificaciones.RolesMonotono | app/utils/notificaciones.py:84 | Valid role buffers stay valid when the counter grows |
| Notificaciones.UsuariosMonotono | app/utils/notificaciones.py:84 | Valid user buffers stay valid when the counter grows |
| Notificaciones.RolesAnexar | app/utils/notificaciones.py:99 | Appending the next event to its role buffer keeps all role buffers valid |
| Notificaciones.UsuariosAnexar | app/utils/notificaciones.py:102-106 | Appending the next event to its user's buffer keeps all user buffers valid |
| Notificaciones.PublicadoPreservaValidez | app/utils/notificaciones.py:60-108 | `crear_evento` keeps the manager invariant (bounded buffers, increasing ids up to the counter, each event in the buffers it is addressed to) |
| Notificaciones.NuevoIdMayor | app/utils/notificaciones.py:84 | A new event's id is larger than that of every stored event |
| Notificaciones.PublicarTodosPreservaValidez | app/utils/notificaciones.py:219-362 | Any sequence of publications keeps the manager invariant |
| Notificaciones.Candidatos | app/utils/notificaciones.py:139-143 | The candidates are the caller's own buffer (for a truthy id that has one) followed by the role buffer |
| Notificaciones.Filtrar | app/utils/notificaciones.py:146-151 | Exactly the visible events are kept, each with its multiplicity |
| Notificaciones.Recortar | app/utils/notificaciones.py:158 | `s[:limit]` is a prefix of length min(limit, n), or n+limit for a negative limit |
| Notificaciones.PrefijoMasRecientes | app/utils/notificaciones.py:154-158 | A prefix of a newest-first list is newest first |
| Notificaciones.RecortarLosMasRecientes | app/utils/notificaciones.py:154-158 | Nothing cut off by the limit is newer than anything kept |
| Notificaciones.OrdenadaEsMasRecientesPrimero | app/utils/notificaciones.py:154-155 | Sorting on the negated time gives newest first |
| Notificaciones.Ordenados | app/utils/notificaciones.py:146-155 | The sorted candidates are a permutation of the filtered ones, newest first |
| Notificaciones.Consulta | app/utils/notificaciones.py:110-158 | Fails iff the role has no buffer; otherwise only visible events (time, type, recipient), newest first, drawn from the visible candidates; exactly `min(limit, n)` of the `n` visible candidates for `limit >= 0`, `max(0, n + limit)` for a negative limit |
| Notificaciones.OrdenadosConservaTamano | app/utils/notificaciones.py:154-158 | The newest-first sort keeps the number of visible candidates |
| Notificaciones.ConsultaCompleta | app/utils/notificaciones.py:110-158 | When they fit in the limit, every visible candidate is returned |
| Notificaciones.ConsultaLosMasRecientes | app/utils/notificaciones.py:154-158 | A visible candidate left out by the limit is no newer than anything returned |
| Notificaciones.PublicadoVisible | app/utils/notificaciones.py:60-158 | A new event is returned to every query of its role by a caller it is visible to |
| Notificaciones.ConsultaAjenaInvisible | app/utils/notificaciones.py:149-150 | An event addressed to someone else is never visible |
| Notificaciones.ContadorNoVistos | app/utils/notificaciones.py:188-210 | The unseen count is the size of a default-limit query, hence at most 50; fails iff the role is unknown |
| Notificaciones.OrdenarDosIguales | app/utils/notificaciones.py:154-155 | The stable sort leaves two equal events in place |
| Notificaciones.FiltrarVisibles | app/utils/notificaciones.py:146-151 | The filter drops nothing from a list of visible events |
| Notificaciones.FiltrarVisible | app/utils/notificaciones.py:146-151 | A visible event at the front of the candidates stays at the front of the result |
| Notificaciones.PrimerAviso | app/utils/notificaciones.py:60-108 | The first event on a fresh manager is alone in its role buffer and its user buffer |
| Notificaciones.SinDeduplicar | app/utils/notificaciones.py:139-158 | An event for a user sits in both buffers, so that user's query returns it twice |
| Notificaciones.Vigentes | app/utils/notificaciones.py:171-177 | The purge keeps only events created at or after the cut-off, taken from the buffer |
| Notificaciones.VigentesConcat | app/utils/notificaciones.py:171-177 | The purge filter distributes over concatenation, so it keeps the order |
| Notificaciones.VigentesConserva | app/utils/notificaciones.py:171-177 | Every recent-enough event survives |
| Notificaciones.VigentesIdempotente | app/utils/notificaciones.py:160-186 | Purging twice removes nothing more |
| Notificaciones.RestoCreciente | app/utils/notificaciones.py:171-177 | The tail of an increasing buffer is increasing and above its head |
| Notificaciones.ConsCreciente | app/utils/notificaciones.py:171-177 | An event below all ids of an increasing buffer can go in front |
| Notificaciones.VigentesCreciente | app/utils/notificaciones.py:171-177 | The purge keeps ids increasing |
| Notificaciones.VigentesDeRol | app/utils/notificaciones.py:171-173 | A purged role buffer is still a valid buffer of its role |
| Notificaciones.VigentesDeUsuario | app/utils/notificaciones.py:175-186 | A purged user buffer is still a valid buffer of its user |
| Notificaciones.Purgado | app/utils/notificaciones.py:160-186 | The purge keeps the role buffers and the counter; a user buffer stays iff something recent is left in it |
| Notificaciones.PurgadoReciente | app/utils/notificaciones.py:160-186 | After a purge every buffer holds only recent events and no user buffer is empty |
| Notificaciones.PurgadoConserva | app/utils/notificaciones.py:160-186 | A purge keeps every recent event where it was |
| Notificaciones.PurgadoPreservaValidez | app/utils/notificaciones.py:160-186 | The purge keeps the manager invariant |
| Notificaciones.GestorNotificaciones.constructor | app/utils/notificaciones.py:39-58 | The manager starts in the initial state, with lifetime in seconds, and valid |
| Notificaciones.GestorNotificaciones.CrearEvento | app/utils/notificaciones.py:60-108 | Requires and keeps the manager invariant; the fields become `Publicado` of the old state; the result is `Creado` |
| Notificaciones.GestorNotificaciones.Anotar | app/utils/notificaciones.py:60-108 | Stamping and storing the event: the fields become `Publicado` of the old state; the result is `Creado` |
| Notificaciones.GestorNotificaciones.Publicar | app/utils/notificaciones.py:219-362 | Requires and keeps the manager invariant; the fields become `PublicarTodos` of the old state |
| Notificaciones.GestorNotificaciones.LimpiarEventosAntiguos | app/utils/notificaciones.py:160-186 | Requires and keeps the manager invariant; the fields become `Purgado` of the old state at the cut-off `Corte(ahora)`, now minus the lifetime |
| Notificaciones.GestorNotificaciones.Purgar | app/utils/notificaciones.py:165-186 | The fields become `Purgado` of the old state at the given cut-off |
| Notificaciones.GestorNotificaciones.PurgarRoles | app/utils/notificaciones.py:171-173 | Every role buffer is rebuilt with its recent events; nothing else changes |
| Notificaciones.GestorNotificaciones.PurgarUsuarios | app/utils/notificaciones.py:175-182 | Every user buffer is rebuilt; the returned set is exactly the users left empty |
| Notificaciones.GestorNotificaciones.BorrarUsuarios | app/utils/notificaciones.py:183-186 | Exactly the empty user buffers are deleted |
| Orden.Insertar | app/utils/notificaciones.py:154-155 | Insertion adds exactly one element |
| Orden.OrdenarEstable | app/utils/notificaciones.py:154-155 | The sort is a permutation of its input |
| Orden.InsertarOrdenada | app/utils/notificaciones.py:154-155 | Inserting into a sorted list keeps it sorted |
| Orden.OrdenarEstableOrdena | app/utils/notificaciones.py:154-155 | The sort's result is in key order and a permutation |
| Orden.DeClaveConcat | app/utils/notificaciones.py:154-155 | Selecting one key distributes over concatenation |
| Orden.DeClaveCons | app/utils/notificaciones.py:154-155 | Selecting one key on a cons |
| Orden.InsertarEstable | app/utils/notificaciones.py:154-155 | An inserted element goes ahead of every element with its key |
| Orden.OrdenarEstableEsEstable | app/utils/notificaciones.py:154-155 | Stability: equal keys keep their input order |
| Orden.ExisteMinimo | app/routers/pedido.py:99-102 | A non-empty id set has a least element |
| Orden.Minimo | app/routers/pedido.py:99-102 | The least id of a set (the row `.first()` is taken to return) |
| Orden.Ascendentes | app/routers/cocina.py:34-131 | A set of ids listed once each, ascending |
| Publicadores.Digitos | app/utils/notificaciones.py:234 | `str(n)` is a non-empty digit string with no leading zero |
| Publicadores.ValorDeDigitos | app/utils/notificaciones.py:234 | Reading back the digits gives the number |
| Publicadores.NuevoPedido | app/utils/notificaciones.py:219-245 | Two NUEVO_PEDIDO broadcasts, kitchen then administrators, sharing the data with the order id and total |
| Publicadores.MensajeEstado | app/utils/notificaciones.py:256-271 | The table message for a known key, otherwise "Estado actualizado a …" |
| Publicadores.TablaPorNombre | app/utils/notificaciones.py:256-263 | The table is keyed by member names: every state but PENDIENTE has a message |
| Publicadores.ValorFueraDeTabla | app/utils/notificaciones.py:256-271 | No member value is a key, so a caller passing `.value` gets the generic message |
| Publicadores.CambioEstado | app/utils/notificaciones.py:248-277 | One CAMBIO_ESTADO event to the client, role 4, with the table message |
| Publicadores.DeliveryAsignado | app/utils/notificaciones.py:280-299 | One PEDIDO_ASIGNADO event to the courier, role 3 |
| Publicadores.PedidoListo | app/utils/notificaciones.py:302-320 | One PEDIDO_LISTO event for a truthy courier id, none otherwise |
| Publicadores.DeliveryEnCamino | app/utils/notificaciones.py:323-341 | One DELIVERY_EN_CAMINO event to the client |
| Publicadores.DeliveryCerca | app/utils/notificaciones.py:344-362 | One DELIVERY_CERCA event to the client |
| Publicadores.NuevoPedidoPublicado | app/utils/notificaciones.py:219-245 | A new order ends the kitchen and then the administrators' buffer, with consecutive ids, touching nothing else |
| Publicadores.DosAvisosDifundidos | app/utils/notificaciones.py:219-245 | Two broadcasts to two roles end exactly those two buffers, in order |
| Publicadores.DirigidoVisible | app/utils/notificaciones.py:60-158 | An event addressed to a truthy user is visible to that user right after publication |
| Publicadores.CambioEstadoLlegaAlCliente | app/utils/notificaciones.py:248-277 | A state change reaches its client at once (any id but 0) |
| Stock.Validar | app/routers/pedido.py:70-93 | Succeeds iff every line's menu exists, is published and has the stock; the first failing line decides the error; the total is Σ price × quantity |
| Stock.NuevosItems | app/routers/pedido.py:123-131 | One stored line per request line, in order, numbered consecutively, with the menu's current price |
| Stock.ImporteDeItems | app/routers/pedido.py:92 | The order total equals what its stored lines add up to |
| Stock.ExclusionesDe | app/routers/pedido.py:135-140 | One exclusion row per ingredient, in order |
| Stock.NuevasExclusiones | app/routers/pedido.py:135-140 | The new exclusions belong to the new lines only |
| Stock.DeItem | app/routers/pedido.py:135-140 | Selecting one line's exclusions keeps at most all of them |
| Stock.DeItemConcat | app/routers/pedido.py:135-140 | Selecting one line's exclusions distributes over concatenation |
| Stock.DeItemTodos | app/routers/pedido.py:135-140 | Rows all of one line select to themselves |
| Stock.DeItemNinguno | app/routers/pedido.py:135-140 | Rows of other lines select to nothing |
| Stock.NuevasExclusionesUltima | app/routers/pedido.py:135-140 | The last line's exclusions come after the earlier lines' |
| Stock.DeItemTras | app/routers/pedido.py:135-140 | A line's rows after older rows select to themselves |
| Stock.DeItemAntes | app/routers/pedido.py:135-140 | Later rows of other lines do not change a selection |
| Stock.ExclusionesDeLinea | app/routers/pedido.py:135-140 | Each requested exclusion of line k becomes exactly one row for that line, in order |
| Stock.ExclusionesNuevasPropias | app/routers/pedido.py:135-140 | A new line's rows are its own exclusions whatever rows precede them |
| Stock.Descontar | app/routers/pedido.py:143 | Each menu loses exactly the units the cart asks of it; nothing else changes |
| Stock.Reponer | app/routers/pedido.py:361-370 | Each menu still stored gets back exactly the units of its lines |
| Stock.UnidadesDeNuevos | app/routers/pedido.py:123-143 | The stored lines hold, menu by menu, the requested units |
| Stock.ReponerDescontar | app/routers/pedido.py:143 | Giving back the units taken restores every menu |
| Stock.UnidadesDistintas | app/routers/pedido.py:86-90 | With distinct menus, a menu's units are its one line's quantity |
| Stock.DescontarNoNegativo | app/routers/pedido.py:86-90 | With distinct menus and validated lines, no stock goes below zero |
| Stock.DuplicadoNegativo | app/routers/pedido.py:86-90 | Two lines for one menu each pass the check on the old stock and drive it to minus the quantity |
| Tienda.ItemsDe | app/routers/pedido.py:361-363 | The lines returned all belong to the order |
| Tienda.SinPedido | app/routers/pedido.py:373 | The surviving lines belong to other orders |
| Tienda.IdsDe | app/routers/pedido.py:373 | The set of line ids is exactly the ids of the lines |
| Tienda.ExclusionesFuera | app/routers/pedido.py:373 | No surviving exclusion belongs to a deleted line |
| Tienda.ExclusionesNuevasFuera | app/routers/pedido.py:373 | Deleting the new lines' exclusions leaves the older rows exactly |
| Tienda.Borrado | app/routers/pedido.py:373 | The order is removed, none of its lines remain, menus, users and zones are kept |
| Tienda.SinPedidoSinItems | app/routers/pedido.py:373 | After deleting an order no line of it is left |
| Tienda.ItemsDeConcat | app/routers/pedido.py:361-363 | Selecting an order's lines distributes over concatenation |
| Tienda.SinPedidoConcat | app/routers/pedido.py:373 | Deleting an order's lines distributes over concatenation |
| Tienda.ExclusionesFueraConcat | app/routers/pedido.py:373 | Deleting exclusions distributes over concatenation |
| Tienda.ItemsPropios | app/routers/pedido.py:361-373 | Lines all of one order are its lines and are all deleted with it |
| Tienda.ItemsAjenos | app/routers/pedido.py:361-373 | Lines of other orders are none of its lines and all survive |
| Tienda.ExclusionesTodasFuera | app/routers/pedido.py:373 | Rows all of deleted lines are all removed |
| Tienda.ExclusionesNingunaFuera | app/routers/pedido.py:373 | Rows of surviving lines all stay |
| Tienda.Repuesto | app/routers/admin.py:1400-1409 | The restock loop changes only the menus, each by the units of the order's lines |
| Tienda.CambioValida | app/models/pedido.py:37 | Changing one order in place, keeping its token, keeps the tables valid |
| Tienda.Seleccion | app/routers/cocina.py:34-131 | The ids of the orders a filter accepts, ascending |
| Tienda.OrdenarSeleccion | app/routers/delivery.py:49-55 | Sorting distinct ids keeps exactly those ids, once each, in key order |
| Tienda.OrdenadoSinRepetidos | app/routers/delivery.py:49-55 | Sorting keeps a list free of repeats |
| Tienda.UnaVez | app/routers/delivery.py:49-55 | In a list without repeats each id occurs at most once |
| Tienda.BaseDatos.constructor | app/models/pedido.py:25-66 | An empty database with both counters at 1 satisfies the invariant |
| Tienda.BaseDatos.ReponerItems | app/routers/pedido.py:365-370 | Requires and keeps the table invariant; only the menus change, to `Reponer` of the old menus |
| Tokens.AlfabetoCompleto | app/utils/token_generator.py:19 | The alphabet is exactly the upper-case letters and digits |
| Tokens.MayusculasCompletas | app/utils/token_generator.py:19 | `ascii_uppercase` holds exactly the characters A to Z |
| Tokens.CifrasCompletas | app/utils/token_generator.py:19 | `digits` holds exactly the characters 0 to 9 |
| Tokens.Construir | app/utils/token_generator.py:21 | A candidate has one alphabet character per draw |
| Tokens.Candidato | app/utils/token_generator.py:21 | Every candidate has the requested length and is alphanumeric |
| Tokens.IntentoCaracterizado | app/utils/token_generator.py:20-30 | From attempt i on: the first fresh candidate, after only collisions, or the error iff all 100 collide |
| Tokens.TokenUnico | app/utils/token_generator.py:7-31 | The token is fresh, alphanumeric, of the requested length and the first non-colliding candidate; the error iff all 100 attempts collide |
| Tokens.GenerarTokenUnico | app/utils/token_generator.py:7-31 | The loop returns the same as `TokenUnico`, with the same guarantees |
| RutasPedido.Repartidor | app/routers/pedido.py:99-102 | The courier is a role-3 user of the zone; none iff the zone has no such user |
| RutasPedido.PedidoCreado | app/routers/pedido.py:41-167 | 422 for a malformed cart, then the zone 404, then the first failing line, then the token; success iff all pass |
| RutasPedido.CreadoEsAlta | app/routers/pedido.py:95-143 | On success the outcome is the order stored under the next id, with the validated total and the first fresh token |
| RutasPedido.InsertadoItems | app/routers/pedido.py:123-133 | The new order's lines are the request's, and the other lines are kept |
| RutasPedido.InsertadoExclusiones | app/routers/pedido.py:134-140 | Each new line carries exactly its own exclusions |
| RutasPedido.InsertadoSinExclusiones | app/routers/pedido.py:134-140 | Removing the new lines' exclusions leaves the older ones |
| RutasPedido.CreadoPedido | app/routers/pedido.py:105-117 | The stored order is the caller's, in the zone, PENDIENTE, unpaid, only its creation stamped, with the lines' total, a fresh eight-character token and the zone's courier |
| RutasPedido.CreadoRepartidor | app/routers/pedido.py:99-115 | The courier field names a role-3 user of the zone, and is empty iff the zone has none |
| RutasPedido.CreadoLineas | app/routers/pedido.py:123-140 | One line per request line with its menu's price, the total equals the lines' sum, each line's exclusions are its requested ingredients |
| RutasPedido.InsertadoLineas | app/routers/pedido.py:122-140 | Storing an order adds exactly its request lines, the total equals the lines' sum, and each line gets its own exclusions |
| RutasPedido.CreadoStock | app/routers/pedido.py:143 | Each menu loses exactly the units the cart asks of it |
| RutasPedido.CreadoStockNoNegativo | app/routers/pedido.py:86-90 | With distinct menus in the cart no stock goes negative |
| RutasPedido.CreadoAvisos | app/routers/pedido.py:149-165 | Kitchen then administrator broadcasts, then the assignment to the courier when there is one |
| RutasPedido.CreadoValida | app/routers/pedido.py:41-167 | Creating an order keeps the tables valid (fresh ids, lines of stored orders, unique tokens) |
| RutasPedido.InsertadoValida | app/routers/pedido.py:105-143 | Storing an order and its lines keeps the tables valid |
| RutasPedido.PedidoCancelado | app/routers/pedido.py:328-376 | 404, then the owner check, then PENDIENTE only; on success the order and its lines go, each menu gets its units back, no event |
| RutasPedido.CanceladoValida | app/routers/pedido.py:328-376 | Cancelling keeps the tables valid |
| RutasPedido.SinPedidoSubsecuencia | app/routers/pedido.py:373 | Every surviving line was there before |
| RutasPedido.ExclusionesFueraSubsecuencia | app/routers/pedido.py:373 | Every surviving exclusion was there before |
| RutasPedido.CancelarDosVeces | app/routers/pedido.py:338-344 | A cancelled order is gone, so cancelling it again is a 404 |
| RutasPedido.CrearYCancelar | app/routers/pedido.py:41-376 | Creating then cancelling restores every table but the two id counters |
| RutasPedido.InsertadoCancelado | app/routers/pedido.py:105-376 | Cancelling a just-stored PENDIENTE order restores the tables but the counters |
| RutasPedido.InsertadoRepuesto | app/routers/pedido.py:361-370 | Giving back the new order's lines restores every menu |
| RutasPedido.ValidarLineas | app/routers/pedido.py:70-93 | The validation loop returns `Validar` of the menus |
| RutasPedido.ValidarCorta | app/routers/pedido.py:70-90 | The first failing line after valid ones is the validation's error |
| RutasPedido.GuardarExclusiones | app/routers/pedido.py:135-140 | Only the exclusions grow, by the line's rows |
| RutasPedido.PrefijosExisten | app/routers/pedido.py:70-93 | Prefixes of a cart of existing menus name existing menus |
| RutasPedido.PasoItems | app/routers/pedido.py:123-131 | One more line stores one more row after the others |
| RutasPedido.PasoExclusiones | app/routers/pedido.py:135-140 | One more line stores its exclusions after the others' |
| RutasPedido.PasoStock | app/routers/pedido.py:143 | One more line takes its units from its menu |
| RutasPedido.GuardarLinea | app/routers/pedido.py:123-143 | One turn of the line loop: its row, its exclusions, its units |
| RutasPedido.PasoGuardado | app/routers/pedido.py:123-143 | One more turn keeps the loop's progress relation |
| RutasPedido.GuardadoItems | app/routers/pedido.py:123-131 | After i+1 turns the lines stored are the first i+1 |
| RutasPedido.GuardadoExclusiones | app/routers/pedido.py:135-140 | After i+1 turns the exclusions stored are those of the first i+1 lines |
| RutasPedido.GuardadoStock | app/routers/pedido.py:143 | After i+1 turns the stock taken is that of the first i+1 lines |
| RutasPedido.LineaGuardadaMenus | app/routers/pedido.py:143 | A turn changes only its menu's stock |
| RutasPedido.GuardarLineas | app/routers/pedido.py:123-143 | The loop stores all lines, their exclusions and takes all their units |
| RutasPedido.CrearPedido | app/routers/pedido.py:41-167 | Requires and keeps the table and manager invariants; the database and the manager end as `PedidoCreado` says, answering with the new id or the error |
| RutasPedido.RegistrarPedido | app/routers/pedido.py:41-145 | The transaction up to the commit: the database ends as `PedidoCreado` says, unchanged on error, answering with the events to publish |
| RutasPedido.CancelarPedido | app/routers/pedido.py:328-376 | Requires and keeps the table invariant; the database ends as `PedidoCancelado` says, unchanged on error |
| RutasAdmin.Parchear | app/routers/admin.py:132-170 | Each field set in the request replaces the menu's; each field left out stays |
| RutasAdmin.ParchearVacio | app/routers/admin.py:132-170 | An empty update changes nothing |
| RutasAdmin.ParchearIdempotente | app/routers/admin.py:132-170 | Sending the same update twice gives what the first one gave |
| RutasAdmin.ParchearConservaValido | app/schemas/admin.py:26-33 | An accepted update keeps stock non-negative and price positive |
| RutasAdmin.MenuActualizado | app/routers/admin.py:132-170 | 422, then 403, then 404; on success only that menu is patched |
| RutasAdmin.MenuActualizadoValido | app/routers/admin.py:132-170 | Every menu stays valid and the other menus are untouched |
| RutasAdmin.EmpleadoDesactivado | app/routers/admin.py:829-887 | 403, 404, self-removal, not staff, courier with active orders, in that order; otherwise the user is deleted |
| RutasAdmin.DesactivadoSinActivos | app/routers/admin.py:829-887 | After a courier is removed no active order points to them, and a second removal is a 404 |
| RutasAdmin.PedidoConfirmado | app/routers/admin.py:1041-1105 | Only a PENDIENTE order becomes CONFIRMADO, stamped now; nothing else changes |
| RutasAdmin.ConfirmarDosVeces | app/routers/admin.py:1041-1105 | A second confirmation finds the order CONFIRMADO |
| RutasAdmin.ConfirmadoValida | app/routers/admin.py:1041-1105 | Confirming an order keeps the tables valid |
| RutasAdmin.DeliveryReasignado | app/routers/admin.py:1107-1178 | 403, order 404, user 404, not a courier; otherwise only the order's courier changes |
| RutasAdmin.ReasignarMismo | app/routers/admin.py:1107-1178 | Reassigning the same courier leaves the tables unchanged |
| RutasAdmin.ReasignadoValida | app/routers/admin.py:1107-1178 | Reassigning the courier keeps the tables valid |
| RutasAdmin.EstadoActualizado | app/routers/admin.py:1180-1268 | Any state from any state; the units come back iff the order newly becomes CANCELADO; the state's date is stamped |
| RutasAdmin.EstadoActualizadoValida | app/routers/admin.py:1180-1268 | Forcing a state keeps the tables valid |
| RutasAdmin.ConfirmarComoEstado | app/routers/admin.py:1041-1233 | On a PENDIENTE order, forcing CONFIRMADO is exactly confirming |
| RutasAdmin.CancelarForzadoDosVeces | app/routers/admin.py:1209-1220 | Forcing CANCELADO twice gives the units back once |
| RutasAdmin.MismoEstadoReestampa | app/routers/admin.py:1205-1233 | Forcing the current state still restamps its date |
| RutasAdmin.CanceladoAdmin | app/routers/admin.py:1367-1422 | 403, 404, already cancelled, already delivered; otherwise the units come back and the order stays, CANCELADO |
| RutasAdmin.CancelarAdminDosVeces | app/routers/admin.py:1387-1392 | A cancelled order cannot be cancelled again |
| RutasAdmin.CancelarComoEstado | app/routers/admin.py:1209-1412 | On an order neither cancelled nor delivered, cancelling and forcing CANCELADO agree |
| RutasAdmin.EntregadoForzadoRepone | app/routers/admin.py:1209-1220 | A delivered order cannot be cancelled, yet forcing CANCELADO gives its units back |
| RutasAdmin.CanceladoAdminValida | app/routers/admin.py:1367-1422 | Cancelling keeps the tables valid |
| RutasAdmin.ActualizarMenuDia | app/routers/admin.py:132-170 | Requires and keeps the table invariant; the database ends as `MenuActualizado` says, answering with the new menu |
| RutasAdmin.DesactivarEmpleado | app/routers/admin.py:829-887 | Requires and keeps the table invariant; the database ends as `EmpleadoDesactivado` says |
| RutasAdmin.ConfirmarPedido | app/routers/admin.py:1041-1105 | Requires and keeps the table invariant; the database ends as `PedidoConfirmado` says, answering with the order |
| RutasAdmin.ReasignarDelivery | app/routers/admin.py:1107-1178 | Requires and keeps the table invariant; the database ends as `DeliveryReasignado` says, answering with the order |
| RutasAdmin.ActualizarEstadoPedido | app/routers/admin.py:1180-1268 | Requires and keeps the table invariant; the database ends as `EstadoActualizado` says, answering with the order |
| RutasAdmin.CancelarPedidoAdmin | app/routers/admin.py:1367-1422 | Requires and keeps the table invariant; the database ends as `CanceladoAdmin` says |
| RutasCocina.Pendientes | app/routers/cocina.py:34-131 | Administrators and kitchen only; exactly the CONFIRMADO and EN_COCINA orders, once each, oldest first |
| RutasCocina.PendientesOrdenados | app/routers/cocina.py:34-131 | Sorting the selected ids keeps them once each, by creation instant |
| RutasCocina.Cocinado | app/routers/cocina.py:173-184 | Only the order changes |
| RutasCocina.CambiadoCocina | app/routers/cocina.py:134-211 | The intended endpoint: 403, 404, then only EN_COCINA or LISTO_PARA_ENTREGA; the state is set (with the ready stamp); the client hears of it iff stored; at most two events |
| RutasCocina.AvisosCocinaTipos | app/routers/cocina.py:186-211 | The client's CAMBIO_ESTADO comes first iff the client is stored, at most two events |
| RutasCocina.CambiadoCocinaTalCual | app/routers/cocina.py:134-211 | As written: the same errors and tables; a stored client makes the answer an internal error and only PEDIDO_LISTO events can go out |
| RutasCocina.CocinaTalCualPierdeAviso | app/routers/cocina.py:190-197 | For a stored client the code as written commits and then fails with no event, where the intended endpoint tells the client |
| RutasCocina.CambiadoCocinaValida | app/routers/cocina.py:134-211 | The kitchen change keeps the tables valid |
| RutasCocina.CocinaSinEstadoPrevio | app/routers/cocina.py:161-174 | The current state is not checked: a cancelled or delivered order can be put back EN_COCINA |
| RutasCocina.CambiarEstadoPedido | app/routers/cocina.py:134-211 | Requires and keeps the table and manager invariants; the database and manager end as `CambiadoCocina` says, answering with the stored order |
| RutasCocina.RegistrarCambioCocina | app/routers/cocina.py:134-184 | The transaction up to the commit: the database ends as `CambiadoCocina` says, unchanged on error |
| RutasCocina.ConEstado | app/routers/cocina.py:371-453 | Exactly the listed orders whose state passes the test, each taken from the list |
| RutasCocina.ParticionConEstado | app/routers/cocina.py:371-453 | Three exclusive tests split any list of orders into three counts that add up to its length |
| RutasCocina.Tiempos | app/routers/cocina.py:371-453 | At most one time per listed order; each time is the ready time minus the creation time of a listed order |
| RutasCocina.PlatosAcotados | app/routers/cocina.py:371-453 | The dishes count is non-negative, and zero when no order of the day is processed |
| RutasCocina.EstadisticasDelDia | app/routers/cocina.py:371-453 | 403 but for roles 1 and 2; the processed and in-process counts are the numbers of the day's orders in those states; with the out-of-kitchen count they add up to the day's orders; the times are those of the processed orders, at most one each |
| RutasCocina.PedidosDelDia | app/routers/cocina.py:394-396 | Exactly the ids of the orders placed on the day, each once |
| RutasCocina.ConEstadoCuenta | app/routers/cocina.py:398-412 | Over a list without repeats, the filtered list has one entry per id that passes |
| RutasCocina.CuentaUltimo | app/routers/cocina.py:398-412 | A new id at the end adds one to the count exactly when it passes |
| RutasCocina.DelDiaCuenta | app/routers/cocina.py:398-412 | The day's orders that pass a test, filtered from the day's list, number as many as the set of such ids |
| RutasCocina.TiemposDelDia | app/routers/cocina.py:414-421 | Every reported time is the preparation time of some processed order of the day |
| RutasCocina.ProcesadosDisjuntos | app/routers/cocina.py:371-453 | No order counts both as processed and in process |
| RutasDelivery.MisEntregas | app/routers/delivery.py:31-102 | Administrators and couriers only; exactly the caller's LISTO_PARA_ENTREGA and EN_REPARTO orders, once each, earliest ready first, not-ready last |
| RutasDelivery.EntregasOrdenadas | app/routers/delivery.py:49-55 | Sorting by ready time keeps the ids once each and in key order |
| RutasDelivery.SinFechaAlFinal | app/routers/delivery.py:49-55 | An order without a ready time never precedes one with it |
| RutasDelivery.AvisosTomar | app/routers/delivery.py:152-165 | DELIVERY_EN_CAMINO then CAMBIO_ESTADO "Tu pedido está en camino", both to the client |
| RutasDelivery.PedidoTomado | app/routers/delivery.py:105-200 | 403, 404, not assigned to the caller, not LISTO_PARA_ENTREGA; otherwise only the order changes, EN_REPARTO stamped now, and the client is told |
| RutasDelivery.TomarDosVeces | app/routers/delivery.py:138-143 | A second take finds the order EN_REPARTO |
| RutasDelivery.TomadoValida | app/routers/delivery.py:105-200 | Taking keeps the tables valid |
| RutasDelivery.TomadoEs | app/routers/delivery.py:144-165 | A successful take sets EN_REPARTO and the time on that order only, and publishes the courier-on-the-way and state-change events |
| RutasDelivery.EntregaFinalizada | app/routers/delivery.py:203-297 | Couriers only, 404, not assigned, not EN_REPARTO; otherwise ENTREGADO stamped now, paid iff already paid or confirmed, and the client is told |
| RutasDelivery.TomadoEnLista | app/routers/delivery.py:31-200 | A taken order is on the courier's list |
| RutasDelivery.EntregadoFueraDeLista | app/routers/delivery.py:31-297 | A delivered order leaves the courier's list |
| RutasDelivery.TomarYFinalizar | app/routers/delivery.py:105-297 | A courier who takes a ready order can hand it over, ending ENTREGADO with both stamps |
| RutasDelivery.FinalizadaValida | app/routers/delivery.py:203-297 | Handing over keeps the tables valid |
| RutasDelivery.TomarPedido | app/routers/delivery.py:105-200 | Requires and keeps the table and manager invariants; the database and manager end as `PedidoTomado` says |
| RutasDelivery.FinalizarEntrega | app/routers/delivery.py:203-297 | Requires and keeps the table and manager invariants; the database and manager end as `EntregaFinalizada` says |
| RutasDelivery.RegistrarToma | app/routers/delivery.py:105-149 | The transaction up to the commit: the database ends as `PedidoTomado` says, unchanged on error, answering with the stored order |
| RutasDelivery.RegistrarEntrega | app/routers/delivery.py:203-253 | The transaction up to the commit: the database ends as `EntregaFinalizada` says, unchanged on error, answering with the stored order |
| RutasNotificaciones.Defecto | app/routers/notificaciones.py:33-38 | A query parameter left out takes its default |
| RutasNotificaciones.MisNotificaciones | app/routers/notificaciones.py:31-76 | 422 iff a bound is broken; otherwise fails iff the role is unknown; visible events only, newest first, at most `limit` <= 100; it is the manager query with the window and limit given, so exactly `min(limit, n)` of the `n` visible candidates, drawn from them |
| RutasNotificaciones.TiposUltimo | app/routers/notificaciones.py:109-113 | The types of a list are those before its last event plus the last one's |
| RutasNotificaciones.Cuenta | app/routers/notificaciones.py:109-113 | A type's count is at most the length, and positive iff the type occurs |
| RutasNotificaciones.PorTipoCuenta | app/routers/notificaciones.py:109-113 | The loop's map has one key per type present, each with its count |
| RutasNotificaciones.TotalQuitar | app/routers/notificaciones.py:109-113 | A map's sum is any entry plus the sum of the rest |
| RutasNotificaciones.TotalIncremento | app/routers/notificaciones.py:109-113 | Counting one more event adds one to the sum |
| RutasNotificaciones.TotalPorTipo | app/routers/notificaciones.py:109-113 | The per-type counts add up to the number of events |
| RutasNotificaciones.ContarPorTipo | app/routers/notificaciones.py:109-113 | The counting loop yields one key per type, each with its count |
| RutasNotificaciones.Contado | app/routers/notificaciones.py:79-119 | Fails iff the role is unknown; `desde` defaults to five minutes ago; the total is the visible events up to 50, split by type |
| RutasNotificaciones.ContadoSuma | app/routers/notificaciones.py:79-119 | The per-type counts add up to the total |
| RutasNotificaciones.ContadorNotificacionesNuevas | app/routers/notificaciones.py:79-119 | The endpoint answers `Contado` of the manager's state |
| RutasNotificaciones.NuevosPedidosCocina | app/routers/notificaciones.py:122-161 | 422 outside 1..60; 403 but for roles 1 and 2; only NUEVO_PEDIDO broadcasts of the kitchen buffer, newest first; it is the manager query on the kitchen buffer, so exactly `min(50, n)` of the `n` matching events |
| RutasNotificaciones.MisAsignaciones | app/routers/notificaciones.py:164-202 | 422 outside 1..120; 403 but for roles 1 and 3; only PEDIDO_ASIGNADO events visible to the caller, newest first; it is the manager query on the courier buffers, so exactly `min(50, n)` of the `n` matching events |
| RutasNotificaciones.NotificacionesCliente | app/routers/notificaciones.py:261-300 | 422 outside 1..1440; 403 but for roles 1 and 4; events visible to the caller, newest first; it is the manager query on the client buffers, so exactly `min(50, n)` of the `n` visible events |
| RutasNotificaciones.ClienteCompleto | app/routers/notificaciones.py:261-300 | When they fit, the client feed returns every visible event |
| RutasNotificaciones.Llegada | app/routers/notificaciones.py:205-258 | 403, 404, not assigned; otherwise one DELIVERY_CERCA event for the order's client, in any state |
| RutasNotificaciones.LlegadaTrasTomar | app/routers/notificaciones.py:205-258 | The courier who just took an order can announce the arrival |
| RutasNotificaciones.LlegadaVisibleAlCliente | app/routers/notificaciones.py:247-252 | Once published, the announcement reaches the client's feed |
| RutasNotificaciones.NotificarLlegadaDelivery | app/routers/notificaciones.py:205-258 | Requires and keeps the manager invariant; the tables are only read; the manager publishes what `Llegada` says |
| RutasNotificaciones.Limpieza | app/routers/notificaciones.py:303-324 | 403 but for administrators; otherwise the purge at now minus the lifetime |
| RutasNotificaciones.LimpiarNotificacionesAntiguas | app/routers/notificaciones.py:303-324 | Requires and keeps the manager invariant; the manager ends as `Limpieza` says, unchanged on error |

## Left out

- Concurrency: the manager's `_lock` and the interleaving of requests are not modelled. Each call is atomic.
- The `evento_id` string: an event's id is the counter's value. The prefix and formatting of the string id are left out.
- Database integrity errors at commit are not modelled (foreign keys, the composite key of exclusions, a duplicate token).
- Response assembly is not modelled: names, e-mails, dish names, `minutos_desde_*` fields and the dashboard response objects.
- Floating point: `float(total)` in events, average times and KPIs. Money is integer cents and `Decimal(10,2)` overflow is not modelled.
- The position fields `latitud`/`longitud` of orders and requests.
- `.first()` on an unordered query is taken to return the lowest id. Ties in `ORDER BY` are broken by ascending id. The database's order is unspecified, so this is a choice.
- Datetimes are integer seconds. A day is `t / 86400` in UTC, and timezone-aware versus naive comparisons are not modelled.
- Authentication: the caller arrives as a `Sesion` (id, role, name).
- The clock (`datetime.now()`) is the parameter `ahora`. The random draws of the token generator are an oracle parameter.
- The other endpoints (history, dishes, ingredients, zones, users, KPIs) are not part of this model. Their request validators appear only as predicates.
- `str(float)` and decimal reading-back are left out: `EnDecimal` is only proved for natural numbers (`Publicadores.ValorDeDigitos`).
- RutasNotificaciones.Limpieza: its contract states the purge, not validity. The validity of the purged manager is `Notificaciones.PurgadoPreservaValidez`.
- RutasDelivery.EntregaFinalizada: `confirmar_pago` is a plain boolean. The request's default of false is applied by the caller.
- RutasCocina.EstadisticasDelDia: the averages, fastest and slowest times are not computed, since they are floats in the source; the times are kept in seconds, not minutes, and the dish sum is returned as computed.
- Esquemas.IngredientePorDefecto: `stock_actual` is a `Decimal` with `ge=0` in the source; the model uses whole numbers, so fractional stock is not modelled.
- Stock.DuplicadoNegativo: a cart with two lines on one menu can drive the stock negative. This is modelled as written and not treated as a bug, because nothing in the code rejects it.

## Findings

| source | as written | input that shows it | evidently intended | confidence | as-written member | corrected member |
|---|---|---|---|---|---|---|
| app/routers/cocina.py:194 | `request.nuevo_estado.value` is read although the request model has `use_enum_values = True` (app/schemas/cocina.py:56-57). The field therefore holds a plain string and the attribute access raises after the commit | The kitchen sets an order whose client is stored to LISTO_PARA_ENTREGA. The state is committed, the call answers 500, and neither the client nor the courier is notified | Commit, notify the client of the new state under its member name (`EN_COCINA`, `LISTO_PARA_ENTREGA`, the form the courier endpoints pass as `"EN_REPARTO"` and `"ENTREGADO"`), notify the courier when the order is ready, and answer normally | not executed | RutasCocina.CocinaTalCualPierdeAviso | RutasCocina.CambiadoCocina |
