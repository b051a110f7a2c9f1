/**
 * What an order does to the menus of the day: the per-line validation of
 * `crear_pedido`, the lines and exclusions it stores, the stock it takes,
 * and the stock a cancellation gives back.
 */
module Stock {
  import opened Base
  import opened Errores
  import opened Modelos
  import opened Esquemas

  // ---------- validation ----------

  /** The menu exists, is published and has at least the line's quantity left. */
  predicate LineaValida(menus: map<int, MenuDia>, x: ItemPedidoRequest)
  {
    x.menuDiaId in menus && menus[x.menuDiaId].publicado && menus[x.menuDiaId].cantidadDisponible >= x.cantidad
  }

  /** The error for a failing line, in the order the checks are made. */
  function FalloDeLinea(menus: map<int, MenuDia>, x: ItemPedidoRequest): Fallo
    requires !LineaValida(menus, x)
  {
    if x.menuDiaId !in menus then MenuNoEncontrado(x.menuDiaId)
    else if !menus[x.menuDiaId].publicado then MenuNoPublicado(x.menuDiaId)
    else StockInsuficiente(x.menuDiaId, menus[x.menuDiaId].cantidadDisponible)
  }

  predicate MenusExisten(menus: map<int, MenuDia>, l: seq<ItemPedidoRequest>)
  {
    forall k :: 0 <= k < |l| ==> l[k].menuDiaId in menus
  }

  /** Σ `precio_menu` × `cantidad` over the lines. */
  function Importe(menus: map<int, MenuDia>, l: seq<ItemPedidoRequest>): int
    requires MenusExisten(menus, l)
  {
    if l == [] then 0
    else Importe(menus, l[..|l| - 1]) + menus[l[|l| - 1].menuDiaId].precioMenu * l[|l| - 1].cantidad
  }

  /**
   * The validation loop of `crear_pedido`: the first failing line decides
   * the error; if none fails, the order total. Every line is checked
   * against the stock as it was before the order.
   */
  function Validar(menus: map<int, MenuDia>, l: seq<ItemPedidoRequest>): (r: Result<int, Fallo>)
    ensures r.Ok? <==> forall k :: 0 <= k < |l| ==> LineaValida(menus, l[k])
    ensures r.Ok? ==> MenusExisten(menus, l) && r.value == Importe(menus, l)
    ensures r.Err? ==> exists k :: 0 <= k < |l| && !LineaValida(menus, l[k])
                          && (forall j :: 0 <= j < k ==> LineaValida(menus, l[j]))
                          && r.error == FalloDeLinea(menus, l[k])
  {
    if l == [] then Ok(0)
    else
      var p := l[..|l| - 1];
      var x := l[|l| - 1];
      assert forall k :: 0 <= k < |p| ==> p[k] == l[k];
      match Validar(menus, p)
      case Err(f) => Err(f)
      case Ok(total) =>
        if !LineaValida(menus, x) then Err(FalloDeLinea(menus, x))
        else Ok(total + menus[x.menuDiaId].precioMenu * x.cantidad)
  }

  // ---------- the stored lines and exclusions ----------

  /** The `pedido_items` rows, numbered from `primerId`, each capturing its menu's price. */
  function NuevosItems(pedidoId: int, primerId: int, menus: map<int, MenuDia>, l: seq<ItemPedidoRequest>): (r: seq<PedidoItem>)
    requires MenusExisten(menus, l)
    ensures |r| == |l|
    ensures forall k :: 0 <= k < |r| ==>
      r[k] == PedidoItem(primerId + k, pedidoId, l[k].menuDiaId, l[k].cantidad, menus[l[k].menuDiaId].precioMenu)
  {
    if l == [] then []
    else
      var x := l[|l| - 1];
      NuevosItems(pedidoId, primerId, menus, l[..|l| - 1])
        + [PedidoItem(primerId + |l| - 1, pedidoId, x.menuDiaId, x.cantidad, menus[x.menuDiaId].precioMenu)]
  }

  /** Σ `precio_unitario` × `cantidad` over stored lines. */
  function ImporteItems(its: seq<PedidoItem>): int
  {
    if its == [] then 0 else ImporteItems(its[..|its| - 1]) + its[|its| - 1].precioUnitario * its[|its| - 1].cantidad
  }

  /** The order total is what its stored lines add up to. */
  lemma {:induction false} ImporteDeItems(pedidoId: int, primerId: int, menus: map<int, MenuDia>, l: seq<ItemPedidoRequest>)
    requires MenusExisten(menus, l)
    ensures ImporteItems(NuevosItems(pedidoId, primerId, menus, l)) == Importe(menus, l)
  {
    if l != [] {
      var p := l[..|l| - 1];
      assert MenusExisten(menus, p) by {
        forall k | 0 <= k < |p| ensures p[k].menuDiaId in menus { assert p[k] == l[k]; }
      }
      ImporteDeItems(pedidoId, primerId, menus, p);
      var its := NuevosItems(pedidoId, primerId, menus, l);
      assert its[..|its| - 1] == NuevosItems(pedidoId, primerId, menus, p);
    }
  }

  /** One `item_exclusiones` row per excluded ingredient, in request order. */
  function ExclusionesDe(itemId: int, ingredientes: seq<int>): (r: seq<ItemExclusion>)
    ensures |r| == |ingredientes|
    ensures forall k :: 0 <= k < |r| ==> r[k] == ItemExclusion(itemId, ingredientes[k])
  {
    if ingredientes == [] then []
    else ExclusionesDe(itemId, ingredientes[..|ingredientes| - 1]) + [ItemExclusion(itemId, ingredientes[|ingredientes| - 1])]
  }

  /** The exclusions of every line, line after line. */
  function NuevasExclusiones(primerId: int, l: seq<ItemPedidoRequest>): (r: seq<ItemExclusion>)
    ensures forall k :: 0 <= k < |r| ==> primerId <= r[k].itemId < primerId + |l|
  {
    if l == [] then []
    else
      var p := NuevasExclusiones(primerId, l[..|l| - 1]);
      var e := ExclusionesDe(primerId + |l| - 1, l[|l| - 1].exclusiones);
      assert forall k :: 0 <= k < |e| ==> e[k].itemId == primerId + |l| - 1;
      p + e
  }

  /** The exclusion rows that belong to one line. */
  function DeItem(xs: seq<ItemExclusion>, itemId: int): (r: seq<ItemExclusion>)
    ensures |r| <= |xs|
  {
    if xs == [] then []
    else DeItem(xs[..|xs| - 1], itemId) + (if xs[|xs| - 1].itemId == itemId then [xs[|xs| - 1]] else [])
  }

  lemma {:induction false} DeItemConcat(a: seq<ItemExclusion>, b: seq<ItemExclusion>, itemId: int)
    ensures DeItem(a + b, itemId) == DeItem(a, itemId) + DeItem(b, itemId)
    decreases |b|
  {
    if b == [] {
      assert a + b == a;
    } else {
      var b' := b[..|b| - 1];
      assert (a + b)[..|a + b| - 1] == a + b';
      DeItemConcat(a, b', itemId);
    }
  }

  lemma {:induction false} DeItemTodos(xs: seq<ItemExclusion>, itemId: int)
    requires forall k :: 0 <= k < |xs| ==> xs[k].itemId == itemId
    ensures DeItem(xs, itemId) == xs
  {
    if xs != [] {
      DeItemTodos(xs[..|xs| - 1], itemId);
    }
  }

  lemma {:induction false} DeItemNinguno(xs: seq<ItemExclusion>, itemId: int)
    requires forall k :: 0 <= k < |xs| ==> xs[k].itemId != itemId
    ensures DeItem(xs, itemId) == []
  {
    if xs != [] {
      DeItemNinguno(xs[..|xs| - 1], itemId);
    }
  }

  /** The exclusions of the last line come after those of every earlier line. */
  lemma NuevasExclusionesUltima(primerId: int, l: seq<ItemPedidoRequest>)
    requires l != []
    ensures NuevasExclusiones(primerId, l)
         == NuevasExclusiones(primerId, l[..|l| - 1]) + ExclusionesDe(primerId + |l| - 1, l[|l| - 1].exclusiones)
  {
  }

  lemma DeItemTras(q: seq<ItemExclusion>, e: seq<ItemExclusion>, itemId: int)
    requires forall j :: 0 <= j < |q| ==> q[j].itemId < itemId
    requires forall j :: 0 <= j < |e| ==> e[j].itemId == itemId
    ensures DeItem(q + e, itemId) == e
  {
    DeItemConcat(q, e, itemId);
    DeItemNinguno(q, itemId);
    DeItemTodos(e, itemId);
  }

  lemma DeItemAntes(q: seq<ItemExclusion>, e: seq<ItemExclusion>, itemId: int)
    requires forall j :: 0 <= j < |e| ==> e[j].itemId != itemId
    ensures DeItem(q + e, itemId) == DeItem(q, itemId)
  {
    DeItemConcat(q, e, itemId);
    DeItemNinguno(e, itemId);
  }

  /** Each requested exclusion of line `k` becomes exactly one row for that line's item, in order. */
  lemma {:induction false} ExclusionesDeLinea(primerId: int, l: seq<ItemPedidoRequest>, k: int)
    requires 0 <= k < |l|
    ensures DeItem(NuevasExclusiones(primerId, l), primerId + k) == ExclusionesDe(primerId + k, l[k].exclusiones)
    decreases |l|
  {
    var p := l[..|l| - 1];
    var e := ExclusionesDe(primerId + |l| - 1, l[|l| - 1].exclusiones);
    var q := NuevasExclusiones(primerId, p);
    NuevasExclusionesUltima(primerId, l);
    if k == |l| - 1 {
      DeItemTras(q, e, primerId + k);
    } else {
      DeItemAntes(q, e, primerId + k);
      ExclusionesDeLinea(primerId, p, k);
      assert p[k] == l[k];
    }
  }

  /** The rows of line `k` of an order are its own exclusions, whatever older rows precede them. */
  lemma ExclusionesNuevasPropias(xs: seq<ItemExclusion>, primerId: int, l: seq<ItemPedidoRequest>, k: int)
    requires forall j :: 0 <= j < |xs| ==> xs[j].itemId < primerId
    requires 0 <= k < |l|
    ensures DeItem(xs + NuevasExclusiones(primerId, l), primerId + k) == ExclusionesDe(primerId + k, l[k].exclusiones)
  {
    var ys := NuevasExclusiones(primerId, l);
    assert DeItem(xs + ys, primerId + k) == DeItem(ys, primerId + k) by {
      DeItemConcat(xs, ys, primerId + k);
      DeItemNinguno(xs, primerId + k);
    }
    ExclusionesDeLinea(primerId, l, k);
  }

  // ---------- stock taken and given back ----------

  /** Units of menu `m` over the request lines. */
  function Unidades(l: seq<ItemPedidoRequest>, m: int): int
  {
    if l == [] then 0
    else Unidades(l[..|l| - 1], m) + (if l[|l| - 1].menuDiaId == m then l[|l| - 1].cantidad else 0)
  }

  /** Units of menu `m` over stored lines. */
  function UnidadesItems(its: seq<PedidoItem>, m: int): int
  {
    if its == [] then 0
    else UnidadesItems(its[..|its| - 1], m) + (if its[|its| - 1].menuDiaId == m then its[|its| - 1].cantidad else 0)
  }

  /** The decrement loop of `crear_pedido`: each line takes its quantity from its menu. */
  function Descontar(menus: map<int, MenuDia>, l: seq<ItemPedidoRequest>): (r: map<int, MenuDia>)
    requires MenusExisten(menus, l)
    ensures r.Keys == menus.Keys
    ensures forall m :: m in menus ==>
      r[m] == menus[m].(cantidadDisponible := menus[m].cantidadDisponible - Unidades(l, m))
  {
    if l == [] then menus
    else
      var p := l[..|l| - 1];
      var x := l[|l| - 1];
      assert MenusExisten(menus, p) by {
        forall k | 0 <= k < |p| ensures p[k].menuDiaId in menus { assert p[k] == l[k]; }
      }
      var d := Descontar(menus, p);
      d[x.menuDiaId := d[x.menuDiaId].(cantidadDisponible := d[x.menuDiaId].cantidadDisponible - x.cantidad)]
  }

  /** The restock loop: each stored line gives its quantity back to its menu, when the menu still exists. */
  function Reponer(menus: map<int, MenuDia>, its: seq<PedidoItem>): (r: map<int, MenuDia>)
    ensures r.Keys == menus.Keys
    ensures forall m :: m in menus ==>
      r[m] == menus[m].(cantidadDisponible := menus[m].cantidadDisponible + UnidadesItems(its, m))
  {
    if its == [] then menus
    else
      var d := Reponer(menus, its[..|its| - 1]);
      var x := its[|its| - 1];
      if x.menuDiaId in d then d[x.menuDiaId := d[x.menuDiaId].(cantidadDisponible := d[x.menuDiaId].cantidadDisponible + x.cantidad)]
      else d
  }

  /** The stored lines hold, menu by menu, the units the request asked for. */
  lemma {:induction false} UnidadesDeNuevos(pedidoId: int, primerId: int, menus: map<int, MenuDia>, l: seq<ItemPedidoRequest>, m: int)
    requires MenusExisten(menus, l)
    ensures UnidadesItems(NuevosItems(pedidoId, primerId, menus, l), m) == Unidades(l, m)
  {
    if l != [] {
      var p := l[..|l| - 1];
      assert MenusExisten(menus, p) by {
        forall k | 0 <= k < |p| ensures p[k].menuDiaId in menus { assert p[k] == l[k]; }
      }
      UnidadesDeNuevos(pedidoId, primerId, menus, p, m);
      var its := NuevosItems(pedidoId, primerId, menus, l);
      assert its[..|its| - 1] == NuevosItems(pedidoId, primerId, menus, p);
    }
  }

  /** Giving back, menu by menu, the units that were taken restores every menu. */
  lemma ReponerDescontar(menus: map<int, MenuDia>, l: seq<ItemPedidoRequest>, its: seq<PedidoItem>)
    requires MenusExisten(menus, l)
    requires forall m :: UnidadesItems(its, m) == Unidades(l, m)
    ensures Reponer(Descontar(menus, l), its) == menus
  {
    var r := Reponer(Descontar(menus, l), its);
    assert r.Keys == menus.Keys;
    forall m | m in menus ensures r[m] == menus[m] {
      assert UnidadesItems(its, m) == Unidades(l, m);
    }
  }

  /** No two lines name the same menu. */
  predicate MenusDistintos(l: seq<ItemPedidoRequest>)
  {
    forall j, k :: 0 <= j < k < |l| ==> l[j].menuDiaId != l[k].menuDiaId
  }

  /** With distinct menus, a menu's units are its one line's quantity, or 0 without a line. */
  lemma {:induction false} UnidadesDistintas(l: seq<ItemPedidoRequest>, m: int)
    requires MenusDistintos(l)
    ensures (forall k :: 0 <= k < |l| ==> l[k].menuDiaId != m) ==> Unidades(l, m) == 0
    ensures forall k :: 0 <= k < |l| && l[k].menuDiaId == m ==> Unidades(l, m) == l[k].cantidad
  {
    if l != [] {
      var p := l[..|l| - 1];
      assert forall k :: 0 <= k < |p| ==> p[k] == l[k];
      UnidadesDistintas(p, m);
    }
  }

  /**
   * When the lines name distinct menus and pass validation, no menu whose
   * stock was non-negative goes below zero.
   */
  lemma DescontarNoNegativo(menus: map<int, MenuDia>, l: seq<ItemPedidoRequest>)
    requires forall k :: 0 <= k < |l| ==> LineaValida(menus, l[k])
    requires MenusDistintos(l)
    ensures MenusExisten(menus, l)
    ensures forall m :: m in menus && menus[m].cantidadDisponible >= 0 ==> Descontar(menus, l)[m].cantidadDisponible >= 0
  {
    forall m | m in menus && menus[m].cantidadDisponible >= 0
      ensures Descontar(menus, l)[m].cantidadDisponible >= 0
    {
      UnidadesDistintas(l, m);
    }
  }

  /**
   * Two lines on the same menu each pass the check against the stock as it was
   * before the order, so a menu with `c` units left accepts `c` twice and ends at `-c`.
   */
  lemma DuplicadoNegativo(menus: map<int, MenuDia>, x: ItemPedidoRequest)
    requires x.menuDiaId in menus && menus[x.menuDiaId].publicado
    requires x.cantidad >= 1 && menus[x.menuDiaId].cantidadDisponible == x.cantidad
    ensures Validar(menus, [x, x]).Ok?
    ensures Descontar(menus, [x, x])[x.menuDiaId].cantidadDisponible == -x.cantidad < 0
  {
    assert [x, x][..1] == [x];
    assert [x][..0] == [];
  }
}
