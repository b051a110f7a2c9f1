/**
 * The database the routers read and write: menus, orders, order lines,
 * line exclusions, users and delivery zones, with the autoincrement
 * counters of the two tables the order logic inserts into.
 */
module Tienda {
  import opened Base
  import opened Enums
  import opened Modelos
  import opened Orden
  import opened Stock
  import opened Esquemas
  import opened Errores
  import opened Notificaciones

  datatype Tablas = Tablas(
    menus: map<int, MenuDia>,
    pedidos: map<int, Pedido>,
    items: seq<PedidoItem>,
    exclusiones: seq<ItemExclusion>,
    usuarios: map<int, Usuario>,
    zonas: set<int>,
    siguientePedido: int,
    siguienteItem: int)

  /** Ids are below their counters and every line belongs to a stored order. */
  predicate IdsPrevios(t: Tablas)
  {
    && (forall p :: p in t.pedidos ==> p < t.siguientePedido)
    && (forall k :: 0 <= k < |t.items| ==> t.items[k].itemId < t.siguienteItem && t.items[k].pedidoId in t.pedidos)
    && (forall k :: 0 <= k < |t.exclusiones| ==> t.exclusiones[k].itemId < t.siguienteItem)
  }

  /** The ids are consistent, and tokens are unique and at most eight characters long. */
  predicate TablasValidas(t: Tablas)
  {
    && IdsPrevios(t)
    && TokensUnicos(t.pedidos)
    && (forall p :: p in t.pedidos ==> TokenValido(t.pedidos[p].tokenRecoger))
  }

  /** What a successful endpoint call leaves behind: the committed tables and the events it publishes, in order. */
  datatype Efecto = Efecto(tablas: Tablas, avisos: seq<Aviso>)

  /**
   * A method applied the outcome `s`: on an error nothing changed; on success
   * the tables are the committed ones and the events were published in order.
   */
  twostate predicate Aplicado(db: BaseDatos, g: GestorNotificaciones, s: Result<Efecto, Fallo>, ahora: int)
    reads db, g
  {
    if s.Err? then db.Estado() == old(db.Estado()) && g.Estado() == old(g.Estado())
    else db.Estado() == s.value.tablas && g.Estado() == PublicarTodos(old(g.Estado()), s.value.avisos, g.maxEventos, ahora)
  }

  // ---------- the lines of one order ----------

  /** `query(PedidoItem).filter(pedido_id == id).all()`, in table order. */
  function ItemsDe(items: seq<PedidoItem>, pedidoId: int): (r: seq<PedidoItem>)
    ensures forall k :: 0 <= k < |r| ==> r[k].pedidoId == pedidoId
  {
    if items == [] then []
    else
      var x := items[|items| - 1];
      ItemsDe(items[..|items| - 1], pedidoId) + (if x.pedidoId == pedidoId then [x] else [])
  }

  /** The lines that survive deleting an order. */
  function SinPedido(items: seq<PedidoItem>, pedidoId: int): (r: seq<PedidoItem>)
    ensures forall k :: 0 <= k < |r| ==> r[k].pedidoId != pedidoId
  {
    if items == [] then []
    else
      var x := items[|items| - 1];
      SinPedido(items[..|items| - 1], pedidoId) + (if x.pedidoId != pedidoId then [x] else [])
  }

  function IdsDe(its: seq<PedidoItem>): (r: set<int>)
    ensures forall k :: 0 <= k < |its| ==> its[k].itemId in r
    ensures forall i :: i in r ==> exists k :: 0 <= k < |its| && its[k].itemId == i
  {
    set k | 0 <= k < |its| :: its[k].itemId
  }

  /** The exclusions that survive deleting the lines `ids`. */
  function ExclusionesFuera(xs: seq<ItemExclusion>, ids: set<int>): (r: seq<ItemExclusion>)
    ensures forall k :: 0 <= k < |r| ==> r[k].itemId !in ids
  {
    if xs == [] then []
    else
      var x := xs[|xs| - 1];
      ExclusionesFuera(xs[..|xs| - 1], ids) + (if x.itemId !in ids then [x] else [])
  }

  /** Dropping the new lines' exclusions leaves the older rows. */
  lemma ExclusionesNuevasFuera(xs: seq<ItemExclusion>, pedidoId: int, primerId: int, menus: map<int, MenuDia>,
                               l: seq<ItemPedidoRequest>)
    requires forall j :: 0 <= j < |xs| ==> xs[j].itemId < primerId
    requires MenusExisten(menus, l)
    ensures ExclusionesFuera(xs + NuevasExclusiones(primerId, l), IdsDe(NuevosItems(pedidoId, primerId, menus, l))) == xs
  {
    var ys := NuevasExclusiones(primerId, l);
    var its := NuevosItems(pedidoId, primerId, menus, l);
    var ids := IdsDe(its);
    ExclusionesFueraConcat(xs, ys, ids);
    forall k | 0 <= k < |ys| ensures ys[k].itemId in ids {
      var j := ys[k].itemId - primerId;
      assert its[j].itemId == ys[k].itemId;
    }
    ExclusionesTodasFuera(ys, ids);
    forall k | 0 <= k < |xs| ensures xs[k].itemId !in ids {
    }
    ExclusionesNingunaFuera(xs, ids);
  }

  /** `db.delete(pedido)`: the order, then its lines and their exclusions by cascade. */
  function Borrado(t: Tablas, pedidoId: int): (r: Tablas)
    ensures pedidoId !in r.pedidos && r.pedidos == t.pedidos - {pedidoId}
    ensures ItemsDe(r.items, pedidoId) == []
    ensures r.menus == t.menus && r.usuarios == t.usuarios && r.zonas == t.zonas
  {
    var its := SinPedido(t.items, pedidoId);
    SinPedidoSinItems(t.items, pedidoId);
    t.(pedidos := t.pedidos - {pedidoId}, items := its,
       exclusiones := ExclusionesFuera(t.exclusiones, IdsDe(ItemsDe(t.items, pedidoId))))
  }

  lemma {:induction false} SinPedidoSinItems(items: seq<PedidoItem>, pedidoId: int)
    ensures ItemsDe(SinPedido(items, pedidoId), pedidoId) == []
  {
    if items != [] {
      var p := items[..|items| - 1];
      SinPedidoSinItems(p, pedidoId);
      ItemsDeConcat(SinPedido(p, pedidoId),
                    if items[|items| - 1].pedidoId != pedidoId then [items[|items| - 1]] else [], pedidoId);
    }
  }

  lemma {:induction false} ItemsDeConcat(a: seq<PedidoItem>, b: seq<PedidoItem>, pedidoId: int)
    ensures ItemsDe(a + b, pedidoId) == ItemsDe(a, pedidoId) + ItemsDe(b, pedidoId)
    decreases |b|
  {
    if b == [] {
      assert a + b == a;
    } else {
      var b' := b[..|b| - 1];
      assert (a + b)[..|a + b| - 1] == a + b';
      ItemsDeConcat(a, b', pedidoId);
    }
  }

  lemma {:induction false} SinPedidoConcat(a: seq<PedidoItem>, b: seq<PedidoItem>, pedidoId: int)
    ensures SinPedido(a + b, pedidoId) == SinPedido(a, pedidoId) + SinPedido(b, pedidoId)
    decreases |b|
  {
    if b == [] {
      assert a + b == a;
    } else {
      var b' := b[..|b| - 1];
      assert (a + b)[..|a + b| - 1] == a + b';
      SinPedidoConcat(a, b', pedidoId);
    }
  }

  lemma {:induction false} ExclusionesFueraConcat(a: seq<ItemExclusion>, b: seq<ItemExclusion>, ids: set<int>)
    ensures ExclusionesFuera(a + b, ids) == ExclusionesFuera(a, ids) + ExclusionesFuera(b, ids)
    decreases |b|
  {
    if b == [] {
      assert a + b == a;
    } else {
      var b' := b[..|b| - 1];
      assert (a + b)[..|a + b| - 1] == a + b';
      ExclusionesFueraConcat(a, b', ids);
    }
  }

  /** Lines all of one order are that order's lines, and deleting the order removes them all. */
  lemma {:induction false} ItemsPropios(its: seq<PedidoItem>, pedidoId: int)
    requires forall k :: 0 <= k < |its| ==> its[k].pedidoId == pedidoId
    ensures ItemsDe(its, pedidoId) == its && SinPedido(its, pedidoId) == []
  {
    if its != [] {
      ItemsPropios(its[..|its| - 1], pedidoId);
    }
  }

  /** Lines of other orders only: none belongs to `pedidoId`, and deleting it keeps them all. */
  lemma {:induction false} ItemsAjenos(its: seq<PedidoItem>, pedidoId: int)
    requires forall k :: 0 <= k < |its| ==> its[k].pedidoId != pedidoId
    ensures ItemsDe(its, pedidoId) == [] && SinPedido(its, pedidoId) == its
  {
    if its != [] {
      ItemsAjenos(its[..|its| - 1], pedidoId);
    }
  }

  lemma {:induction false} ExclusionesTodasFuera(xs: seq<ItemExclusion>, ids: set<int>)
    requires forall k :: 0 <= k < |xs| ==> xs[k].itemId in ids
    ensures ExclusionesFuera(xs, ids) == []
  {
    if xs != [] {
      ExclusionesTodasFuera(xs[..|xs| - 1], ids);
    }
  }

  lemma {:induction false} ExclusionesNingunaFuera(xs: seq<ItemExclusion>, ids: set<int>)
    requires forall k :: 0 <= k < |xs| ==> xs[k].itemId !in ids
    ensures ExclusionesFuera(xs, ids) == xs
  {
    if xs != [] {
      ExclusionesNingunaFuera(xs[..|xs| - 1], ids);
    }
  }

  // ---------- changes to one order ----------

  /** `n` differs from `t` at most in the stored order `id`. */
  predicate SoloPedido(t: Tablas, n: Tablas, id: int)
  {
    && id in t.pedidos && n.pedidos.Keys == t.pedidos.Keys
    && (forall q :: q in t.pedidos && q != id ==> n.pedidos[q] == t.pedidos[q])
    && n == t.(pedidos := n.pedidos)
  }

  /** The restock loop over the lines of order `id`, applied to the tables. */
  function Repuesto(t: Tablas, id: int): (r: Tablas)
    ensures r == t.(menus := r.menus) && r.menus.Keys == t.menus.Keys
    ensures forall m :: m in t.menus ==>
      r.menus[m].cantidadDisponible == t.menus[m].cantidadDisponible + UnidadesItems(ItemsDe(t.items, id), m)
  {
    t.(menus := Reponer(t.menus, ItemsDe(t.items, id)))
  }

  /** Changing one order in place, keeping its token, keeps the tables valid whatever happens to the stock. */
  lemma CambioValida(t: Tablas, n: Tablas, id: int)
    requires TablasValidas(t)
    requires SoloPedido(t, n.(menus := t.menus), id)
    requires n.pedidos[id].tokenRecoger == t.pedidos[id].tokenRecoger
    ensures TablasValidas(n)
  {
    var m := n.(menus := t.menus);
    assert m.pedidos == n.pedidos;
    assert n.pedidos.Keys == t.pedidos[id := n.pedidos[id]].Keys;
    assert forall q :: q in n.pedidos ==> n.pedidos[q] == t.pedidos[id := n.pedidos[id]][q];
    assert n.pedidos == t.pedidos[id := n.pedidos[id]];
    TokensUnicosCambio(t.pedidos, id, n.pedidos[id]);
  }

  // ---------- selections over the orders ----------

  /** The ids of the orders `f` accepts, in ascending id order (the tie-break chosen for `ORDER BY`). */
  function Seleccion(pedidos: map<int, Pedido>, f: Pedido -> bool): (r: seq<int>)
    ensures forall i :: i in r <==> i in pedidos && f(pedidos[i])
    ensures forall i, j :: 0 <= i < j < |r| ==> r[i] < r[j]
  {
    Ascendentes(set i | i in pedidos && f(pedidos[i]))
  }

  /** No id appears twice. */
  predicate SinRepetidos(s: seq<int>)
  {
    forall i, j :: 0 <= i < j < |s| ==> s[i] != s[j]
  }

  /** Sorting a list of distinct ids keeps exactly those ids, once each, in key order. */
  lemma OrdenarSeleccion(s: seq<int>, k: int -> Clave)
    requires SinRepetidos(s)
    ensures var r := OrdenarEstable(s, k);
      && (forall i :: i in r <==> i in s)
      && SinRepetidos(r)
      && forall i, j :: 0 <= i < j < |r| ==> Leq(k(r[i]), k(r[j]))
  {
    var r := OrdenarEstable(s, k);
    OrdenarEstableOrdena(s, k);
    assert forall i :: i in r <==> i in s by {
      forall i ensures i in r <==> i in s {
        assert i in r <==> i in multiset(r);
        assert i in s <==> i in multiset(s);
      }
    }
    OrdenadoSinRepetidos(s, k);
  }

  /** Sorting keeps a list free of repeats. */
  lemma OrdenadoSinRepetidos(s: seq<int>, k: int -> Clave)
    requires SinRepetidos(s)
    ensures SinRepetidos(OrdenarEstable(s, k))
  {
    var r := OrdenarEstable(s, k);
    assert multiset(r) == multiset(s);
    forall i, j | 0 <= i < j < |r| ensures r[i] != r[j] {
      if r[i] == r[j] {
        assert multiset(r)[r[i]] >= 2 by {
          assert r == r[..j] + r[j..];
          assert multiset(r) == multiset(r[..j]) + multiset(r[j..]);
          assert r[i] in multiset(r[..j]);
          assert r[j] in multiset(r[j..]);
        }
        UnaVez(s, r[i]);
        assert false;
      }
    }
  }

  lemma {:induction false} UnaVez(s: seq<int>, x: int)
    requires SinRepetidos(s)
    ensures multiset(s)[x] <= 1
  {
    if s != [] {
      var p := s[..|s| - 1];
      assert s == p + [s[|s| - 1]];
      assert SinRepetidos(p);
      UnaVez(p, x);
      if s[|s| - 1] == x {
        assert x !in p;
      }
    }
  }

  class BaseDatos {
    var menus: map<int, MenuDia>
    var pedidos: map<int, Pedido>
    var items: seq<PedidoItem>
    var exclusiones: seq<ItemExclusion>
    var usuarios: map<int, Usuario>
    var zonas: set<int>
    var siguientePedido: int
    var siguienteItem: int

    function Estado(): Tablas
      reads this
    {
      Tablas(menus, pedidos, items, exclusiones, usuarios, zonas, siguientePedido, siguienteItem)
    }

    ghost predicate Valid()
      reads this
    {
      TablasValidas(Estado())
    }

    /** An empty database; both autoincrement counters start at 1. */
    constructor ()
      ensures Estado() == Tablas(map[], map[], [], [], map[], {}, 1, 1)
      ensures Valid()
    {
      menus := map[];
      pedidos := map[];
      items := [];
      exclusiones := [];
      usuarios := map[];
      zonas := {};
      siguientePedido := 1;
      siguienteItem := 1;
    }

    /** The restock loop: `menu.cantidad_disponible += item.cantidad` for each line whose menu still exists. */
    method ReponerItems(its: seq<PedidoItem>)
      requires Valid()
      modifies this
      ensures Estado() == old(Estado()).(menus := Reponer(old(menus), its))
      ensures Valid()
    {
      var i := 0;
      while i < |its|
        invariant 0 <= i <= |its|
        invariant Estado() == old(Estado()).(menus := Reponer(old(menus), its[..i]))
      {
        var item := its[i];
        assert its[..i + 1][..i] == its[..i];
        if item.menuDiaId in menus {
          var menu := menus[item.menuDiaId];
          menus := menus[item.menuDiaId := menu.(cantidadDisponible := menu.cantidadDisponible + item.cantidad)];
        }
        i := i + 1;
      }
      assert its[..i] == its;
    }
  }
}
