/** Stock reserved by orders. A product's stock plus the quantities of the
    orders that reference it is the quantity the store accounts for; order
    operations move units between the two without changing the sum. */
module Ledger {
  import opened Models

  /** The units order `k` holds against product `pid` (0 when there is no
      such order or it references another product). */
  function Share(orders: map<int, Order>, k: int, pid: int): int {
    if k in orders && orders[k].productId == pid then orders[k].quantity else 0
  }

  /** The units held against product `pid` by the orders with ids below `n`. */
  function Reserved(orders: map<int, Order>, pid: int, n: int): int
    decreases n
  {
    if n <= 0 then 0 else Reserved(orders, pid, n - 1) + Share(orders, n - 1, pid)
  }

  /** Whether some order references product `pid`. */
  predicate Referenced(orders: map<int, Order>, pid: int) {
    exists k :: k in orders && orders[k].productId == pid
  }

  /** `o1` and `o2` hold the same orders except possibly under id `k`. */
  ghost predicate AgreeExcept(o1: map<int, Order>, o2: map<int, Order>, k: int) {
    forall j :: j != k ==> (j in o1 <==> j in o2) && (j in o1 && j in o2 ==> o1[j] == o2[j])
  }

  /** Changing, adding or removing the single order `k` changes the units
      reserved below `n` by exactly the change in that order's share. */
  lemma {:induction false} ReservedFrame(o1: map<int, Order>, o2: map<int, Order>, pid: int, k: int, n: int)
    requires AgreeExcept(o1, o2, k)
    ensures Reserved(o2, pid, n)
         == Reserved(o1, pid, n) + (if 0 <= k < n then Share(o2, k, pid) - Share(o1, k, pid) else 0)
    decreases n
  {
    if n > 0 {
      ReservedFrame(o1, o2, pid, k, n - 1);
      assert n - 1 != k ==> Share(o1, n - 1, pid) == Share(o2, n - 1, pid);
    }
  }

  /** A product no order references has nothing reserved. */
  lemma {:induction false} ReservedNone(orders: map<int, Order>, pid: int, n: int)
    requires !Referenced(orders, pid)
    ensures Reserved(orders, pid, n) == 0
    decreases n
  {
    if n > 0 {
      ReservedNone(orders, pid, n - 1);
      assert Share(orders, n - 1, pid) == 0;
    }
  }

  /** The units the store accounts for under product `pid`: its stock plus
      what the orders with ids below `n` reserve of it (0 when there is no
      such product). */
  function Units(products: map<int, Product>, orders: map<int, Order>, n: int, pid: int): int {
    if pid in products then products[pid].stock + Reserved(orders, pid, n) else 0
  }

  /** Moving units between product `pid` and its order `k` (placing it
      under a fresh id `k` = `n1` with the bound raised to `n`, resizing it,
      removing it or restating it) leaves every product's units as they were. */
  lemma UnitsAfterExchange(products: map<int, Product>, o1: map<int, Order>, o2: map<int, Order>,
                           k: int, n1: int, n: int, pid: int, stock: int)
    requires pid in products && AgreeExcept(o1, o2, k) && 0 <= k < n
    requires n1 == n || (n1 == n - 1 && k == n1 && k !in o1)
    requires k in o1 ==> o1[k].productId == pid
    requires k in o2 ==> o2[k].productId == pid
    requires stock + Share(o2, k, pid) == products[pid].stock + Share(o1, k, pid)
    ensures forall q :: Units(products[pid := products[pid].(stock := stock)], o2, n, q) == Units(products, o1, n1, q)
  {
    var p2 := products[pid := products[pid].(stock := stock)];
    forall q
      ensures Units(p2, o2, n, q) == Units(products, o1, n1, q)
    {
      ReservedFrame(o1, o2, q, k, n);
      if n1 != n {
        assert Share(o1, n1, q) == 0;
      }
    }
  }

  /** A new product that no order references enters with its stock alone;
      no other product's units move. */
  lemma UnitsAddProduct(products: map<int, Product>, orders: map<int, Order>, n: int, id: int, p: Product)
    requires !Referenced(orders, id)
    ensures Units(products[id := p], orders, n, id) == p.stock
    ensures forall q :: q != id ==> Units(products[id := p], orders, n, q) == Units(products, orders, n, q)
  {
    ReservedNone(orders, id, n);
  }
}
