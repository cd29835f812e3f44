/**
 * The Shopify Warehouse settings document: a priority-ordered list of ERP
 * warehouses, the greedy allocation `get_wh` that splits a requested quantity
 * over them, and the `validate` hook that rejects group warehouses.
 *
 * The stock query (`Bin` rows for the item in the listed warehouses) is an
 * input map from warehouse to actual quantity; a warehouse without a row has
 * stock 0. Quantities are integers.
 */
module ShopifyWarehouse {
  import opened Wrappers

  /** One entry of the warehouse-to-quantity dictionary `row_wh_map`. */
  datatype Share = Share(warehouse: string, qty: int)

  /** The result of the greedy walk: the quantities taken, in order, and what is still needed. */
  datatype Walk = Walk(shares: seq<Share>, left: int)

  /** Outcome of `validate`: accepted, or rejected at the first group row. */
  datatype Validation = Accepted | Rejected(row: nat)

  // ---------------------------------------------------------------------------
  // Helpers on stock snapshots and on the dictionary, kept in insertion order.
  // ---------------------------------------------------------------------------

  /** `wh_qty_map.get(wh, 0)`. */
  function StockOf(stock: map<string, int>, wh: string): int
  {
    if wh in stock then stock[wh] else 0
  }

  function Min(a: int, b: int): int
  {
    if a <= b then a else b
  }

  /** Sum of the quantities of a dictionary (or of a list of shares). */
  function Sum(d: seq<Share>): int
  {
    if d == [] then 0 else d[0].qty + Sum(d[1..])
  }

  /** `Sum` peeled from the back. */
  lemma {:induction false} SumSnoc(d: seq<Share>)
    requires d != []
    ensures Sum(d) == Sum(d[..|d| - 1]) + d[|d| - 1].qty
  {
    var n := |d| - 1;
    if n == 0 {
      assert d[1..] == [] && d[..n] == [];
    } else {
      SumSnoc(d[1..]);
      assert d[1..][..n - 1] == d[..n][1..];
      assert d[..n][0] == d[0];
    }
  }

  /** The warehouses of a dictionary, in insertion order. */
  function Names(d: seq<Share>): (r: seq<string>)
    ensures |r| == |d|
  {
    if d == [] then [] else [d[0].warehouse] + Names(d[1..])
  }

  predicate HasKey(d: seq<Share>, w: string)
  {
    exists k :: 0 <= k < |d| && d[k].warehouse == w
  }

  predicate NoDup(s: seq<string>)
  {
    forall i, j :: 0 <= i < j < |s| ==> s[i] != s[j]
  }

  predicate UniqueKeys(d: seq<Share>)
  {
    forall i, j :: 0 <= i < j < |d| ==> d[i].warehouse != d[j].warehouse
  }

  /** Python's `d[w] = x` on an insertion-ordered dict: overwrite in place, or append. */
  function Put(d: seq<Share>, w: string, x: int): seq<Share>
  {
    if d == [] then [Share(w, x)]
    else if d[0].warehouse == w then [Share(w, x)] + d[1..]
    else [d[0]] + Put(d[1..], w, x)
  }

  /**
   * Assignment keeps the size when the key is present and appends otherwise;
   * it introduces no entry other than the new one.
   */
  lemma {:induction false} PutShape(d: seq<Share>, w: string, x: int)
    ensures HasKey(d, w) ==> |Put(d, w, x)| == |d|
    ensures !HasKey(d, w) ==> Put(d, w, x) == d + [Share(w, x)]
    ensures forall s :: s in Put(d, w, x) ==> s in d || s == Share(w, x)
  {
    if d != [] && d[0].warehouse != w {
      PutShape(d[1..], w, x);
      assert HasKey(d, w) <==> HasKey(d[1..], w) by {
        if HasKey(d, w) {
          var k :| 0 <= k < |d| && d[k].warehouse == w;
          assert d[1..][k - 1].warehouse == w;
        }
        if HasKey(d[1..], w) {
          var k :| 0 <= k < |d| - 1 && d[1..][k].warehouse == w;
          assert d[k + 1].warehouse == w;
        }
      }
      if !HasKey(d, w) {
        assert [d[0]] + (d[1..] + [Share(w, x)]) == d + [Share(w, x)];
      }
    } else if d != [] {
      assert HasKey(d, w) by { assert d[0].warehouse == w; }
    }
  }

  /**
   * Assigning to a present key overwrites its entry in place: the key now
   * holds `x`, and every other entry keeps its value and position.
   */
  lemma {:induction false} PutReplaces(d: seq<Share>, w: string, x: int, k: nat)
    requires k < |d| && d[k].warehouse == w
    requires forall i :: 0 <= i < k ==> d[i].warehouse != w
    ensures Put(d, w, x) == d[k := Share(w, x)]
  {
    if k > 0 {
      PutReplaces(d[1..], w, x, k - 1);
      assert [d[0]] + d[1..][k - 1 := Share(w, x)] == d[k := Share(w, x)];
    }
  }

  /** The dictionary `d` after assigning each share of `shares` in turn. */
  function Fill(d: seq<Share>, shares: seq<Share>): seq<Share>
    decreases |shares|
  {
    if shares == [] then d else Fill(Put(d, shares[0].warehouse, shares[0].qty), shares[1..])
  }

  /** The dictionary built from empty by assigning each share in turn. */
  function ToDict(shares: seq<Share>): seq<Share>
  {
    Fill([], shares)
  }

  /** Sum of the positive stock over the positions of a priority list. */
  function Total(ws: seq<string>, stock: map<string, int>): (t: int)
    ensures t >= 0
  {
    if ws == [] then 0
    else (if StockOf(stock, ws[0]) > 0 then StockOf(stock, ws[0]) else 0) + Total(ws[1..], stock)
  }

  /** The warehouses of a list that have positive stock, in list order. */
  function InStock(ws: seq<string>, stock: map<string, int>): seq<string>
  {
    if ws == [] then []
    else (if StockOf(stock, ws[0]) > 0 then [ws[0]] else []) + InStock(ws[1..], stock)
  }

  // ---------------------------------------------------------------------------
  // Reference definition of `get_wh`.
  // ---------------------------------------------------------------------------

  /**
   * The greedy walk of `get_wh` over the remaining warehouses `ws` while `rem`
   * is still needed: the quantities it takes, in order, and what remains.
   */
  function Greedy(ws: seq<string>, stock: map<string, int>, rem: int): Walk
  {
    if ws == [] then Walk([], rem)
    else if StockOf(stock, ws[0]) <= 0 then Greedy(ws[1..], stock, rem)
    else
      var take := Min(stock[ws[0]], rem);
      if rem - take <= 0 then Walk([Share(ws[0], take)], rem - take)
      else
        var g := Greedy(ws[1..], stock, rem - take);
        Walk([Share(ws[0], take)] + g.shares, g.left)
  }

  /**
   * Loop state of `get_wh`: filling the dictionary `d` further with the walk
   * over the remaining warehouses `ws`, with `rem` still needed, yields the
   * dictionary `want` and leaves `left`.
   */
  predicate Resumes(want: seq<Share>, left: int, d: seq<Share>, ws: seq<string>, stock: map<string, int>, rem: int)
  {
    var g := Greedy(ws, stock, rem);
    Fill(d, g.shares) == want && g.left == left
  }

  /** One iteration of the loop at row `i`: skip an empty warehouse, take and stop, or take and go on. */
  lemma ResumeStep(want: seq<Share>, left: int, d: seq<Share>, ws: seq<string>, i: nat, stock: map<string, int>, rem: int)
    requires i < |ws| && Resumes(want, left, d, ws[i..], stock, rem)
    ensures StockOf(stock, ws[i]) <= 0 ==> Resumes(want, left, d, ws[i + 1..], stock, rem)
    ensures StockOf(stock, ws[i]) > 0 ==>
              var take := Min(stock[ws[i]], rem);
              if rem - take <= 0 then want == Put(d, ws[i], take) && left == rem - take
              else Resumes(want, left, Put(d, ws[i], take), ws[i + 1..], stock, rem - take)
  {
    assert ws[i..][0] == ws[i] && ws[i..][1..] == ws[i + 1..];
    if StockOf(stock, ws[i]) > 0 {
      var take := Min(stock[ws[i]], rem);
      var s := Share(ws[i], take);
      if rem - take <= 0 {
        assert Greedy(ws[i..], stock, rem).shares == [s];
        assert Fill(d, [s]) == Fill(Put(d, ws[i], take), [s][1..]);
        assert [s][1..] == [];
      } else {
        var g := Greedy(ws[i + 1..], stock, rem - take);
        assert Greedy(ws[i..], stock, rem).shares == [s] + g.shares;
        assert ([s] + g.shares)[1..] == g.shares;
      }
    }
  }

  /** `get_wh`: `None` for an empty list or when the walk leaves a non-zero remainder. */
  function Allocate(priority: seq<string>, stock: map<string, int>, qty: int): Option<seq<Share>>
  {
    if priority == [] then None
    else
      var g := Greedy(priority, stock, qty);
      if g.left != 0 then None else Some(ToDict(g.shares))
  }

  /** `ShopifyWarehouse.get_wh`, with the `Bin` query replaced by the `stock` snapshot. */
  method GetWh(priority: seq<string>, stock: map<string, int>, qty: int) returns (r: Option<seq<Share>>)
    ensures r == Allocate(priority, stock, qty)
  {
    if |priority| == 0 {
      return None;
    }
    var rowWhMap, remQty := WalkPriority(priority, stock, qty);
    if remQty != 0 {
      return None;
    }
    return Some(rowWhMap);
  }

  /**
   * The loop of `get_wh` over the priority rows: the dictionary it fills and
   * the quantity still needed when it stops, as the greedy walk describes them.
   */
  method WalkPriority(priority: seq<string>, stock: map<string, int>, qty: int)
    returns (rowWhMap: seq<Share>, remQty: int)
    ensures rowWhMap == ToDict(Greedy(priority, stock, qty).shares)
    ensures remQty == Greedy(priority, stock, qty).left
  {
    remQty := qty;
    rowWhMap := [];
    ghost var want := ToDict(Greedy(priority, stock, qty).shares);
    ghost var left := Greedy(priority, stock, qty).left;
    var i := 0;
    while i < |priority|
      invariant 0 <= i <= |priority|
      invariant Resumes(want, left, rowWhMap, priority[i..], stock, remQty)
    {
      var wh := priority[i];
      ResumeStep(want, left, rowWhMap, priority, i, stock, remQty);
      if StockOf(stock, wh) > 0 {
        var take := Min(stock[wh], remQty);
        rowWhMap := Put(rowWhMap, wh, take);
        remQty := remQty - take;
        if remQty <= 0 {
          return;
        }
      }
      i := i + 1;
    }
    assert priority[i..] == [];
  }

  // ---------------------------------------------------------------------------
  // `validate`: no priority row may be a group warehouse.
  // ---------------------------------------------------------------------------

  /** Every priority row names a warehouse that is not a group. */
  predicate NoGroupRow(priority: seq<string>, groups: set<string>)
  {
    forall k :: 0 <= k < |priority| ==> priority[k] !in groups
  }

  /**
   * `ShopifyWarehouse.validate`: `groups` holds the warehouses whose
   * `is_group` flag is set; the first group row raises.
   */
  method Validate(priority: seq<string>, groups: set<string>) returns (r: Validation)
    ensures r.Accepted? <==> NoGroupRow(priority, groups)
    ensures r.Rejected? ==> r.row < |priority| && priority[r.row] in groups
    ensures r.Rejected? ==> forall k :: 0 <= k < r.row ==> priority[k] !in groups
  {
    var i := 0;
    while i < |priority|
      invariant 0 <= i <= |priority|
      invariant forall k :: 0 <= k < i ==> priority[k] !in groups
    {
      if priority[i] in groups {
        return Rejected(i);
      }
      i := i + 1;
    }
    return Accepted;
  }

  // ---------------------------------------------------------------------------
  // Properties of the greedy walk.
  // ---------------------------------------------------------------------------

  /** What the walk hands out plus what it leaves equals what was asked. */
  lemma {:induction false} GreedyConserves(ws: seq<string>, stock: map<string, int>, rem: int)
    ensures Sum(Greedy(ws, stock, rem).shares) + Greedy(ws, stock, rem).left == rem
  {
    if ws != [] {
      GreedyConserves(ws[1..], stock, rem);
      if StockOf(stock, ws[0]) > 0 {
        var take := Min(stock[ws[0]], rem);
        GreedyConserves(ws[1..], stock, rem - take);
      }
    }
  }

  /** Only listed warehouses with positive stock receive a share, never more than their stock. */
  lemma {:induction false} GreedyFromStock(ws: seq<string>, stock: map<string, int>, rem: int)
    ensures forall s :: s in Greedy(ws, stock, rem).shares ==>
              s.warehouse in ws && s.warehouse in stock && stock[s.warehouse] > 0 && s.qty <= stock[s.warehouse]
  {
    if ws != [] {
      GreedyFromStock(ws[1..], stock, rem);
      if StockOf(stock, ws[0]) > 0 {
        var take := Min(stock[ws[0]], rem);
        GreedyFromStock(ws[1..], stock, rem - take);
      }
    }
  }

  /** With distinct warehouses in the list, the walk names each warehouse at most once. */
  lemma {:induction false} GreedyUnique(ws: seq<string>, stock: map<string, int>, rem: int)
    requires NoDup(ws)
    ensures UniqueKeys(Greedy(ws, stock, rem).shares)
  {
    if ws != [] {
      assert NoDup(ws[1..]) by {
        forall i, j | 0 <= i < j < |ws| - 1 ensures ws[1..][i] != ws[1..][j] {
          assert ws[1..][i] == ws[i + 1] && ws[1..][j] == ws[j + 1];
        }
      }
      GreedyUnique(ws[1..], stock, rem);
      if StockOf(stock, ws[0]) > 0 {
        var take := Min(stock[ws[0]], rem);
        if rem - take > 0 {
          var g := Greedy(ws[1..], stock, rem - take);
          GreedyUnique(ws[1..], stock, rem - take);
          GreedyFromStock(ws[1..], stock, rem - take);
          var shares := [Share(ws[0], take)] + g.shares;
          forall i, j | 0 <= i < j < |shares| ensures shares[i].warehouse != shares[j].warehouse {
            if i == 0 {
              assert shares[j] == g.shares[j - 1];
              assert g.shares[j - 1] in g.shares;
              assert ws[0] !in ws[1..] by {
                forall k | 0 <= k < |ws| - 1 ensures ws[1..][k] != ws[0] {
                  assert ws[1..][k] == ws[k + 1];
                }
              }
            } else {
              assert shares[i] == g.shares[i - 1] && shares[j] == g.shares[j - 1];
            }
          }
        }
      }
    }
  }

  /**
   * The remainder after the walk. For a positive request: zero when the
   * list's positive stock covers it, otherwise the uncovered part. For a
   * request of zero or less: zero as soon as one warehouse has stock.
   */
  lemma {:induction false} GreedyLeft(ws: seq<string>, stock: map<string, int>, rem: int)
    ensures Greedy(ws, stock, rem).left
         == if rem > 0 then (if Total(ws, stock) >= rem then 0 else rem - Total(ws, stock))
            else (if Total(ws, stock) > 0 then 0 else rem)
  {
    if ws != [] {
      GreedyLeft(ws[1..], stock, rem);
      if StockOf(stock, ws[0]) > 0 {
        var take := Min(stock[ws[0]], rem);
        GreedyLeft(ws[1..], stock, rem - take);
      }
    }
  }

  /** Each share is `min(stock, remaining)`, remaining being `rem` less the shares before it. */
  predicate TakesMin(g: seq<Share>, stock: map<string, int>, rem: int)
  {
    forall k :: 0 <= k < |g| ==> g[k].qty == Min(StockOf(stock, g[k].warehouse), rem - Sum(g[..k]))
  }

  /** Every share but the last takes its warehouse's whole stock. */
  predicate Drained(g: seq<Share>, stock: map<string, int>)
  {
    forall k :: 0 <= k < |g| - 1 ==> g[k].qty == StockOf(stock, g[k].warehouse)
  }

  /**
   * Each share is `min(stock, remaining)`, where remaining is the request
   * less everything handed out before it.
   */
  lemma {:induction false} GreedyTakesMin(ws: seq<string>, stock: map<string, int>, rem: int)
    ensures TakesMin(Greedy(ws, stock, rem).shares, stock, rem)
  {
    if ws != [] {
      if StockOf(stock, ws[0]) <= 0 {
        GreedyTakesMin(ws[1..], stock, rem);
      } else {
        var take := Min(stock[ws[0]], rem);
        var g := Greedy(ws, stock, rem).shares;
        if rem - take > 0 {
          var t := Greedy(ws[1..], stock, rem - take).shares;
          GreedyTakesMin(ws[1..], stock, rem - take);
          assert g == [Share(ws[0], take)] + t;
          forall k | 0 <= k < |g| ensures g[k].qty == Min(StockOf(stock, g[k].warehouse), rem - Sum(g[..k])) {
            if k == 0 {
              assert g[..0] == [];
            } else {
              assert g[..k][1..] == t[..k - 1];
              assert Sum(g[..k]) == take + Sum(t[..k - 1]);
              assert g[k] == t[k - 1];
            }
          }
        } else {
          assert g == [Share(ws[0], take)];
          assert g[..0] == [];
        }
      }
    }
  }

  /**
   * Priority order: the walk serves exactly the in-stock warehouses of a
   * prefix of the list, in list order.
   */
  lemma {:induction false} GreedyInOrder(ws: seq<string>, stock: map<string, int>, rem: int)
    ensures exists p :: 0 <= p <= |ws| && Names(Greedy(ws, stock, rem).shares) == InStock(ws[..p], stock)
  {
    var p := GreedyPrefix(ws, stock, rem);
  }

  /** The walk's warehouses are the in-stock ones among the first `p` rows. */
  lemma {:induction false} GreedyPrefix(ws: seq<string>, stock: map<string, int>, rem: int) returns (p: nat)
    ensures p <= |ws| && Names(Greedy(ws, stock, rem).shares) == InStock(ws[..p], stock)
  {
    if ws == [] {
      assert ws[..0] == [];
      return 0;
    }
    var take := Min(StockOf(stock, ws[0]), rem);
    if StockOf(stock, ws[0]) <= 0 {
      var q := GreedyPrefix(ws[1..], stock, rem);
      InStockCons(ws, q, stock);
      return q + 1;
    } else if rem - take <= 0 {
      InStockCons(ws, 0, stock);
      assert ws[1..][..0] == [];
      return 1;
    } else {
      var q := GreedyPrefix(ws[1..], stock, rem - take);
      InStockCons(ws, q, stock);
      return q + 1;
    }
  }

  lemma InStockCons(ws: seq<string>, q: nat, stock: map<string, int>)
    requires q < |ws|
    ensures InStock(ws[..q + 1], stock)
         == (if StockOf(stock, ws[0]) > 0 then [ws[0]] else []) + InStock(ws[1..][..q], stock)
  {
    assert ws[..q + 1][0] == ws[0] && ws[..q + 1][1..] == ws[1..][..q];
  }

  /** Every share but the last drains its warehouse: the walk only moves on once a warehouse is empty. */
  lemma {:induction false} GreedyDrains(ws: seq<string>, stock: map<string, int>, rem: int)
    ensures Drained(Greedy(ws, stock, rem).shares, stock)
  {
    if ws != [] {
      if StockOf(stock, ws[0]) <= 0 {
        assert Greedy(ws, stock, rem) == Greedy(ws[1..], stock, rem);
        GreedyDrains(ws[1..], stock, rem);
      } else {
        var take := Min(stock[ws[0]], rem);
        if rem - take > 0 {
          var g := Greedy(ws, stock, rem).shares;
          var t := Greedy(ws[1..], stock, rem - take).shares;
          GreedyDrains(ws[1..], stock, rem - take);
          assert g == [Share(ws[0], take)] + t;
          forall k | 0 <= k < |g| - 1 ensures g[k].qty == StockOf(stock, g[k].warehouse) {
            if k == 0 {
              assert take == stock[ws[0]] == StockOf(stock, ws[0]);
            } else {
              assert g[k] == t[k - 1];
            }
          }
        }
      }
    }
  }

  // ---------------------------------------------------------------------------
  // From the walk to the dictionary.
  // ---------------------------------------------------------------------------

  /** Every entry of the dictionary is one of the assignments made. */
  lemma {:induction false} FillEntries(d: seq<Share>, shares: seq<Share>)
    ensures forall s :: s in Fill(d, shares) ==> s in d || s in shares
    decreases |shares|
  {
    if shares != [] {
      var first := shares[0];
      FillEntries(Put(d, first.warehouse, first.qty), shares[1..]);
      PutShape(d, first.warehouse, first.qty);
      forall s | s in shares[1..] ensures s in shares {
        var k :| 0 <= k < |shares| - 1 && shares[1..][k] == s;
        assert shares[k + 1] == s;
      }
    }
  }

  lemma ToDictEntries(shares: seq<Share>)
    ensures forall s :: s in ToDict(shares) ==> s in shares
  {
    FillEntries([], shares);
  }

  lemma {:induction false} FillUnique(d: seq<Share>, shares: seq<Share>)
    requires UniqueKeys(d + shares)
    ensures Fill(d, shares) == d + shares
    decreases |shares|
  {
    if shares != [] {
      var first := shares[0];
      assert !HasKey(d, first.warehouse) by {
        forall k | 0 <= k < |d| ensures d[k].warehouse != first.warehouse {
          assert (d + shares)[k] == d[k] && (d + shares)[|d|] == first;
        }
      }
      PutShape(d, first.warehouse, first.qty);
      assert (d + [first]) + shares[1..] == d + shares;
      FillUnique(d + [first], shares[1..]);
    }
  }

  /** Distinct keys: the dictionary is the list of assignments itself. */
  lemma ToDictUnique(shares: seq<Share>)
    requires UniqueKeys(shares)
    ensures ToDict(shares) == shares
  {
    assert [] + shares == shares;
    FillUnique([], shares);
  }

  // ---------------------------------------------------------------------------
  // Properties of `get_wh`.
  // ---------------------------------------------------------------------------

  /** An empty priority list yields no allocation. */
  lemma EmptyPriorityFails(stock: map<string, int>, qty: int)
    ensures Allocate([], stock, qty) == None
  {
  }

  /**
   * `get_wh` returns a dictionary exactly when the list is non-empty and its
   * positive stock covers a positive request; a request of zero always
   * succeeds and a negative one succeeds once any warehouse has stock.
   * Otherwise nothing is returned, not even part of the dictionary built.
   */
  lemma AllocateSucceedsIff(priority: seq<string>, stock: map<string, int>, qty: int)
    ensures Allocate(priority, stock, qty).Some?
        <==> priority != [] &&
             (if qty > 0 then Total(priority, stock) >= qty else qty == 0 || Total(priority, stock) > 0)
  {
    GreedyLeft(priority, stock, qty);
  }

  /** All-or-nothing: a positive request the list cannot cover gets nothing. */
  lemma AllOrNothing(priority: seq<string>, stock: map<string, int>, qty: int)
    requires qty > Total(priority, stock)
    ensures Allocate(priority, stock, qty) == None
  {
    GreedyLeft(priority, stock, qty);
  }

  /**
   * No stock, no entry: every warehouse in the result is in the list, has a
   * positive stock row, and receives no more than that stock.
   */
  lemma AllocateFromStock(priority: seq<string>, stock: map<string, int>, qty: int)
    ensures Allocate(priority, stock, qty).Some? ==>
              forall s :: s in Allocate(priority, stock, qty).value ==>
                s.warehouse in priority && s.warehouse in stock && stock[s.warehouse] > 0 &&
                s.qty <= stock[s.warehouse]
  {
    if priority != [] {
      GreedyFromStock(priority, stock, qty);
      ToDictEntries(Greedy(priority, stock, qty).shares);
    }
  }

  /**
   * With distinct warehouses, a returned dictionary has distinct keys, all
   * from the list, and its values sum exactly to the request.
   */
  lemma AllocateExactSum(priority: seq<string>, stock: map<string, int>, qty: int)
    requires NoDup(priority)
    ensures Allocate(priority, stock, qty).Some? ==>
              UniqueKeys(Allocate(priority, stock, qty).value) && Sum(Allocate(priority, stock, qty).value) == qty
  {
    if priority != [] {
      var g := Greedy(priority, stock, qty);
      GreedyUnique(priority, stock, qty);
      ToDictUnique(g.shares);
      GreedyConserves(priority, stock, qty);
    }
  }

  /**
   * With distinct warehouses, a returned dictionary follows the priority
   * list: its keys are the in-stock warehouses of a prefix of the list, in
   * order; each value is `min(stock, remaining)`; and every entry but the
   * last takes that warehouse's whole stock, so a later warehouse is used
   * only after every earlier in-stock one is drained.
   */
  lemma AllocatePriorityOrder(priority: seq<string>, stock: map<string, int>, qty: int, d: seq<Share>)
    requires NoDup(priority)
    requires Allocate(priority, stock, qty) == Some(d)
    ensures exists p :: 0 <= p <= |priority| && Names(d) == InStock(priority[..p], stock)
    ensures TakesMin(d, stock, qty)
    ensures Drained(d, stock)
  {
    var g := Greedy(priority, stock, qty).shares;
    GreedyUnique(priority, stock, qty);
    ToDictUnique(g);
    assert d == g;
    GreedyInOrder(priority, stock, qty);
    GreedyDrains(priority, stock, qty);
    GreedyTakesMin(priority, stock, qty);
  }

  // ---------------------------------------------------------------------------
  // Worked cases.
  // ---------------------------------------------------------------------------

  /** Stock A:5, B:3, request 6: A gives 5 and B gives 1. */
  lemma SplitAcrossTwo()
    ensures Allocate(["A", "B"], map["A" := 5, "B" := 3], 6) == Some([Share("A", 5), Share("B", 1)])
  {
    var shares := [Share("A", 5), Share("B", 1)];
    assert ["A", "B"][1..] == ["B"];
    assert Greedy(["A", "B"], map["A" := 5, "B" := 3], 6) == Walk(shares, 0);
    ToDictUnique(shares);
  }

  /** Stock A:2, request 6: nothing. */
  lemma InsufficientStock()
    ensures Allocate(["A"], map["A" := 2], 6) == None
  {
  }

  /** Stock A:0, B:4, request 4: A is skipped. */
  lemma EmptyWarehouseSkipped()
    ensures Allocate(["A", "B"], map["A" := 0, "B" := 4], 4) == Some([Share("B", 4)])
  {
  }

  /** A request of zero still records the first in-stock warehouse, with 0. */
  lemma ZeroRequestKeepsFirstEntry()
    ensures Allocate(["A", "B"], map["A" := 3, "B" := 4], 0) == Some([Share("A", 0)])
    ensures Allocate(["A"], map[], 0) == Some([])
  {
  }

  /**
   * A warehouse listed twice is drawn from twice but keeps only its second
   * share: stock A:3, rows A, A, request 5 returns {A: 2}, short of the request.
   */
  lemma DuplicateRowUndercounts()
    ensures Allocate(["A", "A"], map["A" := 3], 5) == Some([Share("A", 2)])
  {
    assert ["A", "A"][1..] == ["A"];
    assert Greedy(["A", "A"], map["A" := 3], 5) == Walk([Share("A", 3), Share("A", 2)], 0);
    var d := Put([], "A", 3);
    assert d == [Share("A", 3)];
    assert Put(d, "A", 2) == [Share("A", 2)];
    assert ToDict([Share("A", 3), Share("A", 2)]) == Fill(d, [Share("A", 2)]);
  }
}
