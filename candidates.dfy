/** Candidate construction and ordering: every exchange's entries on the side's
    book are flattened into one sequence of candidates, in exchange order and
    book order, and then stably sorted by price in the side's direction. */
module CandidateList {
  import opened Model
  import opened SidePolicy

  /** A planning-time view of one order book entry: the position of its exchange
      (which selects that exchange's balance cell), the exchange's id, and the
      order's id, amount and price. */
  datatype Candidate = Candidate(exchange: nat, exchangeId: string, orderId: OrderId, amount: real, price: real)

  function EntryCandidate(ex: Exchange, i: nat, e: OrderBookEntry): Candidate {
    Candidate(i, ex.id, e.order.id, e.order.amount, e.order.price)
  }

  /** The candidates of the exchange at position `i`, in book order. */
  function ExchangeCandidates(side: Side, ex: Exchange, i: nat): seq<Candidate> {
    var entries := OrderBookEntries(side, ex.book);
    seq(|entries|, j requires 0 <= j < |entries| => EntryCandidate(ex, i, entries[j]))
  }

  /** All candidates, exchange after exchange. */
  function Candidates(side: Side, exs: seq<Exchange>): seq<Candidate>
    decreases |exs|
  {
    if exs == [] then []
    else Candidates(side, exs[..|exs| - 1]) + ExchangeCandidates(side, exs[|exs| - 1], |exs| - 1)
  }

  /** `c` is the view of some entry on the side's book of the exchange at `c.exchange`. */
  ghost predicate FromBook(side: Side, exs: seq<Exchange>, c: Candidate) {
    && c.exchange < |exs|
    && exists j :: 0 <= j < |OrderBookEntries(side, exs[c.exchange].book)|
                   && c == EntryCandidate(exs[c.exchange], c.exchange, OrderBookEntries(side, exs[c.exchange].book)[j])
  }

  /** The candidates are exactly the entries of the side's books: none is
      invented and none is dropped. */
  lemma {:induction false} CandidatesAreBookEntries(side: Side, exs: seq<Exchange>)
    ensures forall c :: c in Candidates(side, exs) <==> FromBook(side, exs, c)
  {
    if exs != [] {
      var n := |exs| - 1;
      var init := exs[..n];
      var last := ExchangeCandidates(side, exs[n], n);
      CandidatesAreBookEntries(side, init);
      assert Candidates(side, exs) == Candidates(side, init) + last;
      forall c
        ensures c in Candidates(side, exs) <==> FromBook(side, exs, c)
      {
        if c.exchange < n {
          assert init[c.exchange] == exs[c.exchange];
          assert FromBook(side, init, c) <==> FromBook(side, exs, c);
          assert c !in last;
        } else if c.exchange == n {
          assert !FromBook(side, init, c);
          if FromBook(side, exs, c) {
            var j :| 0 <= j < |OrderBookEntries(side, exs[n].book)|
                     && c == EntryCandidate(exs[n], n, OrderBookEntries(side, exs[n].book)[j]);
            assert last[j] == c;
          }
        } else {
          assert !FromBook(side, init, c);
          assert c !in last;
        }
      }
    }
  }

  /** Two exchange lists that agree on ids and on the side's book give the same candidates. */
  lemma {:induction false} CandidatesReadOnlySideBook(side: Side, exs: seq<Exchange>, exs': seq<Exchange>)
    requires |exs| == |exs'|
    requires forall i :: 0 <= i < |exs| ==> exs[i].id == exs'[i].id
    requires forall i :: 0 <= i < |exs| ==> OrderBookEntries(side, exs[i].book) == OrderBookEntries(side, exs'[i].book)
    ensures Candidates(side, exs) == Candidates(side, exs')
  {
    if exs != [] {
      var n := |exs| - 1;
      CandidatesReadOnlySideBook(side, exs[..n], exs'[..n]);
    }
  }

  /** Candidates sorted in the side's direction. */
  ghost predicate SortedBy(side: Side, cs: seq<Candidate>) {
    forall i, j :: 0 <= i < j < |cs| ==> InOrder(side, cs[i].price, cs[j].price)
  }

  /** The candidates of price `x`, in their original relative order. */
  function WithPrice(cs: seq<Candidate>, x: real): seq<Candidate> {
    if cs == [] then [] else (if cs[0].price == x then [cs[0]] else []) + WithPrice(cs[1..], x)
  }

  /** Inserts `c` before the first element it may precede, so behind every element it ties with. */
  function Insert(side: Side, c: Candidate, sorted: seq<Candidate>): seq<Candidate> {
    if sorted == [] then [c]
    else if InOrder(side, c.price, sorted[0].price) then [c] + sorted
    else [sorted[0]] + Insert(side, c, sorted[1..])
  }

  /** The stable sort by price in the side's direction (LINQ `OrderBy` / `OrderByDescending`). */
  function SortCandidates(side: Side, cs: seq<Candidate>): seq<Candidate> {
    if cs == [] then [] else Insert(side, cs[0], SortCandidates(side, cs[1..]))
  }

  lemma {:induction false} WithPriceMember(cs: seq<Candidate>, x: real, c: Candidate)
    ensures c in WithPrice(cs, x) <==> c in cs && c.price == x
  {
    if cs != [] {
      WithPriceMember(cs[1..], x, c);
      assert cs == [cs[0]] + cs[1..];
    }
  }

  lemma GroupOfHead(s: seq<Candidate>)
    requires s != []
    ensures WithPrice(s, s[0].price) != []
  {
  }

  /** The head of a sorted sequence may precede every element of it. */
  lemma SortedHead(side: Side, s: seq<Candidate>, y: Candidate)
    requires SortedBy(side, s) && y in s
    ensures InOrder(side, s[0].price, y.price)
  {
    var m :| 0 <= m < |s| && s[m] == y;
    if m == 0 {
      InOrderTotalPreorder(side, y.price, y.price, y.price);
    }
  }

  lemma SortedCons(side: Side, y: Candidate, t: seq<Candidate>)
    requires SortedBy(side, t)
    requires forall z :: z in t ==> InOrder(side, y.price, z.price)
    ensures SortedBy(side, [y] + t)
  {
    var r := [y] + t;
    forall i, j | 0 <= i < j < |r| ensures InOrder(side, r[i].price, r[j].price) {
      if i == 0 {
        assert r[j] == t[j - 1];
      } else {
        assert r[i] == t[i - 1] && r[j] == t[j - 1];
      }
    }
  }

  lemma {:induction false} InsertPermutes(side: Side, c: Candidate, s: seq<Candidate>)
    ensures multiset(Insert(side, c, s)) == multiset(s) + multiset{c}
  {
    if s != [] && !InOrder(side, c.price, s[0].price) {
      InsertPermutes(side, c, s[1..]);
      assert s == [s[0]] + s[1..];
    }
  }

  lemma {:induction false} InsertSorted(side: Side, c: Candidate, s: seq<Candidate>)
    requires SortedBy(side, s)
    ensures SortedBy(side, Insert(side, c, s))
  {
    if s == [] {
    } else if InOrder(side, c.price, s[0].price) {
      forall z | z in s ensures InOrder(side, c.price, z.price) {
        SortedHead(side, s, z);
        InOrderTotalPreorder(side, c.price, s[0].price, z.price);
      }
      SortedCons(side, c, s);
    } else {
      var t := Insert(side, c, s[1..]);
      InsertSorted(side, c, s[1..]);
      InsertPermutes(side, c, s[1..]);
      InOrderTotalPreorder(side, c.price, s[0].price, c.price);
      forall z | z in t ensures InOrder(side, s[0].price, z.price) {
        assert z in multiset(t);
        if z != c {
          assert z in multiset(s[1..]);
          assert z in s[1..];
          SortedHead(side, s, z);
        }
      }
      SortedCons(side, s[0], t);
    }
  }

  lemma {:induction false} InsertKeepsGroups(side: Side, c: Candidate, s: seq<Candidate>, x: real)
    ensures WithPrice(Insert(side, c, s), x) == (if c.price == x then [c] else []) + WithPrice(s, x)
  {
    if s == [] {
      assert WithPrice([c], x) == (if c.price == x then [c] else []) + WithPrice([], x);
    } else if InOrder(side, c.price, s[0].price) {
      assert ([c] + s)[1..] == s;
    } else {
      var t := Insert(side, c, s[1..]);
      InsertKeepsGroups(side, c, s[1..], x);
      InOrderTotalPreorder(side, c.price, s[0].price, c.price);
      assert ([s[0]] + t)[1..] == t;
      assert WithPrice([s[0]] + t, x) == (if s[0].price == x then [s[0]] else []) + WithPrice(t, x);
    }
  }

  /** The sort's output is sorted in the side's direction, is a permutation of its
      input, and keeps every group of equal prices in input order (it is stable). */
  lemma {:induction false} SortIsStableSort(side: Side, cs: seq<Candidate>)
    ensures SortedBy(side, SortCandidates(side, cs))
    ensures multiset(SortCandidates(side, cs)) == multiset(cs)
    ensures forall x :: WithPrice(SortCandidates(side, cs), x) == WithPrice(cs, x)
  {
    if cs != [] {
      var rest := SortCandidates(side, cs[1..]);
      SortIsStableSort(side, cs[1..]);
      InsertSorted(side, cs[0], rest);
      InsertPermutes(side, cs[0], rest);
      forall x ensures WithPrice(SortCandidates(side, cs), x) == WithPrice(cs, x) {
        InsertKeepsGroups(side, cs[0], rest, x);
      }
      assert cs == [cs[0]] + cs[1..];
    }
  }

  /** A sorted sequence is determined by its groups of equal prices, so any
      stable sort (in particular LINQ's) yields exactly `SortCandidates`. */
  lemma {:induction false} StableSortIsUnique(side: Side, a: seq<Candidate>, b: seq<Candidate>)
    requires SortedBy(side, a) && SortedBy(side, b)
    requires forall x :: WithPrice(a, x) == WithPrice(b, x)
    ensures a == b
  {
    if a == [] && b == [] {
    } else if a == [] {
      GroupOfHead(b);
      assert false;
    } else if b == [] {
      GroupOfHead(a);
      assert false;
    } else {
      var k, k' := a[0].price, b[0].price;
      assert WithPrice(a, k) == [a[0]] + WithPrice(a[1..], k);
      assert WithPrice(b, k') == [b[0]] + WithPrice(b[1..], k');
      WithPriceMember(b, k, a[0]);
      WithPriceMember(a, k', b[0]);
      SortedHead(side, b, a[0]);
      SortedHead(side, a, b[0]);
      InOrderTotalPreorder(side, k, k', k);
      assert k == k';
      assert WithPrice(a, k) == WithPrice(b, k);
      assert a[0] == WithPrice(a, k)[0] == WithPrice(b, k)[0] == b[0];
      forall x ensures WithPrice(a[1..], x) == WithPrice(b[1..], x) {
        var pa, pb := WithPrice(a, x), WithPrice(b, x);
        assert pa == pb;
        if k == x {
          assert pa == [a[0]] + WithPrice(a[1..], x);
          assert pb == [b[0]] + WithPrice(b[1..], x);
          assert WithPrice(a[1..], x) == pa[1..];
          assert WithPrice(b[1..], x) == pb[1..];
        } else {
          assert pa == [] + WithPrice(a[1..], x) == WithPrice(a[1..], x);
          assert pb == [] + WithPrice(b[1..], x) == WithPrice(b[1..], x);
        }
      }
      assert SortedBy(side, a[1..]) && SortedBy(side, b[1..]);
      StableSortIsUnique(side, a[1..], b[1..]);
      assert a == [a[0]] + a[1..] && b == [b[0]] + b[1..];
    }
  }
}
