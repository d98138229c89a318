/**
 The reputation of a technician: a weighted rating that starts from a prior, where reviews lose weight with age
 and each client counts for one at most, and a score made of it and of the technician's record. Over real numbers.
 */
module Reputation {
  import opened Results

  /** A published review: its stars, the weight its checks left it, and how long ago it was written. */
  datatype Posted = Posted(client: nat, rating: int, weight: real, age: int)

  /** A review with the weight that is left today. */
  datatype Review = Review(client: nat, rating: int, weight: real)

  /** How much of a weight is left after so many seconds: all of it at first, and never more later. */
  ghost predicate Decaying(decay: nat -> real) {
    && decay(0) == 1.0
    && (forall d :: 0.0 <= decay(d) <= 1.0)
    && (forall d, e :: d <= e ==> decay(e) <= decay(d))
  }

  /** A review dated in the future counts as new. */
  function Aged(posted: Posted, decay: nat -> real): Review {
    Review(posted.client, posted.rating, posted.weight * decay(if posted.age > 0 then posted.age else 0))
  }

  function AgedAll(posted: seq<Posted>, decay: nat -> real): seq<Review> {
    if posted == [] then []
    else AgedAll(posted[..|posted| - 1], decay) + [Aged(posted[|posted| - 1], decay)]
  }

  /** What the checks on a review let through. */
  predicate Checked(posted: seq<Posted>) {
    forall i :: 0 <= i < |posted| ==> 1 <= posted[i].rating <= 5 && 0.0 <= posted[i].weight <= 1.0
  }

  predicate Admitted(reviews: seq<Review>) {
    forall i :: 0 <= i < |reviews| ==> 1 <= reviews[i].rating <= 5 && reviews[i].weight >= 0.0
  }

  /** The prior: the mean it pulls to, and how much it weighs. */
  datatype Prior = Prior(mean: real, weight: real)

  predicate Usual(prior: Prior) {
    1.0 <= prior.mean <= 5.0 && prior.weight > 0.0
  }

  // ---------------------------------------------------------------------------
  // Definition
  // ---------------------------------------------------------------------------

  /** The reviews of one client, in order. */
  function ItemsOf(reviews: seq<Review>, client: nat): seq<(int, real)> {
    if reviews == [] then []
    else
      var r := reviews[|reviews| - 1];
      ItemsOf(reviews[..|reviews| - 1], client) + if r.client == client then [(r.rating, r.weight)] else []
  }

  function Weight(items: seq<(int, real)>): real {
    if items == [] then 0.0 else Weight(items[..|items| - 1]) + items[|items| - 1].1
  }

  function Stars(items: seq<(int, real)>): real {
    if items == [] then 0.0
    else Stars(items[..|items| - 1]) + items[|items| - 1].0 as real * items[|items| - 1].1
  }

  function Min(x: real, y: real): real {
    if x <= y then x else y
  }

  /** What one client adds below: its weight, one at most. */
  function CapOf(weight: real): real {
    if weight <= 0.0 then 0.0 else Min(1.0, weight)
  }

  /** What one client adds above: its mean, times its capped weight. */
  function ShareOf(stars: real, weight: real): real {
    if weight <= 0.0 then 0.0 else CapOf(weight) * (stars / weight)
  }

  function Cap(items: seq<(int, real)>): real {
    CapOf(Weight(items))
  }

  function Share(items: seq<(int, real)>): real {
    ShareOf(Stars(items), Weight(items))
  }

  /** The clients in the order of their first review. */
  function Clients(reviews: seq<Review>): seq<nat> {
    if reviews == [] then []
    else
      var before, c := Clients(reviews[..|reviews| - 1]), reviews[|reviews| - 1].client;
      if c in before then before else before + [c]
  }

  function Caps(reviews: seq<Review>, clients: seq<nat>): real {
    if clients == [] then 0.0
    else Caps(reviews, clients[..|clients| - 1]) + Cap(ItemsOf(reviews, clients[|clients| - 1]))
  }

  function Shares(reviews: seq<Review>, clients: seq<nat>): real {
    if clients == [] then 0.0
    else Shares(reviews, clients[..|clients| - 1]) + Share(ItemsOf(reviews, clients[|clients| - 1]))
  }

  function Ratio(num: real, den: real, mean: real): real {
    if den == 0.0 then mean else num / den
  }

  function Num(prior: Prior, reviews: seq<Review>, clients: seq<nat>): real {
    prior.weight * prior.mean + Shares(reviews, clients)
  }

  function Den(prior: Prior, reviews: seq<Review>, clients: seq<nat>): real {
    prior.weight + Caps(reviews, clients)
  }

  function Rating(prior: Prior, reviews: seq<Review>): real {
    Ratio(Num(prior, reviews, Clients(reviews)), Den(prior, reviews, Clients(reviews)), prior.mean)
  }

  // ---------------------------------------------------------------------------
  // Computation
  // ---------------------------------------------------------------------------

  /** One client's items, summed up. */
  method SumItems(items: seq<(int, real)>) returns (weight: real, stars: real)
    ensures weight == Weight(items) && stars == Stars(items)
  {
    weight, stars := 0.0, 0.0;
    for i := 0 to |items|
      invariant weight == Weight(items[..i]) && stars == Stars(items[..i])
    {
      assert items[..i + 1][..i] == items[..i];
      weight, stars := weight + items[i].1, stars + items[i].0 as real * items[i].1;
    }
    assert items[..|items|] == items;
  }

  /** One more review goes to its client, who is new or already there. */
  lemma ReviewSeen(reviews: seq<Review>, r: Review, client: nat)
    ensures Clients(reviews + [r]) == Clients(reviews) + if r.client in Clients(reviews) then [] else [r.client]
    ensures ItemsOf(reviews + [r], client)
            == ItemsOf(reviews, client) + if r.client == client then [(r.rating, r.weight)] else []
  {
    assert (reviews + [r])[..|reviews|] == reviews;
  }

  lemma AgedOneMore(posted: seq<Posted>, p: Posted, decay: nat -> real)
    ensures AgedAll(posted + [p], decay) == AgedAll(posted, decay) + [Aged(p, decay)]
  {
    assert (posted + [p])[..|posted|] == posted;
  }

  /** Groups the reviews by client as they stand today, the clients in the order of their first review. */
  method GroupByClient(posted: seq<Posted>, decay: nat -> real)
    returns (order: seq<nat>, perClient: map<nat, seq<(int, real)>>)
    ensures order == Clients(AgedAll(posted, decay))
    ensures forall c :: c in order ==> c in perClient && perClient[c] == ItemsOf(AgedAll(posted, decay), c)
  {
    hide ItemsOf, Clients, AgedAll;
    order, perClient := [], map[];
    NobodyYet(decay);
    for i := 0 to |posted|
      invariant order == Clients(AgedAll(posted[..i], decay))
      invariant forall c :: c in order <==> c in perClient
      invariant forall c :: ItemsOf(AgedAll(posted[..i], decay), c) == if c in perClient then perClient[c] else []
    {
      ghost var before := AgedAll(posted[..i], decay);
      var age := if posted[i].age > 0 then posted[i].age else 0;
      var w := posted[i].weight * decay(age);
      var r := Review(posted[i].client, posted[i].rating, w);
      assert posted[..i + 1] == posted[..i] + [posted[i]];
      AgedOneMore(posted[..i], posted[i], decay);
      assert r == Aged(posted[i], decay);
      forall c: nat
        ensures ItemsOf(before + [r], c) == ItemsOf(before, c) + if r.client == c then [(r.rating, r.weight)] else []
      {
        ReviewSeen(before, r, c);
      }
      ReviewSeen(before, r, r.client);
      if r.client !in perClient {
        order := order + [r.client];
        perClient := perClient[r.client := []];
      }
      perClient := perClient[r.client := perClient[r.client] + [(r.rating, r.weight)]];
    }
    assert posted[..|posted|] == posted;
  }

  lemma NobodyYet(decay: nat -> real)
    ensures AgedAll([], decay) == [] && Clients([]) == [] && forall c :: ItemsOf([], c) == []
  {
  }

  /** Adds the clients up, each capped, on top of the prior. */
  method Recompute(prior: Prior, posted: seq<Posted>, decay: nat -> real) returns (rating: real)
    ensures rating == Rating(prior, AgedAll(posted, decay))
  {
    hide ItemsOf, Clients, Weight, Stars, AgedAll, Shares, Caps;
    ghost var reviews := AgedAll(posted, decay);
    var order, perClient := GroupByClient(posted, decay);
    var num, den := prior.weight * prior.mean, prior.weight;
    NobodyAdded(reviews);
    for j := 0 to |order|
      invariant num == Num(prior, reviews, order[..j]) && den == Den(prior, reviews, order[..j])
    {
      assert order[..j + 1] == order[..j] + [order[j]];
      ClientAdded(reviews, order[..j], order[j]);
      var weight, stars := SumItems(perClient[order[j]]);
      if weight > 0.0 {
        var mean, cap := stars / weight, Min(1.0, weight);
        num, den := num + cap * mean, den + cap;
      }
    }
    assert order[..|order|] == order;
    rating := if den == 0.0 then prior.mean else num / den;
  }

  lemma NobodyAdded(reviews: seq<Review>)
    ensures Shares(reviews, []) == 0.0 && Caps(reviews, []) == 0.0
  {
  }

  lemma ClientAdded(reviews: seq<Review>, clients: seq<nat>, c: nat)
    ensures Shares(reviews, clients + [c]) == Shares(reviews, clients) + Share(ItemsOf(reviews, c))
    ensures Caps(reviews, clients + [c]) == Caps(reviews, clients) + Cap(ItemsOf(reviews, c))
  {
    assert (clients + [c])[..|clients|] == clients;
  }

  // ---------------------------------------------------------------------------
  // Arithmetic
  // ---------------------------------------------------------------------------

  lemma MulUp(x: real, y: real, k: real)
    requires x <= y && k >= 0.0
    ensures x * k <= y * k
  {
  }

  /** A ratio lies between two bounds when its numerator does, times the denominator. */
  lemma RatioBetween(num: real, den: real, low: real, high: real)
    requires den > 0.0 && low * den <= num <= high * den
    ensures low <= num / den <= high
  {
    var q := num / den;
    assert q * den == num;
    if q < low { MulStrict(q, low, den); }
    if q > high { MulStrict(high, q, den); }
  }

  lemma MulStrict(x: real, y: real, k: real)
    requires x < y && k > 0.0
    ensures x * k < y * k
  {
  }

  /** Adding `dn` above and `dd` below raises a ratio when `dn` is at least the ratio times `dd`. */
  lemma RatioRises(num: real, den: real, dn: real, dd: real)
    requires den > 0.0 && dd >= 0.0 && dn >= num / den * dd
    ensures (num + dn) / (den + dd) >= num / den
  {
    var q := num / den;
    assert q * den == num;
    assert q * (den + dd) == num + q * dd;
    var t := (num + dn) / (den + dd);
    assert t * (den + dd) == num + dn;
    if t < q { MulStrict(t, q, den + dd); }
  }

  lemma RatioFalls(num: real, den: real, dn: real, dd: real)
    requires den > 0.0 && dd >= 0.0 && dn <= num / den * dd
    ensures (num + dn) / (den + dd) <= num / den
  {
    var q := num / den;
    assert q * den == num;
    assert q * (den + dd) == num + q * dd;
    var t := (num + dn) / (den + dd);
    assert t * (den + dd) == num + dn;
    if t > q { MulStrict(q, t, den + dd); }
  }

  // ---------------------------------------------------------------------------
  // One client
  // ---------------------------------------------------------------------------

  predicate ItemsAdmitted(items: seq<(int, real)>) {
    forall i :: 0 <= i < |items| ==> 1 <= items[i].0 <= 5 && items[i].1 >= 0.0
  }

  lemma {:induction false} ItemsOfAdmitted(reviews: seq<Review>, client: nat)
    requires Admitted(reviews)
    ensures ItemsAdmitted(ItemsOf(reviews, client))
  {
    if reviews == [] {
    } else {
      ItemsOfAdmitted(reviews[..|reviews| - 1], client);
    }
  }

  /** A client's stars lie between one and five times its weight. */
  lemma {:induction false} StarsBetween(items: seq<(int, real)>)
    requires ItemsAdmitted(items)
    ensures 0.0 <= Weight(items) <= Stars(items) <= 5.0 * Weight(items)
  {
    if items == [] {
    } else {
      var rest, stars, w := items[..|items| - 1], items[|items| - 1].0 as real, items[|items| - 1].1;
      StarsBetween(rest);
      MulUp(1.0, stars, w);
      MulUp(stars, 5.0, w);
      assert Stars(items) == Stars(rest) + stars * w;
      assert Weight(items) == Weight(rest) + w;
      assert w <= stars * w;
      assert stars * w <= 5.0 * w;
    }
  }

  /** One client counts for at most one, with a mean between one and five. */
  lemma ShareBetween(items: seq<(int, real)>)
    requires ItemsAdmitted(items)
    ensures 0.0 <= Cap(items) <= 1.0 && Cap(items) <= Share(items) <= 5.0 * Cap(items)
  {
    StarsBetween(items);
    if Weight(items) > 0.0 {
      var mean := Stars(items) / Weight(items);
      RatioBetween(Stars(items), Weight(items), 1.0, 5.0);
      MulUp(1.0, mean, Cap(items));
      MulUp(mean, 5.0, Cap(items));
    }
  }

  lemma ItemAdded(items: seq<(int, real)>, item: (int, real))
    ensures Weight(items + [item]) == Weight(items) + item.1
    ensures Stars(items + [item]) == Stars(items) + item.0 as real * item.1
  {
    assert (items + [item])[..|items|] == items;
  }

  /** Under the cap a client adds its stars as they are. */
  lemma UnderCap(stars: real, weight: real)
    requires 0.0 <= weight <= 1.0 && (weight == 0.0 ==> stars == 0.0)
    ensures ShareOf(stars, weight) == stars && CapOf(weight) == weight
  {
    if weight > 0.0 { assert stars / weight * weight == stars; }
  }

  /** Over the cap it adds its mean. */
  lemma OverCap(stars: real, weight: real)
    requires weight >= 1.0
    ensures ShareOf(stars, weight) == stars / weight && CapOf(weight) == 1.0
  {
  }

  /** Crossing the cap, the new mean is worth at least the stars so far plus five for the rest of the cap. */
  lemma CrossUp(stars: real, weight: real, added: real)
    requires weight + added > 1.0 && weight <= 1.0 && stars <= 5.0 * weight
    ensures (stars + 5.0 * added) / (weight + added) >= stars + 5.0 * (1.0 - weight)
  {
    var a, target := weight + added, stars + 5.0 * (1.0 - weight);
    var gap, t := stars - 5.0 * weight, (stars + 5.0 * added) / a;
    MulUp(gap, 0.0, a - 1.0);
    assert target == gap + 5.0;
    assert target * a == gap * a + 5.0 * a;
    assert gap * (a - 1.0) == gap * a - gap;
    assert gap * (a - 1.0) <= 0.0;
    assert gap * a <= gap;
    assert t * a == stars + 5.0 * added;
    assert target * a <= t * a;
    if t < target { MulStrict(t, target, a); }
  }

  /** And at most the stars so far plus one for the rest, when the new stars are ones. */
  lemma CrossDown(stars: real, weight: real, added: real)
    requires weight + added > 1.0 && weight <= 1.0 && stars >= weight
    ensures (stars + added) / (weight + added) <= stars + (1.0 - weight)
  {
    var a, target := weight + added, stars + (1.0 - weight);
    var gap, t := stars - weight, (stars + added) / a;
    MulUp(0.0, gap, a - 1.0);
    assert target == gap + 1.0;
    assert target * a == gap * a + a;
    assert gap * (a - 1.0) == gap * a - gap;
    assert gap * a >= gap;
    assert t * a == stars + added;
    assert target * a >= t * a;
    if t > target { MulStrict(target, t, a); }
  }

  /** Five more stars weigh at least five times what they add to the cap, in each of its regimes. */
  lemma FiveMore(stars: real, weight: real, w: real)
    requires 0.0 <= weight <= stars <= 5.0 * weight && w >= 0.0
    ensures CapOf(weight + w) >= CapOf(weight)
    ensures ShareOf(stars + 5.0 * w, weight + w) - ShareOf(stars, weight) >= 5.0 * (CapOf(weight + w) - CapOf(weight))
  {
    hide ShareOf;
    if weight + w <= 1.0 {
      UnderCap(stars, weight);
      UnderCap(stars + 5.0 * w, weight + w);
    } else if weight <= 1.0 {
      UnderCap(stars, weight);
      OverCap(stars + 5.0 * w, weight + w);
      CrossUp(stars, weight, w);
    } else {
      OverCap(stars, weight);
      OverCap(stars + 5.0 * w, weight + w);
      RatioBetween(stars, weight, 1.0, 5.0);
      MulUp(stars / weight, 5.0, w);
      RatioRises(stars, weight, 5.0 * w, w);
    }
  }

  /** One more star weighs at most what it adds to the cap, in each of its regimes. */
  lemma OneMore(stars: real, weight: real, w: real)
    requires 0.0 <= weight <= stars <= 5.0 * weight && w >= 0.0
    ensures CapOf(weight + w) >= CapOf(weight)
    ensures ShareOf(stars + w, weight + w) - ShareOf(stars, weight) <= CapOf(weight + w) - CapOf(weight)
  {
    hide ShareOf;
    if weight + w <= 1.0 {
      UnderCap(stars, weight);
      UnderCap(stars + w, weight + w);
    } else if weight <= 1.0 {
      UnderCap(stars, weight);
      OverCap(stars + w, weight + w);
      CrossDown(stars, weight, w);
    } else {
      OverCap(stars, weight);
      OverCap(stars + w, weight + w);
      RatioBetween(stars, weight, 1.0, 5.0);
      MulUp(1.0, stars / weight, w);
      RatioFalls(stars, weight, w, w);
    }
  }

  lemma AgedWeight(p: Posted, decay: nat -> real)
    requires 0.0 <= p.weight && Decaying(decay)
    ensures 0.0 <= Aged(p, decay).weight <= p.weight
  {
    var left := decay(if p.age > 0 then p.age else 0);
    assert 0.0 <= left <= 1.0;
    MulUp(left, 1.0, p.weight);
    MulUp(0.0, left, p.weight);
    assert p.weight * left == left * p.weight;
  }

  /** Without any review that still weighs something the rating is the prior's mean. */
  lemma UnratedIsPrior(prior: Prior, reviews: seq<Review>)
    requires forall i :: 0 <= i < |reviews| ==> reviews[i].weight == 0.0
    ensures Rating(prior, reviews) == prior.mean
  {
    hide Shares, Caps, Clients;
    NothingWeighs(reviews, Clients(reviews));
    if prior.weight != 0.0 { assert prior.weight * prior.mean / prior.weight == prior.mean; }
  }

  lemma {:induction false} NothingWeighs(reviews: seq<Review>, clients: seq<nat>)
    requires forall i :: 0 <= i < |reviews| ==> reviews[i].weight == 0.0
    ensures Shares(reviews, clients) == 0.0 && Caps(reviews, clients) == 0.0
  {
    if clients == [] {
    } else {
      NothingWeighs(reviews, clients[..|clients| - 1]);
      Weightless(reviews, clients[|clients| - 1]);
    }
  }

  lemma {:induction false} Weightless(reviews: seq<Review>, client: nat)
    requires forall i :: 0 <= i < |reviews| ==> reviews[i].weight == 0.0
    ensures Weight(ItemsOf(reviews, client)) == 0.0
  {
    if reviews == [] {
    } else {
      var rest, r := reviews[..|reviews| - 1], reviews[|reviews| - 1];
      Weightless(rest, client);
      var items := ItemsOf(rest, client);
      assert items + [] == items && (items + [(r.rating, r.weight)])[..|items|] == items;
    }
  }

  /** Of two reviews of the same weight, one weighs less than the other exactly when more of its weight has decayed. */
  lemma OlderWeighsLess(older: Posted, newer: Posted, decay: nat -> real)
    requires Decaying(decay) && older.weight == newer.weight > 0.0 && older.age >= newer.age >= 0
    ensures Aged(older, decay).weight <= Aged(newer, decay).weight <= newer.weight
    ensures Aged(older, decay).weight < Aged(newer, decay).weight <==> decay(older.age) < decay(newer.age)
    ensures newer.age == 0 ==> Aged(newer, decay).weight == newer.weight
    ensures Aged(newer.(age := -1 - newer.age), decay) == Aged(newer.(age := 0), decay)
  {
    var w, a, b := newer.weight, decay(older.age), decay(newer.age);
    MulUp(a, b, w);
    MulUp(b, 1.0, w);
    if a < b { MulStrict(a, b, w); }
  }

  /** Reviews that pass the checks stay admitted as they age, and never weigh more than they did. */
  lemma {:induction false} AgedAdmitted(posted: seq<Posted>, decay: nat -> real)
    requires Checked(posted) && Decaying(decay)
    ensures |AgedAll(posted, decay)| == |posted| && Admitted(AgedAll(posted, decay))
    ensures forall i :: 0 <= i < |posted| ==> AgedAll(posted, decay)[i].weight <= posted[i].weight
  {
    if posted == [] {
    } else {
      hide Decaying;
      AgedAdmitted(posted[..|posted| - 1], decay);
      AgedWeight(posted[|posted| - 1], decay);
      hide Aged;
      AgedStars(posted[|posted| - 1], decay);
    }
  }

  lemma AgedStars(p: Posted, decay: nat -> real)
    ensures Aged(p, decay).rating == p.rating
  {
  }

  // ---------------------------------------------------------------------------
  // All clients
  // ---------------------------------------------------------------------------

  predicate Distinct(clients: seq<nat>) {
    forall i, j :: 0 <= i < j < |clients| ==> clients[i] != clients[j]
  }

  lemma {:induction false} ClientsDistinct(reviews: seq<Review>)
    ensures Distinct(Clients(reviews))
    ensures forall c :: c !in Clients(reviews) ==> ItemsOf(reviews, c) == []
  {
    if reviews == [] {
    } else {
      ClientsDistinct(reviews[..|reviews| - 1]);
    }
  }

  /** The sums of all clients keep the bounds of each. */
  lemma {:induction false} SumsBetween(reviews: seq<Review>, clients: seq<nat>)
    requires Admitted(reviews)
    ensures 0.0 <= Caps(reviews, clients) <= Shares(reviews, clients) <= 5.0 * Caps(reviews, clients)
    decreases |clients|
  {
    hide Cap, Share;
    if clients == [] {
    } else {
      var c := clients[|clients| - 1];
      SumsBetween(reviews, clients[..|clients| - 1]);
      ItemsOfAdmitted(reviews, c);
      ShareBetween(ItemsOf(reviews, c));
    }
  }

  lemma PriorBetween(prior: Prior)
    requires Usual(prior)
    ensures prior.weight <= prior.weight * prior.mean <= 5.0 * prior.weight
  {
    MulUp(1.0, prior.mean, prior.weight);
    MulUp(prior.mean, 5.0, prior.weight);
  }

  /** Over any clients, the rating stays on the scale of the stars. */
  lemma ScaleKept(prior: Prior, reviews: seq<Review>, clients: seq<nat>)
    requires Usual(prior) && Admitted(reviews)
    ensures var num, den := Num(prior, reviews, clients), Den(prior, reviews, clients);
            den >= prior.weight && 1.0 <= num / den <= 5.0
  {
    hide Shares, Caps;
    SumsBetween(reviews, clients);
    PriorBetween(prior);
    RatioBetween(Num(prior, reviews, clients), Den(prior, reviews, clients), 1.0, 5.0);
  }

  /** The rating lies between one and five. */
  lemma RatingOnScale(prior: Prior, reviews: seq<Review>)
    requires Usual(prior) && Admitted(reviews)
    ensures 1.0 <= Rating(prior, reviews) <= 5.0
  {
    hide Shares, Caps, Clients;
    ScaleKept(prior, reviews, Clients(reviews));
  }

  // ---------------------------------------------------------------------------
  // One client more, or less
  // ---------------------------------------------------------------------------

  function Without(reviews: seq<Review>, client: nat): seq<Review> {
    if reviews == [] then []
    else
      var r := reviews[|reviews| - 1];
      Without(reviews[..|reviews| - 1], client) + if r.client == client then [] else [r]
  }

  function Drop(clients: seq<nat>, client: nat): seq<nat> {
    if clients == [] then []
    else
      var c := clients[|clients| - 1];
      Drop(clients[..|clients| - 1], client) + if c == client then [] else [c]
  }

  lemma {:induction false} DropKeeps(clients: seq<nat>, client: nat)
    ensures forall c :: c in Drop(clients, client) <==> c in clients && c != client
    ensures client !in clients ==> Drop(clients, client) == clients
  {
    if clients == [] {
    } else {
      var rest, c := clients[..|clients| - 1], clients[|clients| - 1];
      DropKeeps(rest, client);
      assert clients == rest + [c];
    }
  }

  lemma DropLast(clients: seq<nat>, c: nat, client: nat)
    ensures Drop(clients + [c], client) == Drop(clients, client) + if c == client then [] else [c]
  {
    assert (clients + [c])[..|clients|] == clients;
  }

  lemma WithoutLast(reviews: seq<Review>, r: Review, client: nat)
    ensures Without(reviews + [r], client) == if r.client == client then Without(reviews, client)
        else Without(reviews, client) + [r]
  {
    assert (reviews + [r])[..|reviews|] == reviews;
  }

  lemma {:induction false} OthersKeepItems(reviews: seq<Review>, client: nat, c: nat)
    requires c != client
    ensures ItemsOf(Without(reviews, client), c) == ItemsOf(reviews, c)
  {
    if reviews == [] {
    } else {
      hide Without, ItemsOf, Clients;
      var rest, r := reviews[..|reviews| - 1], reviews[|reviews| - 1];
      assert reviews == rest + [r];
      OthersKeepItems(rest, client, c);
      WithoutLast(rest, r, client);
      ReviewSeen(rest, r, c);
      ReviewSeen(Without(rest, client), r, c);
    }
  }

  lemma {:induction false} OtherClients(reviews: seq<Review>, client: nat)
    ensures Clients(Without(reviews, client)) == Drop(Clients(reviews), client)
  {
    if reviews == [] {
    } else {
      hide Without, ItemsOf, Drop, Clients;
      var rest, r := reviews[..|reviews| - 1], reviews[|reviews| - 1];
      assert reviews == rest + [r];
      OtherClients(rest, client);
      WithoutLast(rest, r, client);
      ReviewSeen(rest, r, r.client);
      ReviewSeen(Without(rest, client), r, r.client);
      DropKeeps(Clients(rest), client);
      DropLast(Clients(rest), r.client, client);
    }
  }

  /** Sums over the same clients agree when each client's reviews do. */
  lemma {:induction false} SumsDropped(reviews: seq<Review>, others: seq<Review>, clients: seq<nat>, client: nat)
    requires forall c :: c != client ==> ItemsOf(others, c) == ItemsOf(reviews, c)
    requires Distinct(clients)
    ensures Caps(others, Drop(clients, client)) == Caps(reviews, clients) - if client in clients
        then Cap(ItemsOf(reviews, client)) else 0.0
    ensures Shares(others, Drop(clients, client)) == Shares(reviews, clients) - if client in clients
        then Share(ItemsOf(reviews, client)) else 0.0
    decreases |clients|
  {
    hide Cap, Share, ItemsOf;
    if clients == [] {
    } else {
      var rest, c := clients[..|clients| - 1], clients[|clients| - 1];
      SumsDropped(reviews, others, rest, client);
      assert clients == rest + [c];
      DropLast(rest, c, client);
      assert (Drop(rest, client) + [c])[..|Drop(rest, client)|] == Drop(rest, client);
      assert Drop(rest, client) + [] == Drop(rest, client);
    }
  }

  lemma MoveExplained(num: real, den: real, share: real, cap: real)
    requires den > 0.0 && cap >= 0.0
    ensures ((num + share) / (den + cap) - num / den) * (den + cap) == share - num / den * cap
  {
    var q, t := num / den, (num + share) / (den + cap);
    assert q * den == num && t * (den + cap) == num + share;
    assert q * (den + cap) == q * den + q * cap;
  }

  lemma BoundScaled(cap: real, den: real, c: real, bound: real)
    requires den >= c > 0.0 && 0.0 <= cap <= 1.0 && bound * (c + 1.0) == 4.0 && bound >= 0.0
    ensures 4.0 * cap <= bound * (den + cap)
  {
    var bc := bound * c;
    assert bc + bound == 4.0;
    MulUp(cap, 1.0, bc);
    assert 4.0 * cap == (bc + bound) * cap == cap * bc + bound * cap;
    MulUp(c, den, bound);
    assert c * bound == bc;
    assert cap * bc <= bc <= den * bound;
    assert bound * (den + cap) == den * bound + bound * cap;
  }

  lemma Squeezed(x: real, bound: real, k: real)
    requires k > 0.0 && x * k <= bound * k && (-x) * k <= bound * k
    ensures -bound <= x <= bound
  {
    if x > bound { MulStrict(bound, x, k); }
    if -x > bound { MulStrict(bound, -x, k); }
  }

  lemma GapBounded(q: real, share: real, cap: real)
    requires 1.0 <= q <= 5.0 && 0.0 <= cap && cap <= share <= 5.0 * cap
    ensures share - q * cap <= 4.0 * cap && q * cap - share <= 4.0 * cap
  {
    MulUp(1.0, q, cap);
    MulUp(q, 5.0, cap);
  }

  /** The arithmetic of one client: it moves the ratio by four times its cap over the new denominator, at most. */
  lemma MoveBounded(num: real, den: real, share: real, cap: real, c: real)
    requires den >= c > 0.0 && 1.0 <= num / den <= 5.0 && 0.0 <= cap <= 1.0 && cap <= share <= 5.0 * cap
    ensures -(4.0 / (c + 1.0)) <= (num + share) / (den + cap) - num / den <= 4.0 / (c + 1.0)
  {
    MoveExplained(num, den, share, cap);
    GapBounded(num / den, share, cap);
    BoundScaled(cap, den, c, 4.0 / (c + 1.0));
    MoveSqueezed((num + share) / (den + cap) - num / den, share - num / den * cap, den + cap, 4.0 * cap,
        4.0 / (c + 1.0));
  }

  lemma MoveSqueezed(move: real, gap: real, k: real, most: real, bound: real)
    requires k > 0.0 && move * k == gap && gap <= most && -gap <= most && most <= bound * k
    ensures -bound <= move <= bound
  {
    assert (-move) * k == -(move * k);
    Squeezed(move, bound, k);
  }

  /** Adding or removing one client, with any number of reviews, moves the rating by 4 / (C + 1) at most. */
  lemma OneClientMovesLittle(prior: Prior, reviews: seq<Review>, client: nat)
    requires Usual(prior) && Admitted(reviews)
    ensures var d := Rating(prior, reviews) - Rating(prior, Without(reviews, client));
            -(4.0 / (prior.weight + 1.0)) <= d <= 4.0 / (prior.weight + 1.0)
  {
    hide Shares, Caps, Clients, Cap, Share, ItemsOf, Without;
    var others, items := Without(reviews, client), ItemsOf(reviews, client);
    var num, den := Num(prior, others, Clients(others)), Den(prior, others, Clients(others));
    var present := client in Clients(reviews);
    var share, cap := if present then Share(items) else 0.0, if present then Cap(items) else 0.0;
    OthersAddUp(reviews, client);
    WithoutAdmitted(reviews, client);
    ItemsOfAdmitted(reviews, client);
    ScaleKept(prior, others, Clients(others));
    ShareBetween(items);
    MoveBounded(num, den, share, cap, prior.weight);
    assert Rating(prior, others) == num / den;
    assert Rating(prior, reviews) == (num + share) / (den + cap) by {
      assert Num(prior, reviews, Clients(reviews)) == num + share;
      assert Den(prior, reviews, Clients(reviews)) == den + cap;
    }
  }

  /** The sums over all clients are the sums over the others, and what this one adds. */
  lemma OthersAddUp(reviews: seq<Review>, client: nat)
    ensures var others, clients := Without(reviews, client), Clients(reviews);
            && Caps(reviews, clients) == Caps(others, Clients(others))
                + (if client in clients then Cap(ItemsOf(reviews, client)) else 0.0)
            && Shares(reviews, clients) == Shares(others, Clients(others))
                + (if client in clients then Share(ItemsOf(reviews, client)) else 0.0)
  {
    hide Shares, Caps, Cap, Share, Drop, Without, Clients, ItemsOf;
    var others := Without(reviews, client);
    ClientsDistinct(reviews);
    OtherClients(reviews, client);
    forall c: nat | c != client ensures ItemsOf(others, c) == ItemsOf(reviews, c) {
      OthersKeepItems(reviews, client, c);
    }
    SumsDropped(reviews, others, Clients(reviews), client);
  }

  lemma {:induction false} WithoutAdmitted(reviews: seq<Review>, client: nat)
    requires Admitted(reviews)
    ensures Admitted(Without(reviews, client))
  {
    if reviews == [] {
    } else {
      WithoutAdmitted(reviews[..|reviews| - 1], client);
    }
  }

  // ---------------------------------------------------------------------------
  // One review more
  // ---------------------------------------------------------------------------

  /** One more review changes the sums by what it changes for its client. */
  lemma SumsAfter(reviews: seq<Review>, r: Review)
    ensures var after, c := reviews + [r], r.client;
            && Caps(after, Clients(after)) - Caps(reviews, Clients(reviews)) == Cap(ItemsOf(after, c))
                - Cap(ItemsOf(reviews, c))
            && Shares(after, Clients(after)) - Shares(reviews, Clients(reviews)) == Share(ItemsOf(after, c))
                - Share(ItemsOf(reviews, c))
  {
    hide Caps, Shares, Clients, ItemsOf, Cap, Share, Drop;
    var after, c := reviews + [r], r.client;
    ClientsDistinct(reviews);
    ClientsDistinct(after);
    ReviewSeen(reviews, r, c);
    forall k | k != c ensures ItemsOf(after, k) == ItemsOf(reviews, k) { ReviewSeen(reviews, r, k); }
    SumsDropped(reviews, after, Clients(reviews), c);
    SumsDropped(after, after, Clients(after), c);
    DropKeeps(Clients(reviews), c);
    DropLast(Clients(reviews), c, c);
    NothingShared();
    assert Clients(reviews) + [] == Clients(reviews) && Drop(Clients(reviews), c) + [] == Drop(Clients(reviews), c);
    assert c in Clients(after);
  }

  lemma NothingShared()
    ensures Cap([]) == 0.0 && Share([]) == 0.0
  {
  }

  /** A new five-star review never lowers the rating, whatever the client already weighs. */
  lemma FiveStarsNeverLower(prior: Prior, reviews: seq<Review>, client: nat, weight: real)
    requires Usual(prior) && Admitted(reviews) && weight >= 0.0
    ensures Rating(prior, reviews + [Review(client, 5, weight)]) >= Rating(prior, reviews)
  {
    hide Shares, Caps, Clients, ItemsOf;
    var r, items := Review(client, 5, weight), ItemsOf(reviews, client);
    SumsAfter(reviews, r);
    ReviewSeen(reviews, r, client);
    ItemsOfAdmitted(reviews, client);
    StarsBetween(items);
    ItemAdded(items, (5, weight));
    FiveMore(Stars(items), Weight(items), weight);
    Rises(prior, reviews, r, true);
  }

  /** A new one-star review never raises the rating. */
  lemma OneStarNeverRaises(prior: Prior, reviews: seq<Review>, client: nat, weight: real)
    requires Usual(prior) && Admitted(reviews) && weight >= 0.0
    ensures Rating(prior, reviews + [Review(client, 1, weight)]) <= Rating(prior, reviews)
  {
    hide Shares, Caps, Clients, ItemsOf;
    var r, items := Review(client, 1, weight), ItemsOf(reviews, client);
    SumsAfter(reviews, r);
    ReviewSeen(reviews, r, client);
    ItemsOfAdmitted(reviews, client);
    StarsBetween(items);
    ItemAdded(items, (1, weight));
    OneMore(Stars(items), Weight(items), weight);
    Rises(prior, reviews, r, false);
  }

  lemma Lifted(num: real, den: real, dn: real, dd: real)
    requires den > 0.0 && num / den <= 5.0 && dd >= 0.0 && dn >= 5.0 * dd
    ensures (num + dn) / (den + dd) >= num / den
  {
    MulUp(num / den, 5.0, dd);
    RatioRises(num, den, dn, dd);
  }

  lemma Lowered(num: real, den: real, dn: real, dd: real)
    requires den > 0.0 && num / den >= 1.0 && dd >= 0.0 && dn <= dd
    ensures (num + dn) / (den + dd) <= num / den
  {
    MulUp(1.0, num / den, dd);
    RatioFalls(num, den, dn, dd);
  }

  /** What a review adds, against the scale, decides which way the rating may move. */
  lemma Rises(prior: Prior, reviews: seq<Review>, r: Review, up: bool)
    requires Usual(prior) && Admitted(reviews)
    requires var after := reviews + [r];
             var dn := Shares(after, Clients(after)) - Shares(reviews, Clients(reviews));
             var dd := Caps(after, Clients(after)) - Caps(reviews, Clients(reviews));
             dd >= 0.0 && if up then dn >= 5.0 * dd else dn <= dd
    ensures if up then Rating(prior, reviews + [r]) >= Rating(prior, reviews)
        else Rating(prior, reviews + [r]) <= Rating(prior, reviews)
  {
    hide Shares, Caps, Clients;
    var after, clients := reviews + [r], Clients(reviews);
    var dn := Shares(after, Clients(after)) - Shares(reviews, clients);
    var dd := Caps(after, Clients(after)) - Caps(reviews, clients);
    var num, den := Num(prior, reviews, clients), Den(prior, reviews, clients);
    ScaleKept(prior, reviews, clients);
    hide Num, Den;
    if up { Lifted(num, den, dn, dd); } else { Lowered(num, den, dn, dd); }
  }

  // ---------------------------------------------------------------------------
  // The score
  // ---------------------------------------------------------------------------

  /** What the platform knows of a technician's work. */
  datatype Record = Record(completed: nat, withdrawals: nat, disputesLost: nat, approvedDays: Option<int>, strikes: nat)

  function Reliability(r: Record): real {
    if r.completed + r.withdrawals + r.disputesLost == 0 then 1.0
    else r.completed as real / (r.completed + r.withdrawals + r.disputesLost) as real
  }

  /** A logarithm: nothing at one, and growing. */
  ghost predicate Logarithm(log: nat -> real) {
    log(1) == 0.0 && forall a, b :: 1 <= a < b ==> log(a) < log(b)
  }

  /** It grows with the logarithm of the services completed, up to one hundred of them. */
  function Experience(r: Record, log: nat -> real): real
    requires log(101) > 0.0
  {
    Min(1.0, log(1 + r.completed) / log(101))
  }

  /** Months since the approval, up to twenty-four. */
  function Tenure(r: Record): real {
    var months := if r.approvedDays.Some? then r.approvedDays.value as real / 30.0 else 0.0;
    Min(1.0, if months / 24.0 < 0.0 then 0.0 else months / 24.0)
  }

  function Raw(rating: real, r: Record, log: nat -> real): real
    requires log(101) > 0.0
  {
    100.0 * (0.60 * (rating - 1.0) / 4.0 + 0.20 * Reliability(r) + 0.12 * Experience(r, log) + 0.08 * Tenure(r))
  }

  function Penalty(strikes: nat): real {
    if 10 * strikes < 30 then (10 * strikes) as real else 30.0
  }

  function Clamp(x: real): real {
    if Min(100.0, x) < 0.0 then 0.0 else Min(100.0, x)
  }

  function Score(rating: real, r: Record, log: nat -> real): real
    requires log(101) > 0.0
  {
    Clamp(Raw(rating, r, log) - Penalty(r.strikes))
  }

  lemma ReliabilityIsShare(r: Record)
    ensures 0.0 <= Reliability(r) <= 1.0
    ensures Reliability(r) == 1.0 <==> r.withdrawals == r.disputesLost == 0
  {
    var n, d := r.completed as real, (r.completed + r.withdrawals + r.disputesLost) as real;
    if r.completed + r.withdrawals + r.disputesLost > 0 {
      RatioBetween(n, d, 0.0, 1.0);
      assert n / d * d == n;
    }
  }

  lemma ExperienceIsShare(r: Record, log: nat -> real)
    requires Logarithm(log) && log(101) > 0.0
    ensures 0.0 <= Experience(r, log) <= 1.0
    ensures Experience(r, log) == 1.0 <==> r.completed >= 100
  {
    var x, top := log(1 + r.completed), log(101);
    assert r.completed > 0 ==> log(1) < x;
    assert r.completed < 100 ==> x < top;
    assert r.completed > 100 ==> top < x;
    assert x / top * top == x;
    if x < top {
      RatioBetween(x, top, 0.0, 1.0);
    } else {
      RatioBetween(x, top, 1.0, x / top);
    }
  }

  /** The parts weigh one hundred in all, so that only strikes can reach a limit of the score: the lower one. */
  lemma ScoreNeedsOnlyTheFloor(rating: real, r: Record, log: nat -> real)
    requires 1.0 <= rating <= 5.0 && Logarithm(log) && log(101) > 0.0
    ensures var raw, score := Raw(rating, r, log), Score(rating, r, log);
            && 0.0 <= raw <= 100.0 && 0.0 <= score <= 100.0
            && raw - 30.0 <= score <= raw
            && score == (if raw >= Penalty(r.strikes) then raw - Penalty(r.strikes) else 0.0)
  {
    hide Reliability, Experience;
    ReliabilityIsShare(r);
    ExperienceIsShare(r, log);
  }

  /** Tenure grows with the days since the approval, and is whole after two years of months of thirty days. */
  lemma TenureGrows(r: Record)
    ensures r.approvedDays.None? ==> Tenure(r) == 0.0
    ensures r.approvedDays.Some? && r.approvedDays.value <= 0 ==> Tenure(r) == 0.0
    ensures r.approvedDays.Some? && 0 <= r.approvedDays.value <= 720 ==>
              Tenure(r) * 720.0 == r.approvedDays.value as real
    ensures r.approvedDays.Some? && r.approvedDays.value >= 720 ==> Tenure(r) == 1.0
  {
  }

  /**
   What each part is worth: fifteen points for each star above one, twenty for keeping every promise, twelve for a
   hundred services, and eight for two years.
   */
  lemma ScoreWeights(rating: real, r: Record, log: nat -> real)
    requires Logarithm(log) && log(101) > 0.0
    ensures var stars, raw := 15.0 * (rating - 1.0), Raw(rating, r, log);
            && (r.completed == r.withdrawals == r.disputesLost == 0 ==> raw == stars + 20.0 + 8.0 * Tenure(r))
            && (r.completed == 0 < r.withdrawals + r.disputesLost ==> raw == stars + 8.0 * Tenure(r))
            && (r.completed >= 100 && r.withdrawals == r.disputesLost == 0 ==> raw == stars + 32.0 + 8.0 * Tenure(r))
            && (r.withdrawals == r.disputesLost == 0 ==>
                  raw == stars + 20.0 + 12.0 * Experience(r, log) + 8.0 * Tenure(r))
  {
    ReliabilityIsShare(r);
    ExperienceIsShare(r, log);
    NoExperience(r, log);
    NotReliable(r);
    hide Reliability, Experience, Tenure;
  }

  lemma NoExperience(r: Record, log: nat -> real)
    requires Logarithm(log) && log(101) > 0.0
    ensures r.completed == 0 ==> Experience(r, log) == 0.0
  {
    assert r.completed == 0 ==> log(1 + r.completed) == 0.0;
    assert 0.0 / log(101) == 0.0;
  }

  lemma NotReliable(r: Record)
    ensures r.completed == 0 < r.withdrawals + r.disputesLost ==> Reliability(r) == 0.0
  {
  }

  /** Each of the first three strikes costs ten points, further ones nothing, and the score does not go below zero. */
  lemma StrikesCost(rating: real, r: Record, log: nat -> real)
    requires 1.0 <= rating <= 5.0 && Logarithm(log) && log(101) > 0.0
    ensures var clean, score := Score(rating, r.(strikes := 0), log), Score(rating, r, log);
            var cost := if r.strikes >= 3 then 30.0 else if r.strikes == 2 then 20.0
                        else if r.strikes == 1 then 10.0 else 0.0;
            score == if clean >= cost then clean - cost else 0.0
  {
    var clean := r.(strikes := 0);
    ScoreNeedsOnlyTheFloor(rating, r, log);
    ScoreNeedsOnlyTheFloor(rating, clean, log);
    assert Raw(rating, clean, log) == Raw(rating, r, log) by {
      assert Experience(clean, log) == Experience(r, log) && Tenure(clean) == Tenure(r);
      assert Reliability(clean) == Reliability(r);
      hide Reliability, Experience, Tenure;
    }
    hide Raw, Score;
  }

  /** One more service completed never lowers the score; one more withdrawal or dispute lost never raises it. */
  lemma ScoreFollowsWork(rating: real, r: Record, log: nat -> real)
    requires Logarithm(log) && log(101) > 0.0
    ensures Score(rating, r.(completed := r.completed + 1), log) >= Score(rating, r, log)
    ensures Score(rating, r.(withdrawals := r.withdrawals + 1), log) <= Score(rating, r, log)
    ensures Score(rating, r.(disputesLost := r.disputesLost + 1), log) <= Score(rating, r, log)
  {
    var done, left, lost := r.(completed := r.completed + 1), r.(withdrawals := r.withdrawals + 1),
                            r.(disputesLost := r.disputesLost + 1);
    ReliabilityFollowsWork(r);
    ExperienceRises(r, log);
    assert Experience(left, log) == Experience(r, log) == Experience(lost, log);
    assert Tenure(done) == Tenure(left) == Tenure(lost) == Tenure(r);
    hide Reliability, Experience, Tenure;
  }

  lemma QuotientRises(x: real, y: real, top: real)
    requires x <= y && top > 0.0
    ensures x / top <= y / top
  {
    var a, b := x / top, y / top;
    assert a * top == x && b * top == y;
    if b < a { MulStrict(b, a, top); }
  }

  lemma ExperienceRises(r: Record, log: nat -> real)
    requires Logarithm(log) && log(101) > 0.0
    ensures Experience(r.(completed := r.completed + 1), log) >= Experience(r, log)
  {
    assert log(1 + r.completed) < log(2 + r.completed);
    QuotientRises(log(1 + r.completed), log(2 + r.completed), log(101));
  }

  lemma ReliabilityFollowsWork(r: Record)
    ensures Reliability(r.(completed := r.completed + 1)) >= Reliability(r)
    ensures Reliability(r.(withdrawals := r.withdrawals + 1)) <= Reliability(r)
    ensures Reliability(r.(disputesLost := r.disputesLost + 1)) <= Reliability(r)
  {
    var n, d := r.completed as real, (r.completed + r.withdrawals + r.disputesLost) as real;
    ReliabilityIsShare(r);
    ReliabilityIsShare(r.(completed := r.completed + 1));
    ReliabilityIsShare(r.(withdrawals := r.withdrawals + 1));
    ReliabilityIsShare(r.(disputesLost := r.disputesLost + 1));
    if r.completed + r.withdrawals + r.disputesLost > 0 {
      RatioRises(n, d, 1.0, 1.0);
      MulUp(0.0, n / d, 1.0);
      RatioFalls(n, d, 0.0, 1.0);
    }
  }
}
