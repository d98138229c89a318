/**
 Financial reports: sums over the entries of the book in a window, in total or by groups. They are read from
 the book and not from the payments, and still agree with them.
 */
module Reports {
  import opened Results
  import opened Commission
  import opened Ledger
  import opened Payments
  import opened PaymentInvariants
  import opened PaymentTheorems

  /** An entry as the report reads it: the payment it belongs to, and the instant its transaction wrote it. */
  datatype Row = Row(payment: nat, at: nat, entry: Entry)

  datatype Books = Books(files: seq<Payment>, rows: seq<Row>)

  datatype Call = Opening(quote: Breakdown) | Calling(payment: nat, event: Event, at: nat)

  function Tagged(entries: seq<Entry>, payment: nat, at: nat): seq<Row> {
    if entries == [] then []
    else Tagged(entries[..|entries| - 1], payment, at) + [Row(payment, at, entries[|entries| - 1])]
  }

  function Written(p: Payment, q: Payment): seq<Entry> {
    if |p.ledger| <= |q.ledger| then q.ledger[|p.ledger|..] else []
  }

  /** What a call wrote in the book of its payment goes to the journal, all at one instant. */
  function Step(b: Books, c: Call): Books {
    match c
    case Opening(quote) => b.(files := b.files + [NewPayment(quote)])
    case Calling(i, e, at) =>
      if i >= |b.files| then b
      else
        var q := Payments.Step(b.files[i], e);
        Books(b.files[i := q], b.rows + Tagged(Written(b.files[i], q), i, at))
  }

  function Run(b: Books, calls: seq<Call>): Books
    decreases |calls|
  {
    if calls == [] then b else Run(Step(b, calls[0]), calls[1..])
  }

  const EMPTY := Books([], [])

  /** What a report looks at: some payments, at some instants. */
  type Pick = (nat, nat) -> bool

  function Select(rows: seq<Row>, pick: Pick): seq<Entry> {
    if rows == [] then []
    else
      var r := rows[|rows| - 1];
      Select(rows[..|rows| - 1], pick) + if pick(r.payment, r.at) then [r.entry] else []
  }

  datatype Sums = Sums(
    charged: int, refunded: int, chargedBack: int, commission: int, vat: int, withheld: int,
    technicians: int, absorbed: int)

  const NOTHING := Sums(0, 0, 0, 0, 0, 0, 0, 0)

  function Add(a: Sums, b: Sums): Sums {
    Sums(a.charged + b.charged, a.refunded + b.refunded, a.chargedBack + b.chargedBack, a.commission + b.commission,
         a.vat + b.vat, a.withheld + b.withheld, a.technicians + b.technicians, a.absorbed + b.absorbed)
  }

  function Charged(es: seq<Entry>): int {
    -Sum(es, CaptureEntry, Customer)
  }

  function Returned(es: seq<Entry>): int {
    Sum(es, RefundEntry, Customer)
  }

  function Lost(es: seq<Entry>): int {
    Sum(es, ChargebackEntry, Customer)
  }

  /** The metrics, each a sum over one account, some over one kind of movement. */
  function Metrics(es: seq<Entry>): Sums {
    Sums(Charged(es), Returned(es), Lost(es), Balance(es, PlatformRevenue), Balance(es, VatPayable),
         Balance(es, TaxWithheld), Balance(es, TechnicianPayable), -Balance(es, Account.Refunds))
  }

  function CapturedIn(rows: seq<Row>, pick: Pick): set<nat> {
    set r | r in rows && pick(r.payment, r.at) && r.entry.kind == CaptureEntry :: r.payment
  }

  datatype Line = Line(sums: Sums, captured: nat)

  function LineOf(rows: seq<Row>, pick: Pick): Line {
    Line(Metrics(Select(rows, pick)), |CapturedIn(rows, pick)|)
  }

  /** Charges less what was given back equal what everybody keeps, less what the platform absorbed. */
  predicate Identity(s: Sums) {
    s.charged - s.refunded - s.chargedBack == s.technicians + s.commission + s.vat + s.withheld - s.absorbed
  }

  // ---------------------------------------------------------------------------
  // Sums over entries
  // ---------------------------------------------------------------------------

  function Net(es: seq<Entry>): int {
    Balance(es, Customer) + Balance(es, TechnicianPayable) + Balance(es, PlatformRevenue) + Balance(es, VatPayable)
    + Balance(es, TaxWithheld) + Balance(es, Account.Refunds)
  }

  lemma NetIsIdentity(es: seq<Entry>)
    ensures Identity(Metrics(es)) <==> Net(es) == 0
  {
    BalanceByKind(es, Customer);
  }

  lemma {:induction false} SumConcat(a: seq<Entry>, b: seq<Entry>, k: EntryKind, account: Account)
    ensures Sum(a + b, k, account) == Sum(a, k, account) + Sum(b, k, account)
  {
    if b == [] {
      assert a + b == a;
    } else {
      assert (a + b)[..|a + b| - 1] == a + b[..|b| - 1];
      SumConcat(a, b[..|b| - 1], k, account);
    }
  }

  lemma BalanceConcat(a: seq<Entry>, b: seq<Entry>, account: Account)
    ensures Balance(a + b, account) == Balance(a, account) + Balance(b, account)
  {
    BalanceByKind(a + b, account);
    BalanceByKind(a, account);
    BalanceByKind(b, account);
    SumConcat(a, b, CaptureEntry, account);
    SumConcat(a, b, RefundEntry, account);
    SumConcat(a, b, ChargebackEntry, account);
  }

  lemma NetConcat(a: seq<Entry>, b: seq<Entry>)
    ensures Net(a + b) == Net(a) + Net(b)
  {
    forall account ensures Balance(a + b, account) == Balance(a, account) + Balance(b, account) {
      BalanceConcat(a, b, account);
    }
  }

  lemma MetricsConcat(a: seq<Entry>, b: seq<Entry>)
    ensures Metrics(a + b) == Add(Metrics(a), Metrics(b))
  {
    forall account ensures Balance(a + b, account) == Balance(a, account) + Balance(b, account) {
      BalanceConcat(a, b, account);
    }
    forall k ensures Sum(a + b, k, Customer) == Sum(a, k, Customer) + Sum(b, k, Customer) {
      SumConcat(a, b, k, Customer);
    }
  }

  // ---------------------------------------------------------------------------
  // The identity, for every run and every window
  // ---------------------------------------------------------------------------

  function PostedOver(refunds: seq<Refund>): int {
    Total(refunds, Posted(Customer)) + Total(refunds, Posted(TechnicianPayable))
      + Total(refunds, Posted(PlatformRevenue))
    + Total(refunds, Posted(VatPayable)) + Total(refunds, Posted(TaxWithheld)) + Total(refunds, Posted(Account.Refunds))
  }

  lemma {:induction false} RefundsPostNothing(refunds: seq<Refund>, b: Breakdown, refunded: nat)
    requires forall i :: 0 <= i < |refunds| ==> RefundAgrees(b, refunded, refunds[i])
    ensures PostedOver(refunds) == 0
    decreases |refunds|
  {
    hide Share;
    if refunds == [] {
    } else {
      assert RefundAgrees(b, refunded, refunds[|refunds| - 1]);
      RefundsPostNothing(refunds[..|refunds| - 1], b, refunded);
    }
  }

  /** The book of a payment adds up to nothing over all accounts. */
  lemma BookNets(p: Payment)
    requires Consistent(p)
    ensures Net(p.ledger) == 0
  {
    hide BookAgrees, ChargebackAgrees, RefundAgrees, AmountsAgree;
    forall a ensures Balance(p.ledger, a)
            == (if p.captured > 0 then CaptureLines(Effective(p)).At(a) else 0) + Total(p.refunds, Posted(a))
               + ChargebackLines(LostCents(p.ledger), RecoveredCents(p.ledger)).At(a) {
      BalanceExplained(p, a);
    }
    RefundsPostNothing(p.refunds, Effective(p), p.refunded);
  }

  lemma {:induction false} SelectTagged(rows: seq<Row>, es: seq<Entry>, payment: nat, at: nat, pick: Pick)
    ensures Select(rows + Tagged(es, payment, at), pick) == Select(rows, pick) + if pick(payment, at) then es else []
  {
    if es == [] {
      assert rows + Tagged(es, payment, at) == rows;
    } else {
      var rest, last := es[..|es| - 1], Row(payment, at, es[|es| - 1]);
      var tagged := rows + Tagged(rest, payment, at);
      assert rows + Tagged(es, payment, at) == tagged + [last];
      assert (tagged + [last])[..|tagged|] == tagged;
      SelectTagged(rows, rest, payment, at, pick);
    }
  }

  ghost predicate FilesConsistent(b: Books) {
    forall i :: 0 <= i < |b.files| ==> Consistent(b.files[i])
  }

  lemma StepKeepsFiles(b: Books, c: Call)
    requires FilesConsistent(b)
    ensures FilesConsistent(Step(b, c))
    ensures c.Calling? && c.payment < |b.files| ==>
              var q := Payments.Step(b.files[c.payment], c.event);
              b.files[c.payment].ledger + Written(b.files[c.payment], q) == q.ledger
  {
    hide Consistent, Payments.Step;
    match c {
      case Opening(quote) => NewPaymentConsistent(quote);
      case Calling(i, e, _) =>
        if i < |b.files| {
          PaymentInvariants.StepKeeps(b.files[i], e);
          StepContinues(b.files[i], e);
        }
    }
  }

  /** What a call writes adds up to nothing. */
  lemma WrittenNets(p: Payment, q: Payment)
    requires Consistent(p) && Consistent(q) && p.ledger + Written(p, q) == q.ledger
    ensures Net(Written(p, q)) == 0
  {
    hide Consistent, Net;
    BookNets(p);
    BookNets(q);
    NetConcat(p.ledger, Written(p, q));
  }

  lemma {:induction false} RunNets(b: Books, calls: seq<Call>, pick: Pick)
    requires FilesConsistent(b) && Net(Select(b.rows, pick)) == 0
    ensures Net(Select(Run(b, calls).rows, pick)) == 0
    decreases |calls|
  {
    hide Consistent, Net, Select, Payments.Step;
    if calls == [] {
    } else {
      var c, next := calls[0], Step(b, calls[0]);
      StepKeepsFiles(b, c);
      if c.Calling? && c.payment < |b.files| {
        var p := b.files[c.payment];
        var q := Payments.Step(p, c.event);
        assert next.files[c.payment] == q;
        WrittenNets(p, q);
        SelectTagged(b.rows, Written(p, q), c.payment, c.at, pick);
        NetConcat(Select(b.rows, pick), Written(p, q));
        if !pick(c.payment, c.at) { assert Select(b.rows, pick) + [] == Select(b.rows, pick); }
      }
      RunNets(next, calls[1..], pick);
    }
  }

  /** After any calls on any payments, every report over whole transactions balances. */
  lemma ReportBalances(calls: seq<Call>, pick: Pick)
    ensures Identity(Metrics(Select(Run(EMPTY, calls).rows, pick)))
  {
    RunNets(EMPTY, calls, pick);
    NetIsIdentity(Select(Run(EMPTY, calls).rows, pick));
  }

  // ---------------------------------------------------------------------------
  // The journal and the payments
  // ---------------------------------------------------------------------------

  function Only(payment: nat): Pick {
    (p: nat, at: nat) => p == payment
  }

  /** All the entries of the capture of one payment were written at one instant. */
  ghost predicate OneCaptureTime(rows: seq<Row>) {
    forall r, s | r in rows && s in rows && r.entry.kind == CaptureEntry && s.entry.kind == CaptureEntry
      :: r.payment == s.payment ==> r.at == s.at
  }

  /** The journal holds, for each payment, exactly its book. */
  ghost predicate JournalAgrees(b: Books) {
    && FilesConsistent(b)
    && (forall r :: r in b.rows ==> r.payment < |b.files|)
    && (forall i :: 0 <= i < |b.files| ==> Select(b.rows, Only(i)) == b.files[i].ledger)
    && OneCaptureTime(b.rows)
  }

  lemma {:induction false} TaggedRows(es: seq<Entry>, payment: nat, at: nat)
    ensures forall r :: r in Tagged(es, payment, at) ==> r.payment == payment && r.at == at && r.entry in es
  {
    if es == [] {
    } else {
      TaggedRows(es[..|es| - 1], payment, at);
    }
  }

  lemma {:induction false} NothingSelected(rows: seq<Row>, payment: nat)
    ensures Select(rows, Only(payment)) == [] ==> forall r :: r in rows ==> r.payment != payment
    ensures (forall r :: r in rows ==> r.payment != payment) ==> Select(rows, Only(payment)) == []
  {
    if rows == [] {
    } else {
      var rest, last := rows[..|rows| - 1], rows[|rows| - 1];
      NothingSelected(rest, payment);
      assert rows == rest + [last];
    }
  }

  lemma OpeningAgrees(b: Books, quote: Breakdown)
    requires JournalAgrees(b)
    ensures JournalAgrees(Step(b, Opening(quote)))
  {
    hide Consistent, Select;
    StepKeepsFiles(b, Opening(quote));
    NothingSelected(b.rows, |b.files|);
  }

  lemma CallingAgrees(b: Books, i: nat, e: Event, at: nat)
    requires JournalAgrees(b) && i < |b.files|
    ensures JournalAgrees(Step(b, Calling(i, e, at)))
  {
    hide Consistent, Payments.Step, Select;
    var p, q := b.files[i], Payments.Step(b.files[i], e);
    var next, added := Step(b, Calling(i, e, at)), Tagged(Written(p, q), i, at);
    StepKeepsFiles(b, Calling(i, e, at));
    StepContinues(p, e);
    TaggedRows(Written(p, q), i, at);
    forall k | 0 <= k < |next.files| ensures Select(next.rows, Only(k)) == next.files[k].ledger {
      SelectTagged(b.rows, Written(p, q), i, at, Only(k));
    }
    if p.ledger == [] { NothingSelected(b.rows, i); }
    forall r, s | r in next.rows && s in next.rows && r.entry.kind == CaptureEntry && s.entry.kind == CaptureEntry
                  && r.payment == s.payment ensures r.at == s.at {
      if r !in b.rows || s !in b.rows {
        assert r in added || s in added;
        assert p.ledger == [];
      }
    }
  }

  lemma {:induction false} RunAgrees(b: Books, calls: seq<Call>)
    requires JournalAgrees(b)
    ensures JournalAgrees(Run(b, calls))
    decreases |calls|
  {
    hide JournalAgrees, Step;
    if calls == [] {
    } else {
      var c := calls[0];
      StepAgrees(b, c);
      RunAgrees(Step(b, c), calls[1..]);
    }
  }

  lemma StepAgrees(b: Books, c: Call)
    requires JournalAgrees(b)
    ensures JournalAgrees(Step(b, c))
  {
    match c {
      case Opening(quote) => OpeningAgrees(b, quote);
      case Calling(i, e, at) => if i < |b.files| { CallingAgrees(b, i, e, at); }
    }
    hide JournalAgrees;
  }

  lemma MetricsOfBook(p: Payment)
    requires Consistent(p)
    ensures Charged(p.ledger) == p.captured && Returned(p.ledger) == p.refunded && Lost(p.ledger) == LostCents(p.ledger)
  {
    hide ChargebackAgrees, RefundAgrees, Balanced, AtMostOneOpen;
    RefundsPostAmount(p.refunds, Effective(p), p.refunded);
  }

  /** What the report says of one payment over all time is what the payment itself says. */
  lemma ReportAgreesWithPayment(calls: seq<Call>, i: nat)
    requires i < |Run(EMPTY, calls).files|
    ensures var b := Run(EMPTY, calls);
            var p, es := b.files[i], Select(b.rows, Only(i));
            && Charged(es) == p.captured && Returned(es) == p.refunded && Lost(es) == LostCents(p.ledger)
            && |CapturedIn(b.rows, Only(i))| == (if p.captured > 0 then 1 else 0)
  {
    RunAgrees(EMPTY, calls);
    var b := Run(EMPTY, calls);
    hide Run, Consistent, Charged, Returned, Lost;
    MetricsOfBook(b.files[i]);
    PaymentOnce(b.rows, i, b.files[i]);
  }

  /** What the refunds of a payment took back from each party, and what of them the platform absorbed. */
  function GivenBack(refunds: seq<Refund>): Allocation {
    if refunds == [] then NOT_ALLOCATED
    else
      var before, r := GivenBack(refunds[..|refunds| - 1]), refunds[|refunds| - 1];
      if r.status != Succeeded then before
      else
        Allocation(before.technician + r.allocation.technician, before.commission + r.allocation.commission,
            before.vat + r.allocation.vat, before.withholding + r.allocation.withholding,
            before.platform + r.allocation.platform)
  }

  lemma {:induction false} GivenBackPosted(refunds: seq<Refund>)
    ensures var g := GivenBack(refunds);
            && Total(refunds, Posted(TechnicianPayable)) == -g.technician
            && Total(refunds, Posted(PlatformRevenue)) == -g.commission
            && Total(refunds, Posted(VatPayable)) == -g.vat
            && Total(refunds, Posted(TaxWithheld)) == -g.withholding
            && Total(refunds, Posted(Account.Refunds)) == -g.platform
  {
    if refunds == [] {
    } else {
      GivenBackPosted(refunds[..|refunds| - 1]);
    }
  }

  /**
   Each figure of the report of one payment is its own part: what the capture gave that party, less what refunds and a
   lost dispute took back from it.
   */
  lemma MetricsExplained(p: Payment)
    requires Consistent(p) && p.captured > 0
    ensures var m, b, g := Metrics(p.ledger), Effective(p), GivenBack(p.refunds);
            var lost, recovered := LostCents(p.ledger), RecoveredCents(p.ledger);
            && m.charged == b.gross - b.discount && m.refunded == p.refunded && m.chargedBack == lost
            && m.technicians == b.technician - g.technician - recovered
            && m.commission == b.commission - g.commission
            && m.vat == b.commissionTax - g.vat
            && m.withheld == b.isr + b.iva - g.withholding
            && m.absorbed == g.platform + (lost - recovered)
  {
    hide Consistent, Balance, Total, GivenBack;
    GivenBackPosted(p.refunds);
    MetricsOfBook(p);
    BalanceExplained(p, TechnicianPayable);
    BalanceExplained(p, PlatformRevenue);
    BalanceExplained(p, VatPayable);
    BalanceExplained(p, TaxWithheld);
    BalanceExplained(p, Account.Refunds);
    ChargedInFull(p);
    hide Charged, Returned, Lost, LostCents, RecoveredCents;
  }

  lemma ChargedInFull(p: Payment)
    requires Consistent(p) && p.captured > 0
    ensures p.captured == Effective(p).gross - Effective(p).discount
  {
    hide RefundsAgree, BookAgrees, ChargebackAgrees, RowAdmitted;
  }

  lemma {:induction false} RefundsPostAmount(refunds: seq<Refund>, b: Breakdown, refunded: nat)
    ensures Total(refunds, Posted(Customer)) == Total(refunds, DoneCents)
  {
    if refunds == [] {
    } else {
      RefundsPostAmount(refunds[..|refunds| - 1], b, refunded);
    }
  }

  lemma {:induction false} SelectedFrom(rows: seq<Row>, i: nat, e: Entry)
    ensures e in Select(rows, Only(i)) <==> exists r :: r in rows && r.payment == i && r.entry == e
  {
    if rows == [] {
    } else {
      var rest, last := rows[..|rows| - 1], rows[|rows| - 1];
      SelectedFrom(rest, i, e);
      assert rows == rest + [last];
    }
  }

  lemma {:induction false} NoCaptureNoCount(es: seq<Entry>)
    ensures Captures(es) > 0 ==> exists e :: e in es && e.kind == CaptureEntry
    ensures (forall e :: e in es ==> e.kind != CaptureEntry) ==> Captures(es) == 0
  {
    if es == [] {
    } else {
      NoCaptureNoCount(es[..|es| - 1]);
      assert es == es[..|es| - 1] + [es[|es| - 1]];
    }
  }

  lemma PaymentOnce(rows: seq<Row>, i: nat, p: Payment)
    requires Consistent(p) && Select(rows, Only(i)) == p.ledger
    ensures CapturedIn(rows, Only(i)) == if p.captured > 0 then {i} else {}
  {
    hide RefundsAgree, ChargebackAgrees, AmountsAgree, Select;
    NoCaptureNoCount(p.ledger);
    NothingSelected(rows, i);
    if p.captured > 0 {
      var e :| e in p.ledger && e.kind == CaptureEntry;
      SelectedFrom(rows, i, e);
    }
  }

  // ---------------------------------------------------------------------------
  // Groups
  // ---------------------------------------------------------------------------

  function OfKey(pick: Pick, key: (nat, nat) -> nat, k: nat): Pick {
    (p: nat, at: nat) => pick(p, at) && key(p, at) == k
  }

  function OfKeys(pick: Pick, key: (nat, nat) -> nat, keys: seq<nat>): Pick {
    (p: nat, at: nat) => pick(p, at) && key(p, at) in keys
  }

  function AddLine(a: Line, b: Line): Line {
    Line(Add(a.sums, b.sums), a.captured + b.captured)
  }

  lemma NothingMeasured()
    ensures Metrics([]) == NOTHING
  {
  }

  lemma NothingSeen(pick: Pick)
    ensures Select([], pick) == [] && CapturedIn([], pick) == {}
  {
  }

  /** One more row adds its entry to a report that looks at it. */
  lemma RowMeasured(rows: seq<Row>, r: Row, pick: Pick)
    ensures Metrics(Select(rows + [r], pick))
            == Add(Metrics(Select(rows, pick)), if pick(r.payment, r.at) then Metrics([r.entry]) else NOTHING)
    ensures CapturedIn(rows + [r], pick)
            == CapturedIn(rows, pick)
             + if pick(r.payment, r.at) && r.entry.kind == CaptureEntry then {r.payment} else {}
  {
    hide Metrics;
    assert (rows + [r])[..|rows|] == rows;
    MetricsConcat(Select(rows, pick), [r.entry]);
    assert Select(rows, pick) + [] == Select(rows, pick);
  }

  lemma AddLaws(a: Sums, b: Sums, c: Sums)
    ensures Add(Add(a, b), c) == Add(Add(a, c), b) == Add(a, Add(b, c))
    ensures Add(a, NOTHING) == a
  {
  }

  /** A report over two windows that do not overlap adds up. */
  lemma {:induction false} SumsSplit(rows: seq<Row>, whole: Pick, left: Pick, right: Pick)
    requires forall p, at :: whole(p, at) == (left(p, at) || right(p, at)) && !(left(p, at) && right(p, at))
    ensures Metrics(Select(rows, whole)) == Add(Metrics(Select(rows, left)), Metrics(Select(rows, right)))
  {
    hide Metrics, CapturedIn, Select, Add;
    if rows == [] {
      NothingSeen(whole);
      NothingSeen(left);
      NothingSeen(right);
      NothingMeasured();
      AddLaws(NOTHING, NOTHING, NOTHING);
    } else {
      var rest, r := rows[..|rows| - 1], rows[|rows| - 1];
      assert rows == rest + [r];
      SumsSplit(rest, whole, left, right);
      RowMeasured(rest, r, whole);
      RowMeasured(rest, r, left);
      RowMeasured(rest, r, right);
      var a, b, e := Metrics(Select(rest, left)), Metrics(Select(rest, right)), Metrics([r.entry]);
      AddLaws(a, b, e);
      AddLaws(b, a, e);
      AddLaws(Metrics(Select(rest, whole)), a, b);
    }
  }

  lemma CountsOfOneMoreKey(rows: seq<Row>, pick: Pick, key: (nat, nat) -> nat, keys: seq<nat>, k: nat)
    requires k !in keys && OneCaptureTime(rows)
    ensures |CapturedIn(rows, OfKeys(pick, key, keys + [k]))|
            == |CapturedIn(rows, OfKeys(pick, key, keys))| + |CapturedIn(rows, OfKey(pick, key, k))|
  {
    var all, some, one := CapturedIn(rows, OfKeys(pick, key, keys + [k])), CapturedIn(rows, OfKeys(pick, key, keys)),
                          CapturedIn(rows, OfKey(pick, key, k));
    assert all == some + one;
    assert some !! one;
  }

  /** Sums the selected entries one by one, and counts the payments captured among them. */
  method SumLine(rows: seq<Row>, pick: Pick) returns (line: Line)
    ensures line == LineOf(rows, pick)
  {
    hide Metrics, Select, CapturedIn;
    var sums, captured := NOTHING, {};
    NothingMeasured();
    NothingSeen(pick);
    for i := 0 to |rows|
      invariant sums == Metrics(Select(rows[..i], pick))
      invariant captured == CapturedIn(rows[..i], pick)
    {
      var r := rows[i];
      assert rows[..i + 1] == rows[..i] + [r];
      RowMeasured(rows[..i], r, pick);
      if pick(r.payment, r.at) {
        sums := Add(sums, Metrics([r.entry]));
        if r.entry.kind == CaptureEntry { captured := captured + {r.payment}; }
      }
    }
    assert rows[..|rows|] == rows;
    line := Line(sums, |captured|);
  }

  predicate Distinct(keys: seq<nat>) {
    forall i, j :: 0 <= i < j < |keys| ==> keys[i] != keys[j]
  }

  method KeysOf(rows: seq<Row>, pick: Pick, key: (nat, nat) -> nat) returns (keys: seq<nat>)
    ensures Distinct(keys)
    ensures forall r :: r in rows && pick(r.payment, r.at) ==> key(r.payment, r.at) in keys
    ensures forall k :: k in keys ==> exists r :: r in rows && pick(r.payment, r.at) && key(r.payment, r.at) == k
  {
    keys := [];
    for i := 0 to |rows|
      invariant Distinct(keys)
      invariant forall j :: 0 <= j < i && pick(rows[j].payment, rows[j].at) ==> key(rows[j].payment, rows[j].at) in keys
      invariant forall k :: k in keys ==> exists r :: r in rows && pick(r.payment, r.at) && key(r.payment, r.at) == k
    {
      var r := rows[i];
      if pick(r.payment, r.at) && key(r.payment, r.at) !in keys { keys := keys + [key(r.payment, r.at)]; }
    }
  }

  lemma {:induction false} AllKeys(rows: seq<Row>, pick: Pick, key: (nat, nat) -> nat, keys: seq<nat>)
    requires forall r :: r in rows && pick(r.payment, r.at) ==> key(r.payment, r.at) in keys
    ensures Select(rows, OfKeys(pick, key, keys)) == Select(rows, pick)
    ensures CapturedIn(rows, OfKeys(pick, key, keys)) == CapturedIn(rows, pick)
  {
    if rows == [] {
    } else {
      var rest, last := rows[..|rows| - 1], rows[|rows| - 1];
      assert rows == rest + [last];
      AllKeys(rest, pick, key, keys);
    }
  }

  lemma {:induction false} NoKeys(rows: seq<Row>, pick: Pick, key: (nat, nat) -> nat)
    ensures Select(rows, OfKeys(pick, key, [])) == [] && CapturedIn(rows, OfKeys(pick, key, [])) == {}
  {
    if rows == [] {
    } else {
      NoKeys(rows[..|rows| - 1], pick, key);
    }
  }

  /** In every reachable journal a captured payment falls in one group, so that groups count it once. */
  lemma CapturedOnceInTime(calls: seq<Call>)
    ensures OneCaptureTime(Run(EMPTY, calls).rows)
  {
    RunAgrees(EMPTY, calls);
    hide Run;
  }

  /**
   The report by groups: a line for each key in the window, and the totals added up from the lines. The
   totals are those of the window as a whole, the count of captured payments included.
   */
  method Summary(rows: seq<Row>, pick: Pick, key: (nat, nat) -> nat)
    returns (keys: seq<nat>, groups: seq<Line>, total: Line)
    ensures Distinct(keys) && |groups| == |keys|
    ensures forall r :: r in rows && pick(r.payment, r.at) ==> key(r.payment, r.at) in keys
    ensures forall j :: 0 <= j < |keys| ==> groups[j] == LineOf(rows, OfKey(pick, key, keys[j]))
    ensures total.sums == LineOf(rows, pick).sums
    ensures OneCaptureTime(rows) ==> total.captured == LineOf(rows, pick).captured
  {
    hide Metrics, Select, CapturedIn, OneCaptureTime;
    keys := KeysOf(rows, pick, key);
    groups, total := [], Line(NOTHING, 0);
    NoKeys(rows, pick, key);
    NothingMeasured();
    for j := 0 to |keys|
      invariant |groups| == j
      invariant forall i :: 0 <= i < j ==> groups[i] == LineOf(rows, OfKey(pick, key, keys[i]))
      invariant total.sums == LineOf(rows, OfKeys(pick, key, keys[..j])).sums
      invariant OneCaptureTime(rows) ==> total.captured == LineOf(rows, OfKeys(pick, key, keys[..j])).captured
    {
      var line := SumLine(rows, OfKey(pick, key, keys[j]));
      groups := groups + [line];
      total := AddLine(total, line);
      assert keys[..j + 1] == keys[..j] + [keys[j]];
      SumsSplit(rows, OfKeys(pick, key, keys[..j + 1]), OfKeys(pick, key, keys[..j]), OfKey(pick, key, keys[j]));
      if OneCaptureTime(rows) { CountsOfOneMoreKey(rows, pick, key, keys[..j], keys[j]); }
    }
    assert keys[..|keys|] == keys;
    AllKeys(rows, pick, key, keys);
  }

  // ---------------------------------------------------------------------------
  // Balances of an account
  // ---------------------------------------------------------------------------

  /** The entries of one payment or of all, from an instant on and before another. */
  function Window(payment: Option<nat>, since: Option<nat>, until: Option<nat>): Pick {
    (p: nat, at: nat) => (payment.Some? ==> p == payment.value) && (since.Some? ==> since.value <= at)
                         && (until.Some? ==> at < until.value)
  }

  function BalanceOf(rows: seq<Row>, a: Account, payment: Option<nat>, since: Option<nat>, until: Option<nat>): int {
    Balance(Select(rows, Window(payment, since, until)), a)
  }

  lemma {:induction false} BalanceSplit(rows: seq<Row>, whole: Pick, left: Pick, right: Pick, a: Account)
    requires forall p, at :: whole(p, at) == (left(p, at) || right(p, at)) && !(left(p, at) && right(p, at))
    ensures Balance(Select(rows, whole), a) == Balance(Select(rows, left), a) + Balance(Select(rows, right), a)
  {
    if rows == [] {
    } else {
      hide Select, Balance;
      var rest, r := rows[..|rows| - 1], rows[|rows| - 1];
      assert rows == rest + [r];
      BalanceSplit(rest, whole, left, right, a);
      RowBalanced(rest, r, whole, a);
      RowBalanced(rest, r, left, a);
      RowBalanced(rest, r, right, a);
    }
  }

  lemma RowBalanced(rows: seq<Row>, r: Row, pick: Pick, a: Account)
    ensures Balance(Select(rows + [r], pick), a)
            == Balance(Select(rows, pick), a) + if pick(r.payment, r.at) then Balance([r.entry], a) else 0
  {
    assert (rows + [r])[..|rows|] == rows;
    BalanceConcat(Select(rows, pick), [r.entry], a);
    assert Select(rows, pick) + [] == Select(rows, pick);
  }

  /** The instant where a window is cut; a window is open on a side that has no bound. */
  predicate Inside(mid: nat, since: Option<nat>, until: Option<nat>) {
    (since.Some? ==> since.value <= mid) && (until.Some? ==> mid <= until.value)
  }

  /** A balance over a window is the sum of the balances over its two parts, wherever it is cut. */
  lemma BalancesAddUp(rows: seq<Row>, a: Account, payment: Option<nat>, since: Option<nat>, mid: nat,
      until: Option<nat>)
    requires Inside(mid, since, until)
    ensures BalanceOf(rows, a, payment, since, until)
            == BalanceOf(rows, a, payment, since, Some(mid)) + BalanceOf(rows, a, payment, Some(mid), until)
  {
    BalanceSplit(rows, Window(payment, since, until), Window(payment, since, Some(mid)),
        Window(payment, Some(mid), until), a);
  }

  lemma {:induction false} SamePick(rows: seq<Row>, pick: Pick, other: Pick)
    requires forall p, at :: pick(p, at) == other(p, at)
    ensures Select(rows, pick) == Select(rows, other)
  {
    if rows == [] {
    } else {
      SamePick(rows[..|rows| - 1], pick, other);
    }
  }

  /** In every reachable journal the balance of one payment over all time is that of its own book. */
  lemma BalanceOfPayment(calls: seq<Call>, i: nat, a: Account)
    requires i < |Run(EMPTY, calls).files|
    ensures var b := Run(EMPTY, calls); BalanceOf(b.rows, a, Some(i), None, None) == Balance(b.files[i].ledger, a)
    ensures
      var b := Run(EMPTY, calls);
      a != Customer && a != Account.Refunds ==> BalanceOf(b.rows, a, Some(i), None, None) >= 0
  {
    RunAgrees(EMPTY, calls);
    var b := Run(EMPTY, calls);
    hide Run, Consistent, Conserved;
    SamePick(b.rows, Window(Some(i), None, None), Only(i));
    OwnBookCredited(b.files[i], a);
  }

  lemma OwnBookCredited(p: Payment, a: Account)
    requires Consistent(p)
    ensures a != Customer && a != Account.Refunds ==> Balance(p.ledger, a) >= 0
  {
    ConsistentConserves(p);
    hide Consistent;
  }
}
