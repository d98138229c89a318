/**
 The double-entry book. Each movement of money is one group of entries that sums to zero; zero lines are
 not written. A positive amount is owed to the account, a negative one is charged to it.
 */
module Ledger {
  import opened Results

  datatype Account = Customer | TechnicianPayable | PlatformRevenue | VatPayable | TaxWithheld | Refunds

  const ACCOUNTS: seq<Account> := [Customer, TechnicianPayable, PlatformRevenue, VatPayable, TaxWithheld, Refunds]

  function Index(a: Account): (i: nat)
    ensures i < |ACCOUNTS| && ACCOUNTS[i] == a
  {
    match a
    case Customer => 0
    case TechnicianPayable => 1
    case PlatformRevenue => 2
    case VatPayable => 3
    case TaxWithheld => 4
    case Refunds => 5
  }

  datatype EntryKind = CaptureEntry | RefundEntry | ChargebackEntry

  datatype Entry = Entry(group: nat, kind: EntryKind, account: Account, cents: int)

  /** What one movement does to every account. */
  datatype Lines = Lines(customer: int, technician: int, revenue: int, vat: int, withheld: int, refunds: int)
  {
    function At(a: Account): int {
      match a
      case Customer => customer
      case TechnicianPayable => technician
      case PlatformRevenue => revenue
      case VatPayable => vat
      case TaxWithheld => withheld
      case Refunds => refunds
    }

    function Total(): int {
      customer + technician + revenue + vat + withheld + refunds
    }
  }

  const NO_LINES := Lines(0, 0, 0, 0, 0, 0)

  /** The entries of a group for the first `n` accounts. */
  function EntriesOf(group: nat, kind: EntryKind, lines: Lines, n: nat): seq<Entry>
    requires n <= |ACCOUNTS|
  {
    if n == 0 then []
    else
      var account := ACCOUNTS[n - 1];
      EntriesOf(group, kind, lines, n - 1)
      + if lines.At(account) == 0 then [] else [Entry(group, kind, account, lines.At(account))]
  }

  /** The book after one more group, named after the number of entries before it. */
  function Post(book: seq<Entry>, kind: EntryKind, lines: Lines): Result<seq<Entry>> {
    if lines == NO_LINES then Err(LedgerEmpty)
    else if lines.Total() != 0 then Err(LedgerUnbalanced)
    else Ok(book + EntriesOf(|book|, kind, lines, |ACCOUNTS|))
  }

  /** Writes the nonzero lines of a group one by one. */
  method WriteGroup(book: seq<Entry>, kind: EntryKind, lines: Lines) returns (r: Result<seq<Entry>>)
    ensures r == Post(book, kind, lines)
  {
    if lines == NO_LINES { return Err(LedgerEmpty); }
    if lines.Total() != 0 { return Err(LedgerUnbalanced); }
    var out := book;
    for i := 0 to |ACCOUNTS|
      invariant out == book + EntriesOf(|book|, kind, lines, i)
    {
      if lines.At(ACCOUNTS[i]) != 0 {
        out := out + [Entry(|book|, kind, ACCOUNTS[i], lines.At(ACCOUNTS[i]))];
      }
    }
    return Ok(out);
  }

  // ---------------------------------------------------------------------------
  // Reading the book
  // ---------------------------------------------------------------------------

  function Sum(book: seq<Entry>, kind: EntryKind, a: Account): int {
    if book == [] then 0
    else
      var e := book[|book| - 1];
      Sum(book[..|book| - 1], kind, a) + if e.kind == kind && e.account == a then e.cents else 0
  }

  /** The balance of an account, over all kinds of movements. */
  function Balance(book: seq<Entry>, a: Account): int {
    if book == [] then 0
    else
      var e := book[|book| - 1];
      Balance(book[..|book| - 1], a) + if e.account == a then e.cents else 0
  }

  function GroupTotal(book: seq<Entry>, group: nat): int {
    if book == [] then 0
    else
      var e := book[|book| - 1];
      GroupTotal(book[..|book| - 1], group) + if e.group == group then e.cents else 0
  }

  /** How many capture groups the book holds: each has one line for the customer. */
  function Captures(book: seq<Entry>): nat {
    if book == [] then 0
    else
      var e := book[|book| - 1];
      Captures(book[..|book| - 1]) + if e.kind == CaptureEntry && e.account == Customer then 1 else 0
  }

  /** Every group sums to zero, and no group is named before it is written. */
  ghost predicate Balanced(book: seq<Entry>) {
    && (forall i :: 0 <= i < |book| ==> book[i].group < |book|)
    && (forall g :: GroupTotal(book, g) == 0)
  }

  lemma {:induction false} BalanceByKind(book: seq<Entry>, a: Account)
    ensures Balance(book, a) == Sum(book, CaptureEntry, a) + Sum(book, RefundEntry, a) + Sum(book, ChargebackEntry, a)
  {
    if book == [] {
    } else {
      BalanceByKind(book[..|book| - 1], a);
    }
  }

  lemma AppendEntry(book: seq<Entry>, e: Entry, k: EntryKind, a: Account, g: nat)
    ensures Sum(book + [e], k, a) == Sum(book, k, a) + if e.kind == k && e.account == a then e.cents else 0
    ensures GroupTotal(book + [e], g) == GroupTotal(book, g) + if e.group == g then e.cents else 0
    ensures Captures(book + [e]) == Captures(book) + if e.kind == CaptureEntry && e.account == Customer then 1 else 0
  {
    assert (book + [e])[..|book|] == book;
  }

  function PrefixTotal(lines: Lines, n: nat): int
    requires n <= |ACCOUNTS|
  {
    if n == 0 then 0 else PrefixTotal(lines, n - 1) + lines.At(ACCOUNTS[n - 1])
  }

  lemma PrefixesTotal(lines: Lines)
    ensures PrefixTotal(lines, |ACCOUNTS|) == lines.Total()
  {
    assert PrefixTotal(lines, 1) == lines.customer;
    assert PrefixTotal(lines, 2) == lines.customer + lines.technician;
    assert PrefixTotal(lines, 3) == lines.customer + lines.technician + lines.revenue;
    assert PrefixTotal(lines, 4) == lines.customer + lines.technician + lines.revenue + lines.vat;
    assert PrefixTotal(lines, 5) == lines.Total() - lines.refunds;
  }

  lemma {:induction false} PostedPrefix(book: seq<Entry>, group: nat, kind: EntryKind, lines: Lines, n: nat,
      k: EntryKind, a: Account, g: nat)
    requires n <= |ACCOUNTS|
    ensures var after := book + EntriesOf(group, kind, lines, n);
            && Sum(after, k, a) == Sum(book, k, a) + (if k == kind && Index(a) < n then lines.At(a) else 0)
            && GroupTotal(after, g) == GroupTotal(book, g) + (if g == group then PrefixTotal(lines, n) else 0)
            && Captures(after)
               == Captures(book) + (if kind == CaptureEntry && n > 0 && lines.customer != 0 then 1 else 0)
  {
    hide Sum, GroupTotal, Captures;
    if n == 0 {
      assert book + EntriesOf(group, kind, lines, n) == book;
    } else {
      PostedPrefix(book, group, kind, lines, n - 1, k, a, g);
      var account := ACCOUNTS[n - 1];
      var before := book + EntriesOf(group, kind, lines, n - 1);
      var e := Entry(group, kind, account, lines.At(account));
      assert Index(account) == n - 1;
      if e.cents == 0 {
        assert book + EntriesOf(group, kind, lines, n) == before;
      } else {
        assert book + EntriesOf(group, kind, lines, n) == before + [e];
        AppendEntry(before, e, k, a, g);
      }
    }
  }

  /** A posted group moves each account by its line, under its own kind only. */
  lemma PostMoves(book: seq<Entry>, kind: EntryKind, lines: Lines, k: EntryKind, a: Account)
    requires Post(book, kind, lines).Ok?
    ensures Sum(Post(book, kind, lines).value, k, a) == Sum(book, k, a) + if k == kind then lines.At(a) else 0
  {
    PostedPrefix(book, |book|, kind, lines, |ACCOUNTS|, k, a, 0);
  }

  lemma PostCounts(book: seq<Entry>, kind: EntryKind, lines: Lines)
    requires Post(book, kind, lines).Ok?
    ensures Captures(Post(book, kind, lines).value)
            == Captures(book) + if kind == CaptureEntry && lines.customer != 0 then 1 else 0
  {
    PostedPrefix(book, |book|, kind, lines, |ACCOUNTS|, kind, Customer, 0);
  }

  lemma {:induction false} EntriesNamed(group: nat, kind: EntryKind, lines: Lines, n: nat)
    requires n <= |ACCOUNTS|
    ensures forall e :: e in EntriesOf(group, kind, lines, n) ==> e.group == group && e.kind == kind && e.cents != 0
  {
    if n == 0 {
    } else {
      EntriesNamed(group, kind, lines, n - 1);
    }
  }

  /** What is posted is appended, and carries the kind of its movement. */
  lemma PostAppends(book: seq<Entry>, kind: EntryKind, lines: Lines)
    requires Post(book, kind, lines).Ok?
    ensures book <= Post(book, kind, lines).value
    ensures forall e :: e in Post(book, kind, lines).value[|book|..] ==> e.kind == kind
  {
    EntriesNamed(|book|, kind, lines, |ACCOUNTS|);
  }

  /** Posting never unbalances the book: every group still sums to zero. */
  lemma PostKeepsBalanced(book: seq<Entry>, kind: EntryKind, lines: Lines)
    requires Balanced(book) && Post(book, kind, lines).Ok?
    ensures Balanced(Post(book, kind, lines).value)
  {
    var after := Post(book, kind, lines).value;
    var added := EntriesOf(|book|, kind, lines, |ACCOUNTS|);
    EntriesNamed(|book|, kind, lines, |ACCOUNTS|);
    forall i | 0 <= i < |after| ensures after[i].group < |after| {
      if i >= |book| { assert after[i] in added; }
    }
    forall g: nat ensures GroupTotal(after, g) == 0 {
      PostedPrefix(book, |book|, kind, lines, |ACCOUNTS|, kind, Customer, g);
      PrefixesTotal(lines);
    }
  }
}
