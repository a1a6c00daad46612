/** The counters of one simulated arm (recovery/sim/metrics.py). */
module Metrics {
  import opened Models
  import opened Guards

  datatype Books = Books(
    moneyRecovered: nat,
    moneyAtRisk: nat,
    attemptsSpent: nat,
    contactsSent: nat,
    terminalAttemptsWasted: nat,
    terminalContactsSent: nat,
    mandatesPreserved: nat,
    mandatesRevoked: nat,
    mandatesHalted: nat,
    cases: nat,
    casesRecovered: nat,
    proposalsRejected: nat,
    rejectionReasons: map<BlockReason, nat>,
    mootProposals: nat,
    attemptsByClass: map<FailureClass, nat>,
    contactsByClass: map<FailureClass, nat>,
    contactCost: real)

  const BLANK := Books(0, 0, 0, 0, 0, 0, 0, 0, 0, 0, 0, 0, map[], 0, map[], map[], 0.0)

  function Get<K>(m: map<K, nat>, k: K): nat {
    if k in m then m[k] else 0
  }

  function Bump<K(!new)>(m: map<K, nat>, k: K): (r: map<K, nat>)
    ensures forall j :: Get(r, j) == Get(m, j) + if j == k then 1 else 0
  {
    m[k := Get(m, k) + 1]
  }

  function RecordMoot(b: Books): Books {
    b.(mootProposals := b.mootProposals + 1)
  }

  function RecordRejection(b: Books, reason: BlockReason): Books {
    b.(rejectionReasons := Bump(b.rejectionReasons, reason), proposalsRejected := b.proposalsRejected + 1)
  }

  function RecordAttempt(b: Books, c: FailureClass): Books {
    b.(attemptsSpent := b.attemptsSpent + 1,
       attemptsByClass := Bump(b.attemptsByClass, c),
       terminalAttemptsWasted := b.terminalAttemptsWasted + if c == Terminal then 1 else 0)
  }

  function RecordContact(b: Books, c: FailureClass, cost: real): Books {
    b.(contactsSent := b.contactsSent + 1,
       contactCost := b.contactCost + cost,
       contactsByClass := Bump(b.contactsByClass, c),
       terminalContactsSent := b.terminalContactsSent + if c == Terminal then 1 else 0)
  }

  function RecordRecovery(b: Books, amount: nat): Books {
    b.(moneyRecovered := b.moneyRecovered + amount, casesRecovered := b.casesRecovered + 1)
  }

  class ArmMetrics {
    var books: Books

    constructor ()
      ensures books == BLANK
    {
      books := BLANK;
    }

    method Moot()
      modifies this
      ensures books == RecordMoot(old(books))
    {
      books := books.(mootProposals := books.mootProposals + 1);
    }

    method Rejection(reason: BlockReason)
      modifies this
      ensures books == RecordRejection(old(books), reason)
    {
      books := books.(rejectionReasons := Bump(books.rejectionReasons, reason));
      books := books.(proposalsRejected := books.proposalsRejected + 1);
    }

    method Attempt(c: FailureClass)
      modifies this
      ensures books == RecordAttempt(old(books), c)
    {
      books := books.(attemptsSpent := books.attemptsSpent + 1);
      books := books.(attemptsByClass := Bump(books.attemptsByClass, c));
      if c == Terminal {
        books := books.(terminalAttemptsWasted := books.terminalAttemptsWasted + 1);
      }
    }

    method Contact(c: FailureClass, cost: real)
      modifies this
      ensures books == RecordContact(old(books), c, cost)
    {
      books := books.(contactsSent := books.contactsSent + 1, contactCost := books.contactCost + cost);
      books := books.(contactsByClass := Bump(books.contactsByClass, c));
      if c == Terminal {
        books := books.(terminalContactsSent := books.terminalContactsSent + 1);
      }
    }

    method Recovery(amount: nat)
      modifies this
      ensures books == RecordRecovery(old(books), amount)
    {
      books := books.(moneyRecovered := books.moneyRecovered + amount);
      books := books.(casesRecovered := books.casesRecovered + 1);
    }
  }
}
