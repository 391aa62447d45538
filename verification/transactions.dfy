/**
 * Transactions and the pairing of each transaction with the internal
 * transactions that share its hash (the `mapNotNull`/`filter` expression in
 * `TransactionManager.update` and the `isEmpty` test beside it).
 */
module Transactions {

  /** An ordinary transaction: its hash (the primary key) and the value it moves. */
  datatype Transaction = Transaction(hash: seq<int>, value: int)

  /** A sub-transaction caused by contract execution inside the transaction with `hash`. */
  datatype InternalTransaction = InternalTransaction(hash: seq<int>, traceId: int)

  /** The unit delivered to listeners: a transaction and its internal transactions. */
  datatype TransactionWithInternal =
    TransactionWithInternal(transaction: Transaction, internalTransactions: seq<InternalTransaction>)

  /** A pairing carries nothing a listener needs when it moves no value and has no internal transactions. */
  predicate IsEmpty(p: TransactionWithInternal) {
    p.transaction.value == 0 && p.internalTransactions == []
  }

  /**
   * The internal transactions of `itxs` whose hash equals `hash`, in their
   * original order: exactly those, each as often as it occurs in `itxs`.
   */
  function InternalsOf(itxs: seq<InternalTransaction>, hash: seq<int>): (m: seq<InternalTransaction>)
    ensures |m| <= |itxs|
    ensures forall x :: x in m ==> x.hash == hash
    ensures forall x :: multiset(m)[x] == if x.hash == hash then multiset(itxs)[x] else 0
  {
    if itxs == [] then []
    else
      assert itxs == [itxs[0]] + itxs[1..];
      if itxs[0].hash == hash then [itxs[0]] + InternalsOf(itxs[1..], hash)
      else InternalsOf(itxs[1..], hash)
  }

  /** The pairing `update` builds for one transaction: the transaction with the internal transactions of its hash. */
  function WithInternals(tx: Transaction, itxs: seq<InternalTransaction>): (p: TransactionWithInternal)
    ensures p.transaction == tx
    ensures forall x :: x in p.internalTransactions ==> x.hash == tx.hash
    ensures forall x :: x in itxs && x.hash == tx.hash ==> x in p.internalTransactions
  {
    TransactionWithInternal(tx, InternalsOf(itxs, tx.hash))
  }

  /**
   * The pairings `update` hands to the listener: one per transaction, in
   * transaction order, with the empty ones dropped.
   */
  function Pair(txs: seq<Transaction>, itxs: seq<InternalTransaction>): (r: seq<TransactionWithInternal>)
    ensures |r| <= |txs|
    ensures forall p :: p in r ==> !IsEmpty(p) && p.transaction in txs
    ensures forall p :: p in r ==> p.internalTransactions == InternalsOf(itxs, p.transaction.hash)
    ensures forall t :: t in txs && !IsEmpty(WithInternals(t, itxs)) ==> WithInternals(t, itxs) in r
  {
    if txs == [] then []
    else
      var p := WithInternals(txs[0], itxs);
      var rest := Pair(txs[1..], itxs);
      assert forall t :: t in txs ==> t == txs[0] || t in txs[1..];
      if IsEmpty(p) then rest else [p] + rest
  }

  /**
   * The pairing `update` builds for a transaction is dropped exactly when the
   * transaction moves no value and no internal transaction carries its hash:
   * one matching internal transaction is enough for it to be delivered.
   */
  lemma EmptyPairing(t: Transaction, itxs: seq<InternalTransaction>)
    ensures IsEmpty(WithInternals(t, itxs)) <==> t.value == 0 && forall x :: x in itxs ==> x.hash != t.hash
  {
    var m := WithInternals(t, itxs).internalTransactions;
    if exists x :: x in itxs && x.hash == t.hash {
      var x :| x in itxs && x.hash == t.hash;
      assert x in m;
    }
  }

  /** Filtering by hash distributes over concatenation: the order of `itxs` is kept. */
  lemma {:induction false} InternalsOfAppend(a: seq<InternalTransaction>, b: seq<InternalTransaction>, hash: seq<int>)
    ensures InternalsOf(a + b, hash) == InternalsOf(a, hash) + InternalsOf(b, hash)
  {
    if a == [] {
      assert a + b == b;
    } else {
      assert (a + b)[1..] == a[1..] + b;
      InternalsOfAppend(a[1..], b, hash);
    }
  }

  /**
   * Pairing distributes over concatenation of the transaction list; with
   * `PairSingle` this pins `Pair` down completely: each transaction in turn,
   * in order, contributes its pairing unless that pairing is empty.
   */
  lemma {:induction false} PairAppend(a: seq<Transaction>, b: seq<Transaction>, itxs: seq<InternalTransaction>)
    ensures Pair(a + b, itxs) == Pair(a, itxs) + Pair(b, itxs)
  {
    if a == [] {
      assert a + b == b;
    } else {
      assert (a + b)[1..] == a[1..] + b;
      PairAppend(a[1..], b, itxs);
    }
  }

  /** One transaction yields its pairing, unless that pairing is empty. */
  lemma PairSingle(t: Transaction, itxs: seq<InternalTransaction>)
    ensures Pair([t], itxs) == if IsEmpty(WithInternals(t, itxs)) then [] else [WithInternals(t, itxs)]
  {
  }

  /** When no pairing is empty, nothing is dropped: the k-th output belongs to the k-th transaction. */
  lemma {:induction false} PairKeepsAll(txs: seq<Transaction>, itxs: seq<InternalTransaction>)
    requires forall k :: 0 <= k < |txs| ==> !IsEmpty(WithInternals(txs[k], itxs))
    ensures |Pair(txs, itxs)| == |txs|
    ensures forall k :: 0 <= k < |txs| ==> Pair(txs, itxs)[k] == WithInternals(txs[k], itxs)
  {
    if txs != [] {
      assert !IsEmpty(WithInternals(txs[0], itxs));
      assert forall k :: 0 <= k < |txs[1..]| ==> txs[1..][k] == txs[k + 1];
      PairKeepsAll(txs[1..], itxs);
    }
  }

  /** A transaction paired with no internal transactions is empty exactly when it moves no value. */
  lemma {:induction false} PairWithoutInternals(t: Transaction)
    ensures Pair([t], []) == if t.value != 0 then [TransactionWithInternal(t, [])] else []
  {
    assert InternalsOf([], t.hash) == [];
    PairSingle(t, []);
  }
}
