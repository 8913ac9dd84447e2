/** The text of transfer references: one namespace per transaction, one name per attempt. */
module TransferReferences {
  import opened Decimal
  import opened EscrowProtocol

  /** `release:<transaction id>`. */
  function ReleaseKey(tx: string): string { "release:" + tx }

  function Reference(tx: string, a: Attempt): string {
    match a
    case Base => ReleaseKey(tx)
    case Retry(n) => ReleaseKey(tx) + ":r" + Digits(n)
  }

  /** Transaction ids are UUIDs: no colon. */
  predicate PlainId(tx: string) { forall i :: 0 <= i < |tx| ==> tx[i] != ':' }

  /** What follows the common prefix: the id, then nothing or a marked number. */
  function Tail(a: Attempt): string {
    match a
    case Base => ""
    case Retry(n) => ":r" + Digits(n)
  }

  lemma TailsDiffer(a: Attempt, b: Attempt)
    requires Tail(a) == Tail(b)
    ensures a == b
  {
    if a.Retry? && b.Retry? {
      assert Tail(a)[2..] == Digits(a.n) && Tail(b)[2..] == Digits(b.n);
      ValueOfDigits(a.n);
      ValueOfDigits(b.n);
    }
  }

  /** A plain id ends where its tail's colon begins, so text determines both. */
  lemma {:induction false} SplitAtColon(tx: string, tx': string, a: Attempt, b: Attempt)
    requires PlainId(tx) && PlainId(tx') && tx + Tail(a) == tx' + Tail(b)
    ensures tx == tx' && a == b
  {
    var s, s' := tx + Tail(a), tx' + Tail(b);
    assert forall i :: 0 <= i < |tx| ==> s[i] == tx[i];
    assert forall i :: 0 <= i < |tx'| ==> s'[i] == tx'[i];
    assert |Tail(a)| > 0 ==> s[|tx|] == ':';
    assert |Tail(b)| > 0 ==> s'[|tx'|] == ':';
    assert |tx| == |tx'|;
    assert s[..|tx|] == tx && s'[..|tx'|] == tx';
    assert s[|tx|..] == Tail(a) && s'[|tx'|..] == Tail(b);
    TailsDiffer(a, b);
  }

  /**
   Two transfers share a reference only if they are the same attempt of the same transaction,
   so the provider's refusal of used references and the payout key both work per transaction.
   */
  lemma ReferenceInjective(tx: string, tx': string, a: Attempt, b: Attempt)
    requires PlainId(tx) && PlainId(tx') && Reference(tx, a) == Reference(tx', b)
    ensures tx == tx' && a == b
  {
    hide Reference, Tail, PlainId;
    BehindPrefix(tx, a);
    BehindPrefix(tx', b);
    SplitAtColon(tx, tx', a, b);
  }

  lemma BehindPrefix(tx: string, a: Attempt)
    ensures |Reference(tx, a)| >= 8 && Reference(tx, a)[8..] == tx + Tail(a)
  {
    assert Reference(tx, a) == "release:" + (tx + Tail(a));
  }

  /** The text itself: the first transfer under the payout key, a retry under the key, a mark and its number. */
  lemma ReferenceReads(tx: string, n: nat)
    ensures Reference(tx, Base) == "release:" + tx
    ensures var text, key := Reference(tx, Retry(n)), "release:" + tx + ":r";
      && key <= text && AllDigits(text[|key|..]) && Value(text[|key|..]) == n
      && (n > 0 ==> text[|key|] != '0')
  {
    var text, key := Reference(tx, Retry(n)), "release:" + tx + ":r";
    assert text == key + Digits(n) && text[|key|..] == Digits(n);
    ValueOfDigits(n);
    if n > 0 {
      NoLeadingZero(n);
    }
  }

  /** A retry's reference is never a payout key, which is why its outcome event finds no row. */
  lemma RetryReferenceIsNoKey(tx: string, tx': string, n: nat)
    requires PlainId(tx) && PlainId(tx')
    ensures Reference(tx, Retry(n)) != ReleaseKey(tx')
  {
    if Reference(tx, Retry(n)) == Reference(tx', Base) {
      ReferenceInjective(tx, tx', Retry(n), Base);
    }
  }
}
