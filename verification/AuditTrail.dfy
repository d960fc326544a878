/** AuditTrail of compliance/audit.py: a ledger whose events are chained by a hash. The hash is an
    arbitrary function of an event's content, redaction an arbitrary function of its payload, and
    the clock a parameter. */
module AuditTrail {
  datatype Content<P> = Content(
    sequence: int, tsMs: int, eventType: string, actor: string, payload: P, prevHash: string)

  datatype AuditEvent<P> = AuditEvent(content: Content<P>, eventHash: string)

  /** The hash that the event after the first n must point back to. */
  function HashBefore<P>(genesis: string, events: seq<AuditEvent<P>>, n: nat): string
    requires n <= |events|
  {
    if n == 0 then genesis else events[n - 1].eventHash
  }

  predicate Linked<P>(hash: Content<P> -> string, genesis: string, events: seq<AuditEvent<P>>, i: nat)
    requires i < |events|
  {
    && events[i].content.sequence == i + 1
    && events[i].content.prevHash == HashBefore(genesis, events, i)
    && hash(events[i].content) == events[i].eventHash
  }

  /** Numbered from one, each event pointing back to the one before and carrying its own hash. */
  predicate Chained<P>(hash: Content<P> -> string, genesis: string, events: seq<AuditEvent<P>>) {
    forall i: nat :: i < |events| ==> Linked(hash, genesis, events, i)
  }

  class AuditTrail<P(==)> {
    const genesisHash: string
    const computeHash: Content<P> -> string
    const redact: P -> P
    var events: seq<AuditEvent<P>>

    constructor (genesisHash: string, computeHash: Content<P> -> string, redact: P -> P)
      ensures events == [] && this.genesisHash == genesisHash && this.computeHash == computeHash
        && this.redact == redact
    {
      this.genesisHash, this.computeHash, this.redact := genesisHash, computeHash, redact;
      events := [];
    }

    /** Adds one event with the redacted payload; the chain verifies after exactly when it did
        before. */
    method Append(eventType: string, actor: string, payload: P, nowMs: int) returns (event: AuditEvent<P>)
      modifies this
      ensures events == old(events) + [event]
      ensures var c := event.content;
        && c.tsMs == nowMs && c.eventType == eventType && c.actor == actor && c.payload == redact(payload)
        && Linked(computeHash, genesisHash, events, |old(events)|)
      ensures Chained(computeHash, genesisHash, events) <==> old(Chained(computeHash, genesisHash, events))
    {
      var prevHash := if |events| > 0 then events[|events| - 1].eventHash else genesisHash;
      var content := Content(|events| + 1, nowMs, eventType, actor, redact(payload), prevHash);
      event := AuditEvent(content, computeHash(content));
      events := events + [event];
      AppendKeepsChain(computeHash, genesisHash, old(events), event);
    }

    method VerifyChain() returns (ok: bool)
      ensures ok <==> Chained(computeHash, genesisHash, events)
    {
      var prevHash := genesisHash;
      for i := 0 to |events|
        invariant prevHash == HashBefore(genesisHash, events, i)
        invariant forall k: nat :: k < i ==> Linked(computeHash, genesisHash, events, k)
      {
        var event := events[i];
        ghost var linked := Linked(computeHash, genesisHash, events, i);
        if event.content.sequence != i + 1 {
          return false;
        }
        if event.content.prevHash != prevHash {
          return false;
        }
        if computeHash(event.content) != event.eventHash {
          return false;
        }
        prevHash := event.eventHash;
      }
      ok := true;
    }
  }

  lemma AppendKeepsChain<P>(hash: Content<P> -> string, genesis: string, events: seq<AuditEvent<P>>, e: AuditEvent<P>)
    requires Linked(hash, genesis, events + [e], |events|)
    ensures Chained(hash, genesis, events + [e]) <==> Chained(hash, genesis, events)
  {
    PrefixLinks(hash, genesis, events + [e], |events|);
    assert (events + [e])[..|events|] == events;
  }

  lemma PrefixLinks<P>(hash: Content<P> -> string, genesis: string, events: seq<AuditEvent<P>>, n: nat)
    requires n <= |events|
    ensures forall i: nat :: i < n ==> Linked(hash, genesis, events[..n], i) == Linked(hash, genesis, events, i)
  {
    forall i: nat | i < n ensures Linked(hash, genesis, events[..n], i) == Linked(hash, genesis, events, i) {
      assert HashBefore(genesis, events[..n], i) == HashBefore(genesis, events, i);
    }
  }

  /** Cutting events off the end cannot be seen: every prefix of a verified ledger verifies. */
  lemma TruncationVerifies<P>(hash: Content<P> -> string, genesis: string, events: seq<AuditEvent<P>>, n: nat)
    requires Chained(hash, genesis, events) && n <= |events|
    ensures Chained(hash, genesis, events[..n])
  {
    PrefixLinks(hash, genesis, events, n);
  }

  /** Two different contents, one from each ledger, with the same hash. */
  ghost predicate Collide<P(!new)>(hash: Content<P> -> string, a: seq<AuditEvent<P>>, b: seq<AuditEvent<P>>) {
    exists x, y :: x in a && y in b && x.content != y.content && hash(x.content) == hash(y.content)
  }

  /** Knowing the last hash pins down the whole ledger: of two verified ledgers that share it,
      either everything is equal, lengths and genesis hashes included, or they exhibit a
      collision of the hash. */
  lemma {:induction false} LastHashPinsLedger<P(!new)>(
    hash: Content<P> -> string, genesis: string, other: string, a: seq<AuditEvent<P>>, b: seq<AuditEvent<P>>)
    requires Chained(hash, genesis, a) && Chained(hash, other, b) && |a| > 0 && |b| > 0
    requires a[|a| - 1].eventHash == b[|b| - 1].eventHash
    ensures (a == b && genesis == other) || Collide(hash, a, b)
  {
    var m, n := |a| - 1, |b| - 1;
    assert Linked(hash, genesis, a, m) && Linked(hash, other, b, n);
    assert a[m] in a && b[n] in b;
    if a[m].content == b[n].content && m > 0 {
      TruncationVerifies(hash, genesis, a, m);
      TruncationVerifies(hash, other, b, n);
      LastHashPinsLedger(hash, genesis, other, a[..m], b[..n]);
      if Collide(hash, a[..m], b[..n]) {
        var x, y :| x in a[..m] && y in b[..n] && x.content != y.content && hash(x.content) == hash(y.content);
        assert x in a && y in b;
      } else {
        assert a == a[..m] + [a[m]] && b == b[..n] + [b[n]];
      }
    }
  }

  ghost predicate Injective<P(!new)>(hash: Content<P> -> string) {
    forall x, y :: hash(x) == hash(y) ==> x == y
  }

  /** With an injective hash, verified ledgers with the same last hash are equal event by event. */
  lemma SameLastHashSameLedger<P(!new)>(
    hash: Content<P> -> string, genesis: string, other: string, a: seq<AuditEvent<P>>, b: seq<AuditEvent<P>>)
    requires Injective(hash) && Chained(hash, genesis, a) && Chained(hash, other, b) && |a| > 0 && |b| > 0
    requires a[|a| - 1].eventHash == b[|b| - 1].eventHash
    ensures a == b && genesis == other
  {
    LastHashPinsLedger(hash, genesis, other, a, b);
    assert !Collide(hash, a, b);
  }

  /** Replacing one event of a verified ledger goes unnoticed exactly when nothing is replaced,
      or it is the last event and its replacement is linked afresh. */
  lemma EditUnnoticedExactlyWhen<P(!new)>(
    hash: Content<P> -> string, genesis: string, events: seq<AuditEvent<P>>, i: nat, x: AuditEvent<P>)
    requires Injective(hash) && Chained(hash, genesis, events) && i < |events|
    ensures Chained(hash, genesis, events[i := x]) <==>
      || x == events[i]
      || (i == |events| - 1 && Linked(hash, genesis, events[i := x], i))
  {
    var edited, n := events[i := x], |events|;
    assert Linked(hash, genesis, events, i);
    if Chained(hash, genesis, edited) && i < n - 1 {
      assert Linked(hash, genesis, events, i + 1) && Linked(hash, genesis, edited, i + 1);
      assert x.eventHash == events[i].eventHash;
      assert Linked(hash, genesis, edited, i);
      assert hash(x.content) == hash(events[i].content);
    }
    if x == events[i] {
      assert edited == events;
    }
    if i == n - 1 && Linked(hash, genesis, edited, i) {
      forall k: nat | k < n ensures Linked(hash, genesis, edited, k) {
        if k < i {
          assert Linked(hash, genesis, events, k);
        }
      }
    }
  }
}
