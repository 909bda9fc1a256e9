/** Batched upload with retries: the part of a sync pass that talks to the
    insights server. Generic over the uploaded item (a filtered session or a
    plan); `key` names the ledger entry an acknowledged item is recorded
    under. The server's answers are an oracle: the k-th request of a pass
    gets the k-th outcome, and a request past the end of the oracle fails
    as if the network were down. */
module Delivery {
  import opened Wrappers
  import opened Clock

  const BatchSize: nat := 10

  /** One entry of a batch response. A JSON `null` entry decodes to a nil
      pointer, which the marking loop dereferences. */
  datatype Ack = Ack(warnings: seq<string>) | NullAck

  /** What one batch request came to. */
  datatype Outcome =
    | Accepted(responses: seq<Ack>)
    | Unauthorized
    | ServerError(status: int, body: string)
    | BadResponse
    | TransportError

  /** The exchange as the HTTP client sees it: no response at all (send or
      read failure), or a status, a body and the body decoded as a response
      array when it decodes. */
  datatype Exchange = NoResponse | Response(status: int, body: string, decoded: Option<seq<Ack>>)

  /** The client's reading of an exchange: 401 first, then any status of 400
      or more, then the body must decode. */
  function Classify(ex: Exchange): (o: Outcome)
    ensures o.Accepted? <==> ex.Response? && ex.status < 400 && ex.decoded.Some?
    ensures o.Accepted? ==> o.responses == ex.decoded.value
    ensures o.Unauthorized? <==> ex.Response? && ex.status == 401
    ensures o.ServerError? <==> ex.Response? && ex.status >= 400 && ex.status != 401
    ensures o.ServerError? ==> o.status == ex.status && o.body == ex.body
    ensures o.TransportError? <==> ex.NoResponse?
  {
    match ex
    case NoResponse => TransportError
    case Response(status, body, decoded) =>
      if status == 401 then Unauthorized
      else if status >= 400 then ServerError(status, body)
      else if decoded.None? then BadResponse
      else Accepted(decoded.value)
  }

  function Min(a: int, b: int): int {
    if a <= b then a else b
  }

  /** Consecutive batches of at most ten, all full but the last. */
  function Chunks<T>(xs: seq<T>): (bs: seq<seq<T>>)
    ensures |bs| == (|xs| + BatchSize - 1) / BatchSize
    ensures forall i :: 0 <= i < |bs| ==> 1 <= |bs[i]| <= BatchSize
    ensures forall i :: 0 <= i < |bs| - 1 ==> |bs[i]| == BatchSize
    decreases |xs|
  {
    if |xs| == 0 then []
    else if |xs| <= BatchSize then [xs]
    else
      var tail := Chunks(xs[BatchSize..]);
      var bs := [xs[..BatchSize]] + tail;
      assert forall i :: 1 <= i < |bs| ==> bs[i] == tail[i - 1];
      bs
  }

  /** Batch i holds the items from 10*i up to 10*i+10 or the end, whichever
      comes first: the slices the upload loop's index arithmetic cuts. */
  lemma {:induction false} ChunkAt<T>(xs: seq<T>, i: nat)
    requires i < |Chunks(xs)|
    ensures Chunks(xs)[i] == xs[i * BatchSize .. Min(i * BatchSize + BatchSize, |xs|)]
    decreases i
  {
    if i > 0 {
      var rest := xs[BatchSize..];
      assert Chunks(xs)[i] == Chunks(rest)[i - 1];
      ChunkAt(rest, i - 1);
      var lo := (i - 1) * BatchSize;
      assert i * BatchSize == lo + BatchSize;
      assert |xs| > BatchSize;
      var hi := Min(lo + BatchSize, |rest|);
      assert hi + BatchSize == Min(lo + BatchSize + BatchSize, |xs|);
      assert rest[lo .. hi] == xs[lo + BatchSize .. hi + BatchSize];
    }
  }

  function Flatten<T>(bs: seq<seq<T>>): seq<T> {
    if |bs| == 0 then [] else bs[0] + Flatten(bs[1..])
  }

  /** Batching loses, duplicates and reorders nothing. */
  lemma {:induction false} ChunksFlatten<T>(xs: seq<T>)
    ensures Flatten(Chunks(xs)) == xs
    decreases |xs|
  {
    if |xs| > BatchSize {
      var bs := Chunks(xs);
      assert bs[0] == xs[..BatchSize];
      assert bs[1..] == Chunks(xs[BatchSize..]);
      ChunksFlatten(xs[BatchSize..]);
    } else if |xs| > 0 {
      assert Chunks(xs) == [xs];
      assert Flatten<T>([]) == [];
    }
  }

  /** Twenty-three items go out as batches of 10, 10 and 3. */
  lemma TwentyThreeItems<T>(xs: seq<T>)
    requires |xs| == 23
    ensures var bs := Chunks(xs); |bs| == 3 && |bs[0]| == 10 && |bs[1]| == 10 && |bs[2]| == 3
  {
    ChunkAt(xs, 2);
  }

  /** The outcome of the k-th request against an oracle. */
  function OutcomeAt(oracle: seq<Outcome>, k: nat): Outcome {
    if k < |oracle| then oracle[k] else TransportError
  }

  /** The oracle left after n requests. */
  function Drop(oracle: seq<Outcome>, n: nat): (r: seq<Outcome>)
    ensures forall k: nat :: OutcomeAt(r, k) == OutcomeAt(oracle, n + k)
  {
    if n <= |oracle| then oracle[n..] else []
  }

  /** One request: the batch sent, its attempt number, the outcome and the
      seconds slept afterwards. */
  datatype Call<T> = Call(batch: seq<T>, attempt: nat, outcome: Outcome, backoff: nat)

  /** A failed attempt n is followed by a sleep of 2n seconds, the last one
      included; a successful one by none. */
  function Backoff(attempt: nat, o: Outcome): nat {
    if o.Accepted? then 0 else 2 * attempt
  }

  /** An accepted response the marking loop cannot get through: more entries
      than the batch has items, or a null entry. Either way the process
      panics before the state is saved. */
  predicate Crashes<T>(batch: seq<T>, o: Outcome) {
    o.Accepted? && (|o.responses| > |batch| || NullAck in o.responses)
  }

  datatype Attempts<T> = Attempts(calls: seq<Call<T>>, crashed: bool)

  /** The retry loop for one batch from attempt `attempt` on: stop at the
      first accepted request or after attempt `attempts`. */
  function RetryFrom<T>(batch: seq<T>, attempts: int, oracle: seq<Outcome>, attempt: nat): (r: Attempts<T>)
    requires attempt >= 1
    ensures |r.calls| == 0 <==> attempt > attempts
    ensures |r.calls| <= (if attempt <= attempts then attempts - attempt + 1 else 0)
    decreases if attempt <= attempts then attempts - attempt + 1 else 0
  {
    if attempt > attempts then Attempts([], false)
    else
      var o := OutcomeAt(oracle, 0);
      var call := Call(batch, attempt, o, Backoff(attempt, o));
      if o.Accepted? then Attempts([call], Crashes(batch, o))
      else
        var rest := RetryFrom(batch, attempts, Drop(oracle, 1), attempt + 1);
        Attempts([call] + rest.calls, rest.crashed)
  }

  /** The requests of one batch's retry loop: all carry the batch, their
      attempt numbers count up from `attempt`, each gets the next outcome of
      the oracle and is followed by the backoff that outcome calls for. */
  lemma {:induction false} RetryTrace<T>(batch: seq<T>, attempts: int, oracle: seq<Outcome>, attempt: nat)
    requires attempt >= 1
    ensures var r := RetryFrom(batch, attempts, oracle, attempt);
      forall k :: 0 <= k < |r.calls| ==>
        && r.calls[k].batch == batch
        && r.calls[k].attempt == attempt + k
        && r.calls[k].outcome == OutcomeAt(oracle, k)
        && r.calls[k].backoff == Backoff(r.calls[k].attempt, r.calls[k].outcome)
    decreases if attempt <= attempts then attempts - attempt + 1 else 0
  {
    var r := RetryFrom(batch, attempts, oracle, attempt);
    if attempt <= attempts && !OutcomeAt(oracle, 0).Accepted? {
      var d := Drop(oracle, 1);
      var rest := RetryFrom(batch, attempts, d, attempt + 1);
      RetryTrace(batch, attempts, d, attempt + 1);
      forall k | 1 <= k < |r.calls|
        ensures r.calls[k] == rest.calls[k - 1]
        ensures OutcomeAt(d, k - 1) == OutcomeAt(oracle, k)
      {
      }
    }
  }

  /** The loop stops only at an accepted request or after the last attempt,
      and it crashes exactly when that accepted request's response cannot be
      marked. */
  lemma {:induction false} RetryStops<T>(batch: seq<T>, attempts: int, oracle: seq<Outcome>, attempt: nat)
    requires attempt >= 1
    ensures var r := RetryFrom(batch, attempts, oracle, attempt);
      && (forall k :: 0 <= k < |r.calls| - 1 ==> !r.calls[k].outcome.Accepted?)
      && (|r.calls| > 0 && !r.calls[|r.calls| - 1].outcome.Accepted? ==> attempt + |r.calls| - 1 == attempts)
      && (r.crashed <==> |r.calls| > 0 && Crashes(batch, r.calls[|r.calls| - 1].outcome))
    decreases if attempt <= attempts then attempts - attempt + 1 else 0
  {
    var r := RetryFrom(batch, attempts, oracle, attempt);
    if attempt <= attempts && !OutcomeAt(oracle, 0).Accepted? {
      var d := Drop(oracle, 1);
      var rest := RetryFrom(batch, attempts, d, attempt + 1);
      RetryStops(batch, attempts, d, attempt + 1);
      assert forall k :: 1 <= k < |r.calls| ==> r.calls[k] == rest.calls[k - 1];
      assert r.calls[0].outcome == OutcomeAt(oracle, 0);
      if |rest.calls| > 0 {
        assert r.calls[|r.calls| - 1] == rest.calls[|rest.calls| - 1];
        RetryTrace(batch, attempts, d, attempt + 1);
      }
    }
  }

  function SumBackoff<T>(calls: seq<Call<T>>): nat {
    if |calls| == 0 then 0 else calls[0].backoff + SumBackoff(calls[1..])
  }

  /** 2 + 4 + ... + 2n. */
  function Triangle(n: int): int
    decreases n
  {
    if n <= 0 then 0 else 2 * n + Triangle(n - 1)
  }

  lemma {:induction false} TriangleClosed(n: nat)
    ensures Triangle(n) == n * (n + 1)
  {
    if n > 0 {
      TriangleClosed(n - 1);
    }
  }

  lemma {:induction false} FailingRetries<T>(batch: seq<T>, attempts: int, oracle: seq<Outcome>, attempt: nat)
    requires 1 <= attempt <= attempts + 1
    requires forall k :: 0 <= k < |oracle| ==> !oracle[k].Accepted?
    ensures var r := RetryFrom(batch, attempts, oracle, attempt);
      && |r.calls| == attempts - attempt + 1
      && !r.crashed
      && SumBackoff(r.calls) + Triangle(attempt - 1) == Triangle(attempts)
    decreases attempts - attempt + 1
  {
    var r := RetryFrom(batch, attempts, oracle, attempt);
    if attempt <= attempts {
      var d := Drop(oracle, 1);
      assert forall k :: 0 <= k < |d| ==> !d[k].Accepted? by {
        forall k | 0 <= k < |d| ensures !d[k].Accepted? {
          assert OutcomeAt(d, k) == OutcomeAt(oracle, 1 + k);
        }
      }
      FailingRetries(batch, attempts, d, attempt + 1);
      var rest := RetryFrom(batch, attempts, d, attempt + 1);
      assert !OutcomeAt(oracle, 0).Accepted?;
      assert r.calls == [r.calls[0]] + rest.calls;
      assert r.calls[1..] == rest.calls;
      assert r.calls[0].backoff == 2 * attempt;
      assert SumBackoff(r.calls) == 2 * attempt + SumBackoff(rest.calls);
    }
  }

  /** A batch that fails every attempt is tried `attempts` times and sleeps
      2 + 4 + ... + 2*attempts = attempts*(attempts+1) seconds in all. */
  lemma FailingBatchBackoff<T>(batch: seq<T>, attempts: nat, oracle: seq<Outcome>)
    requires forall k :: 0 <= k < |oracle| ==> !oracle[k].Accepted?
    ensures var r := RetryFrom(batch, attempts, oracle, 1);
      && |r.calls| == attempts
      && !r.crashed
      && SumBackoff(r.calls) == attempts * (attempts + 1)
  {
    FailingRetries(batch, attempts, oracle, 1);
    TriangleClosed(attempts);
  }

  /** The ledger keys of items in a slice of a batch. */
  function KeysOf<T>(items: seq<T>, key: T -> string): set<string> {
    set i | 0 <= i < |items| :: key(items[i])
  }

  /** The items a request got acknowledged: the first |responses| items of
      its batch, when it was accepted and did not crash. */
  function CallAcked<T>(c: Call<T>, key: T -> string): set<string> {
    if c.outcome.Accepted? && !Crashes(c.batch, c.outcome) then KeysOf(c.batch[..|c.outcome.responses|], key)
    else {}
  }

  function AckedKeys<T>(calls: seq<Call<T>>, key: T -> string): set<string> {
    if |calls| == 0 then {} else CallAcked(calls[0], key) + AckedKeys(calls[1..], key)
  }

  lemma {:induction false} AckedKeysAppend<T>(a: seq<Call<T>>, b: seq<Call<T>>, key: T -> string)
    ensures AckedKeys(a + b, key) == AckedKeys(a, key) + AckedKeys(b, key)
    decreases |a|
  {
    if |a| > 0 {
      assert (a + b)[0] == a[0];
      assert (a + b)[1..] == a[1..] + b;
      AckedKeysAppend(a[1..], b, key);
    } else {
      assert a + b == b;
    }
  }

  /** The keys of every item a trace sent, acknowledged or not. */
  function SentKeys<T>(calls: seq<Call<T>>, key: T -> string): set<string> {
    if |calls| == 0 then {} else KeysOf(calls[0].batch, key) + SentKeys(calls[1..], key)
  }

  lemma KeysOfPrefix<T>(items: seq<T>, n: nat, key: T -> string)
    requires n <= |items|
    ensures KeysOf(items[..n], key) <= KeysOf(items, key)
  {
    forall x | x in KeysOf(items[..n], key) ensures x in KeysOf(items, key) {
      var i :| 0 <= i < n && key(items[..n][i]) == x;
      assert items[..n][i] == items[i];
    }
  }

  lemma KeysOfAppend<T>(a: seq<T>, b: seq<T>, key: T -> string)
    ensures KeysOf(a + b, key) == KeysOf(a, key) + KeysOf(b, key)
  {
    var c := a + b;
    forall x | x in KeysOf(c, key) ensures x in KeysOf(a, key) + KeysOf(b, key) {
      var i :| 0 <= i < |c| && key(c[i]) == x;
      if i < |a| { assert c[i] == a[i]; } else { assert c[i] == b[i - |a|]; }
    }
    forall x | x in KeysOf(a, key) ensures x in KeysOf(c, key) {
      var i :| 0 <= i < |a| && key(a[i]) == x;
      assert c[i] == a[i];
    }
    forall x | x in KeysOf(b, key) ensures x in KeysOf(c, key) {
      var i :| 0 <= i < |b| && key(b[i]) == x;
      assert c[|a| + i] == b[i];
    }
  }

  /** Only items that were sent get acknowledged. */
  lemma {:induction false} AckedWereSent<T>(calls: seq<Call<T>>, key: T -> string)
    ensures AckedKeys(calls, key) <= SentKeys(calls, key)
    decreases |calls|
  {
    if |calls| > 0 {
      AckedWereSent(calls[1..], key);
      var c := calls[0];
      if c.outcome.Accepted? && !Crashes(c.batch, c.outcome) {
        KeysOfPrefix(c.batch, |c.outcome.responses|, key);
      }
    }
  }

  lemma {:induction false} SentKeysAppend<T>(a: seq<Call<T>>, b: seq<Call<T>>, key: T -> string)
    ensures SentKeys(a + b, key) == SentKeys(a, key) + SentKeys(b, key)
    decreases |a|
  {
    if |a| > 0 {
      assert (a + b)[0] == a[0];
      assert (a + b)[1..] == a[1..] + b;
      SentKeysAppend(a[1..], b, key);
    } else {
      assert a + b == b;
    }
  }

  lemma {:induction false} SentOfOneBatch<T>(calls: seq<Call<T>>, batch: seq<T>, key: T -> string)
    requires forall k :: 0 <= k < |calls| ==> calls[k].batch == batch
    ensures SentKeys(calls, key) <= KeysOf(batch, key)
    decreases |calls|
  {
    if |calls| > 0 {
      assert forall k :: 0 <= k < |calls[1..]| ==> calls[1..][k] == calls[k + 1];
      SentOfOneBatch(calls[1..], batch, key);
    }
  }

  /** Stamp every key of `keys` with `now`, leaving the other entries alone. */
  function Mark(ledger: map<string, Time>, keys: set<string>, now: Time): (r: map<string, Time>)
    ensures r.Keys == ledger.Keys + keys
    ensures forall k :: k in r ==> r[k] == if k in keys then now else ledger[k]
  {
    ledger + map k | k in keys :: now
  }

  /** Stamping in two steps is stamping once with both key sets. */
  lemma MarkTwice(ledger: map<string, Time>, a: set<string>, b: set<string>, now: Time)
    ensures Mark(Mark(ledger, a, now), b, now) == Mark(ledger, a + b, now)
  {
    var l := Mark(Mark(ledger, a, now), b, now);
    var m := Mark(ledger, a + b, now);
    assert l.Keys == m.Keys;
    forall k | k in l ensures l[k] == m[k] {
    }
  }

  /** The batches that got a first attempt, in order. */
  function FirstAttempts<T>(calls: seq<Call<T>>): seq<seq<T>> {
    if |calls| == 0 then []
    else (if calls[0].attempt == 1 then [calls[0].batch] else []) + FirstAttempts(calls[1..])
  }

  lemma {:induction false} FirstAttemptsAppend<T>(a: seq<Call<T>>, b: seq<Call<T>>)
    ensures FirstAttempts(a + b) == FirstAttempts(a) + FirstAttempts(b)
    decreases |a|
  {
    if |a| > 0 {
      assert (a + b)[0] == a[0];
      assert (a + b)[1..] == a[1..] + b;
      FirstAttemptsAppend(a[1..], b);
    } else {
      assert a + b == b;
    }
  }

  lemma {:induction false} NoFirstAttempts<T>(calls: seq<Call<T>>)
    requires forall k :: 0 <= k < |calls| ==> calls[k].attempt != 1
    ensures FirstAttempts(calls) == []
    decreases |calls|
  {
    if |calls| > 0 {
      assert forall k :: 0 <= k < |calls[1..]| ==> calls[1..][k] == calls[k + 1];
      NoFirstAttempts(calls[1..]);
    }
  }

  /** The retry loop of one batch starts with a first attempt of that batch
      and makes no other. */
  lemma RetryFirstAttempt<T>(batch: seq<T>, attempts: int, oracle: seq<Outcome>)
    requires attempts >= 1
    ensures FirstAttempts(RetryFrom(batch, attempts, oracle, 1).calls) == [batch]
  {
    var calls := RetryFrom(batch, attempts, oracle, 1).calls;
    RetryTrace(batch, attempts, oracle, 1);
    assert calls[0].attempt == 1;
    assert forall k :: 0 <= k < |calls[1..]| ==> calls[1..][k] == calls[k + 1];
    NoFirstAttempts(calls[1..]);
  }

  datatype Run<T> = Run(ledger: map<string, Time>, calls: seq<Call<T>>, crashed: bool)

  /** The upload loop over all batches: each batch's retry loop in turn, the
      oracle consumed request by request. A crash ends the pass with the
      ledger as it was (the process dies before saving); otherwise the keys a
      batch's accepted request acknowledged are stamped before the next batch. */
  function UploadAll<T>(ledger: map<string, Time>, batches: seq<seq<T>>, key: T -> string,
                        attempts: int, oracle: seq<Outcome>, now: Time): (r: Run<T>)
    ensures r.crashed ==> r.ledger == ledger
    ensures |batches| == 0 ==> r == Run(ledger, [], false)
    decreases |batches|
  {
    if |batches| == 0 then Run(ledger, [], false)
    else
      var b := RetryFrom(batches[0], attempts, oracle, 1);
      if b.crashed then Run(ledger, b.calls, true)
      else
        var rest := UploadAll(Mark(ledger, AckedKeys(b.calls, key), now), batches[1..], key, attempts, Drop(oracle, |b.calls|), now);
        if rest.crashed then Run(ledger, b.calls + rest.calls, true)
        else Run(rest.ledger, b.calls + rest.calls, false)
  }

  /** The k-th request of a trace got the oracle's k-th outcome, carried an
      attempt number within the configured count and was followed by the
      backoff its outcome calls for. */
  predicate TraceFits<T>(calls: seq<Call<T>>, oracle: seq<Outcome>, attempts: int) {
    forall k :: 0 <= k < |calls| ==>
      && calls[k].outcome == OutcomeAt(oracle, k)
      && 1 <= calls[k].attempt <= attempts
      && calls[k].backoff == Backoff(calls[k].attempt, calls[k].outcome)
  }

  lemma TraceAppend<T>(a: seq<Call<T>>, b: seq<Call<T>>, oracle: seq<Outcome>, attempts: int)
    requires TraceFits(a, oracle, attempts)
    requires TraceFits(b, Drop(oracle, |a|), attempts)
    ensures TraceFits(a + b, oracle, attempts)
  {
    var d := Drop(oracle, |a|);
    forall k | |a| <= k < |a + b|
      ensures (a + b)[k] == b[k - |a|]
      ensures OutcomeAt(oracle, k) == OutcomeAt(d, k - |a|)
    {
    }
  }

  /** The request trace of a pass fits the oracle and the retry policy. */
  lemma {:induction false} UploadTrace<T>(ledger: map<string, Time>, batches: seq<seq<T>>, key: T -> string,
                                          attempts: int, oracle: seq<Outcome>, now: Time)
    ensures TraceFits(UploadAll(ledger, batches, key, attempts, oracle, now).calls, oracle, attempts)
    decreases |batches|
  {
    if |batches| > 0 {
      var b := RetryFrom(batches[0], attempts, oracle, 1);
      RetryTrace(batches[0], attempts, oracle, 1);
      assert TraceFits(b.calls, oracle, attempts);
      if !b.crashed {
        var l := Mark(ledger, AckedKeys(b.calls, key), now);
        var d := Drop(oracle, |b.calls|);
        UploadTrace(l, batches[1..], key, attempts, d, now);
        TraceAppend(b.calls, UploadAll(l, batches[1..], key, attempts, d, now).calls, oracle, attempts);
      }
    }
  }

  /** A trace crashed exactly when its last request got a response the
      marking loop cannot get through, and no earlier request did. */
  predicate CrashOnlyAtEnd<T>(calls: seq<Call<T>>, crashed: bool) {
    && (crashed <==> |calls| > 0 && Crashes(calls[|calls| - 1].batch, calls[|calls| - 1].outcome))
    && forall k :: 0 <= k < |calls| - 1 ==> !Crashes(calls[k].batch, calls[k].outcome)
  }

  predicate NoCrash<T>(calls: seq<Call<T>>) {
    forall k :: 0 <= k < |calls| ==> !Crashes(calls[k].batch, calls[k].outcome)
  }

  lemma CrashesAppend<T>(a: seq<Call<T>>, b: seq<Call<T>>, crashed: bool)
    requires NoCrash(a) && CrashOnlyAtEnd(b, crashed)
    ensures CrashOnlyAtEnd(a + b, crashed)
  {
    var c := a + b;
    assert forall k :: 0 <= k < |a| ==> c[k] == a[k];
    assert forall k :: |a| <= k < |c| ==> c[k] == b[k - |a|];
  }

  lemma RetryCrash<T>(batch: seq<T>, attempts: int, oracle: seq<Outcome>)
    ensures var b := RetryFrom(batch, attempts, oracle, 1);
      CrashOnlyAtEnd(b.calls, b.crashed) && (!b.crashed ==> NoCrash(b.calls))
  {
    RetryStops(batch, attempts, oracle, 1);
    RetryTrace(batch, attempts, oracle, 1);
  }

  /** A pass is cut short only by the response of its last request. */
  lemma {:induction false} UploadCrash<T>(ledger: map<string, Time>, batches: seq<seq<T>>, key: T -> string,
                                          attempts: int, oracle: seq<Outcome>, now: Time)
    ensures var r := UploadAll(ledger, batches, key, attempts, oracle, now);
      CrashOnlyAtEnd(r.calls, r.crashed)
    decreases |batches|
  {
    if |batches| > 0 {
      var b := RetryFrom(batches[0], attempts, oracle, 1);
      RetryCrash(batches[0], attempts, oracle);
      var r := UploadAll(ledger, batches, key, attempts, oracle, now);
      if !b.crashed {
        var l := Mark(ledger, AckedKeys(b.calls, key), now);
        var d := Drop(oracle, |b.calls|);
        var rest := UploadAll(l, batches[1..], key, attempts, d, now);
        UploadCrash(l, batches[1..], key, attempts, d, now);
        CrashesAppend(b.calls, rest.calls, rest.crashed);
        assert r.calls == b.calls + rest.calls && r.crashed == rest.crashed;
      } else {
        assert r.calls == b.calls && r.crashed;
      }
    }
  }

  /** Without a crash, the ledger after the pass is the ledger before it with
      every acknowledged key stamped `now` and nothing else changed. */
  lemma {:induction false} UploadLedger<T>(ledger: map<string, Time>, batches: seq<seq<T>>, key: T -> string,
                                           attempts: int, oracle: seq<Outcome>, now: Time)
    ensures var r := UploadAll(ledger, batches, key, attempts, oracle, now);
      !r.crashed ==> r.ledger == Mark(ledger, AckedKeys(r.calls, key), now)
    decreases |batches|
  {
    var r := UploadAll(ledger, batches, key, attempts, oracle, now);
    if |batches| == 0 {
      assert r.ledger == Mark(ledger, {}, now);
    } else {
      var b := RetryFrom(batches[0], attempts, oracle, 1);
      if !b.crashed {
        var acked := AckedKeys(b.calls, key);
        var l := Mark(ledger, acked, now);
        var d := Drop(oracle, |b.calls|);
        var rest := UploadAll(l, batches[1..], key, attempts, d, now);
        UploadLedger(l, batches[1..], key, attempts, d, now);
        AckedKeysAppend(b.calls, rest.calls, key);
        MarkTwice(ledger, acked, AckedKeys(rest.calls, key), now);
      }
    }
  }

  /** Without a crash, every batch gets a first attempt, in batch order
      (none at all when the configured attempt count is below one). */
  lemma {:induction false} UploadFirstAttempts<T>(ledger: map<string, Time>, batches: seq<seq<T>>, key: T -> string,
                                                  attempts: int, oracle: seq<Outcome>, now: Time)
    ensures var r := UploadAll(ledger, batches, key, attempts, oracle, now);
      !r.crashed ==> FirstAttempts(r.calls) == (if attempts >= 1 then batches else [])
    decreases |batches|
  {
    var r := UploadAll(ledger, batches, key, attempts, oracle, now);
    if |batches| > 0 {
      var b := RetryFrom(batches[0], attempts, oracle, 1);
      if !b.crashed {
        var l := Mark(ledger, AckedKeys(b.calls, key), now);
        var d := Drop(oracle, |b.calls|);
        var rest := UploadAll(l, batches[1..], key, attempts, d, now);
        if !rest.crashed {
          assert r.calls == b.calls + rest.calls;
          UploadFirstAttempts(l, batches[1..], key, attempts, d, now);
          FirstAttemptsAppend(b.calls, rest.calls);
          if attempts >= 1 {
            RetryFirstAttempt(batches[0], attempts, oracle);
            assert batches == [batches[0]] + batches[1..];
          } else {
            assert b.calls == [];
          }
        }
      }
    }
  }

  /** Against a server that never accepts, a pass makes every attempt of
      every batch, crashes never and stamps nothing. */
  lemma {:induction false} NothingAccepted<T>(ledger: map<string, Time>, batches: seq<seq<T>>, key: T -> string,
                                              attempts: int, oracle: seq<Outcome>, now: Time)
    requires attempts >= 0
    requires forall k :: 0 <= k < |oracle| ==> !oracle[k].Accepted?
    ensures var r := UploadAll(ledger, batches, key, attempts, oracle, now);
      !r.crashed && r.ledger == ledger && |r.calls| == |batches| * attempts
    decreases |batches|
  {
    if |batches| > 0 {
      var b := RetryFrom(batches[0], attempts, oracle, 1);
      FailingRetries(batches[0], attempts, oracle, 1);
      assert AckedKeys(b.calls, key) == {} by {
        RetryTrace(batches[0], attempts, oracle, 1);
        NoAcks(b.calls, key);
      }
      assert Mark(ledger, {}, now) == ledger;
      var d := Drop(oracle, |b.calls|);
      assert forall k :: 0 <= k < |d| ==> !d[k].Accepted? by {
        forall k | 0 <= k < |d| ensures !d[k].Accepted? {
          assert OutcomeAt(d, k) == OutcomeAt(oracle, |b.calls| + k);
        }
      }
      NothingAccepted(ledger, batches[1..], key, attempts, d, now);
      var rest := UploadAll(ledger, batches[1..], key, attempts, d, now);
      var r := UploadAll(ledger, batches, key, attempts, oracle, now);
      assert r == Run(rest.ledger, b.calls + rest.calls, false);
      CountStep(|batches|, |batches[1..]|, attempts, |r.calls|, |rest.calls|);
    }
  }

  /** One batch of `a` requests ahead of `n - 1` such batches makes `n * a`. */
  lemma CountStep(n: int, m: int, a: int, total: int, restLen: int)
    requires m == n - 1 && total == a + restLen && restLen == m * a
    ensures total == n * a
  {
  }

  lemma {:induction false} NoAcks<T>(calls: seq<Call<T>>, key: T -> string)
    requires forall k :: 0 <= k < |calls| ==> !calls[k].outcome.Accepted?
    ensures AckedKeys(calls, key) == {}
    decreases |calls|
  {
    if |calls| > 0 {
      assert forall k :: 0 <= k < |calls[1..]| ==> calls[1..][k] == calls[k + 1];
      NoAcks(calls[1..], key);
    }
  }

  /** A pass sends nothing but the items of its batches. */
  lemma {:induction false} UploadSentWithin<T>(ledger: map<string, Time>, batches: seq<seq<T>>, key: T -> string,
                                               attempts: int, oracle: seq<Outcome>, now: Time)
    ensures SentKeys(UploadAll(ledger, batches, key, attempts, oracle, now).calls, key) <= KeysOf(Flatten(batches), key)
    decreases |batches|
  {
    if |batches| > 0 {
      var b := RetryFrom(batches[0], attempts, oracle, 1);
      RetryTrace(batches[0], attempts, oracle, 1);
      SentOfOneBatch(b.calls, batches[0], key);
      KeysOfAppend(batches[0], Flatten(batches[1..]), key);
      var r := UploadAll(ledger, batches, key, attempts, oracle, now);
      if !b.crashed {
        var l := Mark(ledger, AckedKeys(b.calls, key), now);
        var d := Drop(oracle, |b.calls|);
        var rest := UploadAll(l, batches[1..], key, attempts, d, now);
        UploadSentWithin(l, batches[1..], key, attempts, d, now);
        SentKeysAppend(b.calls, rest.calls, key);
        assert r.calls == b.calls + rest.calls;
      } else {
        assert r.calls == b.calls;
      }
    }
  }

  /** With fewer than one attempt configured, a pass makes no request and
      changes nothing. */
  lemma {:induction false} NoAttemptsNoCalls<T>(ledger: map<string, Time>, batches: seq<seq<T>>, key: T -> string,
                                                attempts: int, oracle: seq<Outcome>, now: Time)
    requires attempts < 1
    ensures UploadAll(ledger, batches, key, attempts, oracle, now) == Run(ledger, [], false)
    decreases |batches|
  {
    if |batches| > 0 {
      assert AckedKeys<T>([], key) == {};
      assert Mark(ledger, {}, now) == ledger;
      NoAttemptsNoCalls(ledger, batches[1..], key, attempts, Drop(oracle, 0), now);
    }
  }
}
