/** The off-chain relayer (offchain-relayer/src/main.ts): a queue of pending source-chain
    transaction hashes, filled by the provider's "pending" callback and consumed head first
    by a loop that, for each hash, waits for the receipt, extracts the Wormhole sequence,
    fetches the signed VAA and the Circle attestation, and submits one redeem call on the
    destination chain.

    Every answer of the outside world (the chain, the guardians, Circle's attestation
    service, the destination contract) is an input, collected in a `World`; every request
    the relayer makes is recorded as a `Call`, so that what the relayer asks, how often and
    in which order is part of the stated behaviour. */
module Relayer {
  import opened Wrappers
  import opened Polling
  import Helpers

  type TxHash = string
  type Address = string
  type Bytes = Helpers.Bytes

  datatype Log = Log(address: Address, data: Bytes)

  /** A transaction receipt; `to` is `None` for a contract creation. */
  datatype Receipt = Receipt(to: Option<Address>, logs: seq<Log>)

  /** The numeric settings read from the environment at startup (times in milliseconds). */
  datatype Settings = Settings(
    relayerTimeout: int,          // RELAYER_TIMEOUT
    receiptMaxAttempts: int,      // RECEIPT_MAX_ATTEMPTS
    receiptTimeout: int,          // RECEIPT_TIMEOUT
    attestationTimeout: int,      // ATTESTATION_TIMEOUT
    attestationMaxAttempts: int)  // ATTESTATION_MAX_ATTEMPTS
  {
    /** The VAA wait is configured from the attestation variables, not separate ones. */
    function VaaTimeout(): int { attestationTimeout }
    function VaaMaxAttempts(): int { attestationMaxAttempts }
  }

  /** What the relayer knows once it has started. */
  datatype Config = Config(
    settings: Settings,
    srcContract: Address,   // the source swap contract's address
    srcChainId: int,        // the Wormhole chain id reported by the source core bridge
    vaaEmitter: string,     // getEmitterAddressEth of the source Circle integration contract
    circleEmitter: Address) // CIRCLE_EMITTER

  /** The JSON body of Circle's attestation endpoint. */
  datatype AttestationBody = AttestationBody(status: string, attestation: Bytes)

  /** One answer of the attestation endpoint: the request failed, or it got a response. */
  datatype HttpAnswer = RequestFailed | HttpResponse(status: int, data: AttestationBody)

  /** How the destination redeem went: the submission was rejected, or it was accepted and
      then its confirmation (`tx.wait()`) was rejected or succeeded. */
  datatype RedeemAnswer = SubmitRejected | ConfirmRejected | Confirmed(transactionHash: TxHash)

  /** The outside world as one iteration of the loop sees it. */
  datatype World = World(
    receiptAt: nat -> Option<Receipt>,     // answer to the n-th getTransactionReceipt
    sequencesOf: Receipt -> seq<string>,   // parseSequencesFromLogEth with the core bridge
    vaa: Option<Bytes>,                    // getSignedVAAWithRetry; None when it rejects
    messageOf: Log -> Bytes,               // the `message` of a MessageSent log
    keccak256: Bytes -> Bytes,
    attestationAt: nat -> HttpAnswer,      // answer to the n-th attestation request
    redeem: RedeemAnswer)

  /** The relayer's own guardian host list, passed to every `getSignedVAAWithRetry`. */
  const WORMHOLE_RPC_HOSTS: seq<string> := ["https://wormhole-v2-testnet-api.certus.one"]

  /** A request the relayer makes of the outside world. */
  datatype Call =
    | GetTransactionReceipt(txHash: TxHash)
    | Sleep(ms: int)
    | GetSignedVaa(hosts: seq<string>, chainId: int, emitter: string, sequence: string, timeout: int, maxAttempts: int)
    | GetAttestation(messageHash: Bytes)
    | Redeem(params: Helpers.RedeemParameters)

  predicate IsReceiptQuery(c: Call) { c.GetTransactionReceipt? }
  predicate IsVaaRequest(c: Call) { c.GetSignedVaa? }
  predicate IsAttestationRequest(c: Call) { c.GetAttestation? }
  predicate IsRedeem(c: Call) { c.Redeem? }

  /** How one iteration on a queued hash ends. All but the last remove the hash. */
  datatype Outcome =
    | NoReceipt             // every receipt query came back null
    | NotSwapContract       // the transaction was not sent to the source swap contract
    | NoSequence            // no Wormhole message: "probably just a redeem"
    | NoSignedVaa           // the guardians did not produce the VAA
    | NoCircleAttestation   // no Circle message in the logs, or no attestation for it
    | RedeemFailed          // the redeem submission was rejected (caught, not retried)
    | Relayed(transactionHash: TxHash)
    | ConfirmationFailed    // tx.wait() rejected: the error escapes and ends the loop

  datatype Attempt = Attempt(outcome: Outcome, calls: seq<Call>)

  // ---------------------------------------------------------------- receipt polling

  /** `numAttempts <= maxAttempts` from 0 allows `maxAttempts + 1` queries. */
  function ReceiptBudget(maxAttempts: int): nat
  {
    if maxAttempts < 0 then 0 else maxAttempts + 1
  }

  function ReceiptPoll(maxAttempts: int, receiptAt: nat -> Option<Receipt>): Poll<Receipt>
  {
    FirstReady(receiptAt, ReceiptBudget(maxAttempts))
  }

  function ReceiptCalls(txHash: TxHash, timeout: int, p: Poll<Receipt>): seq<Call>
  {
    PollCalls(GetTransactionReceipt(txHash), Sleep(timeout), p)
  }

  /** The receipt loop: at most `maxAttempts + 1` queries, stopping at the first receipt,
      with a pause after each query that found none. */
  method PollReceipt(txHash: TxHash, maxAttempts: int, timeout: int, receiptAt: nat -> Option<Receipt>)
    returns (receipt: Option<Receipt>, calls: seq<Call>)
    ensures receipt == ReceiptPoll(maxAttempts, receiptAt).value
    ensures calls == ReceiptCalls(txHash, timeout, ReceiptPoll(maxAttempts, receiptAt))
  {
    ghost var budget := ReceiptBudget(maxAttempts);
    ghost var block := [GetTransactionReceipt(txHash), Sleep(timeout)];
    receipt := None;
    calls := [];
    var numAttempts: nat := 0;
    while numAttempts <= maxAttempts
      invariant numAttempts <= budget
      invariant PollFrom(receiptAt, budget, numAttempts) == ReceiptPoll(maxAttempts, receiptAt)
      invariant calls == Repeat(block, numAttempts)
      invariant receipt == None
      decreases maxAttempts + 1 - numAttempts
    {
      var attempt := receiptAt(numAttempts);
      calls := calls + [GetTransactionReceipt(txHash)];
      if attempt.Some? {
        receipt := attempt;
        break;
      }
      numAttempts := numAttempts + 1;
      assert calls + [Sleep(timeout)] == Repeat(block, numAttempts - 1) + block;
      calls := calls + [Sleep(timeout)];
    }
  }

  // ---------------------------------------------------------------- Circle message

  /** The message of the first log, in order, that the Circle emitter wrote. */
  function CircleMessage(logs: seq<Log>, emitter: Address, messageOf: Log -> Bytes): (r: Option<Bytes>)
    ensures r.None? <==> forall l :: l in logs ==> l.address != emitter
    ensures r.Some? ==> exists l :: l in logs && l.address == emitter && r.value == messageOf(l)
  {
    if logs == [] then None
    else if logs[0].address == emitter then Some(messageOf(logs[0]))
    else
      assert forall l :: l in logs <==> l == logs[0] || l in logs[1..];
      CircleMessage(logs[1..], emitter, messageOf)
  }

  /** There is a message exactly when some log comes from the emitter, and then it is the
      message of the first such log. */
  lemma {:induction false} CircleMessageIsFirstMatch(logs: seq<Log>, emitter: Address, messageOf: Log -> Bytes)
    ensures CircleMessage(logs, emitter, messageOf).Some? <==>
      exists i :: 0 <= i < |logs| && logs[i].address == emitter
    ensures CircleMessage(logs, emitter, messageOf).Some? ==>
      exists i :: 0 <= i < |logs| && logs[i].address == emitter &&
        CircleMessage(logs, emitter, messageOf).value == messageOf(logs[i]) &&
        forall j :: 0 <= j < i ==> logs[j].address != emitter
  {
    if logs != [] && logs[0].address != emitter {
      CircleMessageIsFirstMatch(logs[1..], emitter, messageOf);
      var m := CircleMessage(logs, emitter, messageOf);
      if m.Some? {
        var i :| 0 <= i < |logs[1..]| && logs[1..][i].address == emitter &&
          m.value == messageOf(logs[1..][i]) &&
          forall j :: 0 <= j < i ==> logs[1..][j].address != emitter;
        assert logs[i + 1] == logs[1..][i];
        assert forall j :: 0 <= j < i + 1 ==> logs[j].address != emitter by {
          forall j | 0 <= j < i + 1 ensures logs[j].address != emitter {
            if j > 0 { assert logs[j] == logs[1..][j - 1]; }
          }
        }
      } else {
        forall i | 0 <= i < |logs| ensures logs[i].address != emitter {
          if i > 0 { assert logs[i] == logs[1..][i - 1]; }
        }
      }
    }
  }

  /** `findCircleMessageInLogs`: the scan over the logs. */
  method FindCircleMessageInLogs(logs: seq<Log>, circleEmitterAddress: Address, messageOf: Log -> Bytes)
    returns (message: Option<Bytes>)
    ensures message == CircleMessage(logs, circleEmitterAddress, messageOf)
    ensures message.Some? <==> exists i :: 0 <= i < |logs| && logs[i].address == circleEmitterAddress
  {
    CircleMessageIsFirstMatch(logs, circleEmitterAddress, messageOf);
    var i := 0;
    while i < |logs|
      invariant 0 <= i <= |logs|
      invariant CircleMessage(logs[i..], circleEmitterAddress, messageOf) ==
        CircleMessage(logs, circleEmitterAddress, messageOf)
    {
      assert logs[i..][1..] == logs[i + 1..];
      if logs[i].address == circleEmitterAddress {
        return Some(messageOf(logs[i]));
      }
      i := i + 1;
    }
    return None;
  }

  // ---------------------------------------------------------------- Circle attestation

  /** An answer is ready when it is an HTTP 200 whose body says "complete". */
  function ReadyAttestation(a: HttpAnswer): Option<Bytes>
  {
    if a.HttpResponse? && a.status == 200 && a.data.status == "complete" then Some(a.data.attestation)
    else None
  }

  function ReadyAttestations(attestationAt: nat -> HttpAnswer): nat -> Option<Bytes>
  {
    (n: nat) => ReadyAttestation(attestationAt(n))
  }

  /** `i < maxAttempts` from 0 allows `maxAttempts` requests. */
  function AttestationBudget(maxAttempts: int): nat
  {
    if maxAttempts < 0 then 0 else maxAttempts
  }

  function AttestationPoll(maxAttempts: int, attestationAt: nat -> HttpAnswer): Poll<Bytes>
  {
    FirstReady(ReadyAttestations(attestationAt), AttestationBudget(maxAttempts))
  }

  /** With the same setting the receipt loop allows one query more than the attestation loop. */
  lemma BudgetsDifferByOne(maxAttempts: int)
    requires maxAttempts >= 0
    ensures ReceiptBudget(maxAttempts) == AttestationBudget(maxAttempts) + 1
  {
  }

  /** `getCircleAttestation`: at most `maxAttempts` requests; failed requests and answers
      that are not ready count as misses and are followed by a pause. */
  method GetCircleAttestation(messageHash: Bytes, timeout: int, maxAttempts: int, attestationAt: nat -> HttpAnswer)
    returns (attestation: Option<Bytes>, calls: seq<Call>)
    ensures attestation == AttestationPoll(maxAttempts, attestationAt).value
    ensures calls == PollCalls(GetAttestation(messageHash), Sleep(timeout), AttestationPoll(maxAttempts, attestationAt))
  {
    ghost var budget := AttestationBudget(maxAttempts);
    ghost var block := [GetAttestation(messageHash), Sleep(timeout)];
    calls := [];
    var i: nat := 0;
    while i < maxAttempts
      invariant i <= budget
      invariant PollFrom(ReadyAttestations(attestationAt), budget, i) == AttestationPoll(maxAttempts, attestationAt)
      invariant calls == Repeat(block, i)
      decreases maxAttempts - i
    {
      calls := calls + [GetAttestation(messageHash)];
      var response := ReadyAttestation(attestationAt(i));
      assert response == ReadyAttestations(attestationAt)(i);
      if response.Some? {
        return response, calls;
      }
      assert calls + [Sleep(timeout)] == Repeat(block, i) + block;
      calls := calls + [Sleep(timeout)];
      i := i + 1;
    }
    return None, calls;
  }

  /** What `handleCircleMessageInLogs` returns, with the requests it makes. */
  datatype CirclePair = CirclePair(message: Option<Bytes>, attestation: Option<Bytes>, calls: seq<Call>)

  function CircleMessageAndAttestation(
    logs: seq<Log>, emitter: Address, timeout: int, maxAttempts: int, w: World): (r: CirclePair)
    ensures r.message.Some? <==> r.attestation.Some?
    ensures r.message.Some? ==> r.message == CircleMessage(logs, emitter, w.messageOf)
    ensures CircleMessage(logs, emitter, w.messageOf).None? ==> r.calls == []
  {
    var message := CircleMessage(logs, emitter, w.messageOf);
    if message.None? then CirclePair(None, None, [])
    else
      var p := AttestationPoll(maxAttempts, w.attestationAt);
      var calls := PollCalls(GetAttestation(w.keccak256(message.value)), Sleep(timeout), p);
      if p.value.None? then CirclePair(None, None, calls)
      else CirclePair(message, p.value, calls)
  }

  /** The pair is all or nothing; when present it is the first Circle message of the logs
      and the first ready attestation for its hash; no request is made without a message. */
  lemma CirclePairAllOrNothing(logs: seq<Log>, emitter: Address, timeout: int, maxAttempts: int, w: World)
    ensures var r := CircleMessageAndAttestation(logs, emitter, timeout, maxAttempts, w);
      && (r.message.Some? <==> r.attestation.Some?)
      && (r.message.Some? <==>
            CircleMessage(logs, emitter, w.messageOf).Some? &&
            exists j :: 0 <= j < AttestationBudget(maxAttempts) && ReadyAttestation(w.attestationAt(j)).Some?)
      && (r.message.Some? ==> r.message == CircleMessage(logs, emitter, w.messageOf))
      && (CircleMessage(logs, emitter, w.messageOf).None? ==> r.calls == [])
      && CountIf(r.calls, IsAttestationRequest) <= AttestationBudget(maxAttempts)
  {
    var message := CircleMessage(logs, emitter, w.messageOf);
    var p := AttestationPoll(maxAttempts, w.attestationAt);
    FirstReadyFacts(ReadyAttestations(w.attestationAt), AttestationBudget(maxAttempts));
    if message.Some? {
      PollCallsCount(GetAttestation(w.keccak256(message.value)), Sleep(timeout), p, IsAttestationRequest);
    }
    if exists j :: 0 <= j < AttestationBudget(maxAttempts) && ReadyAttestation(w.attestationAt(j)).Some? {
      var j :| 0 <= j < AttestationBudget(maxAttempts) && ReadyAttestation(w.attestationAt(j)).Some?;
      assert ReadyAttestations(w.attestationAt)(j).Some?;
    }
  }

  /** `handleCircleMessageInLogs`. */
  method HandleCircleMessageInLogs(
    logs: seq<Log>, circleEmitterAddress: Address, attestationTimeout: int, attestationMaxAttempts: int, w: World)
    returns (message: Option<Bytes>, signature: Option<Bytes>, calls: seq<Call>)
    ensures CirclePair(message, signature, calls) ==
      CircleMessageAndAttestation(logs, circleEmitterAddress, attestationTimeout, attestationMaxAttempts, w)
    ensures message.Some? <==> signature.Some?
  {
    var circleMessage := FindCircleMessageInLogs(logs, circleEmitterAddress, w.messageOf);
    if circleMessage.None? {
      return None, None, [];
    }
    var circleMessageHash := w.keccak256(circleMessage.value);
    var attestation;
    attestation, calls := GetCircleAttestation(circleMessageHash, attestationTimeout, attestationMaxAttempts, w.attestationAt);
    if attestation.None? {
      return None, None, calls;
    }
    return circleMessage, attestation, calls;
  }

  // ---------------------------------------------------------------- one iteration

  /** One pass of the loop body on the queued hash `txHash`. */
  function Iteration(cfg: Config, txHash: TxHash, w: World): (r: Attempt)
    ensures ReceiptCalls(txHash, cfg.settings.receiptTimeout, ReceiptPoll(cfg.settings.receiptMaxAttempts, w.receiptAt))
      <= r.calls
    ensures r.outcome == NoReceipt <==> ReceiptPoll(cfg.settings.receiptMaxAttempts, w.receiptAt).value.None?
  {
    var s := cfg.settings;
    var rp := ReceiptPoll(s.receiptMaxAttempts, w.receiptAt);
    var receiptCalls := ReceiptCalls(txHash, s.receiptTimeout, rp);
    if rp.value.None? then Attempt(NoReceipt, receiptCalls)
    else if rp.value.value.to != Some(cfg.srcContract) then Attempt(NotSwapContract, receiptCalls)
    else
      var receipt := rp.value.value;
      var sequences := w.sequencesOf(receipt);
      if |sequences| == 0 then Attempt(NoSequence, receiptCalls)
      else
        var vaaCalls := receiptCalls +
          [GetSignedVaa(WORMHOLE_RPC_HOSTS, cfg.srcChainId, cfg.vaaEmitter, sequences[0], s.VaaTimeout(), s.VaaMaxAttempts())];
        if w.vaa.None? then Attempt(NoSignedVaa, vaaCalls)
        else
          var circle := CircleMessageAndAttestation(
            receipt.logs, cfg.circleEmitter, s.attestationTimeout, s.attestationMaxAttempts, w);
          var circleCalls := vaaCalls + circle.calls;
          if circle.message.None? || circle.attestation.None? then Attempt(NoCircleAttestation, circleCalls)
          else
            var redeemCalls := circleCalls +
              [Redeem(Helpers.RedeemParameters(w.vaa.value, circle.message.value, circle.attestation.value))];
            match w.redeem
            case SubmitRejected => Attempt(RedeemFailed, redeemCalls + [Sleep(s.relayerTimeout)])
            case Confirmed(h) => Attempt(Relayed(h), redeemCalls + [Sleep(s.relayerTimeout)])
            case ConfirmRejected => Attempt(ConfirmationFailed, redeemCalls)
  }

  /** The counts of the four kinds of request add up over concatenation. */
  lemma CountsAppend(a: seq<Call>, b: seq<Call>)
    ensures CountIf(a + b, IsReceiptQuery) == CountIf(a, IsReceiptQuery) + CountIf(b, IsReceiptQuery)
    ensures CountIf(a + b, IsVaaRequest) == CountIf(a, IsVaaRequest) + CountIf(b, IsVaaRequest)
    ensures CountIf(a + b, IsAttestationRequest) == CountIf(a, IsAttestationRequest) + CountIf(b, IsAttestationRequest)
    ensures CountIf(a + b, IsRedeem) == CountIf(a, IsRedeem) + CountIf(b, IsRedeem)
  {
    CountIfAppend(a, b, IsReceiptQuery);
    CountIfAppend(a, b, IsVaaRequest);
    CountIfAppend(a, b, IsAttestationRequest);
    CountIfAppend(a, b, IsRedeem);
  }

  /** The requests of the receipt loop: queries for `txHash` and pauses, nothing else. */
  lemma ReceiptCallsFacts(txHash: TxHash, timeout: int, p: Poll<Receipt>)
    requires p.value.Some? ==> p.queries >= 1
    ensures forall c :: c in ReceiptCalls(txHash, timeout, p) ==> c == GetTransactionReceipt(txHash) || c == Sleep(timeout)
    ensures CountIf(ReceiptCalls(txHash, timeout, p), IsReceiptQuery) == p.queries
    ensures CountIf(ReceiptCalls(txHash, timeout, p), IsVaaRequest) == 0
    ensures CountIf(ReceiptCalls(txHash, timeout, p), IsAttestationRequest) == 0
    ensures CountIf(ReceiptCalls(txHash, timeout, p), IsRedeem) == 0
  {
    var calls := ReceiptCalls(txHash, timeout, p);
    PollCallsMembers(GetTransactionReceipt(txHash), Sleep(timeout), p);
    PollCallsCount(GetTransactionReceipt(txHash), Sleep(timeout), p, IsReceiptQuery);
    CountIfNone(calls, IsVaaRequest);
    CountIfNone(calls, IsAttestationRequest);
    CountIfNone(calls, IsRedeem);
  }

  /** The requests of the Circle step: attestation requests and pauses, nothing else. */
  lemma CirclePairCallsFacts(logs: seq<Log>, emitter: Address, timeout: int, maxAttempts: int, w: World)
    ensures var calls := CircleMessageAndAttestation(logs, emitter, timeout, maxAttempts, w).calls;
      && CountIf(calls, IsReceiptQuery) == 0
      && CountIf(calls, IsVaaRequest) == 0
      && CountIf(calls, IsRedeem) == 0
      && CountIf(calls, IsAttestationRequest) <= AttestationBudget(maxAttempts)
  {
    var message := CircleMessage(logs, emitter, w.messageOf);
    var calls := CircleMessageAndAttestation(logs, emitter, timeout, maxAttempts, w).calls;
    CirclePairAllOrNothing(logs, emitter, timeout, maxAttempts, w);
    if message.Some? {
      PollCallsMembers(GetAttestation(w.keccak256(message.value)), Sleep(timeout), AttestationPoll(maxAttempts, w.attestationAt));
    }
    CountIfNone(calls, IsReceiptQuery);
    CountIfNone(calls, IsVaaRequest);
    CountIfNone(calls, IsRedeem);
  }

  lemma CountsOfOne(c: Call)
    ensures CountIf([c], IsReceiptQuery) == (if IsReceiptQuery(c) then 1 else 0)
    ensures CountIf([c], IsVaaRequest) == (if IsVaaRequest(c) then 1 else 0)
    ensures CountIf([c], IsAttestationRequest) == (if IsAttestationRequest(c) then 1 else 0)
    ensures CountIf([c], IsRedeem) == (if IsRedeem(c) then 1 else 0)
  {
    assert [c][1..] == [];
  }

  /** Bounds on what one iteration asks for: at most `receiptMaxAttempts + 1` receipt queries, at most one VAA request, at most
      `attestationMaxAttempts` attestation requests and at most one redeem call. */
  lemma IterationRequestBounds(cfg: Config, txHash: TxHash, w: World)
    ensures CountIf(Iteration(cfg, txHash, w).calls, IsReceiptQuery) ==
      ReceiptPoll(cfg.settings.receiptMaxAttempts, w.receiptAt).queries
    ensures CountIf(Iteration(cfg, txHash, w).calls, IsReceiptQuery) <= ReceiptBudget(cfg.settings.receiptMaxAttempts)
    ensures CountIf(Iteration(cfg, txHash, w).calls, IsVaaRequest) <= 1
    ensures CountIf(Iteration(cfg, txHash, w).calls, IsAttestationRequest) <= AttestationBudget(cfg.settings.attestationMaxAttempts)
    ensures CountIf(Iteration(cfg, txHash, w).calls, IsRedeem) <= 1
  {
    var s := cfg.settings;
    var rp := ReceiptPoll(s.receiptMaxAttempts, w.receiptAt);
    var receiptCalls := ReceiptCalls(txHash, s.receiptTimeout, rp);
    FirstReadyFacts(w.receiptAt, ReceiptBudget(s.receiptMaxAttempts));
    ReceiptCallsFacts(txHash, s.receiptTimeout, rp);
    if rp.value.Some? && rp.value.value.to == Some(cfg.srcContract) && |w.sequencesOf(rp.value.value)| > 0 {
      var receipt := rp.value.value;
      var vaaCall := GetSignedVaa(WORMHOLE_RPC_HOSTS, cfg.srcChainId, cfg.vaaEmitter, w.sequencesOf(receipt)[0], s.VaaTimeout(), s.VaaMaxAttempts());
      var vaaCalls := receiptCalls + [vaaCall];
      CountsOfOne(vaaCall);
      CountsAppend(receiptCalls, [vaaCall]);
      if w.vaa.Some? {
        var circle := CircleMessageAndAttestation(receipt.logs, cfg.circleEmitter, s.attestationTimeout, s.attestationMaxAttempts, w);
        var circleCalls := vaaCalls + circle.calls;
        CirclePairCallsFacts(receipt.logs, cfg.circleEmitter, s.attestationTimeout, s.attestationMaxAttempts, w);
        CountsAppend(vaaCalls, circle.calls);
        if circle.message.Some? && circle.attestation.Some? {
          var redeem := Redeem(Helpers.RedeemParameters(w.vaa.value, circle.message.value, circle.attestation.value));
          var redeemCalls := circleCalls + [redeem];
          CountsOfOne(redeem);
          CountsAppend(circleCalls, [redeem]);
          CountsOfOne(Sleep(s.relayerTimeout));
          CountsAppend(redeemCalls, [Sleep(s.relayerTimeout)]);
        }
      }
    }
  }

  /** An iteration only ever asks for the receipt of the hash it was given, and all of
      those queries come first, before any other kind of request. */
  lemma IterationQueriesOnlyHead(cfg: Config, txHash: TxHash, w: World)
    ensures var rp := ReceiptPoll(cfg.settings.receiptMaxAttempts, w.receiptAt);
      ReceiptCalls(txHash, cfg.settings.receiptTimeout, rp) <= Iteration(cfg, txHash, w).calls
    ensures forall c :: c in Iteration(cfg, txHash, w).calls && c.GetTransactionReceipt? ==> c == GetTransactionReceipt(txHash)
  {
    var s := cfg.settings;
    var rp := ReceiptPoll(s.receiptMaxAttempts, w.receiptAt);
    var receiptCalls := ReceiptCalls(txHash, s.receiptTimeout, rp);
    var calls := Iteration(cfg, txHash, w).calls;
    FirstReadyFacts(w.receiptAt, ReceiptBudget(s.receiptMaxAttempts));
    ReceiptCallsFacts(txHash, s.receiptTimeout, rp);
    IterationRequestBounds(cfg, txHash, w);
    assert receiptCalls <= calls;
    var rest := calls[|receiptCalls|..];
    assert calls == receiptCalls + rest;
    CountIfAppend(receiptCalls, rest, IsReceiptQuery);
    CountIfZero(rest, IsReceiptQuery);
    assert forall c :: c in calls ==> c in receiptCalls || c in rest;
  }

  /** The three artifacts a redeem needs, all present for this transaction: its receipt
      (sent to the source contract and carrying a Wormhole sequence), the signed VAA, the
      first Circle message of the receipt's logs and the first ready attestation. */
  ghost predicate HasArtifacts(cfg: Config, w: World, p: Helpers.RedeemParameters)
  {
    var rp := ReceiptPoll(cfg.settings.receiptMaxAttempts, w.receiptAt);
    && rp.value.Some?
    && rp.value.value.to == Some(cfg.srcContract)
    && |w.sequencesOf(rp.value.value)| > 0
    && w.vaa == Some(p.encodedWormholeMessage)
    && CircleMessage(rp.value.value.logs, cfg.circleEmitter, w.messageOf) == Some(p.circleBridgeMessage)
    && AttestationPoll(cfg.settings.attestationMaxAttempts, w.attestationAt).value == Some(p.circleAttestation)
  }

  /** The triple of artifacts, when the iteration gets that far. */
  function Artifacts(cfg: Config, w: World): Option<Helpers.RedeemParameters>
  {
    var s := cfg.settings;
    var rp := ReceiptPoll(s.receiptMaxAttempts, w.receiptAt);
    if rp.value.None? || rp.value.value.to != Some(cfg.srcContract) ||
       |w.sequencesOf(rp.value.value)| == 0 || w.vaa.None? then None
    else
      var circle := CircleMessageAndAttestation(
        rp.value.value.logs, cfg.circleEmitter, s.attestationTimeout, s.attestationMaxAttempts, w);
      if circle.message.None? || circle.attestation.None? then None
      else Some(Helpers.RedeemParameters(w.vaa.value, circle.message.value, circle.attestation.value))
  }

  lemma ArtifactsMeaning(cfg: Config, w: World, p: Helpers.RedeemParameters)
    ensures HasArtifacts(cfg, w, p) <==> Artifacts(cfg, w) == Some(p)
  {
    var s := cfg.settings;
    var rp := ReceiptPoll(s.receiptMaxAttempts, w.receiptAt);
    if rp.value.Some? {
      CirclePairAllOrNothing(rp.value.value.logs, cfg.circleEmitter, s.attestationTimeout, s.attestationMaxAttempts, w);
    }
  }

  /** The only redeem call an iteration can make is the one with the artifacts, and it
      makes it whenever they exist. */
  lemma IterationRedeemIsArtifacts(cfg: Config, txHash: TxHash, w: World)
    ensures forall c :: c in Iteration(cfg, txHash, w).calls && c.Redeem? ==>
      Artifacts(cfg, w) == Some(c.params)
    ensures Artifacts(cfg, w).Some? ==> Redeem(Artifacts(cfg, w).value) in Iteration(cfg, txHash, w).calls
  {
    var s := cfg.settings;
    var rp := ReceiptPoll(s.receiptMaxAttempts, w.receiptAt);
    var calls := Iteration(cfg, txHash, w).calls;
    FirstReadyFacts(w.receiptAt, ReceiptBudget(s.receiptMaxAttempts));
    ReceiptCallsFacts(txHash, s.receiptTimeout, rp);
    IterationRequestBounds(cfg, txHash, w);
    if Artifacts(cfg, w).None? {
      if CountIf(calls, IsRedeem) != 0 {
        var receipt := rp.value.value;
        var vaaCall := GetSignedVaa(WORMHOLE_RPC_HOSTS, cfg.srcChainId, cfg.vaaEmitter, w.sequencesOf(receipt)[0], s.VaaTimeout(), s.VaaMaxAttempts());
        CountsOfOne(vaaCall);
        CountsAppend(ReceiptCalls(txHash, s.receiptTimeout, rp), [vaaCall]);
        var circle := CircleMessageAndAttestation(receipt.logs, cfg.circleEmitter, s.attestationTimeout, s.attestationMaxAttempts, w);
        CirclePairCallsFacts(receipt.logs, cfg.circleEmitter, s.attestationTimeout, s.attestationMaxAttempts, w);
        CountsAppend(ReceiptCalls(txHash, s.receiptTimeout, rp) + [vaaCall], circle.calls);
        assert false;
      }
      CountIfZero(calls, IsRedeem);
    } else {
      var receipt := rp.value.value;
      var vaaCall := GetSignedVaa(WORMHOLE_RPC_HOSTS, cfg.srcChainId, cfg.vaaEmitter, w.sequencesOf(receipt)[0], s.VaaTimeout(), s.VaaMaxAttempts());
      var circle := CircleMessageAndAttestation(receipt.logs, cfg.circleEmitter, s.attestationTimeout, s.attestationMaxAttempts, w);
      var pre := ReceiptCalls(txHash, s.receiptTimeout, rp) + [vaaCall] + circle.calls;
      var r := Redeem(Artifacts(cfg, w).value);
      var post: seq<Call> := if w.redeem.ConfirmRejected? then [] else [Sleep(s.relayerTimeout)];
      assert calls == pre + [r] + post;
      CountsOfOne(vaaCall);
      CountsAppend(ReceiptCalls(txHash, s.receiptTimeout, rp), [vaaCall]);
      CirclePairCallsFacts(receipt.logs, cfg.circleEmitter, s.attestationTimeout, s.attestationMaxAttempts, w);
      CountsAppend(ReceiptCalls(txHash, s.receiptTimeout, rp) + [vaaCall], circle.calls);
      CountIfZero(pre, IsRedeem);
      assert forall c :: c in calls ==> c in pre || c == r || c in post;
    }
  }

  /** All or nothing: an iteration calls redeem with `p` exactly when `p` is the triple of
      artifacts, and it calls redeem (once) exactly when the triple exists. */
  lemma IterationRedeemsExactlyWithArtifacts(cfg: Config, txHash: TxHash, w: World)
    ensures forall p :: Redeem(p) in Iteration(cfg, txHash, w).calls <==> HasArtifacts(cfg, w, p)
    ensures CountIf(Iteration(cfg, txHash, w).calls, IsRedeem) == 1 <==> exists p :: HasArtifacts(cfg, w, p)
  {
    var calls := Iteration(cfg, txHash, w).calls;
    IterationRedeemIsArtifacts(cfg, txHash, w);
    IterationRequestBounds(cfg, txHash, w);
    forall p ensures Redeem(p) in calls <==> HasArtifacts(cfg, w, p) {
      ArtifactsMeaning(cfg, w, p);
    }
    if CountIf(calls, IsRedeem) == 1 {
      if forall c :: c in calls ==> !IsRedeem(c) {
        CountIfNone(calls, IsRedeem);
      }
      var c :| c in calls && IsRedeem(c);
      assert HasArtifacts(cfg, w, c.params);
    } else {
      if exists p :: HasArtifacts(cfg, w, p) {
        var p :| HasArtifacts(cfg, w, p);
        ArtifactsMeaning(cfg, w, p);
        CountIfZero(calls, IsRedeem);
        assert false;
      }
    }
  }

  /** Early drops: a missing receipt, or one not sent to the source contract, ends the
      iteration before the logs are parsed, and a receipt without a Wormhole sequence ends
      it before any VAA, attestation or redeem request; the receipt loop's queries and
      pauses are all such an iteration does. */
  lemma IterationDropsEarly(cfg: Config, txHash: TxHash, w: World)
    ensures var rp := ReceiptPoll(cfg.settings.receiptMaxAttempts, w.receiptAt);
      && (Iteration(cfg, txHash, w).outcome == NoReceipt <==> rp.value.None?)
      && (Iteration(cfg, txHash, w).outcome == NotSwapContract <==>
            rp.value.Some? && rp.value.value.to != Some(cfg.srcContract))
      && (Iteration(cfg, txHash, w).outcome == NoSequence <==>
            rp.value.Some? && rp.value.value.to == Some(cfg.srcContract) && |w.sequencesOf(rp.value.value)| == 0)
      && (Iteration(cfg, txHash, w).outcome in {NoReceipt, NotSwapContract, NoSequence} ==>
            Iteration(cfg, txHash, w).calls == ReceiptCalls(txHash, cfg.settings.receiptTimeout, rp) &&
            CountIf(Iteration(cfg, txHash, w).calls, IsVaaRequest) == 0 &&
            CountIf(Iteration(cfg, txHash, w).calls, IsAttestationRequest) == 0 &&
            CountIf(Iteration(cfg, txHash, w).calls, IsRedeem) == 0)
  {
    var rp := ReceiptPoll(cfg.settings.receiptMaxAttempts, w.receiptAt);
    FirstReadyFacts(w.receiptAt, ReceiptBudget(cfg.settings.receiptMaxAttempts));
    ReceiptCallsFacts(txHash, cfg.settings.receiptTimeout, rp);
  }

  /** The VAA is requested for the first parsed sequence, with the source chain id, the
      Circle integration emitter and the attestation timeout and attempt count. */
  lemma IterationUsesFirstSequence(cfg: Config, txHash: TxHash, w: World)
    ensures forall c :: c in Iteration(cfg, txHash, w).calls && c.GetSignedVaa? ==>
      var rp := ReceiptPoll(cfg.settings.receiptMaxAttempts, w.receiptAt);
      && rp.value.Some?
      && |w.sequencesOf(rp.value.value)| > 0
      && c == GetSignedVaa(WORMHOLE_RPC_HOSTS, cfg.srcChainId, cfg.vaaEmitter, w.sequencesOf(rp.value.value)[0],
                           cfg.settings.attestationTimeout, cfg.settings.attestationMaxAttempts)
  {
    var s := cfg.settings;
    var rp := ReceiptPoll(s.receiptMaxAttempts, w.receiptAt);
    var receiptCalls := ReceiptCalls(txHash, s.receiptTimeout, rp);
    var calls := Iteration(cfg, txHash, w).calls;
    FirstReadyFacts(w.receiptAt, ReceiptBudget(s.receiptMaxAttempts));
    ReceiptCallsFacts(txHash, s.receiptTimeout, rp);
    if rp.value.None? || rp.value.value.to != Some(cfg.srcContract) || |w.sequencesOf(rp.value.value)| == 0 {
      assert calls == receiptCalls;
    } else {
      var receipt := rp.value.value;
      var vaaCall := GetSignedVaa(WORMHOLE_RPC_HOSTS, cfg.srcChainId, cfg.vaaEmitter, w.sequencesOf(receipt)[0],
                                  s.attestationTimeout, s.attestationMaxAttempts);
      var circle := CircleMessageAndAttestation(receipt.logs, cfg.circleEmitter, s.attestationTimeout, s.attestationMaxAttempts, w);
      CirclePairRequestsNoVaa(receipt.logs, cfg.circleEmitter, s.attestationTimeout, s.attestationMaxAttempts, w);
      var head := receiptCalls + [vaaCall];
      assert forall c :: c in head && c.GetSignedVaa? ==> c == vaaCall;
      assert exists tail :: calls == head + tail && forall c :: c in tail ==> !c.GetSignedVaa? by {
        if w.vaa.None? {
          assert calls == head + [];
        } else if circle.message.None? || circle.attestation.None? {
          assert calls == head + circle.calls;
        } else {
          var redeem := Redeem(Helpers.RedeemParameters(w.vaa.value, circle.message.value, circle.attestation.value));
          match w.redeem
          case ConfirmRejected => assert calls == head + (circle.calls + [redeem]);
          case SubmitRejected => assert calls == head + (circle.calls + [redeem, Sleep(s.relayerTimeout)]);
          case Confirmed(_) => assert calls == head + (circle.calls + [redeem, Sleep(s.relayerTimeout)]);
        }
      }
    }
  }

  /** The attestation loop asks for no VAA. */
  lemma CirclePairRequestsNoVaa(logs: seq<Log>, emitter: Address, timeout: int, maxAttempts: int, w: World)
    ensures forall c :: c in CircleMessageAndAttestation(logs, emitter, timeout, maxAttempts, w).calls ==> !c.GetSignedVaa?
  {
    var message := CircleMessage(logs, emitter, w.messageOf);
    if message.Some? {
      PollCallsMembers(GetAttestation(w.keccak256(message.value)), Sleep(timeout), AttestationPoll(maxAttempts, w.attestationAt));
    }
  }


  /** Once the redeem is called its answer decides the outcome, and it is never called
      again: a rejected submission is logged and the entry dropped, and only a rejected
      confirmation (which ends the loop) keeps the entry in the list. */
  lemma IterationRedeemOutcome(cfg: Config, txHash: TxHash, w: World)
    ensures Iteration(cfg, txHash, w).outcome in {RedeemFailed, ConfirmationFailed} ||
            Iteration(cfg, txHash, w).outcome.Relayed? <==>
            CountIf(Iteration(cfg, txHash, w).calls, IsRedeem) == 1
    ensures Iteration(cfg, txHash, w).outcome == RedeemFailed <==>
            CountIf(Iteration(cfg, txHash, w).calls, IsRedeem) == 1 && w.redeem == SubmitRejected
    ensures Iteration(cfg, txHash, w).outcome == ConfirmationFailed <==>
            CountIf(Iteration(cfg, txHash, w).calls, IsRedeem) == 1 && w.redeem == ConfirmRejected
  {
    IterationRequestBounds(cfg, txHash, w);
    IterationRedeemsExactlyWithArtifacts(cfg, txHash, w);
    var s := cfg.settings;
    var rp := ReceiptPoll(s.receiptMaxAttempts, w.receiptAt);
    if rp.value.Some? && rp.value.value.to == Some(cfg.srcContract) && |w.sequencesOf(rp.value.value)| > 0 && w.vaa.Some? {
      var receipt := rp.value.value;
      CirclePairAllOrNothing(receipt.logs, cfg.circleEmitter, s.attestationTimeout, s.attestationMaxAttempts, w);
    }
  }

  // ---------------------------------------------------------------- the queue

  predicate Distinct(q: seq<TxHash>)
  {
    forall i, j :: 0 <= i < j < |q| ==> q[i] != q[j]
  }

  /** The "pending" callback: a hash already in the list is ignored, any other is appended. */
  function Observed(q: seq<TxHash>, h: TxHash): (r: seq<TxHash>)
    ensures q <= r && |r| <= |q| + 1
    ensures forall x :: x in r <==> x in q || x == h
  {
    if h in q then q else q + [h]
  }

  /** The callback run on `hs`, in order. */
  function ObserveAll(q: seq<TxHash>, hs: seq<TxHash>): seq<TxHash>
  {
    if hs == [] then q else Observed(ObserveAll(q, hs[..|hs| - 1]), hs[|hs| - 1])
  }

  /** The callback keeps the list free of duplicates. */
  lemma ObservedKeepsDistinct(q: seq<TxHash>, h: TxHash)
    requires Distinct(q)
    ensures Distinct(Observed(q, h))
  {
  }

  /** The callback only ever appends: the list it had is a prefix of the list it leaves,
      and what it adds are hashes observed in `hs` that were not already there,
      with no duplicates. */
  lemma {:induction false} ObserveAllAppends(q: seq<TxHash>, hs: seq<TxHash>)
    ensures |q| <= |ObserveAll(q, hs)| <= |q| + |hs|
    ensures ObserveAll(q, hs)[..|q|] == q
    ensures forall h :: h in ObserveAll(q, hs) <==> h in q || h in hs
    ensures Distinct(q) ==> Distinct(ObserveAll(q, hs))
  {
    if hs != [] {
      var init := hs[..|hs| - 1];
      ObserveAllAppends(q, init);
      var r := ObserveAll(q, init);
      assert r[..|q|] == q;
      if hs[|hs| - 1] !in r {
        assert (r + [hs[|hs| - 1]])[..|q|] == r[..|q|];
      }
      assert forall h :: h in hs <==> h in init || h == hs[|hs| - 1] by {
        assert hs == init + [hs[|hs| - 1]];
      }
    }
  }

  /** FIFO: hashes that are new and pairwise different are appended in observation order. */
  lemma {:induction false} ObserveAllFresh(q: seq<TxHash>, hs: seq<TxHash>)
    requires Distinct(q + hs)
    ensures ObserveAll(q, hs) == q + hs
  {
    if hs != [] {
      var init := hs[..|hs| - 1];
      var last := hs[|hs| - 1];
      assert q + hs == (q + init) + [last];
      assert Distinct(q + init) by {
        forall i, j | 0 <= i < j < |q + init| ensures (q + init)[i] != (q + init)[j] {
          assert (q + init)[i] == (q + hs)[i] && (q + init)[j] == (q + hs)[j];
        }
      }
      ObserveAllFresh(q, init);
      assert last !in q + init by {
        forall k | 0 <= k < |q + init| ensures (q + init)[k] != last {
          assert (q + init)[k] == (q + hs)[k];
          assert last == (q + hs)[|q + hs| - 1];
        }
      }
    }
  }

  /** Deduplication: observing a hash twice leaves the same list as observing it once. */
  lemma ObserveTwiceIsOnce(q: seq<TxHash>, h: TxHash)
    ensures ObserveAll(q, [h, h]) == Observed(q, h)
  {
    assert [h, h][..1] == [h];
    assert [h][..0] == [];
    assert ObserveAll(q, [h]) == Observed(q, h);
    assert h in Observed(q, h);
  }

  /** The check looks only at the current list: while a hash is at the head it is ignored,
      but once it has been shifted off the callback appends it again. */
  lemma ReobservedAfterShift(q: seq<TxHash>)
    requires q != [] && Distinct(q)
    ensures Observed(q, q[0]) == q
    ensures Observed(q[1..], q[0]) == q[1..] + [q[0]]
  {
    assert q[0] !in q[1..] by {
      forall k | 0 <= k < |q[1..]| ensures q[1..][k] != q[0] {
        assert q[1..][k] == q[k + 1];
      }
    }
  }

  // ---------------------------------------------------------------- the loop

  /** The relayer's state: the list of pending hashes and whether the loop still runs.
      `enqueued` and `removed` are the histories of hashes appended and shifted off. */
  class RelayLoop {
    const cfg: Config
    var pending: seq<TxHash>
    var running: bool
    ghost var enqueued: seq<TxHash>
    ghost var removed: seq<TxHash>

    /** FIFO: the hashes removed so far, followed by those still pending, are exactly the
        hashes appended so far, in the order they were appended. */
    ghost predicate Valid()
      reads this
    {
      enqueued == removed + pending && Distinct(pending)
    }

    constructor (cfg: Config)
      ensures Valid() && this.cfg == cfg
      ensures pending == [] && running && enqueued == [] && removed == []
    {
      this.cfg := cfg;
      pending := [];
      running := true;
      enqueued := [];
      removed := [];
    }

    /** The "pending" callback. */
    method Observe(txHash: TxHash)
      requires Valid()
      modifies this`pending, this`enqueued
      ensures Valid()
      ensures pending == Observed(old(pending), txHash)
      ensures enqueued == old(enqueued) + (if txHash in old(pending) then [] else [txHash])
    {
      if txHash in pending {
        return;
      }
      pending := pending + [txHash];
      enqueued := enqueued + [txHash];
    }

    /** Callbacks that fire while an iteration is suspended. */
    method ObserveEach(hs: seq<TxHash>)
      requires Valid()
      modifies this`pending, this`enqueued
      ensures Valid()
      ensures pending == ObserveAll(old(pending), hs)
      ensures old(pending) <= pending && removed == old(removed)
      ensures enqueued == old(enqueued) + pending[|old(pending)|..]
    {
      var i := 0;
      while i < |hs|
        invariant 0 <= i <= |hs|
        invariant Valid() && removed == old(removed)
        invariant pending == ObserveAll(old(pending), hs[..i])
        invariant old(pending) <= pending
        invariant enqueued == old(enqueued) + pending[|old(pending)|..]
      {
        assert hs[..i + 1][..i] == hs[..i];
        Observe(hs[i]);
        i := i + 1;
      }
      assert hs[..|hs|] == hs;
    }

    /** Removes the head, as `pendingTxHashes.shift()` does. */
    method Shift()
      requires Valid() && pending != []
      modifies this`pending, this`removed
      ensures Valid()
      ensures pending == old(pending)[1..] && removed == old(removed) + [old(pending)[0]]
    {
      removed := removed + [pending[0]];
      pending := pending[1..];
    }

    /** One turn of `while (true)`. `arrivals` are the hashes the callback delivers while
        the turn is suspended in an `await`, before the head is shifted off; callbacks
        between turns are `Observe` steps. Once an error has escaped the loop, a turn does
        nothing. */
    method Step(w: World, arrivals: seq<TxHash>) returns (outcome: Option<Outcome>, calls: seq<Call>)
      requires Valid()
      modifies this`pending, this`enqueued, this`removed, this`running
      ensures Valid()
      ensures !old(running) ==>
        outcome == None && calls == [] && !running &&
        pending == old(pending) && removed == old(removed) && enqueued == old(enqueued)
      ensures old(running) && old(pending) == [] ==>
        outcome == None && calls == [Sleep(cfg.settings.relayerTimeout)] && running &&
        pending == ObserveAll([], arrivals) && removed == old(removed)
      ensures old(running) && old(pending) != [] ==>
        outcome == Some(Iteration(cfg, old(pending)[0], w).outcome) &&
        calls == Iteration(cfg, old(pending)[0], w).calls &&
        if outcome == Some(ConfirmationFailed) then
          !running && pending == ObserveAll(old(pending), arrivals) && removed == old(removed)
        else
          running && pending == ObserveAll(old(pending), arrivals)[1..] &&
          removed == old(removed) + [old(pending)[0]]
    {
      if !running {
        return None, [];
      }
      outcome := None;
      if |pending| == 0 {
        ObserveEach(arrivals);
        calls := [Sleep(cfg.settings.relayerTimeout)];
        return;
      }
      var s := cfg.settings;
      var txHash := pending[0];
      ghost var expected := Iteration(cfg, txHash, w);
      ObserveAllAppends(pending, arrivals);

      var receipt;
      receipt, calls := PollReceipt(txHash, s.receiptMaxAttempts, s.receiptTimeout, w.receiptAt);
      if receipt == None || receipt.value.to != Some(cfg.srcContract) {
        ObserveEach(arrivals);
        Shift();
        outcome := Some(if receipt == None then NoReceipt else NotSwapContract);
        return;
      }

      var sequences := w.sequencesOf(receipt.value);
      if |sequences| == 0 {
        ObserveEach(arrivals);
        Shift();
        outcome := Some(NoSequence);
        return;
      }
      var sequence := sequences[0];

      calls := calls + [GetSignedVaa(WORMHOLE_RPC_HOSTS, cfg.srcChainId, cfg.vaaEmitter, sequence, s.VaaTimeout(), s.VaaMaxAttempts())];
      var result := w.vaa;
      if result == None {
        ObserveEach(arrivals);
        Shift();
        outcome := Some(NoSignedVaa);
        return;
      }
      var encodedWormholeMessage := result.value;

      var circleBridgeMessage, circleAttestation, circleCalls :=
        HandleCircleMessageInLogs(receipt.value.logs, cfg.circleEmitter, s.attestationTimeout, s.attestationMaxAttempts, w);
      calls := calls + circleCalls;
      if circleBridgeMessage == None || circleAttestation == None {
        ObserveEach(arrivals);
        Shift();
        outcome := Some(NoCircleAttestation);
        return;
      }

      calls := calls + [Redeem(Helpers.RedeemParameters(encodedWormholeMessage, circleBridgeMessage.value, circleAttestation.value))];
      ObserveEach(arrivals);
      match w.redeem {
        case ConfirmRejected =>
          running := false;
          outcome := Some(ConfirmationFailed);
          return;
        case SubmitRejected =>
          outcome := Some(RedeemFailed);
        case Confirmed(h) =>
          outcome := Some(Relayed(h));
      }
      Shift();
      calls := calls + [Sleep(s.relayerTimeout)];
    }
  }
}
