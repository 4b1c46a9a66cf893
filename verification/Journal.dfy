// The durable transaction journal: signed bytes are saved before they are sent, and every
// recovery works from what was saved. A crash stops between two durable effects.
module Journal {
  import opened Wrappers

  type Id = string

  // The hash stands for the bytes it is computed from.
  datatype TxHash = TxHash(raw: string)

  datatype Receipt = Receipt(hash: TxHash, success: bool, blockHash: string, blockNumber: nat)

  datatype SavedReceipt = SavedReceipt(success: bool, blockHash: string, blockNumber: nat)

  datatype Step = MakerApprove(i: nat) | TakerApprove | Primary | RiskDock | MakerRevoke(j: nat)

  datatype TxKey = TxKey(request: Id, step: Step)

  datatype SavedTx = SavedTx(
    action: string, strategyHash: string, sender: string, nonce: nat, request: string, raw: string, hash: TxHash,
    receipt: Option<SavedReceipt>)

  // Bytes handed to a node, whether or not it answered.
  datatype Sent = Sent(key: TxKey, raw: string)

  datatype Log = Log(txs: map<TxKey, SavedTx>, sent: seq<Sent>)

  function EmptyLog(): Log {
    Log(map[], [])
  }

  // ---- one durable effect --------------------------------------------------------------------

  datatype Entry = Prepare(key: TxKey, tx: SavedTx) | Broadcast(key: TxKey) | Confirm(key: TxKey, receipt: Receipt)

  predicate Agrees(saved: Option<SavedReceipt>, r: Receipt) {
    saved.Some? ==> saved.value.success == r.success && saved.value.blockHash == r.blockHash
  }

  predicate Allowed(log: Log, e: Entry) {
    match e
    case Prepare(key, tx) => key !in log.txs && tx.receipt.None? && tx.hash == TxHash(tx.raw)
    case Broadcast(key) => key in log.txs && log.txs[key].receipt.None?
    case Confirm(key, r) => key in log.txs && r.hash == log.txs[key].hash && Agrees(log.txs[key].receipt, r)
  }

  function Write(log: Log, e: Entry): Log {
    if !Allowed(log, e) then log
    else
      match e
      case Prepare(key, tx) => log.(txs := log.txs[key := tx])
      case Broadcast(key) => log.(sent := log.sent + [Sent(key, log.txs[key].raw)])
      case Confirm(key, r) =>
        log.(txs := log.txs[key := log.txs[key].(receipt := Some(SavedReceipt(r.success, r.blockHash, r.blockNumber)))])
  }

  function WriteAll(log: Log, entries: seq<Entry>): Log
    decreases |entries|
  {
    if entries == [] then log else WriteAll(Write(log, entries[0]), entries[1..])
  }

  // ---- what a journal keeps ------------------------------------------------------------------

  ghost predicate Sound(log: Log) {
    && (forall k {:trigger log.txs[k]} :: k in log.txs ==> log.txs[k].hash == TxHash(log.txs[k].raw))
    && (forall i {:trigger log.sent[i]} :: 0 <= i < |log.sent| ==>
          log.sent[i].key in log.txs && log.sent[i].raw == log.txs[log.sent[i].key].raw)
  }

  // A saved transaction keeps all but its receipt, and a receipt keeps its block and status.
  predicate Keeps(a: SavedTx, b: SavedTx) {
    && b == a.(receipt := b.receipt)
    && (a.receipt.Some? ==> b.receipt.Some? && b.receipt.value.success == a.receipt.value.success
                            && b.receipt.value.blockHash == a.receipt.value.blockHash)
  }

  ghost predicate Extends(a: Log, b: Log) {
    && a.sent <= b.sent
    && forall k {:trigger a.txs[k]} {:trigger b.txs[k]} :: k in a.txs ==> k in b.txs && Keeps(a.txs[k], b.txs[k])
  }

  lemma WriteKeeps(log: Log, e: Entry)
    requires Sound(log)
    ensures Sound(Write(log, e)) && Extends(log, Write(log, e))
  {
  }

  lemma ExtendsChains(a: Log, b: Log, c: Log)
    requires Extends(a, b) && Extends(b, c)
    ensures Extends(a, c)
  {
  }

  lemma {:induction false} JournalOnlyExtends(log: Log, entries: seq<Entry>)
    requires Sound(log)
    ensures Sound(WriteAll(log, entries)) && Extends(log, WriteAll(log, entries))
    decreases |entries|
  {
    if entries == [] {
    } else {
      WriteKeeps(log, entries[0]);
      hide Write, Sound, Extends;
      JournalOnlyExtends(Write(log, entries[0]), entries[1..]);
      ExtendsChains(log, Write(log, entries[0]), WriteAll(log, entries));
    }
  }

  // However often it is interrupted and resumed: every raw transaction ever sent for a step is the
  // one saved for that step, so all of them are the same bytes, with one hash and one nonce.
  lemma OneTransactionPerStep(entries: seq<Entry>, i: nat, k: nat)
    requires var sent := WriteAll(EmptyLog(), entries).sent; i < |sent| && k < |sent| && sent[i].key == sent[k].key
    ensures var log := WriteAll(EmptyLog(), entries);
            && log.sent[i].key in log.txs && log.sent[i].raw == log.sent[k].raw == log.txs[log.sent[i].key].raw
            && log.txs[log.sent[i].key].hash == TxHash(log.sent[k].raw)
  {
    JournalOnlyExtends(EmptyLog(), entries);
    hide WriteAll;
  }

  // The bytes were saved before the first time they were sent: at that moment the saved
  // transaction is there, and it is the one there is now.
  lemma SavedBeforeSent(entries: seq<Entry>, n: nat, i: nat)
    requires n <= |entries| && i < |WriteAll(EmptyLog(), entries[..n]).sent|
    ensures var early, late := WriteAll(EmptyLog(), entries[..n]), WriteAll(EmptyLog(), entries);
            && early.sent[i].key in early.txs && early.txs[early.sent[i].key].raw == early.sent[i].raw
            && i < |late.sent| && late.sent[i] == early.sent[i] && early.sent[i].key in late.txs
               && Keeps(early.txs[early.sent[i].key], late.txs[early.sent[i].key])
  {
    WriteAllSplits(EmptyLog(), entries, n);
    JournalOnlyExtends(EmptyLog(), entries[..n]);
    JournalOnlyExtends(WriteAll(EmptyLog(), entries[..n]), entries[n..]);
    hide WriteAll;
  }

  // A recorded receipt is never replaced by one with another block or status.
  lemma ReceiptsAreFinal(entries: seq<Entry>, n: nat, key: TxKey)
    requires n <= |entries| && key in WriteAll(EmptyLog(), entries[..n]).txs
             && WriteAll(EmptyLog(), entries[..n]).txs[key].receipt.Some?
    ensures var early, late := WriteAll(EmptyLog(), entries[..n]).txs[key], WriteAll(EmptyLog(), entries).txs;
            && key in late && late[key].receipt.Some?
            && late[key].receipt.value.success == early.receipt.value.success
               && late[key].receipt.value.blockHash == early.receipt.value.blockHash
  {
    WriteAllSplits(EmptyLog(), entries, n);
    JournalOnlyExtends(EmptyLog(), entries[..n]);
    JournalOnlyExtends(WriteAll(EmptyLog(), entries[..n]), entries[n..]);
    hide WriteAll;
  }

  lemma {:induction false} WriteAllSplits(log: Log, entries: seq<Entry>, n: nat)
    requires n <= |entries|
    ensures WriteAll(log, entries) == WriteAll(WriteAll(log, entries[..n]), entries[n..])
    decreases n
  {
    hide Write;
    if n > 0 {
      assert entries[..n][1..] == entries[1..][..n - 1] && entries[1..][n - 1..] == entries[n..];
      WriteAllSplits(Write(log, entries[0]), entries[1..], n - 1);
    } else {
      assert entries[0..] == entries;
    }
  }

  // ---- the code --------------------------------------------------------------------------------

  // How send ends: with the confirmed receipt, with a revert (before signing or on chain), or with
  // any other error or a crash, after which nothing more happens.
  datatype Sending = Confirmed(receipt: Receipt) | Reverted | Interrupted

  // What the outside answers about one step: whether an unsigned transaction can be prepared, is
  // rejected by the chain or throws, and what becomes of the signed one. `known` says that its receipt
  // is there before it is sent again; a nonce consumed outside leaves no receipt at all.
  datatype Preparing = Prepared | Rejected | Unprepared

  datatype Fate = Lands(success: bool, known: bool, blockHash: string, blockNumber: nat) | Consumed

  datatype StepAnswer = StepAnswer(preparing: Preparing, fate: Fate)

  datatype StepEnding = Succeeds | Reverts | Throws

  // How a send ends when nothing is lost: a recorded receipt stands, a saved transaction has its
  // fate, and only an unsaved one is prepared.
  function StepEnds(log: Log, key: TxKey, answer: StepAnswer): StepEnding {
    if key in log.txs && log.txs[key].receipt.Some? then
      if log.txs[key].receipt.value.success then Succeeds else Reverts
    else if key !in log.txs && answer.preparing.Unprepared? then Throws
    else if key !in log.txs && answer.preparing.Rejected? then Reverts
    else if answer.fate.Consumed? then Throws
    else if answer.fate.success then Succeeds
    else Reverts
  }

  predicate EndsAs(r: Sending, e: StepEnding) {
    match e
    case Succeeds => r.Confirmed?
    case Reverts => r.Reverted?
    case Throws => r.Interrupted?
  }

  predicate Matches(tx: SavedTx, sender: string, action: string, strategyHash: string) {
    tx.sender == sender && tx.action == action && tx.strategyHash == strategyHash && TxHash(tx.raw) == tx.hash
  }

  class DurableSender {
    var txs: map<TxKey, SavedTx>
    ghost var sent: seq<Sent>

    ghost function State(): Log
      reads this
    {
      Log(txs, sent)
    }

    constructor ()
      ensures State() == EmptyLog()
    {
      txs, sent := map[], [];
    }

    // What the node shows of a transaction that is confirmed and recorded, or has landed.
    function Shown(tx: SavedTx, fate: Fate): Receipt
      requires tx.receipt.Some? || fate.Lands?
    {
      if tx.receipt.Some? then
        Receipt(tx.hash, tx.receipt.value.success, tx.receipt.value.blockHash, tx.receipt.value.blockNumber)
      else Receipt(tx.hash, fate.success, fate.blockHash, fate.blockNumber)
    }

    // receipt(tx): whatever the node answers, only a receipt of this transaction that agrees with
    // the recorded one gets through, and "not found" only if none was recorded.
    method AskReceipt(tx: SavedTx, calm: bool, fate: Fate) returns (r: Result<Option<Receipt>>)
      ensures r.Success? && r.value.Some? ==> r.value.value.hash == tx.hash && Agrees(tx.receipt, r.value.value)
      ensures r.Success? && r.value.None? ==> tx.receipt.None?
      ensures calm && (tx.receipt.Some? || (fate.Lands? && fate.known)) ==> r == Success(Some(Shown(tx, fate)))
      ensures calm && tx.receipt.None? && !(fate.Lands? && fate.known) ==> r == Success(None)
    {
      if calm {
        return Success(if tx.receipt.Some? || (fate.Lands? && fate.known) then Some(Shown(tx, fate)) else None);
      }
      if * {
        return Failure("rpc error");
      }
      var answer: Option<Receipt> := *;
      if !answer.Some? {
        return if tx.receipt.Some? then Failure("previously confirmed receipt is unavailable") else Success(None);
      }
      var found := answer.value;
      if * {
        // The node is behind the receipt's block: wait, and take what the waiter returns.
        found := *;
      }
      if found.hash != tx.hash {
        return Failure("receipt belongs to a replacement");
      }
      if tx.receipt.Some? && (found.blockHash != tx.receipt.value.blockHash
          || found.success != tx.receipt.value.success) {
        return Failure("receipt changed");
      }
      return Success(Some(found));
    }

    method Save(key: TxKey, tx: SavedTx)
      requires Allowed(State(), Prepare(key, tx))
      modifies this
      ensures State() == Write(old(State()), Prepare(key, tx))
    {
      txs := txs[key := tx];
    }

    method SendRaw(key: TxKey)
      requires Allowed(State(), Broadcast(key))
      modifies this
      ensures State() == Write(old(State()), Broadcast(key))
    {
      sent := sent + [Sent(key, txs[key].raw)];
    }

    method Record(key: TxKey, receipt: Receipt)
      requires Allowed(State(), Confirm(key, receipt))
      modifies this
      ensures State() == Write(old(State()), Confirm(key, receipt))
    {
      txs := txs[key := txs[key].(receipt := Some(SavedReceipt(receipt.success, receipt.blockHash,
          receipt.blockNumber)))];
    }

    // A crash, an abort or a lost answer; none in a calm run.
    method Stops(calm: bool) returns (stops: bool)
      ensures calm ==> !stops
    {
      stops := *;
      stops := stops && !calm;
    }

    // Every durable effect is one entry of the journal.
    method Send(key: TxKey, sender: string, action: string, strategyHash: string, calm: bool, answer: StepAnswer)
        returns (r: Sending, ghost entries: seq<Entry>)
      modifies this
      ensures State() == WriteAll(old(State()), entries)
      ensures forall e :: e in entries ==> e.key == key
      ensures forall e :: e in entries && e.Prepare? ==>
                            key !in old(txs) && Matches(e.tx, sender, action, strategyHash)
      ensures r.Confirmed? ==>
                && key in txs && r.receipt.hash == txs[key].hash
                && txs[key].receipt == Some(SavedReceipt(true, r.receipt.blockHash, r.receipt.blockNumber))
      ensures r.Reverted? ==>
                if key in txs then txs[key].receipt.Some? && !txs[key].receipt.value.success
                else key !in old(txs) && entries == []
      ensures r.Reverted? && key in old(txs) && old(txs[key]).receipt.Some? ==> !old(txs[key]).receipt.value.success
      ensures calm && (key in old(txs) ==> Matches(old(txs[key]), sender, action, strategyHash)) ==>
                EndsAs(r, StepEnds(old(State()), key, answer))
    {
      hide WriteAll;
      entries := [];
      NothingWritten(State());
      var tx, stops;
      if key !in txs {
        stops := Stops(calm);
        if stops || answer.preparing.Unprepared? {
          return Interrupted, entries;
        }
        if answer.preparing.Rejected? {
          // The preparation itself was rejected by the chain.
          return Reverted, entries;
        }
        var nonce: nat, request: string, raw: string := *, *, *;
        tx := SavedTx(action, strategyHash, sender, nonce, request, raw, TxHash(raw), None);
        WriteOneMore(old(State()), entries, Prepare(key, tx));
        entries := entries + [Prepare(key, tx)];
        Save(key, tx);
        stops := Stops(calm);
        if stops {
          return Interrupted, entries;
        }
      } else {
        tx := txs[key];
      }
      if !Matches(tx, sender, action, strategyHash) {
        return Interrupted, entries;
      }
      var asked := AskReceipt(tx, calm, answer.fate);
      if asked.Failure? {
        return Interrupted, entries;
      }
      var found := asked.value;
      if found.None? {
        stops := Stops(calm);
        if stops || answer.fate.Consumed? {
          // Aborted, or the nonce was consumed outside.
          return Interrupted, entries;
        }
        WriteOneMore(old(State()), entries, Broadcast(key));
        entries := entries + [Broadcast(key)];
        SendRaw(key);
        stops := Stops(calm);
        if stops {
          // The answer was lost, or named another hash: look for this transaction again.
          asked := AskReceipt(tx, calm, answer.fate);
          if asked.Failure? || asked.value.None? {
            return Interrupted, entries;
          }
          found := asked.value;
        }
        stops := Stops(calm);
        if stops {
          return Interrupted, entries;
        }
        if found.None? {
          var mined: Receipt := *;
          found := Some(if calm then Shown(tx, answer.fate) else mined);
        }
      }
      var receipt := found.value;
      if receipt.hash != tx.hash {
        return Interrupted, entries;
      }
      stops := Stops(calm);
      if stops {
        return Interrupted, entries;
      }
      WriteOneMore(old(State()), entries, Confirm(key, receipt));
      entries := entries + [Confirm(key, receipt)];
      Record(key, receipt);
      stops := Stops(calm);
      if stops {
        return Interrupted, entries;
      }
      return if receipt.success then Confirmed(receipt) else Reverted, entries;
    }
  }

  lemma NothingWritten(log: Log)
    ensures WriteAll(log, []) == log
  {
  }

  lemma {:induction false} WriteOneMore(log: Log, entries: seq<Entry>, e: Entry)
    ensures WriteAll(log, entries + [e]) == Write(WriteAll(log, entries), e)
    decreases |entries|
  {
    hide Write;
    if entries == [] {
      assert (entries + [e])[1..] == [];
    } else {
      assert (entries + [e])[1..] == entries[1..] + [e];
      WriteOneMore(Write(log, entries[0]), entries[1..], e);
    }
  }
}
