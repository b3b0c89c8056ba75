/** From the PHP ops array to the request: what a parsed batch puts on its way. */
module ParsedCall {
  import opened Base
  import opened CallMachine
  import opened CallInvariant
  import opened CallTheorems
  import opened HandOver
  import opened CallReports
  import opened BatchParser

  /** The batch as the only act of a new call. */
  lemma OneAct(call: Call, b: Batch, env: Env)
    requires ActOk(call, Submit(b, env))
    ensures ValidActs(call, [Submit(b, env)])
    ensures PerformAll(call, [Submit(b, env)]) == StartBatch(call, b, env).call
  {
    assert [Submit(b, env)][1..] == [];
  }

  /** Value k of entry e of the array is sent under its key, in its place, whenever the metadata travels at all. */
  lemma ParsedEntryIsSent(call: Call, ops: seq<Op>, b: Batch, env: Env, i: nat, e: nat, k: nat)
    requires IsNew(call) && Reads(ops, b) && i < |ops| && LastAt(ops, i, OP_SEND_INITIAL_METADATA)
    requires Dispatches(call, b, env) && EnvOk(Mark(call, b), b, env)
    requires !Unstarted(StartBatch(call, b, env).call) && MetadataTravels(call, b)
    requires e < |ops[i].value.entries| && k < |ops[i].value.entries[e].values.value|
    ensures var entries := ops[i].value.entries;
            var sent := SentEntries(StartBatch(call, b, env).call);
            var place := ValueCount(entries[..e]) + k;
            place < |sent| && sent[place] == (entries[e].key.value, entries[e].values.value[k].value)
  {
    SentStartsWithInitial(call, b, env);
    InitialIsParsed(ops, b, i);
    FlattenAt(ops[i].value.entries, e, k);
  }

  lemma SentStartsWithInitial(call: Call, b: Batch, env: Env)
    requires IsNew(call) && Dispatches(call, b, env) && EnvOk(Mark(call, b), b, env)
    requires !Unstarted(StartBatch(call, b, env).call) && MetadataTravels(call, b)
    ensures b.metadata.GetOr([]) <= SentEntries(StartBatch(call, b, env).call)
  {
    FirstRequestMetadata(call, [], b, env);
  }

  lemma InitialIsParsed(ops: seq<Op>, b: Batch, i: nat)
    requires Reads(ops, b) && i < |ops| && LastAt(ops, i, OP_SEND_INITIAL_METADATA)
    ensures b.metadata == Some(Flatten(ops[i].value.entries))
  {
    assert Has(ops, OP_SEND_INITIAL_METADATA);
    var j :| 0 <= j < |ops| && LastAt(ops, j, OP_SEND_INITIAL_METADATA)
             && b.metadata.value == Flatten(ops[j].value.entries);
    LastIsUnique(ops, i, j, OP_SEND_INITIAL_METADATA);
  }

  lemma MessageIsParsed(ops: seq<Op>, b: Batch, j: nat)
    requires Reads(ops, b) && j < |ops| && LastAt(ops, j, OP_SEND_MESSAGE)
    ensures b.message == ops[j].value.message
  {
    assert Has(ops, OP_SEND_MESSAGE);
    var i :| 0 <= i < |ops| && LastAt(ops, i, OP_SEND_MESSAGE) && b.message == ops[i].value.message;
    LastIsUnique(ops, i, j, OP_SEND_MESSAGE);
  }

  /** The bytes of the array's message are what a successful first batch hands over, and all it does. */
  lemma ParsedMessageIsHandedOver(call: Call, ops: seq<Op>, b: Batch, env: Env, j: nat)
    requires IsNew(call) && Reads(ops, b) && j < |ops| && LastAt(ops, j, OP_SEND_MESSAGE)
    requires ActOk(call, Submit(b, env)) && StartBatch(call, b, env).result.Ok?
    ensures ops[j].value.message.Some?
    ensures HandedOver(StartBatch(call, b, env).call) == [ops[j].value.message.value]
  {
    MessageIsParsed(ops, b, j);
    OneAct(call, b, env);
    FirstBatchAccepts(call, b, env);
    AcceptedIsHandedOver(call, [Submit(b, env)]);
  }

  lemma FirstBatchAccepts(call: Call, b: Batch, env: Env)
    requires IsNew(call) && ActOk(call, Submit(b, env)) && StartBatch(call, b, env).result.Ok? && b.message.Some?
    ensures var history := StartBatch(call, b, env).call.history;
            history.accepted == [b.message.value] && !history.failed
  {
    DispatchFrame(Mark(call, b), b, env);
  }
}
