/** Reading the PHP ops array of `startBatch` into a batch. */
module BatchParser {
  import opened Base
  import opened StreamProtocol
  import opened CallMachine

  const OP_SEND_INITIAL_METADATA := 0
  const OP_SEND_MESSAGE := 1
  const OP_SEND_CLOSE_FROM_CLIENT := 2
  const OP_RECV_INITIAL_METADATA := 4
  const OP_RECV_MESSAGE := 5
  const OP_RECV_STATUS_ON_CLIENT := 6

  /** One metadata entry: a string key or not, a list of strings or something else. */
  datatype MetadataArg = MetadataArg(key: Option<string>, values: Option<seq<Option<string>>>)

  datatype Flags = NoFlags | IntFlags | BadFlags

  /** The value of an op, by the shapes the parser tells apart. */
  datatype OpValue =
    | MetadataArray(entries: seq<MetadataArg>)
    | MessageArray(flags: Flags, message: Option<Bytes>)
    | Scalar

  /** An entry of the ops array; a string key that is not a number is None. */
  datatype Op = Op(key: Option<int>, value: OpValue)

  datatype ParseError = BadOpKey | BadMetadata | BadMessage | UnknownOp

  predicate LegalKeyChar(c: char) {
    'a' <= c <= 'z' || '0' <= c <= '9' || c == '-' || c == '_' || c == '.'
  }

  predicate HeaderKeyIsLegal(key: string) {
    key != [] && forall i :: 0 <= i < |key| ==> LegalKeyChar(key[i])
  }

  /** The characters of a header key, one by one. */
  lemma LegalKeyChars(c: char)
    ensures LegalKeyChar(c) <==> c in "abcdefghijklmnopqrstuvwxyz0123456789-_."
  {
  }

  predicate LegalEntry(e: MetadataArg) {
    && e.key.Some? && HeaderKeyIsLegal(e.key.value)
    && e.values.Some? && forall i :: 0 <= i < |e.values.value| ==> e.values.value[i].Some?
  }

  /** One pair per value, in order. */
  function EntryPairs(key: string, values: seq<Option<string>>): seq<Pair>
    requires forall i :: 0 <= i < |values| ==> values[i].Some?
  {
    seq(|values|, i requires 0 <= i < |values| => (key, values[i].value))
  }

  predicate LegalMetadata(entries: seq<MetadataArg>) {
    forall i :: 0 <= i < |entries| ==> LegalEntry(entries[i])
  }

  function Flatten(entries: seq<MetadataArg>): seq<Pair>
    requires LegalMetadata(entries)
  {
    if entries == [] then []
    else
      var n := |entries| - 1;
      Flatten(entries[..n]) + EntryPairs(entries[n].key.value, entries[n].values.value)
  }

  /** How many values the first entries have. */
  function ValueCount(entries: seq<MetadataArg>): nat
    requires LegalMetadata(entries)
  {
    if entries == [] then 0 else |entries[0].values.value| + ValueCount(entries[1..])
  }

  /** The values of a name, in the order of the array. */
  function ValuesGiven(entries: seq<MetadataArg>, name: string): seq<Option<string>>
    requires LegalMetadata(entries)
  {
    if entries == [] then []
    else (if entries[0].key == Some(name) then entries[0].values.value else []) + ValuesGiven(entries[1..], name)
  }

  /** The values of a name among flat pairs, in order. */
  function ValuesRead(pairs: seq<Pair>, name: string): seq<Option<string>> {
    if pairs == [] then []
    else (if pairs[0].0 == name then [Some(pairs[0].1)] else []) + ValuesRead(pairs[1..], name)
  }

  lemma {:induction false} FlattenConcat(x: seq<MetadataArg>, y: seq<MetadataArg>)
    requires LegalMetadata(x) && LegalMetadata(y)
    ensures LegalMetadata(x + y) && Flatten(x + y) == Flatten(x) + Flatten(y)
    decreases |y|
  {
    if y == [] {
      assert x + y == x;
    } else {
      var n := |y| - 1;
      var pairs := EntryPairs(y[n].key.value, y[n].values.value);
      FlattenConcat(x, y[..n]);
      assert (x + y)[..|x + y| - 1] == x + y[..n] && (x + y)[|x + y| - 1] == y[n];
      assert Flatten(y) == Flatten(y[..n]) + pairs;
      assert Flatten(x + y) == Flatten(x + y[..n]) + pairs;
    }
  }

  lemma FlattenCons(entries: seq<MetadataArg>)
    requires LegalMetadata(entries) && entries != []
    ensures Flatten(entries) == EntryPairs(entries[0].key.value, entries[0].values.value) + Flatten(entries[1..])
  {
    FlattenOne(entries[0]);
    FlattenConcat([entries[0]], entries[1..]);
    assert entries == [entries[0]] + entries[1..];
  }

  lemma FlattenOne(e: MetadataArg)
    requires LegalEntry(e)
    ensures Flatten([e]) == EntryPairs(e.key.value, e.values.value)
  {
    assert [e][..0] == [];
  }

  /**
   * Value k of entry i of a legal array stands, under its key, right after all values of the entries
   * before it and the values before it in its entry; there is nothing else.
   */
  lemma {:induction false} FlattenAt(entries: seq<MetadataArg>, i: nat, k: nat)
    requires LegalMetadata(entries) && i < |entries| && k < |entries[i].values.value|
    ensures |Flatten(entries)| == ValueCount(entries)
    ensures ValueCount(entries[..i]) + k < |Flatten(entries)|
    ensures Flatten(entries)[ValueCount(entries[..i]) + k] == (entries[i].key.value, entries[i].values.value[k].value)
    decreases |entries|
  {
    FlattenCons(entries);
    FlattenCount(entries[1..]);
    if i > 0 {
      FlattenAt(entries[1..], i - 1, k);
      assert entries[..i][1..] == entries[1..][..i - 1];
    }
  }

  lemma {:induction false} FlattenCount(entries: seq<MetadataArg>)
    requires LegalMetadata(entries)
    ensures |Flatten(entries)| == ValueCount(entries)
    decreases |entries|
  {
    if entries != [] {
      FlattenCons(entries);
      FlattenCount(entries[1..]);
    }
  }

  lemma {:induction false} ReadThenRead(x: seq<Pair>, y: seq<Pair>, name: string)
    ensures ValuesRead(x + y, name) == ValuesRead(x, name) + ValuesRead(y, name)
    decreases |x|
  {
    if x == [] {
      assert x + y == y;
    } else {
      assert (x + y)[1..] == x[1..] + y;
      ReadThenRead(x[1..], y, name);
    }
  }

  lemma {:induction false} EntryRead(key: string, values: seq<Option<string>>, name: string)
    requires forall i :: 0 <= i < |values| ==> values[i].Some?
    ensures ValuesRead(EntryPairs(key, values), name) == if key == name then values else []
    decreases |values|
  {
    if values != [] {
      assert EntryPairs(key, values)[1..] == EntryPairs(key, values[1..]);
      EntryRead(key, values[1..], name);
    }
  }

  /** Under each name the parsed entries hold its values in the array, in order, and every name is a legal key. */
  lemma {:induction false} FlattenByName(entries: seq<MetadataArg>, name: string)
    requires LegalMetadata(entries)
    ensures ValuesRead(Flatten(entries), name) == ValuesGiven(entries, name)
    ensures ValuesGiven(entries, name) != [] ==> HeaderKeyIsLegal(name)
    decreases |entries|
  {
    if entries != [] {
      FlattenCons(entries);
      FlattenByName(entries[1..], name);
      ReadThenRead(EntryPairs(entries[0].key.value, entries[0].values.value), Flatten(entries[1..]), name);
      EntryRead(entries[0].key.value, entries[0].values.value, name);
    }
  }

  predicate LegalOp(op: Op) {
    && op.key.Some?
    && match op.key.value
       case 0 => op.value.MetadataArray? && LegalMetadata(op.value.entries)
       case 1 => op.value.MessageArray? && !op.value.flags.BadFlags? && op.value.message.Some?
       case 2 => true
       case 4 => true
       case 5 => true
       case 6 => true
       case _ => false
  }

  predicate Has(ops: seq<Op>, key: int) {
    exists i :: 0 <= i < |ops| && ops[i].key == Some(key)
  }

  predicate AllLegal(ops: seq<Op>) {
    forall i :: 0 <= i < |ops| ==> LegalOp(ops[i])
  }

  /** The batch says exactly which ops are present. */
  predicate Flagged(ops: seq<Op>, b: Batch) {
    && (b.close <==> Has(ops, OP_SEND_CLOSE_FROM_CLIENT))
    && (b.recv.meta <==> Has(ops, OP_RECV_INITIAL_METADATA))
    && (b.recv.message <==> Has(ops, OP_RECV_MESSAGE))
    && (b.recv.status <==> Has(ops, OP_RECV_STATUS_ON_CLIENT))
    && (b.metadata.Some? <==> Has(ops, OP_SEND_INITIAL_METADATA))
    && (b.message.Some? <==> Has(ops, OP_SEND_MESSAGE))
  }

  /** The last op of a key. */
  predicate LastAt(ops: seq<Op>, i: int, key: int) {
    0 <= i < |ops| && ops[i].key == Some(key) && forall j :: i < j < |ops| ==> ops[j].key != Some(key)
  }

  predicate MetadataFrom(ops: seq<Op>, pairs: seq<Pair>)
    requires AllLegal(ops)
  {
    exists i :: 0 <= i < |ops| && LastAt(ops, i, OP_SEND_INITIAL_METADATA) && pairs == Flatten(ops[i].value.entries)
  }

  predicate MessageFrom(ops: seq<Op>, message: Option<Bytes>)
    requires AllLegal(ops)
  {
    exists i :: 0 <= i < |ops| && LastAt(ops, i, OP_SEND_MESSAGE) && message == ops[i].value.message
  }

  /** The payloads of the batch are those of its last ops. */
  predicate Reads(ops: seq<Op>, b: Batch) {
    && AllLegal(ops)
    && Flagged(ops, b)
    && (b.metadata.Some? ==> MetadataFrom(ops, b.metadata.value))
    && (b.message.Some? ==> MessageFrom(ops, b.message))
  }

  lemma LastAppend(before: seq<Op>, op: Op, i: int, key: int)
    ensures LastAt(before, i, key) && op.key != Some(key) ==> LastAt(before + [op], i, key)
    ensures op.key == Some(key) ==> LastAt(before + [op], |before|, key)
  {
  }

  lemma FromAppend(before: seq<Op>, op: Op, pairs: seq<Pair>, message: Option<Bytes>)
    requires AllLegal(before) && LegalOp(op)
    ensures AllLegal(before + [op])
    ensures op.key != Some(OP_SEND_INITIAL_METADATA) && MetadataFrom(before, pairs) ==>
              MetadataFrom(before + [op], pairs)
    ensures op.key != Some(OP_SEND_MESSAGE) && MessageFrom(before, message) ==> MessageFrom(before + [op], message)
    ensures op.key == Some(OP_SEND_INITIAL_METADATA) ==> MetadataFrom(before + [op], Flatten(op.value.entries))
    ensures op.key == Some(OP_SEND_MESSAGE) ==> MessageFrom(before + [op], op.value.message)
  {
    LastAppend(before, op, |before|, OP_SEND_INITIAL_METADATA);
    LastAppend(before, op, |before|, OP_SEND_MESSAGE);
    if MetadataFrom(before, pairs) {
      var i :| 0 <= i < |before| && LastAt(before, i, OP_SEND_INITIAL_METADATA)
               && pairs == Flatten(before[i].value.entries);
      LastAppend(before, op, i, OP_SEND_INITIAL_METADATA);
    }
    if MessageFrom(before, message) {
      var i :| 0 <= i < |before| && LastAt(before, i, OP_SEND_MESSAGE) && message == before[i].value.message;
      LastAppend(before, op, i, OP_SEND_MESSAGE);
    }
  }

  method ParseSendMetadata(entries: seq<MetadataArg>) returns (r: Result<seq<Pair>, ParseError>)
    ensures r.Ok? <==> LegalMetadata(entries)
    ensures r.Ok? ==> r.value == Flatten(entries)
  {
    var pairs: seq<Pair> := [];
    for n := 0 to |entries|
      invariant LegalMetadata(entries[..n]) && pairs == Flatten(entries[..n])
    {
      var e := entries[n];
      if e.key.None? || !HeaderKeyIsLegal(e.key.value) || e.values.None? {
        return Err(BadMetadata);
      }
      var values := e.values.value;
      var start := pairs;
      for k := 0 to |values|
        invariant forall i :: 0 <= i < k ==> values[i].Some?
        invariant pairs == start + EntryPairs(e.key.value, values[..k])
      {
        if values[k].None? {
          return Err(BadMetadata);
        }
        pairs := pairs + [(e.key.value, values[k].value)];
      }
      assert values[..|values|] == values;
      assert entries[..n + 1][..n] == entries[..n];
    }
    assert entries[..|entries|] == entries;
    r := Ok(pairs);
  }

  const NO_BATCH := Batch(None, None, false, NO_OPS)

  /** The batch with one legal op added. */
  function WithOp(b: Batch, op: Op): Batch
    requires LegalOp(op)
  {
    match op.key.value
    case 0 => b.(metadata := Some(Flatten(op.value.entries)))
    case 1 => b.(message := op.value.message)
    case 2 => b.(close := true)
    case 4 => b.(recv := b.recv.(meta := true))
    case 5 => b.(recv := b.recv.(message := true))
    case _ => b.(recv := b.recv.(status := true))
  }

  lemma WithOpReads(before: seq<Op>, b: Batch, op: Op)
    requires Reads(before, b) && LegalOp(op)
    ensures Reads(before + [op], WithOp(b, op))
  {
    HasAppend(before, op);
    FromAppend(before, op, b.metadata.GetOr([]), b.message);
  }

  method AddOp(b: Batch, op: Op) returns (r: Result<Batch, ParseError>)
    ensures r.Ok? <==> LegalOp(op)
    ensures r.Ok? ==> r.value == WithOp(b, op)
  {
    if op.key.None? {
      return Err(BadOpKey);
    }
    match op.key.value
    case 0 =>
      if !op.value.MetadataArray? {
        return Err(BadMetadata);
      }
      var pairs := ParseSendMetadata(op.value.entries);
      if pairs.Err? {
        return Err(pairs.error);
      }
      r := Ok(b.(metadata := Some(pairs.value)));
    case 1 =>
      if !op.value.MessageArray? || op.value.flags.BadFlags? || op.value.message.None? {
        return Err(BadMessage);
      }
      r := Ok(b.(message := op.value.message));
    case 2 => r := Ok(b.(close := true));
    case 4 => r := Ok(b.(recv := b.recv.(meta := true)));
    case 5 => r := Ok(b.(recv := b.recv.(message := true)));
    case 6 => r := Ok(b.(recv := b.recv.(status := true)));
    case _ => r := Err(UnknownOp);
  }

  lemma HasAppend(before: seq<Op>, op: Op)
    ensures forall k :: Has(before + [op], k) <==> Has(before, k) || op.key == Some(k)
  {
    var after := before + [op];
    assert after[|before|] == op;
    forall k | Has(before, k)
      ensures Has(after, k)
    {
      var i :| 0 <= i < |before| && before[i].key == Some(k);
      assert after[i].key == Some(k);
    }
  }

  /** A batch is accepted exactly when every op is legal, and then it reads the ops. */
  method ParseOps(ops: seq<Op>) returns (r: Result<Batch, ParseError>)
    ensures r.Ok? <==> AllLegal(ops)
    ensures r.Ok? ==> Reads(ops, r.value)
  {
    r := Ok(NO_BATCH);
    for n := 0 to |ops|
      invariant r.Ok? && Reads(ops[..n], r.value)
    {
      ghost var before := r.value;
      r := AddOp(r.value, ops[n]);
      if r.Err? {
        return;
      }
      WithOpReads(ops[..n], before, ops[n]);
      assert ops[..n] + [ops[n]] == ops[..n + 1];
    }
    assert ops[..|ops|] == ops;
  }

  predicate DistinctKeys(ops: seq<Op>) {
    forall i, j :: 0 <= i < j < |ops| ==> ops[i].key != ops[j].key
  }

  lemma LastIsUnique(ops: seq<Op>, i: int, j: int, key: int)
    requires LastAt(ops, i, key) && LastAt(ops, j, key)
    ensures i == j
  {
  }

  /** A batch is a function of its ops. */
  lemma ReadsOneWay(ops: seq<Op>, b: Batch, b': Batch)
    requires Reads(ops, b) && Reads(ops, b')
    ensures b == b'
  {
    if b.metadata.Some? {
      var i :| 0 <= i < |ops| && LastAt(ops, i, OP_SEND_INITIAL_METADATA)
               && b.metadata.value == Flatten(ops[i].value.entries);
      var j :| 0 <= j < |ops| && LastAt(ops, j, OP_SEND_INITIAL_METADATA)
               && b'.metadata.value == Flatten(ops[j].value.entries);
      LastIsUnique(ops, i, j, OP_SEND_INITIAL_METADATA);
    }
    if b.message.Some? {
      var i :| 0 <= i < |ops| && LastAt(ops, i, OP_SEND_MESSAGE) && b.message == ops[i].value.message;
      var j :| 0 <= j < |ops| && LastAt(ops, j, OP_SEND_MESSAGE) && b'.message == ops[j].value.message;
      LastIsUnique(ops, i, j, OP_SEND_MESSAGE);
    }
  }

  /** The ops added one after the other. */
  function WithOps(b: Batch, ops: seq<Op>): Batch
    requires AllLegal(ops)
    decreases |ops|
  {
    if ops == [] then b else WithOps(WithOp(b, ops[0]), ops[1..])
  }

  lemma {:induction false} WithOpsRead(before: seq<Op>, b: Batch, ops: seq<Op>)
    requires Reads(before, b) && AllLegal(ops)
    ensures Reads(before + ops, WithOps(b, ops))
    decreases |ops|
  {
    if ops == [] {
      assert before + ops == before;
    } else {
      WithOpReads(before, b, ops[0]);
      WithOpsRead(before + [ops[0]], WithOp(b, ops[0]), ops[1..]);
      assert before + [ops[0]] + ops[1..] == before + ops;
    }
  }

  lemma {:induction false} WithOpsThenOps(b: Batch, x: seq<Op>, y: seq<Op>)
    requires AllLegal(x) && AllLegal(y)
    ensures AllLegal(x + y) && WithOps(b, x + y) == WithOps(WithOps(b, x), y)
    decreases |x|
  {
    if x == [] {
      assert x + y == y;
    } else {
      assert (x + y)[1..] == x[1..] + y;
      WithOpsThenOps(WithOp(b, x[0]), x[1..], y);
    }
  }

  /** Two ops of one key with different payloads. */
  predicate Clash(p: Op, q: Op)
    requires LegalOp(p) && LegalOp(q)
  {
    && p.key == q.key
    && ((p.key == Some(OP_SEND_MESSAGE) && p.value.message != q.value.message)
        || (p.key == Some(OP_SEND_INITIAL_METADATA) && Flatten(p.value.entries) != Flatten(q.value.entries)))
  }

  lemma {:induction false} LaterOpDecides(b: Batch, b': Batch, key: int, ops: seq<Op>)
    requires AllLegal(ops) && b != b'
    requires || (key == OP_SEND_MESSAGE && b' == b.(message := b'.message))
             || (key == OP_SEND_INITIAL_METADATA && b' == b.(metadata := b'.metadata))
    ensures WithOps(b, ops) == WithOps(b', ops) <==> Has(ops, key)
    decreases |ops|
  {
    if ops != [] {
      var c, c' := WithOp(b, ops[0]), WithOp(b', ops[0]);
      if ops[0].key == Some(key) {
        assert c == c';
      } else {
        LaterOpDecides(c, c', key, ops[1..]);
        assert Has(ops, key) <==> Has(ops[1..], key) by {
          if Has(ops[1..], key) {
            var i :| 0 <= i < |ops[1..]| && ops[1..][i].key == Some(key);
            assert ops[i + 1].key == Some(key);
          }
          if Has(ops, key) {
            var i :| 0 <= i < |ops| && ops[i].key == Some(key);
            assert ops[1..][i - 1].key == Some(key);
          }
        }
      }
    }
  }

  /**
   * Exactly when the order of two neighbouring ops matters: they have the same key with different
   * payloads, and no later op has that key. An array can hold such ops: the keys 1, "+1" and "01"
   * all parse to 1.
   */
  lemma SwapMattersExactly(x: seq<Op>, p: Op, q: Op, y: seq<Op>, b: Batch, b': Batch)
    requires Reads(x + [p, q] + y, b) && Reads(x + [q, p] + y, b')
    requires AllLegal(x) && LegalOp(p) && LegalOp(q) && AllLegal(y)
    ensures b != b' <==> Clash(p, q) && !Has(y, p.key.value)
  {
    AsAdded(x, p, q, y, b);
    AsAdded(x, q, p, y, b');
    var start := WithOps(NO_BATCH, x);
    var pq, qp := WithOp(WithOp(start, p), q), WithOp(WithOp(start, q), p);
    assert pq != qp <==> Clash(p, q);
    if Clash(p, q) {
      LaterOpDecides(pq, qp, p.key.value, y);
    }
  }

  lemma AsAdded(x: seq<Op>, p: Op, q: Op, y: seq<Op>, b: Batch)
    requires Reads(x + [p, q] + y, b) && AllLegal(x) && LegalOp(p) && LegalOp(q) && AllLegal(y)
    ensures b == WithOps(WithOp(WithOp(WithOps(NO_BATCH, x), p), q), y)
  {
    var ops := x + [p, q] + y;
    WithOpsRead([], NO_BATCH, ops);
    assert [] + ops == ops;
    ReadsOneWay(ops, b, WithOps(NO_BATCH, ops));
    WithOpsThenOps(NO_BATCH, x + [p, q], y);
    WithOpsThenOps(NO_BATCH, x, [p, q]);
    assert [p, q][1..] == [q] && [q][1..] == [];
    assert WithOps(WithOp(WithOps(NO_BATCH, x), p), [q]) == WithOp(WithOp(WithOps(NO_BATCH, x), p), q);
  }

  /** When the parsed keys are distinct, the order of the ops does not matter. */
  lemma OrderOfOpsIsIrrelevant(ops: seq<Op>, ops': seq<Op>, b: Batch, b': Batch)
    requires multiset(ops) == multiset(ops') && DistinctKeys(ops)
    requires Reads(ops, b) && Reads(ops', b')
    ensures b == b'
  {
    SameHas(ops, ops');
    SameHas(ops', ops);
    if b.metadata.Some? {
      var i :| 0 <= i < |ops| && LastAt(ops, i, OP_SEND_INITIAL_METADATA)
               && b.metadata.value == Flatten(ops[i].value.entries);
      var j :| 0 <= j < |ops'| && LastAt(ops', j, OP_SEND_INITIAL_METADATA)
               && b'.metadata.value == Flatten(ops'[j].value.entries);
      SameOp(ops, ops', i, j);
    }
    if b.message.Some? {
      var i :| 0 <= i < |ops| && LastAt(ops, i, OP_SEND_MESSAGE) && b.message == ops[i].value.message;
      var j :| 0 <= j < |ops'| && LastAt(ops', j, OP_SEND_MESSAGE) && b'.message == ops'[j].value.message;
      SameOp(ops, ops', i, j);
    }
  }

  lemma SameHas(ops: seq<Op>, ops': seq<Op>)
    requires multiset(ops) == multiset(ops')
    ensures forall k :: Has(ops, k) ==> Has(ops', k)
  {
    forall k | Has(ops, k)
      ensures Has(ops', k)
    {
      var i :| 0 <= i < |ops| && ops[i].key == Some(k);
      assert ops[i] in multiset(ops');
      var j :| 0 <= j < |ops'| && ops'[j] == ops[i];
      assert ops'[j].key == Some(k);
    }
  }

  lemma SameOp(ops: seq<Op>, ops': seq<Op>, i: nat, j: nat)
    requires multiset(ops) == multiset(ops') && DistinctKeys(ops)
    requires i < |ops| && j < |ops'| && ops[i].key == ops'[j].key
    ensures ops[i] == ops'[j]
  {
    assert ops'[j] in multiset(ops);
    var k :| 0 <= k < |ops| && ops[k] == ops'[j];
    assert k == i;
  }
}
