/** Grouping received metadata by key, and folding request metadata. */
module MetadataGroups {
  import opened Base
  import opened Metadata

  datatype Group = Group(key: string, values: seq<Bytes>)

  predicate Matches(e: Entry, key: string) {
    e.key == key && e.value.Some?
  }

  /** The decodable values of a key, in order. */
  function Decoded(m: MetadataMap, key: string): seq<Bytes> {
    if m == [] then []
    else (if Matches(m[0], key) then [m[0].value.value] else []) + Decoded(m[1..], key)
  }

  /** Where a key first has a decodable value; the length if nowhere. */
  function FirstAt(m: MetadataMap, key: string): nat {
    if m == [] || Matches(m[0], key) then 0 else 1 + FirstAt(m[1..], key)
  }

  /** One group per key, in order of first decodable appearance, holding exactly its decodable values. */
  ghost predicate IsGrouping(m: MetadataMap, groups: seq<Group>) {
    && (forall i :: 0 <= i < |groups| ==>
          FirstAt(m, groups[i].key) < |m| && groups[i].values == Decoded(m, groups[i].key))
    && (forall i, j :: 0 <= i < j < |groups| ==> FirstAt(m, groups[i].key) < FirstAt(m, groups[j].key))
    && (forall key :: FirstAt(m, key) < |m| ==> HasKey(groups, key))
  }

  ghost predicate HasKey(groups: seq<Group>, key: string) {
    exists i :: 0 <= i < |groups| && groups[i].key == key
  }

  /** How often a key has a decodable value. */
  function Occurrences(m: MetadataMap, key: string): nat {
    if m == [] then 0 else (if Matches(m[0], key) then 1 else 0) + Occurrences(m[1..], key)
  }

  /** The decodable values of a key stand in the order of the entries, one for each. */
  lemma {:induction false} DecodedInOrder(m: MetadataMap, key: string, i: nat)
    requires i < |m| && Matches(m[i], key)
    ensures |Decoded(m, key)| == Occurrences(m, key) && Occurrences(m[..i], key) < |Decoded(m, key)|
    ensures Decoded(m, key)[Occurrences(m[..i], key)] == m[i].value.value
    decreases |m|
  {
    DecodedCounted(m, key);
    if i > 0 {
      DecodedInOrder(m[1..], key, i - 1);
      assert m[..i][1..] == m[1..][..i - 1];
    }
  }

  lemma {:induction false} DecodedCounted(m: MetadataMap, key: string)
    ensures |Decoded(m, key)| == Occurrences(m, key)
    decreases |m|
  {
    if m != [] {
      DecodedCounted(m[1..], key);
    }
  }

  lemma {:induction false} AppendEntry(m: MetadataMap, e: Entry, key: string)
    ensures FirstAt(m, key) <= |m|
    ensures Decoded(m + [e], key) == Decoded(m, key) + (if Matches(e, key) then [e.value.value] else [])
    ensures FirstAt(m + [e], key) ==
            if FirstAt(m, key) < |m| then FirstAt(m, key) else if Matches(e, key) then |m| else |m| + 1
    ensures FirstAt(m, key) == |m| ==> Decoded(m, key) == []
  {
    if m != [] {
      assert (m + [e])[1..] == m[1..] + [e];
      AppendEntry(m[1..], e, key);
    }
  }

  /** Index of the group of a key, or the number of groups. */
  method FindGroup(groups: seq<Group>, key: string) returns (k: nat)
    ensures k <= |groups|
    ensures k < |groups| ==> groups[k].key == key
    ensures forall i :: 0 <= i < k ==> groups[i].key != key
  {
    k := 0;
    while k < |groups| && groups[k].key != key
      invariant k <= |groups|
      invariant forall i :: 0 <= i < k ==> groups[i].key != key
    {
      k := k + 1;
    }
  }

  /** A group whose key is not the new entry's stays right. */
  lemma OtherGroup(m: MetadataMap, e: Entry, g: Group)
    requires FirstAt(m, g.key) < |m| && g.values == Decoded(m, g.key) && !Matches(e, g.key)
    ensures FirstAt(m + [e], g.key) == FirstAt(m, g.key) && g.values == Decoded(m + [e], g.key)
  {
    AppendEntry(m, e, g.key);
  }

  lemma GroupSkipped(m: MetadataMap, e: Entry, groups: seq<Group>)
    requires IsGrouping(m, groups) && e.value.None?
    ensures IsGrouping(m + [e], groups)
  {
    forall i | 0 <= i < |groups|
      ensures FirstAt(m + [e], groups[i].key) == FirstAt(m, groups[i].key)
      ensures groups[i].values == Decoded(m + [e], groups[i].key)
    {
      OtherGroup(m, e, groups[i]);
    }
    forall key | FirstAt(m + [e], key) < |m| + 1 ensures HasKey(groups, key) {
      AppendEntry(m, e, key);
    }
  }

  lemma GroupExtended(m: MetadataMap, e: Entry, groups: seq<Group>, k: nat, groups': seq<Group>)
    requires IsGrouping(m, groups) && e.value.Some? && k < |groups| && groups[k].key == e.key
    requires groups' == groups[k := Group(e.key, groups[k].values + [e.value.value])]
    ensures IsGrouping(m + [e], groups')
  {
    forall i | 0 <= i < |groups|
      ensures groups'[i].key == groups[i].key
      ensures FirstAt(m + [e], groups'[i].key) == FirstAt(m, groups[i].key)
      ensures groups'[i].values == Decoded(m + [e], groups'[i].key)
    {
      if i == k {
        AppendEntry(m, e, e.key);
      } else {
        assert FirstAt(m, groups[i].key) != FirstAt(m, groups[k].key);
        OtherGroup(m, e, groups[i]);
      }
    }
    forall key | FirstAt(m + [e], key) < |m| + 1 ensures HasKey(groups', key) {
      AppendEntry(m, e, key);
      var i :| 0 <= i < |groups| && groups[i].key == key;
      assert groups'[i].key == key;
    }
  }

  lemma GroupStarted(m: MetadataMap, e: Entry, groups: seq<Group>, groups': seq<Group>)
    requires IsGrouping(m, groups) && e.value.Some? && !HasKey(groups, e.key)
    requires groups' == groups + [Group(e.key, [e.value.value])]
    ensures IsGrouping(m + [e], groups')
  {
    AppendEntry(m, e, e.key);
    forall i | 0 <= i < |groups|
      ensures groups'[i] == groups[i]
      ensures FirstAt(m + [e], groups'[i].key) == FirstAt(m, groups[i].key)
      ensures groups'[i].values == Decoded(m + [e], groups'[i].key)
    {
      OtherGroup(m, e, groups[i]);
    }
    forall key | FirstAt(m + [e], key) < |m| + 1 ensures HasKey(groups', key) {
      AppendEntry(m, e, key);
      if key == e.key {
        assert groups'[|groups|].key == key;
      } else {
        var i :| 0 <= i < |groups| && groups[i].key == key;
        assert groups'[i].key == key;
      }
    }
  }

  method AddEntry(ghost m: MetadataMap, e: Entry, groups: seq<Group>) returns (groups': seq<Group>)
    requires IsGrouping(m, groups)
    ensures IsGrouping(m + [e], groups')
  {
    if e.value.None? {
      GroupSkipped(m, e, groups);
      return groups;
    }
    var k := FindGroup(groups, e.key);
    if k < |groups| {
      groups' := groups[k := Group(e.key, groups[k].values + [e.value.value])];
      GroupExtended(m, e, groups, k, groups');
    } else {
      groups' := groups + [Group(e.key, [e.value.value])];
      GroupStarted(m, e, groups, groups');
    }
  }

  method CollectMetadata(m: MetadataMap) returns (groups: seq<Group>)
    ensures IsGrouping(m, groups)
  {
    groups := [];
    for n := 0 to |m|
      invariant IsGrouping(m[..n], groups)
    {
      groups := AddEntry(m[..n], m[n], groups);
      assert m[..n] + [m[n]] == m[..n + 1];
    }
    assert m[..|m|] == m;
  }

  /** There is only one grouping, so its order and contents are fixed by the entries. */
  lemma {:induction false} GroupingIsUnique(m: MetadataMap, a: seq<Group>, b: seq<Group>)
    requires IsGrouping(m, a) && IsGrouping(m, b)
    ensures a == b
  {
    SameKeysUpTo(m, a, b, |a|);
    SameKeysUpTo(m, b, a, |b|);
  }

  lemma {:induction false} SameKeysUpTo(m: MetadataMap, a: seq<Group>, b: seq<Group>, n: nat)
    requires IsGrouping(m, a) && IsGrouping(m, b) && n <= |a|
    ensures n <= |b| && a[..n] == b[..n]
    decreases n
  {
    if n > 0 {
      SameKeysUpTo(m, a, b, n - 1);
      SameGroupNext(m, a, b, n - 1);
      assert a[..n] == a[..n - 1] + [a[n - 1]] && b[..n] == b[..n - 1] + [b[n - 1]];
    }
  }

  lemma SameGroupNext(m: MetadataMap, a: seq<Group>, b: seq<Group>, n: nat)
    requires IsGrouping(m, a) && IsGrouping(m, b) && n < |a| && n <= |b| && a[..n] == b[..n]
    ensures n < |b| && a[n] == b[n]
  {
    var i := IndexOfKey(m, b, a[n].key);
    NotBefore(m, a, b, n, i);
    if i > n {
      var j := IndexOfKey(m, a, b[n].key);
      NotBefore(m, b, a, n, j);
    }
  }

  lemma IndexOfKey(m: MetadataMap, groups: seq<Group>, key: string) returns (i: nat)
    requires IsGrouping(m, groups) && FirstAt(m, key) < |m|
    ensures i < |groups| && groups[i] == Group(key, Decoded(m, key))
    ensures forall j :: 0 <= j < |groups| && FirstAt(m, groups[j].key) <= FirstAt(m, key) ==> j <= i
  {
    assert HasKey(groups, key);
    i :| 0 <= i < |groups| && groups[i].key == key;
  }

  lemma NotBefore(m: MetadataMap, a: seq<Group>, b: seq<Group>, n: nat, i: nat)
    requires IsGrouping(m, a) && n < |a| && n <= |b| && a[..n] == b[..n] && i < |b| && b[i].key == a[n].key
    ensures i >= n
  {
  }

  // ---- what PHP is shown ----

  predicate IsReserved(key: string) {
    || key == "content-type"
    || key == "grpc-status"
    || key == "grpc-message"
    || key == "grpc-encoding"
    || key == "grpc-accept-encoding"
  }

  /** Headers of the transport itself, which PHP is not shown. */
  const TRANSPORT_HEADERS :=
    {"content-type", "grpc-status", "grpc-message", "grpc-encoding", "grpc-accept-encoding"}

  /** The group PHP gets to see for its key. */
  predicate ShownFor(m: MetadataMap, g: Group) {
    g.key !in TRANSPORT_HEADERS && FirstAt(m, g.key) < |m| && g.values == Decoded(m, g.key)
  }

  predicate InOrderOf(m: MetadataMap, shown: seq<Group>) {
    forall i, j :: 0 <= i < j < |shown| ==> FirstAt(m, shown[i].key) < FirstAt(m, shown[j].key)
  }

  function Visible(groups: seq<Group>): seq<Group> {
    if groups == [] then []
    else
      var n := |groups| - 1;
      Visible(groups[..n]) + (if IsReserved(groups[n].key) then [] else [groups[n]])
  }

  lemma {:induction false} VisibleMembers(groups: seq<Group>, g: Group)
    ensures g in Visible(groups) <==> g in groups && g.key !in TRANSPORT_HEADERS
    decreases |groups|
  {
    if groups != [] {
      var n := |groups| - 1;
      VisibleMembers(groups[..n], g);
      assert groups == groups[..n] + [groups[n]];
    }
  }

  lemma {:induction false} VisibleInOrder(m: MetadataMap, groups: seq<Group>)
    requires InOrderOf(m, groups)
    ensures InOrderOf(m, Visible(groups))
    decreases |groups|
  {
    if groups != [] {
      var n := |groups| - 1;
      VisibleInOrder(m, groups[..n]);
      var rest := Visible(groups[..n]);
      forall i | 0 <= i < |rest| ensures FirstAt(m, rest[i].key) < FirstAt(m, groups[n].key) {
        VisibleMembers(groups[..n], rest[i]);
        var j :| 0 <= j < n && groups[j] == rest[i];
      }
    }
  }

  /** The groups of all keys that are not transport headers, in the same order. */
  method MetadataToPhp(m: MetadataMap) returns (shown: seq<Group>)
    ensures forall g :: g in shown <==> ShownFor(m, g)
    ensures InOrderOf(m, shown)
  {
    var groups := CollectMetadata(m);
    shown := [];
    for n := 0 to |groups|
      invariant shown == Visible(groups[..n])
    {
      assert groups[..n + 1][..n] == groups[..n];
      if !IsReserved(groups[n].key) {
        shown := shown + [groups[n]];
      }
    }
    assert groups[..|groups|] == groups;
    VisibleGroups(m, groups);
  }

  lemma VisibleGroups(m: MetadataMap, groups: seq<Group>)
    requires IsGrouping(m, groups)
    ensures (forall g :: g in Visible(groups) <==> ShownFor(m, g)) && InOrderOf(m, Visible(groups))
  {
    GroupsAreAll(m, groups);
    VisibleInOrder(m, groups);
    forall g ensures g in Visible(groups) <==> ShownFor(m, g) {
      VisibleMembers(groups, g);
    }
  }

  lemma GroupsAreAll(m: MetadataMap, groups: seq<Group>)
    requires IsGrouping(m, groups)
    ensures forall g: Group :: g in groups <==> FirstAt(m, g.key) < |m| && g.values == Decoded(m, g.key)
  {
    forall g: Group | FirstAt(m, g.key) < |m| && g.values == Decoded(m, g.key)
      ensures g in groups
    {
      var i := IndexOfKey(m, groups, g.key);
    }
  }

  lemma {:induction false} WithoutDecodes(m: MetadataMap, key: string, other: string)
    ensures Decoded(Without(m, key), other) == if other == key then [] else Decoded(m, other)
  {
    if m != [] {
      WithoutDecodes(m[1..], key, other);
    }
  }

  lemma {:induction false} InsertDecodes(m: MetadataMap, key: string, value: Bytes, other: string)
    ensures Decoded(InsertBin(m, key, value), other) == if other == key then [value] else Decoded(m, other)
  {
    if m != [] {
      WithoutDecodes(m[1..], key, other);
      InsertDecodes(m[1..], key, value, other);
    }
  }

  lemma {:induction false} FirstAtDecoded(m: MetadataMap, key: string)
    ensures FirstAt(m, key) < |m| <==> Decoded(m, key) != []
  {
    if m != [] {
      FirstAtDecoded(m[1..], key);
    }
  }

  /** The metadata of a status: its own, with non-empty details as the only value of their key. */
  ghost predicate ShowsStatus(m: MetadataMap, status: Status) {
    && (status.details == [] ==> m == status.metadata)
    && (status.details != [] ==>
          forall key :: Decoded(m, key) ==
                        if key == "grpc-status-details-bin" then [status.details] else Decoded(status.metadata, key))
  }

  lemma StatusIsShown(status: Status)
    ensures ShowsStatus(StatusMetadata(status), status)
  {
    if status.details != [] {
      forall key ensures Decoded(StatusMetadata(status), key) ==
                         if key == DETAILS_KEY then [status.details] else Decoded(status.metadata, key)
      {
        InsertDecodes(status.metadata, DETAILS_KEY, status.details, key);
      }
    }
  }

  lemma {:induction false} WithoutKeepsOrder(m: MetadataMap, key: string, a: string, b: string)
    requires a != key && b != key
    ensures FirstAt(Without(m, key), a) < FirstAt(Without(m, key), b) <==> FirstAt(m, a) < FirstAt(m, b)
  {
    if m != [] {
      WithoutKeepsOrder(m[1..], key, a, b);
    }
  }

  lemma {:induction false} InsertKeepsOrder(m: MetadataMap, key: string, value: Bytes, a: string, b: string)
    requires a != key && b != key
    ensures FirstAt(InsertBin(m, key, value), a) < FirstAt(InsertBin(m, key, value), b) <==>
            FirstAt(m, a) < FirstAt(m, b)
  {
    if m != [] {
      WithoutKeepsOrder(m[1..], key, a, b);
      InsertKeepsOrder(m[1..], key, value, a, b);
    }
  }

  lemma OthersShown(status: Status, g: Group)
    requires status.details != [] && g.key != DETAILS_KEY
    ensures ShownFor(StatusMetadata(status), g) <==> ShownFor(status.metadata, g)
  {
    InsertDecodes(status.metadata, DETAILS_KEY, status.details, g.key);
    FirstAtDecoded(StatusMetadata(status), g.key);
    FirstAtDecoded(status.metadata, g.key);
  }

  lemma DetailsShown(status: Status, g: Group)
    requires status.details != [] && g.key == DETAILS_KEY
    ensures ShownFor(StatusMetadata(status), g) <==> g.values == [status.details]
  {
    InsertDecodes(status.metadata, DETAILS_KEY, status.details, DETAILS_KEY);
    FirstAtDecoded(StatusMetadata(status), DETAILS_KEY);
  }

  /**
   * Non-empty status details reach PHP in exactly one place, under their own key; every other
   * group is shown exactly when it would be without them, and in the same order.
   */
  lemma DetailsShownOnce(status: Status, shown: seq<Group>) returns (k: nat)
    requires status.details != []
    requires forall g :: g in shown <==> ShownFor(StatusMetadata(status), g)
    requires InOrderOf(StatusMetadata(status), shown)
    ensures k < |shown| && shown[k] == Group(DETAILS_KEY, [status.details])
    ensures forall i :: 0 <= i < |shown| && shown[i].key == DETAILS_KEY ==> i == k
    ensures forall g: Group :: g.key != DETAILS_KEY ==> (g in shown <==> ShownFor(status.metadata, g))
    ensures InOrderOf(status.metadata, shown[..k] + shown[k + 1..])
  {
    var m := StatusMetadata(status);
    DetailsShown(status, Group(DETAILS_KEY, [status.details]));
    assert Group(DETAILS_KEY, [status.details]) in shown;
    k :| 0 <= k < |shown| && shown[k] == Group(DETAILS_KEY, [status.details]);
    forall i | 0 <= i < |shown| && shown[i].key == DETAILS_KEY ensures i == k {
      assert FirstAt(m, shown[i].key) == FirstAt(m, shown[k].key);
    }
    forall g: Group | g.key != DETAILS_KEY ensures g in shown <==> ShownFor(status.metadata, g) {
      OthersShown(status, g);
    }
    OthersInOrder(status, shown, k);
  }

  lemma OthersInOrder(status: Status, shown: seq<Group>, k: nat)
    requires status.details != [] && InOrderOf(StatusMetadata(status), shown) && k < |shown|
    requires forall i :: 0 <= i < |shown| && shown[i].key == DETAILS_KEY ==> i == k
    ensures InOrderOf(status.metadata, shown[..k] + shown[k + 1..])
  {
    var others := shown[..k] + shown[k + 1..];
    forall i, j | 0 <= i < j < |others|
      ensures FirstAt(status.metadata, others[i].key) < FirstAt(status.metadata, others[j].key)
    {
      var i', j' := if i < k then i else i + 1, if j < k then j else j + 1;
      assert others[i] == shown[i'] && others[j] == shown[j'];
      InsertKeepsOrder(status.metadata, DETAILS_KEY, status.details, shown[i'].key, shown[j'].key);
    }
  }

  // ---- what a request carries ----

  /** How the transport reads an entry: a header name and value, or nothing. */
  type Parser = Pair -> Option<Pair>

  /** The value written last under a name, among the entries that parse. */
  function LastWritten(entries: seq<Pair>, parse: Parser, name: string): Option<string> {
    if entries == [] then None
    else
      var last := parse(entries[|entries| - 1]);
      if last.Some? && last.value.0 == name then Some(last.value.1)
      else LastWritten(entries[..|entries| - 1], parse, name)
  }

  ghost predicate Carries(headers: map<string, string>, entries: seq<Pair>, parse: Parser) {
    forall name :: (name in headers <==> LastWritten(entries, parse, name).Some?)
                   && (name in headers ==> Some(headers[name]) == LastWritten(entries, parse, name))
  }

  method InsertAll(headers: map<string, string>, ghost before: seq<Pair>, entries: seq<Pair>, parse: Parser)
    returns (headers': map<string, string>)
    requires Carries(headers, before, parse)
    ensures Carries(headers', before + entries, parse)
  {
    headers' := headers;
    assert before + entries[..0] == before;
    for n := 0 to |entries|
      invariant Carries(headers', before + entries[..n], parse)
    {
      ghost var soFar := before + entries[..n];
      ghost var next := before + entries[..n + 1];
      assert next[..|next| - 1] == soFar && next[|next| - 1] == entries[n];
      var parsed := parse(entries[n]);
      if parsed.Some? {
        headers' := headers'[parsed.value.0 := parsed.value.1];
      }
    }
    assert entries[..|entries|] == entries;
  }

  /** Request headers: the sent entries, then the plugin's, the last writer of a name winning. */
  method RequestHeaders(send: seq<Pair>, plugin: seq<Pair>, parse: Parser) returns (headers: map<string, string>)
    ensures Carries(headers, send + plugin, parse)
  {
    headers := InsertAll(map[], [], send, parse);
    assert [] + send == send;
    headers := InsertAll(headers, send, plugin, parse);
  }

  /** The headers are a function of the entries, so buffering the plugin's entries first changes nothing. */
  lemma HeadersAreDetermined(a: map<string, string>, b: map<string, string>, entries: seq<Pair>, parse: Parser)
    requires Carries(a, entries, parse) && Carries(b, entries, parse)
    ensures a == b
  {
    assert forall name :: name in a <==> name in b;
  }

  /**
   * A plugin asked twice, whatever it answers: the second answer wins for every name it
   * writes. A header is as if only the second answer had been added exactly when the second
   * answer writes it, the first does not, or the first wrote what was sent anyway.
   */
  lemma PluginTwice(send: seq<Pair>, first: seq<Pair>, second: seq<Pair>, parse: Parser, name: string)
    ensures var header := LastWritten(send + first + second, parse, name);
            var a, b := LastWritten(first, parse, name), LastWritten(second, parse, name);
            && (b.Some? ==> header == b)
            && (header == LastWritten(send + second, parse, name) <==>
                b.Some? || a.None? || a == LastWritten(send, parse, name))
            && (first == second ==> header == LastWritten(send + second, parse, name))
  {
    WriteAfter(send + first, second, parse, name);
    WriteAfter(send, first, parse, name);
    WriteAfter(send, second, parse, name);
  }

  lemma {:induction false} WriteAfter(first: seq<Pair>, second: seq<Pair>, parse: Parser, name: string)
    ensures LastWritten(first + second, parse, name) ==
            if LastWritten(second, parse, name).Some? then LastWritten(second, parse, name)
            else LastWritten(first, parse, name)
  {
    if second == [] {
      assert first + second == first;
    } else {
      var all := first + second;
      assert all[..|all| - 1] == first + second[..|second| - 1];
      WriteAfter(first, second[..|second| - 1], parse, name);
    }
  }
}
