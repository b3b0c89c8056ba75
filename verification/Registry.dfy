/** The persistent channel registry: constructing, sharing and closing `Grpc\Channel` wrappers. */
module Registry {
  import opened Base
  import opened ChannelKey

  datatype ArgValue = IntArg(i: int) | TextArg(s: string) | BoolArg(b: bool) | OtherArg

  /** One entry of the PHP args array; an integer key is None. */
  datatype Arg = Arg(key: Option<string>, value: ArgValue)

  /** The 'credentials' argument: null, a credentials object, or something else. */
  datatype Credentials = Insecure | Object(id: nat, plugin: bool) | NotCredentials

  datatype ChannelError = KeysMustBeStrings | ValuesMustBeIntOrString | BadCredentials | BadEndpoint

  datatype ChannelArgs = ChannelArgs(pairs: seq<Pair>, forceNew: bool)

  function IntText(i: int): string {
    if i < 0 then "-" + Decimal(-i) else Decimal(i)
  }

  function ValueText(v: ArgValue): Option<string> {
    match v
    case IntArg(i) => Some(IntText(i))
    case TextArg(s) => Some(s)
    case _ => None
  }

  /** The arguments read so far, extended by one. */
  function AddArg(read: ChannelArgs, arg: Arg): Result<ChannelArgs, ChannelError> {
    match arg.key
    case None => Err(KeysMustBeStrings)
    case Some(key) =>
      if key == "credentials" then Ok(read)
      else if key == "force_new" then
        Ok(read.(forceNew := arg.value == BoolArg(true) || (arg.value.IntArg? && arg.value.i != 0)))
      else
        match ValueText(arg.value)
        case None => Err(ValuesMustBeIntOrString)
        case Some(text) => Ok(read.(pairs := read.pairs + [(key, text)]))
  }

  function ReadArgs(args: seq<Arg>): Result<ChannelArgs, ChannelError> {
    if args == [] then Ok(ChannelArgs([], false))
    else
      match ReadArgs(args[..|args| - 1])
      case Err(e) => Err(e)
      case Ok(read) => AddArg(read, args[|args| - 1])
  }

  lemma {:induction false} FirstErrorWins(args: seq<Arg>, n: nat)
    requires n <= |args| && ReadArgs(args[..n]).Err?
    ensures ReadArgs(args) == ReadArgs(args[..n])
    decreases |args| - n
  {
    if n == |args| {
      assert args[..n] == args;
    } else {
      assert args[..n + 1][..n] == args[..n];
      FirstErrorWins(args, n + 1);
    }
  }

  predicate LegalArg(arg: Arg) {
    && arg.key.Some?
    && (arg.key == Some("credentials") || arg.key == Some("force_new") || arg.value.IntArg? || arg.value.TextArg?)
  }

  predicate ForcesNew(arg: Arg) {
    arg.key == Some("force_new") && (arg.value == BoolArg(true) || (arg.value.IntArg? && arg.value.i != 0))
  }

  predicate DistinctKeys(args: seq<Arg>) {
    forall i, j :: 0 <= i < j < |args| ==> args[i].key != args[j].key
  }

  /** The number a text with an optional sign stands for. */
  function IntOf(text: string): int {
    if text != [] && text[0] == '-' then -ValueOf(text[1..]) else ValueOf(text)
  }

  /** The text of an int argument reads back as that int, sign included. */
  lemma IntTextRoundTrip(i: int)
    ensures IntOf(IntText(i)) == i
  {
    if i < 0 {
      DecimalRoundTrip(-i);
      SignedValue(Decimal(-i));
    } else {
      DecimalRoundTrip(i);
      SignedValue(Decimal(i));
    }
  }

  lemma SignedValue(text: string)
    requires text != [] && '0' <= text[0] <= '9'
    ensures IntOf(text) == ValueOf(text) && IntOf("-" + text) == -ValueOf(text)
  {
    assert ("-" + text)[1..] == text;
  }

  /** An argument that goes into the key. */
  predicate Counts(arg: Arg) {
    arg.key.Some? && arg.key != Some("credentials") && arg.key != Some("force_new")
  }

  /** The text of a value says which int it is, or is the string itself. */
  predicate IsTextOf(v: ArgValue, text: string) {
    match v
    case IntArg(i) => IntOf(text) == i
    case TextArg(s) => text == s
    case _ => false
  }

  /** How many arguments before position i go into the key. */
  function Rank(args: seq<Arg>, i: nat): nat
    requires i <= |args|
  {
    if i == 0 then 0 else Rank(args, i - 1) + (if Counts(args[i - 1]) then 1 else 0)
  }

  lemma {:induction false} RankOfPrefix(args: seq<Arg>, n: nat, i: nat)
    requires i <= n <= |args|
    ensures Rank(args[..n], i) == Rank(args, i)
    decreases i
  {
    if i > 0 {
      RankOfPrefix(args, n, i - 1);
    }
  }

  lemma {:induction false} PairsCounted(args: seq<Arg>)
    requires ReadArgs(args).Ok?
    ensures |ReadArgs(args).value.pairs| == Rank(args, |args|)
    decreases |args|
  {
    if args != [] {
      var n := |args| - 1;
      PairsCounted(args[..n]);
      RankOfPrefix(args, n, n);
    }
  }

  /**
   * The pairs read from accepted args are exactly the arguments other than credentials and force_new,
   * each once and in order, under its key and with its text.
   */
  lemma {:induction false} PairsExactly(args: seq<Arg>, i: nat)
    requires ReadArgs(args).Ok? && i < |args| && Counts(args[i])
    ensures var pairs := ReadArgs(args).value.pairs;
            && |pairs| == Rank(args, |args|) && Rank(args, i) < |pairs|
            && pairs[Rank(args, i)].0 == args[i].key.value
            && IsTextOf(args[i].value, pairs[Rank(args, i)].1)
    decreases |args|
  {
    var n := |args| - 1;
    PairsCounted(args);
    PairsCounted(args[..n]);
    RankOfPrefix(args, n, n);
    if i == n {
      if args[n].value.IntArg? {
        IntTextRoundTrip(args[n].value.i);
      }
    } else {
      PairsExactly(args[..n], i);
      RankOfPrefix(args, n, i);
    }
  }

  /** The constructor accepts exactly the legal args, and notices every request for a new channel. */
  lemma {:induction false} ReadArgsExact(args: seq<Arg>)
    ensures ReadArgs(args).Ok? <==> forall i :: 0 <= i < |args| ==> LegalArg(args[i])
    ensures ReadArgs(args).Ok? && DistinctKeys(args) ==>
              (ReadArgs(args).value.forceNew <==> exists i :: 0 <= i < |args| && ForcesNew(args[i]))
  {
    if args != [] {
      var n := |args| - 1;
      var init := args[..n];
      assert forall i :: 0 <= i < n ==> init[i] == args[i];
      ReadArgsExact(init);
      assert DistinctKeys(args) ==> DistinctKeys(init);
      if ReadArgs(args).Ok? && DistinctKeys(args) {
        if args[n].key == Some("force_new") {
          assert forall i :: 0 <= i < n ==> !ForcesNew(init[i]) && !ForcesNew(args[i]);
        } else if exists i :: 0 <= i < n && ForcesNew(init[i]) {
          var i :| 0 <= i < n && ForcesNew(init[i]);
          assert ForcesNew(args[i]);
        }
      }
    }
  }

  // ---- the registry as a value ----

  /** A channel object: whether it is open, its transport, and what it was made from. */
  datatype Wrapper = Wrapper(
    open: bool,
    transport: nat,
    target: string,
    credentials: nat,
    args: seq<Pair>,
    key: Option<string>)

  datatype World = World(table: map<string, nat>, transports: nat, wrappers: seq<Wrapper>, nextId: nat)

  const NEW_WORLD := World(map[], 0, [], 1)

  datatype Made = Made(world: World, result: Result<nat, ChannelError>)

  function CredentialsId(c: Credentials): nat {
    if c.Object? then c.id else 0
  }

  /** Plugin and force_new channels have no key: they are neither looked up nor stored. */
  function PersistKey(target: string, read: ChannelArgs, c: Credentials): Option<string> {
    if read.forceNew || (c.Object? && c.plugin) then None
    else Some(KeyOf(target, CredentialsId(c), read.pairs))
  }

  function Wrap(target: string, read: ChannelArgs, c: Credentials, transport: nat): Wrapper {
    Wrapper(true, transport, target, CredentialsId(c), read.pairs, PersistKey(target, read, c))
  }

  function Reuse(w: World, target: string, read: ChannelArgs, c: Credentials, transport: nat): Made {
    Made(w.(wrappers := w.wrappers + [Wrap(target, read, c, transport)]), Ok(|w.wrappers|))
  }

  function Create(w: World, target: string, read: ChannelArgs, c: Credentials): Made {
    var key := PersistKey(target, read, c);
    var stored := if key.Some? then w.table[key.value := w.transports] else w.table;
    Reuse(w.(table := stored, transports := w.transports + 1), target, read, c, w.transports)
  }

  function Construct(w: World, target: string, args: seq<Arg>, c: Credentials, endpointOk: bool): Made {
    match ReadArgs(args)
    case Err(e) => Made(w, Err(e))
    case Ok(read) =>
      if c.NotCredentials? then Made(w, Err(BadCredentials))
      else
        var key := PersistKey(target, read, c);
        if key.Some? && key.value in w.table then Reuse(w, target, read, c, w.table[key.value])
        else if !endpointOk then Made(w, Err(BadEndpoint))
        else Create(w, target, read, c)
  }

  function CloseWrapper(w: World, i: nat): World {
    if i < |w.wrappers| then w.(wrappers := w.wrappers[i := w.wrappers[i].(open := false)]) else w
  }

  // ---- the registry as the mutable object it is ----

  class ChannelRegistry {
    var table: map<string, nat>
    var transports: nat
    var wrappers: seq<Wrapper>
    var nextId: nat

    ghost function View(): World
      reads this
    {
      World(table, transports, wrappers, nextId)
    }

    constructor ()
      ensures View() == NEW_WORLD
    {
      table, transports, wrappers, nextId := map[], 0, [], 1;
    }

    /** A fresh id for every credentials object; 0 stays for insecure channels. */
    method NextCredentialsId() returns (id: nat)
      modifies this`nextId
      ensures id == old(nextId) && View() == Stepped(old(View()), MakeCredentials)
    {
      id := nextId;
      nextId := nextId + 1;
    }

    method ParseArgs(args: seq<Arg>) returns (r: Result<ChannelArgs, ChannelError>)
      ensures r == ReadArgs(args)
    {
      r := Ok(ChannelArgs([], false));
      for n := 0 to |args|
        invariant r.Ok? && r == ReadArgs(args[..n])
      {
        assert args[..n + 1][..n] == args[..n];
        r := AddArg(r.value, args[n]);
        if r.Err? {
          FirstErrorWins(args, n + 1);
          return;
        }
      }
      assert args[..|args|] == args;
    }

    method Open(target: string, args: seq<Arg>, c: Credentials, endpointOk: bool)
      returns (r: Result<nat, ChannelError>)
      modifies this
      ensures Made(View(), r) == Construct(old(View()), target, args, c, endpointOk)
    {
      var read := ParseArgs(args);
      if read.Err? {
        return Err(read.error);
      }
      if c.NotCredentials? {
        return Err(BadCredentials);
      }
      var key := PersistKey(target, read.value, c);
      var transport := transports;
      if key.Some? && key.value in table {
        transport := table[key.value];
      } else {
        if !endpointOk {
          return Err(BadEndpoint);
        }
        transports := transports + 1;
        if key.Some? {
          table := table[key.value := transport];
        }
      }
      r := Ok(|wrappers|);
      wrappers := wrappers + [Wrapper(true, transport, target, CredentialsId(c), read.value.pairs, key)];
    }

    method Close(i: nat)
      modifies this`wrappers
      ensures View() == CloseWrapper(old(View()), i)
    {
      if i < |wrappers| {
        wrappers := wrappers[i := wrappers[i].(open := false)];
      }
    }
  }

  // ---- runs ----

  datatype Step =
    | MakeCredentials
    | OpenChannel(target: string, args: seq<Arg>, credentials: Credentials, endpointOk: bool)
    | CloseChannel(wrapper: nat)

  /** Credentials objects carry ids that were handed out. */
  predicate StepOk(w: World, s: Step) {
    s.OpenChannel? && s.credentials.Object? ==> 1 <= s.credentials.id < w.nextId
  }

  function Stepped(w: World, s: Step): World {
    match s
    case MakeCredentials => w.(nextId := w.nextId + 1)
    case OpenChannel(target, args, c, endpointOk) => Construct(w, target, args, c, endpointOk).world
    case CloseChannel(i) => CloseWrapper(w, i)
  }

  predicate ValidSteps(w: World, steps: seq<Step>)
    decreases |steps|
  {
    steps == [] || (StepOk(w, steps[0]) && ValidSteps(Stepped(w, steps[0]), steps[1..]))
  }

  function SteppedAll(w: World, steps: seq<Step>): World
    decreases |steps|
  {
    if steps == [] then w else SteppedAll(Stepped(w, steps[0]), steps[1..])
  }

  predicate TableOk(w: World) {
    && (forall k :: k in w.table ==> w.table[k] < w.transports)
    && (forall k, l :: k in w.table && l in w.table && w.table[k] == w.table[l] ==> k == l)
  }

  /** A keyed wrapper uses the stored transport of its key; any other has a transport of its own. */
  predicate WrapperOk(w: World, x: Wrapper) {
    && x.transport < w.transports
    && match x.key
       case Some(key) =>
         && key == KeyOf(x.target, x.credentials, x.args)
         && key in w.table && w.table[key] == x.transport
       case None => forall k :: k in w.table ==> w.table[k] != x.transport
  }

  predicate WorldInv(w: World) {
    && TableOk(w)
    && (forall i :: 0 <= i < |w.wrappers| ==> WrapperOk(w, w.wrappers[i]))
    && (forall i, j :: 0 <= i < j < |w.wrappers| && w.wrappers[i].transport == w.wrappers[j].transport ==>
          w.wrappers[i].key.Some?)
  }

  /** The table only grows, and existing wrappers keep everything but their open flag. */
  predicate Grows(before: World, after: World) {
    && (forall k :: k in before.table ==> k in after.table && after.table[k] == before.table[k])
    && |before.wrappers| <= |after.wrappers|
    && (forall i :: 0 <= i < |before.wrappers| ==>
          before.wrappers[i] == after.wrappers[i].(open := before.wrappers[i].open))
    && before.nextId <= after.nextId
  }

  lemma ReuseOk(w: World, target: string, read: ChannelArgs, c: Credentials)
    requires WorldInv(w) && PersistKey(target, read, c).Some? && PersistKey(target, read, c).value in w.table
    ensures var w' := Reuse(w, target, read, c, w.table[PersistKey(target, read, c).value]).world;
            WorldInv(w') && Grows(w, w')
  {
  }

  lemma CreateOk(w: World, target: string, read: ChannelArgs, c: Credentials)
    requires WorldInv(w)
    requires PersistKey(target, read, c).Some? ==> PersistKey(target, read, c).value !in w.table
    ensures var w' := Create(w, target, read, c).world;
            WorldInv(w') && Grows(w, w')
  {
    var w' := Create(w, target, read, c).world;
    forall i | 0 <= i < |w.wrappers|
      ensures WrapperOk(w', w'.wrappers[i])
    {
      assert WrapperOk(w, w.wrappers[i]);
    }
  }

  lemma CloseOk(w: World, i: nat)
    requires WorldInv(w)
    ensures WorldInv(CloseWrapper(w, i)) && Grows(w, CloseWrapper(w, i))
  {
    var w' := CloseWrapper(w, i);
    forall j | 0 <= j < |w.wrappers|
      ensures WrapperOk(w', w'.wrappers[j])
    {
      assert WrapperOk(w, w.wrappers[j]);
    }
  }

  lemma StepGrows(w: World, s: Step)
    requires WorldInv(w)
    ensures WorldInv(Stepped(w, s)) && Grows(w, Stepped(w, s))
  {
    match s
    case MakeCredentials =>
      assert forall i :: 0 <= i < |w.wrappers| ==> WrapperOk(w, w.wrappers[i]);
      assert forall i :: 0 <= i < |w.wrappers| ==> WrapperOk(Stepped(w, s), w.wrappers[i]);
    case CloseChannel(i) => CloseOk(w, i);
    case OpenChannel(target, args, c, endpointOk) =>
      var r := ReadArgs(args);
      if r.Ok? && !c.NotCredentials? {
        var key := PersistKey(target, r.value, c);
        if key.Some? && key.value in w.table {
          ReuseOk(w, target, r.value, c);
        } else {
          CreateOk(w, target, r.value, c);
        }
      }
  }

  lemma GrowsTransitive(a: World, b: World, c: World)
    requires Grows(a, b) && Grows(b, c)
    ensures Grows(a, c)
  {
    forall i | 0 <= i < |a.wrappers|
      ensures a.wrappers[i] == c.wrappers[i].(open := a.wrappers[i].open)
    {
      assert a.wrappers[i] == b.wrappers[i].(open := a.wrappers[i].open);
      assert b.wrappers[i] == c.wrappers[i].(open := b.wrappers[i].open);
    }
  }

  /** Over every sequence of constructions and closes: keys keep their transport, wrappers theirs. */
  lemma {:induction false} RegistryRuns(w: World, steps: seq<Step>)
    requires WorldInv(w) && ValidSteps(w, steps)
    ensures WorldInv(SteppedAll(w, steps)) && Grows(w, SteppedAll(w, steps))
    decreases |steps|
  {
    if steps == [] {
      assert forall i :: 0 <= i < |w.wrappers| ==> w.wrappers[i] == w.wrappers[i].(open := w.wrappers[i].open);
    } else {
      StepGrows(w, steps[0]);
      RegistryRuns(Stepped(w, steps[0]), steps[1..]);
      GrowsTransitive(w, Stepped(w, steps[0]), SteppedAll(w, steps));
    }
  }

  function CredentialsMade(steps: seq<Step>): nat {
    if steps == [] then 0 else (if steps[0].MakeCredentials? then 1 else 0) + CredentialsMade(steps[1..])
  }

  /** Every credentials object gets an id of its own: the counter has moved on by as many as were made. */
  lemma {:induction false} IdsAreFresh(w: World, steps: seq<Step>)
    ensures SteppedAll(w, steps).nextId == w.nextId + CredentialsMade(steps)
    decreases |steps|
  {
    if steps != [] {
      IdsAreFresh(Stepped(w, steps[0]), steps[1..]);
    }
  }

  /** Two wrappers share a transport exactly when both are persistent and have the same key. */
  lemma SharingIsByKey(w: World, i: nat, j: nat)
    requires WorldInv(w) && i < j < |w.wrappers|
    ensures var a, b := w.wrappers[i], w.wrappers[j];
            a.transport == b.transport <==> a.key.Some? && a.key == b.key
  {
    assert WrapperOk(w, w.wrappers[i]) && WrapperOk(w, w.wrappers[j]);
  }

  /** Channels of different credentials or targets never share, unless one target is forged from the other. */
  lemma CredentialsNeverShare(w: World, i: nat, j: nat)
    requires WorldInv(w) && i < j < |w.wrappers|
    requires var a, b := w.wrappers[i], w.wrappers[j];
             && (a.credentials != b.credentials || a.target != b.target)
             && !ForgedFrom(a.target, b.target) && !ForgedFrom(b.target, a.target)
    ensures w.wrappers[i].transport != w.wrappers[j].transport
  {
    var a, b := w.wrappers[i], w.wrappers[j];
    assert WrapperOk(w, a) && WrapperOk(w, b);
    SharingIsByKey(w, i, j);
    if a.key.Some? && a.key == b.key {
      KeySeparates(a.target, a.credentials, a.args, b.target, b.credentials, b.args);
    }
  }

  function WithId(id: nat): Credentials {
    if id == 0 then Insecure else Object(id, false)
  }

  /** Open p with the argument its forgery stands for. */
  function OpenSource(p: string, n: nat, rest: string, credentials: nat): Step {
    var arg := ForgedArg(rest, credentials, []);
    OpenChannel(p, [Arg(Some(arg.0), TextArg(arg.1))], WithId(n), true)
  }

  lemma ForgedArgIsRead(rest: string, credentials: nat)
    requires rest == "" || rest[0] == '|'
    ensures var arg := ForgedArg(rest, credentials, []);
            ReadArgs([Arg(Some(arg.0), TextArg(arg.1))]) == Ok(ChannelArgs([arg], false))
  {
    var arg := ForgedArg(rest, credentials, []);
    var args := [Arg(Some(arg.0), TextArg(arg.1))];
    assert arg.0[|arg.0| - 1] == 's' && arg.0[|arg.0| - 2] == 'd';
    assert "credentials"[9] == 'l' && "force_new"[8] == 'w';
    assert arg.0 != "credentials" && arg.0 != "force_new";
    assert args[..|args| - 1] == [];
    assert [] + [arg] == [arg];
    assert AddArg(ChannelArgs([], false), args[0]) == Ok(ChannelArgs([arg], false));
  }

  /** The condition is needed: in every world a forged target gets the transport of its source, across credentials. */
  lemma ForgedTargetShares(w: World, t: string, p: string, n: nat, rest: string, credentials: nat)
    requires WorldInv(w) && ForgedBy(t, p, n, rest) && n < w.nextId && credentials < w.nextId
    ensures var first, second := OpenSource(p, n, rest, credentials), OpenChannel(t, [], WithId(credentials), true);
            && ValidSteps(w, [first, second])
            && var w1 := Stepped(w, first);
               var w2 := Stepped(w1, second);
               && |w2.wrappers| == |w1.wrappers| + 1 == |w.wrappers| + 2
               && var a, b := w2.wrappers[|w.wrappers|], w2.wrappers[|w.wrappers| + 1];
                  && a.target == p && a.credentials == n && b.target == t && b.credentials == credentials
                  && a.transport == b.transport
  {
    var first, second := OpenSource(p, n, rest, credentials), OpenChannel(t, [], WithId(credentials), true);
    ForgedArgIsRead(rest, credentials);
    ForgedCollides(t, p, n, rest, credentials, []);
    assert [first, second][1..] == [second];
    OpenKeyed(w, p, first.args, ChannelArgs([ForgedArg(rest, credentials, [])], false), n);
    OpenKeyed(Stepped(w, first), t, [], ChannelArgs([], false), credentials);
    StepGrows(w, first);
    StepGrows(Stepped(w, first), second);
    SharingIsByKey(Stepped(Stepped(w, first), second), |w.wrappers|, |w.wrappers| + 1);
  }

  lemma OpenKeyed(w: World, target: string, args: seq<Arg>, read: ChannelArgs, id: nat)
    requires ReadArgs(args) == Ok(read) && !read.forceNew
    ensures var w' := Stepped(w, OpenChannel(target, args, WithId(id), true));
            && |w'.wrappers| == |w.wrappers| + 1 && w'.nextId == w.nextId && w'.wrappers[..|w.wrappers|] == w.wrappers
            && var x := w'.wrappers[|w.wrappers|];
               x.target == target && x.credentials == id && x.key == Some(KeyOf(target, id, read.pairs))
  {
  }

  /** Plain persistent channels share exactly when target, credentials and arguments are the same. */
  lemma PlainSharing(w: World, i: nat, j: nat)
    requires WorldInv(w) && i < j < |w.wrappers|
    requires var a, b := w.wrappers[i], w.wrappers[j];
             && a.key.Some? && b.key.Some? && !ForgedFrom(a.target, b.target) && !ForgedFrom(b.target, a.target)
             && Plain(a.args) && Plain(b.args)
    ensures var a, b := w.wrappers[i], w.wrappers[j];
            a.transport == b.transport <==>
            a.target == b.target && a.credentials == b.credentials && multiset(a.args) == multiset(b.args)
  {
    var a, b := w.wrappers[i], w.wrappers[j];
    assert WrapperOk(w, a) && WrapperOk(w, b);
    SharingIsByKey(w, i, j);
    KeyIsCanonical(a.target, a.credentials, a.args, b.target, b.credentials, b.args);
  }

  /** The arguments that go into the key, as names and texts. */
  function ArgPairs(args: seq<Arg>): seq<Pair> {
    if args == [] then []
    else (if Counts(args[0]) && ValueText(args[0].value).Some?
          then [(args[0].key.value, ValueText(args[0].value).value)] else []) + ArgPairs(args[1..])
  }

  lemma {:induction false} ArgPairsLast(args: seq<Arg>, last: Arg)
    ensures ArgPairs(args + [last]) == ArgPairs(args) + ArgPairs([last])
    decreases |args|
  {
    if args == [] {
      assert args + [last] == [last];
    } else {
      assert (args + [last])[1..] == args[1..] + [last];
      ArgPairsLast(args[1..], last);
    }
  }

  lemma {:induction false} PairsAreArgs(args: seq<Arg>)
    requires ReadArgs(args).Ok?
    ensures ReadArgs(args).value.pairs == ArgPairs(args)
    decreases |args|
  {
    if args != [] {
      var n := |args| - 1;
      PairsAreArgs(args[..n]);
      ArgPairsLast(args[..n], args[n]);
      assert args == args[..n] + [args[n]];
      assert ArgPairs([args[n]][1..]) == [];
    }
  }

  /** A construction that succeeds with a key adds one wrapper with that key. */
  lemma OpenWith(w: World, target: string, args: seq<Arg>, c: Credentials, ok: bool)
    requires Construct(w, target, args, c, ok).result.Ok?
    ensures ReadArgs(args).Ok?
    ensures var w', read := Construct(w, target, args, c, ok).world, ReadArgs(args).value;
            && |w'.wrappers| == |w.wrappers| + 1 && w'.wrappers[..|w.wrappers|] == w.wrappers
            && var x := w'.wrappers[|w.wrappers|];
               && x.target == target && x.credentials == CredentialsId(c) && x.args == read.pairs
               && x.key == PersistKey(target, read, c)
  {
  }

  /** Two constructions with anything in between. */
  datatype TwoOpens = TwoOpens(
    world: World,
    target1: string, args1: seq<Arg>, c1: Credentials, ok1: bool,
    between: seq<Step>,
    target2: string, args2: seq<Arg>, c2: Credentials, ok2: bool)
  {
    function First(): Made { Construct(world, target1, args1, c1, ok1) }

    function Middle(): World { SteppedAll(First().world, between) }

    function Second(): Made { Construct(Middle(), target2, args2, c2, ok2) }

    predicate Succeed() {
      && First().result.Ok? && ValidSteps(First().world, between) && Second().result.Ok?
    }
  }

  lemma MiddleKeepsFirst(o: TwoOpens)
    requires WorldInv(o.world) && o.Succeed()
    ensures WorldInv(o.Second().world)
    ensures |o.world.wrappers| < |o.Middle().wrappers| < |o.Second().world.wrappers|
    ensures var i, w := |o.world.wrappers|, o.Second().world;
            w.wrappers[i] == o.First().world.wrappers[i].(open := w.wrappers[i].open)
  {
    OpenWith(o.world, o.target1, o.args1, o.c1, o.ok1);
    StepGrows(o.world, OpenChannel(o.target1, o.args1, o.c1, o.ok1));
    RegistryRuns(o.First().world, o.between);
    OpenWith(o.Middle(), o.target2, o.args2, o.c2, o.ok2);
    StepGrows(o.Middle(), OpenChannel(o.target2, o.args2, o.c2, o.ok2));
    GrowsTransitive(o.First().world, o.Middle(), o.Second().world);
  }

  predicate SameCredentials(c1: Credentials, c2: Credentials) {
    (c1.Insecure? && c2.Insecure?) || (c1.Object? && c2.Object? && c1.id == c2.id)
  }

  /** No call plugin, and no request for a new channel. */
  predicate Persistent(args: seq<Arg>, c: Credentials) {
    !(c.Object? && c.plugin) && forall i :: 0 <= i < |args| ==> !ForcesNew(args[i])
  }

  lemma {:induction false} NotForced(args: seq<Arg>)
    requires ReadArgs(args).Ok? && forall i :: 0 <= i < |args| ==> !ForcesNew(args[i])
    ensures !ReadArgs(args).value.forceNew
    decreases |args|
  {
    if args != [] {
      NotForced(args[..|args| - 1]);
    }
  }

  /**
   * Two constructions from argument arrays, whatever happens in between: persistent channels with plain
   * arguments and unforged targets share a transport exactly if targets, credentials and arguments agree.
   */
  lemma ConstructionsShareExactly(o: TwoOpens)
    requires WorldInv(o.world) && o.Succeed()
    requires !ForgedFrom(o.target1, o.target2) && !ForgedFrom(o.target2, o.target1)
    requires Plain(ArgPairs(o.args1)) && Plain(ArgPairs(o.args2))
    requires Persistent(o.args1, o.c1) && Persistent(o.args2, o.c2)
    requires (o.c1.Object? ==> o.c1.id > 0) && (o.c2.Object? ==> o.c2.id > 0)
    ensures |o.world.wrappers| < |o.Middle().wrappers| < |o.Second().world.wrappers|
    ensures var w := o.Second().world;
            w.wrappers[|o.world.wrappers|].transport == w.wrappers[|o.Middle().wrappers|].transport <==>
            && o.target1 == o.target2 && SameCredentials(o.c1, o.c2)
            && multiset(ArgPairs(o.args1)) == multiset(ArgPairs(o.args2))
  {
    MiddleKeepsFirst(o);
    OpenWith(o.world, o.target1, o.args1, o.c1, o.ok1);
    OpenWith(o.Middle(), o.target2, o.args2, o.c2, o.ok2);
    PairsAreArgs(o.args1);
    PairsAreArgs(o.args2);
    NotForced(o.args1);
    NotForced(o.args2);
    PlainSharing(o.Second().world, |o.world.wrappers|, |o.Middle().wrappers|);
  }

  /**
   * A construction succeeds exactly for legal arguments and proper credentials, with a good endpoint or
   * a stored transport under its key; one that fails changes nothing, and one that succeeds adds one
   * open wrapper.
   */
  lemma ConstructsExactly(w: World, target: string, args: seq<Arg>, c: Credentials, endpointOk: bool)
    ensures var m := Construct(w, target, args, c, endpointOk);
            && (m.result.Ok? <==>
                && (forall i :: 0 <= i < |args| ==> LegalArg(args[i])) && !c.NotCredentials?
                && (endpointOk || (ReadArgs(args).Ok? && PersistKey(target, ReadArgs(args).value, c).Some?
                                   && PersistKey(target, ReadArgs(args).value, c).value in w.table)))
            && (m.result.Err? ==> m.world == w)
            && (m.result.Ok? ==>
                  && m.result.value == |w.wrappers| && |m.world.wrappers| == |w.wrappers| + 1
                  && m.world.wrappers[|w.wrappers|].open && m.world.nextId == w.nextId)
  {
    ReadArgsExact(args);
  }

  /** A plugin or force_new channel gets a transport of its own and leaves the table alone. */
  lemma UnkeyedStaysOut(w: World, target: string, args: seq<Arg>, c: Credentials, endpointOk: bool)
    requires WorldInv(w) && ReadArgs(args).Ok? && !c.NotCredentials?
    requires ReadArgs(args).value.forceNew || (c.Object? && c.plugin)
    ensures var m := Construct(w, target, args, c, endpointOk);
            && m.world.table == w.table
            && (m.result.Ok? <==> endpointOk)
            && (m.result.Ok? ==>
                  && m.result.value == |w.wrappers| < |m.world.wrappers|
                  && forall i :: 0 <= i < |w.wrappers| ==>
                       m.world.wrappers[i].transport != m.world.wrappers[m.result.value].transport)
  {
    forall i | 0 <= i < |w.wrappers|
      ensures w.wrappers[i].transport < w.transports
    {
      assert WrapperOk(w, w.wrappers[i]);
    }
  }
}
