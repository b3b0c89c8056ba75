/** The canonical key under which a channel is kept for reuse. */
module ChannelKey {
  import opened Base

  // ---- decimal text ----

  function Digit(d: nat): char
    requires d < 10
  {
    "0123456789"[d]
  }

  function Decimal(n: nat): (text: string)
    ensures text != [] && forall i :: 0 <= i < |text| ==> '0' <= text[i] <= '9'
  {
    if n < 10 then [Digit(n)] else Decimal(n / 10) + [Digit(n % 10)]
  }

  /** The number a string of digits stands for. */
  function ValueOf(text: string): int {
    if text == [] then 0 else 10 * ValueOf(text[..|text| - 1]) + (text[|text| - 1] as int - '0' as int)
  }

  lemma DigitValue(d: nat)
    requires d < 10
    ensures Digit(d) as int - '0' as int == d
  {
  }

  /** The decimal text of a number reads back as that number. */
  lemma {:induction false} DecimalRoundTrip(n: nat)
    ensures ValueOf(Decimal(n)) == n
  {
    var text := Decimal(n);
    DigitValue(n % 10);
    if n < 10 {
      assert text[..|text| - 1] == [];
    } else {
      assert text[..|text| - 1] == Decimal(n / 10);
      DecimalRoundTrip(n / 10);
    }
  }

  lemma DecimalInjective(a: nat, b: nat)
    requires Decimal(a) == Decimal(b)
    ensures a == b
  {
    DecimalRoundTrip(a);
    DecimalRoundTrip(b);
  }

  // ---- ordering of the parts ----

  /** Lexicographic order of strings. */
  predicate LessEq(a: string, b: string) {
    a == [] || (b != [] && (a[0] < b[0] || (a[0] == b[0] && LessEq(a[1..], b[1..]))))
  }

  lemma {:induction false} LessEqTotal(a: string, b: string)
    ensures LessEq(a, b) || LessEq(b, a)
  {
    if a != [] && b != [] {
      LessEqTotal(a[1..], b[1..]);
    }
  }

  lemma {:induction false} LessEqAntisymmetric(a: string, b: string)
    requires LessEq(a, b) && LessEq(b, a)
    ensures a == b
  {
    if a != [] && b != [] {
      LessEqAntisymmetric(a[1..], b[1..]);
      assert a == [a[0]] + a[1..] && b == [b[0]] + b[1..];
    }
  }

  lemma {:induction false} LessEqTransitive(a: string, b: string, c: string)
    requires LessEq(a, b) && LessEq(b, c)
    ensures LessEq(a, c)
  {
    if a != [] && a[0] == b[0] == c[0] {
      LessEqTransitive(a[1..], b[1..], c[1..]);
    }
  }

  predicate SortedParts(parts: seq<string>) {
    forall i, j :: 0 <= i < j < |parts| ==> LessEq(parts[i], parts[j])
  }

  function Insert(part: string, parts: seq<string>): seq<string> {
    if parts == [] || LessEq(part, parts[0]) then [part] + parts
    else [parts[0]] + Insert(part, parts[1..])
  }

  function Sort(parts: seq<string>): seq<string> {
    if parts == [] then [] else Insert(parts[0], Sort(parts[1..]))
  }

  lemma {:induction false} InsertAdds(part: string, parts: seq<string>)
    ensures multiset(Insert(part, parts)) == multiset(parts) + multiset{part}
  {
    if parts != [] {
      assert parts == [parts[0]] + parts[1..];
      InsertAdds(part, parts[1..]);
    }
  }

  lemma SortedCons(x: string, rest: seq<string>)
    requires SortedParts(rest) && forall y :: y in rest ==> LessEq(x, y)
    ensures SortedParts([x] + rest)
  {
  }

  lemma {:induction false} InsertSorted(part: string, parts: seq<string>)
    requires SortedParts(parts)
    ensures SortedParts(Insert(part, parts))
  {
    if parts == [] {
    } else if LessEq(part, parts[0]) {
      forall y | y in parts
        ensures LessEq(part, y)
      {
        LeastFirst(parts, y);
        LessEqTransitive(part, parts[0], y);
      }
      SortedCons(part, parts);
    } else {
      InsertSorted(part, parts[1..]);
      InsertAdds(part, parts[1..]);
      LessEqTotal(part, parts[0]);
      forall y | y in Insert(part, parts[1..])
        ensures LessEq(parts[0], y)
      {
        assert y in multiset(Insert(part, parts[1..]));
      }
      SortedCons(parts[0], Insert(part, parts[1..]));
    }
  }

  lemma {:induction false} SortCorrect(parts: seq<string>)
    ensures SortedParts(Sort(parts)) && multiset(Sort(parts)) == multiset(parts)
  {
    if parts != [] {
      SortCorrect(parts[1..]);
      InsertSorted(parts[0], Sort(parts[1..]));
      InsertAdds(parts[0], Sort(parts[1..]));
      assert parts == [parts[0]] + parts[1..];
    }
  }

  lemma TailMultiset<T>(s: seq<T>)
    requires s != []
    ensures multiset(s[1..]) == multiset(s) - multiset{s[0]} && s[0] in multiset(s)
  {
    assert s == [s[0]] + s[1..];
  }

  lemma LeastFirst(a: seq<string>, x: string)
    requires a != [] && SortedParts(a) && x in multiset(a)
    ensures LessEq(a[0], x)
  {
    var i :| 0 <= i < |a| && a[i] == x;
    if i == 0 {
      LessEqTotal(x, x);
    }
  }

  lemma {:induction false} SortedIsUnique(a: seq<string>, b: seq<string>)
    requires SortedParts(a) && SortedParts(b) && multiset(a) == multiset(b)
    ensures a == b
  {
    assert |a| == |multiset(a)| == |multiset(b)| == |b|;
    if a != [] {
      TailMultiset(a);
      TailMultiset(b);
      LeastFirst(a, b[0]);
      LeastFirst(b, a[0]);
      LessEqAntisymmetric(a[0], b[0]);
      SortedIsUnique(a[1..], b[1..]);
      assert a == [a[0]] + a[1..] && b == [b[0]] + b[1..];
    }
  }

  // ---- the key ----

  function Join(parts: seq<string>): string {
    if parts == [] then ""
    else if |parts| == 1 then parts[0]
    else parts[0] + "," + Join(parts[1..])
  }

  function PartOf(arg: Pair): string {
    arg.0 + "=" + arg.1
  }

  function Parts(args: seq<Pair>): seq<string> {
    if args == [] then [] else [PartOf(args[0])] + Parts(args[1..])
  }

  const CREDS := "|creds="

  function KeyOf(target: string, credentials: nat, args: seq<Pair>): string {
    target + CREDS + Decimal(credentials) + "|" + Join(Sort(Parts(args)))
  }

  lemma {:induction false} PartsConcat(x: seq<Pair>, y: seq<Pair>)
    ensures Parts(x + y) == Parts(x) + Parts(y)
  {
    if x == [] {
      assert x + y == y;
    } else {
      assert (x + y)[1..] == x[1..] + y;
      PartsConcat(x[1..], y);
    }
  }

  lemma RemoveArg(b: seq<Pair>, i: nat)
    requires i < |b|
    ensures var rest := b[..i] + b[i + 1..];
            && multiset(b) == multiset(rest) + multiset{b[i]}
            && multiset(Parts(b)) == multiset{PartOf(b[i])} + multiset(Parts(rest))
  {
    var x, y := b[..i], b[i + 1..];
    assert b == x + ([b[i]] + y);
    PartsConcat(x, [b[i]] + y);
    PartsConcat(x, y);
    assert ([b[i]] + y)[1..] == y;
  }

  lemma {:induction false} PartsMultiset(a: seq<Pair>, b: seq<Pair>)
    requires multiset(a) == multiset(b)
    ensures multiset(Parts(a)) == multiset(Parts(b))
    decreases |a|
  {
    assert |a| == |multiset(a)| == |multiset(b)| == |b|;
    if a != [] {
      TailMultiset(a);
      var i :| 0 <= i < |b| && b[i] == a[0];
      RemoveArg(b, i);
      assert multiset(b[..i] + b[i + 1..]) == multiset(b) - multiset{b[i]};
      PartsMultiset(a[1..], b[..i] + b[i + 1..]);
    }
  }

  /** The key does not depend on the order of the arguments. */
  lemma KeyIgnoresOrder(target: string, credentials: nat, a: seq<Pair>, b: seq<Pair>)
    requires multiset(a) == multiset(b)
    ensures KeyOf(target, credentials, a) == KeyOf(target, credentials, b)
  {
    PartsMultiset(a, b);
    SortCorrect(Parts(a));
    SortCorrect(Parts(b));
    SortedIsUnique(Sort(Parts(a)), Sort(Parts(b)));
  }

  /** The first separator fixes both sides of it. */
  lemma SplitAt(sep: char, a: string, b: string, restA: string, restB: string)
    requires sep !in a && sep !in b && a + [sep] + restA == b + [sep] + restB
    ensures a == b && restA == restB
  {
    var whole := a + [sep] + restA;
    assert whole == b + [sep] + restB;
    assert whole[|a|] == sep && forall k :: 0 <= k < |a| ==> whole[k] == a[k] != sep;
    assert whole[|b|] == sep && forall k :: 0 <= k < |b| ==> whole[k] == b[k] != sep;
    assert whole[..|a|] == a && whole[..|b|] == b;
    assert whole[|a| + 1..] == restA && whole[|b| + 1..] == restB;
  }

  // ---- targets and credentials ----

  /** The middle of a key: a bar, and text without one. */
  function CredsPart(credentials: nat): (text: string)
    ensures |text| > 1 && text[0] == '|' && forall k :: 1 <= k < |text| ==> text[k] != '|'
  {
    CREDS + Decimal(credentials)
  }

  function ArgsText(args: seq<Pair>): string {
    Join(Sort(Parts(args)))
  }

  lemma KeyShape(target: string, credentials: nat, args: seq<Pair>)
    ensures KeyOf(target, credentials, args) == target + (CredsPart(credentials) + ("|" + ArgsText(args)))
  {
  }

  /** The target continues p with a credentials part of its own, and then ends or has a bar. */
  predicate ForgedBy(t: string, p: string, n: nat, rest: string) {
    t == p + CredsPart(n) + rest && (rest == "" || rest[0] == '|')
  }

  ghost predicate ForgedFrom(t: string, p: string) {
    exists n, rest :: ForgedBy(t, p, n, rest)
  }

  ghost predicate Forges(t: string) {
    exists p :: ForgedFrom(t, p)
  }

  /** One credentials part reached over some extra text x: the part lies inside x, up to a bar. */
  lemma PartInside(x: string, c1: nat, j1: string, c2: nat, j2: string)
    requires x != "" && CredsPart(c1) + ("|" + j1) == x + (CredsPart(c2) + ("|" + j2))
    ensures |CredsPart(c1)| <= |x| && ForgedBy(x, "", c1, x[|CredsPart(c1)|..])
  {
    var whole := CredsPart(c1) + ("|" + j1);
    assert whole[|x|] == CredsPart(c2)[0] == '|';
    assert |x| >= |CredsPart(c1)|;
    assert x == whole[..|x|];
    assert x[..|CredsPart(c1)|] == CredsPart(c1);
    var rest := x[|CredsPart(c1)|..];
    assert x == "" + CredsPart(c1) + rest;
    if rest != "" {
      assert rest[0] == whole[|CredsPart(c1)|] == '|';
    }
  }

  /** Of two targets under one key the longer is forged from the shorter. */
  lemma LongerIsForged(t1: string, c1: nat, a1: seq<Pair>, t2: string, c2: nat, a2: seq<Pair>)
    requires |t1| < |t2| && KeyOf(t1, c1, a1) == KeyOf(t2, c2, a2)
    ensures ForgedFrom(t2, t1)
  {
    KeyShape(t1, c1, a1);
    KeyShape(t2, c2, a2);
    var key := KeyOf(t1, c1, a1);
    var x := t2[|t1|..];
    assert key[..|t1|] == t1 && key[..|t2|] == t2;
    assert t2 == t1 + x;
    assert key[|t1|..] == CredsPart(c1) + ("|" + ArgsText(a1));
    assert key[|t1|..] == x + (CredsPart(c2) + ("|" + ArgsText(a2)));
    PartInside(x, c1, ArgsText(a1), c2, ArgsText(a2));
    var rest := x[|CredsPart(c1)|..];
    assert t2 == t1 + CredsPart(c1) + rest;
    assert ForgedBy(t2, t1, c1, rest);
  }

  lemma SameTarget(t: string, c1: nat, a1: seq<Pair>, c2: nat, a2: seq<Pair>)
    requires KeyOf(t, c1, a1) == KeyOf(t, c2, a2)
    ensures c1 == c2 && ArgsText(a1) == ArgsText(a2)
  {
    KeyShape(t, c1, a1);
    KeyShape(t, c2, a2);
    var key, n := KeyOf(t, c1, a1), |t|;
    var p1, p2 := CredsPart(c1), CredsPart(c2);
    assert key[n..] == p1 + ("|" + ArgsText(a1)) && key[n..] == p2 + ("|" + ArgsText(a2));
    assert key[n..][1..] == p1[1..] + "|" + ArgsText(a1) && key[n..][1..] == p2[1..] + "|" + ArgsText(a2);
    SplitAt('|', p1[1..], p2[1..], ArgsText(a1), ArgsText(a2));
    assert p1[1..][6..] == Decimal(c1) && p2[1..][6..] == Decimal(c2);
    DecimalInjective(c1, c2);
  }

  /** Equal keys mean equal targets, credentials and argument texts, unless one target is forged from the other. */
  lemma KeySeparates(t1: string, c1: nat, a1: seq<Pair>, t2: string, c2: nat, a2: seq<Pair>)
    requires KeyOf(t1, c1, a1) == KeyOf(t2, c2, a2) && !ForgedFrom(t1, t2) && !ForgedFrom(t2, t1)
    ensures t1 == t2 && c1 == c2 && ArgsText(a1) == ArgsText(a2)
  {
    if |t1| < |t2| {
      LongerIsForged(t1, c1, a1, t2, c2, a2);
    } else if |t2| < |t1| {
      LongerIsForged(t2, c2, a2, t1, c1, a1);
    } else {
      KeyShape(t1, c1, a1);
      KeyShape(t2, c2, a2);
      assert t1 == KeyOf(t1, c1, a1)[..|t1|] == t2;
      SameTarget(t1, c1, a1, c2, a2);
    }
  }

  lemma SingleArg(arg: Pair)
    ensures ArgsText([arg]) == PartOf(arg)
  {
    assert Parts([arg]) == [PartOf(arg)];
    assert Sort([PartOf(arg)]) == [PartOf(arg)];
  }

  /** The argument that makes p look like a target forged from it. */
  function ForgedArg(rest: string, credentials: nat, args: seq<Pair>): Pair {
    ((rest + "|creds")[1..], Decimal(credentials) + "|" + ArgsText(args))
  }

  lemma ForgedTail(rest: string, credentials: nat, args: seq<Pair>)
    requires rest == "" || rest[0] == '|'
    ensures rest + (CredsPart(credentials) + ("|" + ArgsText(args))) == "|" + PartOf(ForgedArg(rest, credentials, args))
  {
    var value := Decimal(credentials) + "|" + ArgsText(args);
    var name := rest + "|creds";
    assert CREDS == "|creds" + "=";
    assert rest + (CredsPart(credentials) + ("|" + ArgsText(args))) == name + "=" + value;
    assert name == "|" + name[1..];
  }

  /** A forged target meets its source under one key, whatever its own credentials and arguments. */
  lemma ForgedCollides(t: string, p: string, n: nat, rest: string, credentials: nat, args: seq<Pair>)
    requires ForgedBy(t, p, n, rest)
    ensures KeyOf(t, credentials, args) == KeyOf(p, n, [ForgedArg(rest, credentials, args)])
    ensures |p| < |t|
  {
    var arg := ForgedArg(rest, credentials, args);
    SingleArg(arg);
    KeyShape(t, credentials, args);
    KeyShape(p, n, [arg]);
    ForgedTail(rest, credentials, args);
    Regroup(p, CredsPart(n), rest, CredsPart(credentials) + ("|" + ArgsText(args)));
  }

  lemma Regroup(a: string, b: string, c: string, d: string)
    ensures a + b + c + d == a + (b + (c + d))
  {
  }

  ghost predicate Collide(t1: string, t2: string) {
    exists c1, a1, c2, a2 :: KeyOf(t1, c1, a1) == KeyOf(t2, c2, a2)
  }

  /** Exactly: two targets can meet under one key if and only if one is forged from the other. */
  lemma TargetsCollideExactly(t1: string, t2: string)
    requires t1 != t2
    ensures Collide(t1, t2) <==> ForgedFrom(t1, t2) || ForgedFrom(t2, t1)
  {
    if Collide(t1, t2) {
      var c1, a1, c2, a2 :| KeyOf(t1, c1, a1) == KeyOf(t2, c2, a2);
      if !ForgedFrom(t1, t2) && !ForgedFrom(t2, t1) {
        KeySeparates(t1, c1, a1, t2, c2, a2);
      }
    }
    if ForgedFrom(t1, t2) {
      var n, rest :| ForgedBy(t1, t2, n, rest);
      ForgedCollides(t1, t2, n, rest, 0, []);
    }
    if ForgedFrom(t2, t1) {
      var n, rest :| ForgedBy(t2, t1, n, rest);
      ForgedCollides(t2, t1, n, rest, 0, []);
    }
  }

  ghost predicate MeetsShorter(t: string, credentials: nat, args: seq<Pair>) {
    exists p, n, a :: |p| < |t| && KeyOf(p, n, a) == KeyOf(t, credentials, args)
  }

  /** Exactly: a channel's key also belongs to a shorter target if and only if its target forges. */
  lemma ForgeryIsExact(t: string, credentials: nat, args: seq<Pair>)
    ensures MeetsShorter(t, credentials, args) <==> Forges(t)
  {
    if MeetsShorter(t, credentials, args) {
      var p, n, a :| |p| < |t| && KeyOf(p, n, a) == KeyOf(t, credentials, args);
      LongerIsForged(p, n, a, t, credentials, args);
    }
    if Forges(t) {
      var p :| ForgedFrom(t, p);
      var n, rest :| ForgedBy(t, p, n, rest);
      ForgedCollides(t, p, n, rest, credentials, args);
    }
  }

  // ---- arguments ----

  /** Argument names without '=' and ',', values without ','. */
  predicate Plain(args: seq<Pair>) {
    forall i :: 0 <= i < |args| ==> '=' !in args[i].0 && ',' !in args[i].0 && ',' !in args[i].1
  }

  predicate CommaFree(parts: seq<string>) {
    forall i :: 0 <= i < |parts| ==> parts[i] != [] && ',' !in parts[i]
  }

  lemma {:induction false} PlainParts(args: seq<Pair>)
    ensures |Parts(args)| == |args| && forall i :: 0 <= i < |args| ==> Parts(args)[i] == PartOf(args[i])
    ensures Plain(args) ==> CommaFree(Parts(args))
  {
    if args != [] {
      PlainParts(args[1..]);
    }
  }

  lemma JoinHasComma(parts: seq<string>)
    requires |parts| >= 2
    ensures ',' in Join(parts)
  {
    assert Join(parts)[|parts[0]|] == ',';
  }

  lemma {:induction false} JoinInjective(p: seq<string>, q: seq<string>)
    requires CommaFree(p) && CommaFree(q) && Join(p) == Join(q)
    ensures p == q
  {
    if |p| >= 2 {
      JoinHasComma(p);
    }
    if |q| >= 2 {
      JoinHasComma(q);
    }
    if |p| >= 2 && |q| >= 2 {
      SplitAt(',', p[0], q[0], Join(p[1..]), Join(q[1..]));
      JoinInjective(p[1..], q[1..]);
      assert p == [p[0]] + p[1..] && q == [q[0]] + q[1..];
    }
  }

  lemma SortCommaFree(parts: seq<string>)
    requires CommaFree(parts)
    ensures CommaFree(Sort(parts))
  {
    SortCorrect(parts);
    forall i | 0 <= i < |Sort(parts)|
      ensures Sort(parts)[i] != [] && ',' !in Sort(parts)[i]
    {
      assert Sort(parts)[i] in multiset(Sort(parts));
      assert Sort(parts)[i] in parts;
    }
  }

  lemma FindArg(x: Pair, b: seq<Pair>) returns (i: nat)
    requires Plain([x]) && Plain(b) && PartOf(x) in multiset(Parts(b))
    ensures i < |b| && b[i] == x
  {
    PlainParts(b);
    i :| 0 <= i < |Parts(b)| && Parts(b)[i] == PartOf(x);
    assert '=' !in [x][0].0;
    SplitAt('=', x.0, b[i].0, x.1, b[i].1);
  }

  lemma Cancel<T>(x: T, a: multiset<T>, b: multiset<T>)
    requires multiset{x} + a == multiset{x} + b
    ensures a == b
  {
    assert a == (multiset{x} + a) - multiset{x};
    assert b == (multiset{x} + b) - multiset{x};
  }

  lemma PlainRest(b: seq<Pair>, i: nat)
    requires Plain(b) && i < |b|
    ensures Plain(b[..i] + b[i + 1..])
  {
  }

  lemma HeadArg(a: seq<Pair>)
    requires a != []
    ensures multiset(a) == multiset(a[1..]) + multiset{a[0]}
    ensures multiset(Parts(a)) == multiset{PartOf(a[0])} + multiset(Parts(a[1..]))
    ensures Plain(a) ==> Plain([a[0]]) && Plain(a[1..])
  {
    assert a == [a[0]] + a[1..];
  }

  /** Find the first argument of one list in the other, and take it out of both. */
  lemma DropShared(a: seq<Pair>, b: seq<Pair>) returns (rest: seq<Pair>)
    requires a != [] && Plain(a) && Plain(b) && multiset(Parts(a)) == multiset(Parts(b))
    ensures Plain(rest) && multiset(Parts(a[1..])) == multiset(Parts(rest))
    ensures multiset(b) == multiset(rest) + multiset{a[0]}
  {
    HeadArg(a);
    assert PartOf(a[0]) in multiset(Parts(b));
    var i := FindArg(a[0], b);
    rest := b[..i] + b[i + 1..];
    PlainRest(b, i);
    RemoveArg(b, i);
    Cancel(PartOf(a[0]), multiset(Parts(a[1..])), multiset(Parts(rest)));
  }

  lemma {:induction false} PartsDetermineArgs(a: seq<Pair>, b: seq<Pair>)
    requires Plain(a) && Plain(b) && multiset(Parts(a)) == multiset(Parts(b))
    ensures multiset(a) == multiset(b)
    decreases |a|
  {
    if a == [] {
      PlainParts(b);
      assert |Parts(b)| == |multiset(Parts(b))| == 0;
    } else {
      HeadArg(a);
      var rest := DropShared(a, b);
      PartsDetermineArgs(a[1..], rest);
    }
  }

  lemma PlainTextsDiffer(a1: seq<Pair>, a2: seq<Pair>)
    requires Plain(a1) && Plain(a2) && ArgsText(a1) == ArgsText(a2)
    ensures multiset(a1) == multiset(a2)
  {
    PlainParts(a1);
    PlainParts(a2);
    SortCommaFree(Parts(a1));
    SortCommaFree(Parts(a2));
    JoinInjective(Sort(Parts(a1)), Sort(Parts(a2)));
    SortCorrect(Parts(a1));
    SortCorrect(Parts(a2));
    PartsDetermineArgs(a1, a2);
  }

  /** For plain arguments, and targets not forged from each other, the key is canonical. */
  lemma KeyIsCanonical(t1: string, c1: nat, a1: seq<Pair>, t2: string, c2: nat, a2: seq<Pair>)
    requires !ForgedFrom(t1, t2) && !ForgedFrom(t2, t1) && Plain(a1) && Plain(a2)
    ensures KeyOf(t1, c1, a1) == KeyOf(t2, c2, a2) <==> t1 == t2 && c1 == c2 && multiset(a1) == multiset(a2)
  {
    if KeyOf(t1, c1, a1) == KeyOf(t2, c2, a2) {
      KeySeparates(t1, c1, a1, t2, c2, a2);
      PlainTextsDiffer(a1, a2);
    }
    if multiset(a1) == multiset(a2) {
      KeyIgnoresOrder(t1, c1, a1, a2);
    }
  }

  // ---- which argument lists are ambiguous ----

  lemma {:induction false} PartsAt(args: seq<Pair>, i: nat, other: Pair)
    requires i < |args| && PartOf(other) == PartOf(args[i])
    ensures Parts(args[i := other]) == Parts(args)
    decreases i
  {
    if i == 0 {
      assert args[0 := other][1..] == args[1..];
    } else {
      assert args[i := other][1..] == args[1..][i - 1 := other];
      PartsAt(args[1..], i - 1, other);
    }
  }

  /** The other reading of "name=value" when the name holds a '='. */
  function NameCutAt(arg: Pair, k: nat): Pair
    requires k < |arg.0|
  {
    (arg.0[..k], arg.0[k + 1..] + "=" + arg.1)
  }

  /** A '=' in a name always collides: the part reads as a shorter name with a longer value. */
  lemma EqualsInNameCollides(target: string, credentials: nat, args: seq<Pair>, i: nat, k: nat)
    requires i < |args| && k < |args[i].0| && args[i].0[k] == '='
    ensures var other := args[i := NameCutAt(args[i], k)];
            && KeyOf(target, credentials, other) == KeyOf(target, credentials, args)
            && multiset(other) != multiset(args)
  {
    var x, y := args[i], NameCutAt(args[i], k);
    assert x.0 == x.0[..k] + "=" + x.0[k + 1..];
    assert PartOf(y) == PartOf(x);
    PartsAt(args, i, y);
    assert multiset(args[i := y]) == multiset(args) - multiset{x} + multiset{y};
    assert |y.0| < |x.0|;
    assert multiset(args[i := y])[x] == multiset(args)[x] - 1;
  }

  function InsertArg(x: Pair, args: seq<Pair>): seq<Pair> {
    if args == [] || LessEq(PartOf(x), PartOf(args[0])) then [x] + args
    else [args[0]] + InsertArg(x, args[1..])
  }

  function SortArgs(args: seq<Pair>): seq<Pair> {
    if args == [] then [] else InsertArg(args[0], SortArgs(args[1..]))
  }

  lemma {:induction false} InsertArgParts(x: Pair, args: seq<Pair>)
    ensures Parts(InsertArg(x, args)) == Insert(PartOf(x), Parts(args))
    ensures multiset(InsertArg(x, args)) == multiset(args) + multiset{x}
  {
    if args == [] {
      assert [x] + args == [x];
    } else if LessEq(PartOf(x), PartOf(args[0])) {
      assert ([x] + args)[1..] == args;
    } else {
      InsertArgParts(x, args[1..]);
      assert ([args[0]] + InsertArg(x, args[1..]))[1..] == InsertArg(x, args[1..]);
      assert args == [args[0]] + args[1..];
    }
  }

  /** The arguments in the order of their parts. */
  lemma {:induction false} SortArgsParts(args: seq<Pair>)
    ensures Parts(SortArgs(args)) == Sort(Parts(args)) && multiset(SortArgs(args)) == multiset(args)
  {
    if args != [] {
      SortArgsParts(args[1..]);
      InsertArgParts(args[0], SortArgs(args[1..]));
      assert args == [args[0]] + args[1..];
    }
  }

  /** The last two of a sorted list read as one argument; no name is new. */
  function MergeLast(init: seq<Pair>, x: Pair, y: Pair): seq<Pair> {
    init + [(x.0, x.1 + "," + PartOf(y))]
  }

  lemma {:induction false} PrefixLessEq(a: string, b: string)
    ensures LessEq(a, a + b)
  {
    if a != [] {
      assert (a + b)[1..] == a[1..] + b;
      PrefixLessEq(a[1..], b);
    }
  }

  lemma {:induction false} JoinLast(parts: seq<string>, x: string, y: string)
    ensures Join(parts + [x + "," + y]) == Join(parts + [x, y])
    decreases |parts|
  {
    if parts == [] {
      assert parts + [x + "," + y] == [x + "," + y] && parts + [x, y] == [x, y];
      assert [x, y][1..] == [y];
    } else {
      var p, q := parts + [x + "," + y], parts + [x, y];
      assert p[1..] == parts[1..] + [x + "," + y] && q[1..] == parts[1..] + [x, y];
      JoinLast(parts[1..], x, y);
    }
  }

  lemma PartsOfOne(arg: Pair)
    ensures Parts([arg]) == [PartOf(arg)]
  {
    assert Parts([arg][1..]) == [];
  }

  lemma MergedParts(init: seq<Pair>, x: Pair, y: Pair)
    ensures Parts(init + [x, y]) == Parts(init) + [PartOf(x), PartOf(y)]
    ensures Parts(MergeLast(init, x, y)) == Parts(init) + [PartOf(x) + "," + PartOf(y)]
  {
    var z := (x.0, x.1 + "," + PartOf(y));
    assert [x, y][1..] == [y];
    PartsOfOne(y);
    PartsOfOne(z);
    assert Parts([x, y]) == [PartOf(x), PartOf(y)];
    PartsConcat(init, [x, y]);
    PartsConcat(init, [z]);
    assert PartOf(z) == PartOf(x) + "," + PartOf(y);
  }

  lemma MergedSorted(init: seq<string>, x: string, y: string)
    requires SortedParts(init + [x, y])
    ensures SortedParts(init + [x + "," + y])
  {
    var before, after := init + [x, y], init + [x + "," + y];
    forall i, j | 0 <= i < j < |after| ensures LessEq(after[i], after[j]) {
      assert LessEq(before[i], before[j]);
      if j == |init| {
        assert x + "," + y == x + ("," + y);
        PrefixLessEq(x, "," + y);
        LessEqTransitive(before[i], x, x + "," + y);
      }
    }
  }

  lemma SortOfSorted(s: seq<string>)
    requires SortedParts(s)
    ensures Sort(s) == s
  {
    SortCorrect(s);
    SortedIsUnique(Sort(s), s);
  }

  lemma MergedText(init: seq<Pair>, x: Pair, y: Pair)
    requires SortedParts(Parts(init + [x, y]))
    ensures ArgsText(MergeLast(init, x, y)) == Join(Parts(init + [x, y]))
  {
    MergedParts(init, x, y);
    MergedSorted(Parts(init), PartOf(x), PartOf(y));
    SortOfSorted(Parts(MergeLast(init, x, y)));
    JoinLast(Parts(init), PartOf(x), PartOf(y));
  }

  /** Two or more arguments always collide: the last two parts read as one argument with a ',' in its value. */
  lemma SeveralArgsCollide(target: string, credentials: nat, args: seq<Pair>) returns (other: seq<Pair>)
    requires |args| >= 2
    ensures KeyOf(target, credentials, other) == KeyOf(target, credentials, args)
    ensures |other| == |args| - 1 && multiset(other) != multiset(args)
  {
    var sorted := SortArgs(args);
    SortArgsParts(args);
    assert |sorted| == |multiset(sorted)| == |multiset(args)| == |args|;
    var n := |sorted| - 2;
    var init, x, y := sorted[..n], sorted[n], sorted[n + 1];
    assert sorted == init + [x, y];
    SortCorrect(Parts(args));
    MergedText(init, x, y);
    other := MergeLast(init, x, y);
    assert |multiset(other)| == |other| < |args| == |multiset(args)|;
  }

  lemma EqualsInValueCollides(target: string, credentials: nat, arg: Pair, k: nat)
    requires k < |arg.1| && arg.1[k] == '='
    ensures var other := (arg.0 + "=" + arg.1[..k], arg.1[k + 1..]);
            KeyOf(target, credentials, [other]) == KeyOf(target, credentials, [arg]) && other != arg
  {
    var other := (arg.0 + "=" + arg.1[..k], arg.1[k + 1..]);
    assert arg.1 == arg.1[..k] + "=" + arg.1[k + 1..];
    assert PartOf(other) == PartOf(arg);
    SingleArg(other);
    SingleArg(arg);
  }

  lemma PartHasEquals(args: seq<Pair>, i: nat)
    requires i < |Sort(Parts(args))|
    ensures '=' in Sort(Parts(args))[i]
  {
    SortCorrect(Parts(args));
    var part := Sort(Parts(args))[i];
    assert part in multiset(Sort(Parts(args)));
    PlainParts(args);
    var k :| 0 <= k < |args| && PartOf(args[k]) == part;
    assert part[|args[k].0|] == '=';
  }

  /** A text with one '=' comes from one argument only. */
  lemma OneEquals(arg: Pair, other: seq<Pair>)
    requires '=' !in arg.0 && '=' !in arg.1 && ArgsText(other) == PartOf(arg)
    ensures other == [arg]
  {
    var text, s := PartOf(arg), Sort(Parts(other));
    assert forall k :: 0 <= k < |text| && text[k] == '=' ==> k == |arg.0|;
    SortCorrect(Parts(other));
    PlainParts(other);
    assert |s| == |multiset(s)| == |multiset(Parts(other))| == |other|;
    if |s| >= 2 {
      TwoEquals(other);
      assert false;
    }
    assert |other| == 1;
    SingleArg(other[0]);
    assert other == [other[0]];
    assert text[|other[0].0|] == '=';
    assert other[0].0 == text[..|arg.0|] == arg.0 && other[0].1 == text[|arg.0| + 1..] == arg.1;
  }

  lemma TwoEquals(args: seq<Pair>)
    requires |Sort(Parts(args))| >= 2
    ensures exists i, j :: 0 <= i < j < |ArgsText(args)| && ArgsText(args)[i] == '=' && ArgsText(args)[j] == '='
  {
    var s, text := Sort(Parts(args)), ArgsText(args);
    PartHasEquals(args, 0);
    var i :| 0 <= i < |s[0]| && s[0][i] == '=';
    PartHasEquals(args, 1);
    var k :| 0 <= k < |s[1]| && s[1][k] == '=';
    assert text == s[0] + "," + Join(s[1..]);
    assert Join(s[1..])[k] == '=';
    assert text[i] == '=' && text[|s[0]| + 1 + k] == '=';
  }

  ghost predicate Ambiguous(target: string, credentials: nat, args: seq<Pair>) {
    exists other ::
      multiset(other) != multiset(args) && KeyOf(target, credentials, other) == KeyOf(target, credentials, args)
  }

  /** Exactly: some other arguments give the same key unless there are none, or one without a '=' of its own. */
  lemma ArgsAreAmbiguousExactly(target: string, credentials: nat, args: seq<Pair>)
    ensures Ambiguous(target, credentials, args) <==>
            |args| >= 2 || (|args| == 1 && ('=' in args[0].0 || '=' in args[0].1))
  {
    if |args| >= 2 {
      var other := SeveralArgsCollide(target, credentials, args);
    } else if |args| == 1 && '=' in args[0].0 {
      var k :| 0 <= k < |args[0].0| && args[0].0[k] == '=';
      EqualsInNameCollides(target, credentials, args, 0, k);
    } else if |args| == 1 && '=' in args[0].1 {
      var k :| 0 <= k < |args[0].1| && args[0].1[k] == '=';
      EqualsInValueCollides(target, credentials, args[0], k);
      var other := (args[0].0 + "=" + args[0].1[..k], args[0].1[k + 1..]);
      assert args == [args[0]];
      assert multiset([other])[other] == 1 && multiset(args)[other] == 0;
    } else if Ambiguous(target, credentials, args) {
      var other :| multiset(other) != multiset(args)
                   && KeyOf(target, credentials, other) == KeyOf(target, credentials, args);
      SameTarget(target, credentials, other, credentials, args);
      FewArgsAreClear(args, other);
    }
  }

  lemma FewArgsAreClear(args: seq<Pair>, other: seq<Pair>)
    requires |args| <= 1 && (|args| == 1 ==> '=' !in args[0].0 && '=' !in args[0].1)
    requires ArgsText(other) == ArgsText(args)
    ensures other == args
  {
    if args == [] {
      SortCorrect(Parts(other));
      PlainParts(other);
      assert |Sort(Parts(other))| == |multiset(Parts(other))| == |other|;
      if other != [] {
        PartHasEquals(other, 0);
        NonEmptyJoin(Sort(Parts(other)));
        assert false;
      }
    } else {
      assert args == [args[0]];
      SingleArg(args[0]);
      OneEquals(args[0], other);
    }
  }

  lemma NonEmptyJoin(parts: seq<string>)
    requires parts != [] && parts[0] != ""
    ensures Join(parts) != ""
  {
  }
}
