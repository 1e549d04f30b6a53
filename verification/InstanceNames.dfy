/** Names of instances that a session makes up: the k-th name after a reset is always the same one. */
module InstanceNames {
  import opened Values

  datatype Names = Names(count: nat, cache: map<nat, string>)

  const NO_NAMES: Names := Names(0, map[])

  function Reset(n: Names): Names { n.(count := 0) }

  function NameFor(k: nat, uuid: string): string { "instance-" + Digits(k) + "-" + uuid }

  /** The fresh identifier is only used when there is no name for the count yet. */
  function Generate(n: Names, uuid: string): (Names, string) {
    var k := n.count + 1;
    if k in n.cache then (Names(k, n.cache), n.cache[k])
    else (Names(k, n.cache[k := NameFor(k, uuid)]), NameFor(k, uuid))
  }

  class InstanceNameGen {
    var instanceCount: nat
    var workerNameCache: map<nat, string>

    ghost function State(): Names reads this { Names(instanceCount, workerNameCache) }

    constructor ()
      ensures State() == NO_NAMES
    {
      instanceCount, workerNameCache := 0, map[];
    }

    method ResetInstanceCount()
      modifies this`instanceCount
      ensures State() == Reset(old(State()))
    {
      instanceCount := 0;
    }

    method GenerateWorkerName(uuid: string) returns (name: string)
      modifies this
      ensures (State(), name) == Generate(old(State()), uuid)
    {
      instanceCount := instanceCount + 1;
      if instanceCount in workerNameCache {
        return workerNameCache[instanceCount];
      }
      name := "instance-" + Digits(instanceCount) + "-" + uuid;
      workerNameCache := workerNameCache[instanceCount := name];
    }
  }

  // ---------- different counts give different names ----------

  predicate IsDigit(c: char) { '0' <= c <= '9' }

  lemma {:induction false} DigitsAreDigits(n: nat)
    ensures Digits(n) != [] && forall c :: c in Digits(n) ==> IsDigit(c)
    decreases n
  {
    if n >= 10 {
      DigitsAreDigits(n / 10);
    }
  }

  lemma OneDigit(a: nat, b: nat)
    requires a < 10 && b < 10 && "0123456789"[a] == "0123456789"[b]
    ensures a == b
  {
  }

  lemma {:induction false} DigitsApart(a: nat, b: nat)
    requires Digits(a) == Digits(b)
    ensures a == b
    decreases a
  {
    DigitsAreDigits(a / 10);
    DigitsAreDigits(b / 10);
    LastDigit(a);
    LastDigit(b);
    OneDigit(a % 10, b % 10);
    if a >= 10 && b >= 10 {
      assert Digits(a / 10) == Digits(a)[..|Digits(a)| - 1];
      assert Digits(b / 10) == Digits(b)[..|Digits(b)| - 1];
      DigitsApart(a / 10, b / 10);
    }
  }

  lemma LastDigit(n: nat)
    ensures Digits(n) != [] && Digits(n)[|Digits(n)| - 1] == "0123456789"[n % 10]
    ensures |Digits(n)| == 1 <==> n < 10
  {
    if n >= 10 {
      DigitsAreDigits(n / 10);
    }
  }

  function BeforeDash(s: string): string {
    if s == [] || s[0] == '-' then [] else [s[0]] + BeforeDash(s[1..])
  }

  lemma DigitsBeforeDash(digits: string, rest: string)
    requires forall c :: c in digits ==> IsDigit(c)
    ensures BeforeDash(digits + "-" + rest) == digits
  {
    if digits == [] {
      assert digits + "-" + rest == "-" + rest;
    } else {
      assert digits[0] in digits;
      assert (digits + "-" + rest)[1..] == digits[1..] + "-" + rest;
      DigitsBeforeDash(digits[1..], rest);
    }
  }

  /** The count can be read off a name. */
  lemma CountOfName(k: nat, uuid: string)
    ensures |NameFor(k, uuid)| >= 9 && BeforeDash(NameFor(k, uuid)[9..]) == Digits(k)
  {
    assert NameFor(k, uuid)[9..] == Digits(k) + "-" + uuid;
    DigitsAreDigits(k);
    DigitsBeforeDash(Digits(k), uuid);
  }

  lemma {:induction false} NamesApart(j: nat, k: nat, u: string, v: string)
    requires j != k
    ensures NameFor(j, u) != NameFor(k, v)
  {
    hide NameFor, Digits, BeforeDash;
    CountOfName(j, u);
    CountOfName(k, v);
    if Digits(j) == Digits(k) {
      DigitsApart(j, k);
    }
  }

  // ---------- whole runs ----------

  datatype Event = Resetting | Generating(uuid: string)

  datatype Made = Made(k: nat, name: string)

  /** The names handed out, with their place after the last reset. */
  function Run(n: Names, events: seq<Event>): (Names, seq<Made>)
    decreases |events|
  {
    if events == [] then (n, []) else
    match events[0]
    case Resetting => Run(Reset(n), events[1..])
    case Generating(uuid) =>
      var (m, name) := Generate(n, uuid);
      var (last, made) := Run(m, events[1..]);
      (last, [Made(m.count, name)] + made)
  }

  ghost predicate WellNamed(n: Names) {
    forall k :: k in n.cache ==> exists u :: n.cache[k] == NameFor(k, u)
  }

  /** Every name handed out is the one the final cache has for its place, and nothing is ever replaced. */
  lemma {:induction false} NamesStay(n: Names, events: seq<Event>)
    requires hide *; WellNamed(n)
    ensures var (last, made) := Run(n, events);
            && WellNamed(last)
            && (forall k :: k in n.cache ==> k in last.cache && last.cache[k] == n.cache[k])
            && (forall m :: m in made ==> m.k in last.cache && last.cache[m.k] == m.name)
    decreases |events|
  {
    hide NameFor;
    if events != [] {
      match events[0]
      case Resetting => NamesStay(Reset(n), events[1..]);
      case Generating(uuid) =>
        var (m, name) := Generate(n, uuid);
        assert WellNamed(m);
        NamesStay(m, events[1..]);
    }
  }

  /** Over a whole session, two names are equal exactly when they were made at the same place after a reset. */
  lemma SamePlaceSameName(events: seq<Event>, a: Made, b: Made)
    requires a in Run(NO_NAMES, events).1 && b in Run(NO_NAMES, events).1
    ensures a.name == b.name <==> a.k == b.k
  {
    NamesStay(NO_NAMES, events);
    var cache := Run(NO_NAMES, events).0.cache;
    var u :| cache[a.k] == NameFor(a.k, u);
    var v :| cache[b.k] == NameFor(b.k, v);
    if a.k != b.k {
      NamesApart(a.k, b.k, u, v);
    }
  }
}
