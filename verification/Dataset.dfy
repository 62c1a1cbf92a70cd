/** The generated evaluation dataset (scripts/generate_evaluation_dataset.ts). */
module Dataset {
  import opened Evaluation

  // ---- random numbers ----

  /** The mixing of Mulberry32 on 32-bit words, with wrap-around products. */
  function Mix(a: bv32): bv32 {
    var t := (a ^ (a >> 15)) * (a | 1);
    var u := t ^ (t + (t ^ (t >> 7)) * (t | 61));
    u ^ (u >> 14)
  }

  /** A fraction of 2^32. */
  function Fraction(x: bv32): (r: real)
    ensures 0.0 <= r < 1.0
  {
    (x as int) as real / 4294967296.0
  }

  function State(seed: bv32, n: nat): bv32 {
    if n == 0 then seed else State(seed, n - 1) + 0x6D2B_79F5
  }

  class Generator {
    var a: bv32
    ghost const seed: bv32
    ghost var drawn: nat

    ghost predicate Valid() reads this { a == State(seed, drawn) }

    constructor (seed: bv32)
      ensures Valid() && this.seed == seed && drawn == 0
    {
      a, this.seed, drawn := seed, seed, 0;
    }

    /** Number n of the stream is determined by the seed alone. */
    method Next() returns (r: real)
      requires Valid()
      modifies this
      ensures Valid() && drawn == old(drawn) + 1
      ensures r == Fraction(Mix(State(seed, drawn))) && 0.0 <= r < 1.0
    {
      a := a + 0x6D2B_79F5;
      drawn := drawn + 1;
      r := Fraction(Mix(a));
    }

    method RandomInt(min: int, max: int) returns (n: int)
      requires Valid() && min <= max
      modifies this
      ensures Valid() && drawn == old(drawn) + 1 && min <= n <= max
      ensures n == (Fraction(Mix(State(seed, drawn))) * (max - min + 1) as real).Floor + min
    {
      hide Mix, Fraction;
      var size := max - min + 1;
      var r := Next();
      ScaledFloor(r, size);
      n := (r * size as real).Floor + min;
    }
  }

  /** The first two numbers of the stream that the dataset is drawn from, as multiples of 2^-32. */
  lemma FirstNumbers()
    ensures Mix(State(42, 1)) == 2_581_720_956 && Mix(State(42, 2)) == 1_925_393_290
  {
    assert State(42, 1) == 1_831_565_855;
    assert State(42, 2) == 3_663_131_668;
  }

  lemma ScaledFloor(r: real, n: int)
    requires 0.0 <= r < 1.0 && n > 0
    ensures 0 <= (r * n as real).Floor < n
  {
    assert r * n as real < n as real;
    assert r * n as real >= 0.0;
  }

  /** Every value of the range can be drawn. */
  lemma EveryIntCanBeDrawn(min: int, max: int, n: int) returns (r: real)
    requires min <= n <= max
    ensures 0.0 <= r < 1.0 && (r * (max - min + 1) as real).Floor + min == n
  {
    var size := max - min + 1;
    r := (n - min) as real / size as real;
    assert r * size as real == (n - min) as real;
  }

  // ---- the shuffle ----

  function Swap<T>(s: seq<T>, i: nat, j: nat): (t: seq<T>)
    requires i < |s| && j < |s|
    ensures |t| == |s|
  {
    s[i := s[j]][j := s[i]]
  }

  lemma SwapKeepsElements<T>(s: seq<T>, i: nat, j: nat)
    requires i < |s| && j < |s|
    ensures multiset(Swap(s, i, j)) == multiset(s)
  {}

  lemma LastAndRest<T>(s: seq<T>)
    requires s != []
    ensures multiset(s) == multiset(s[..|s| - 1]) + multiset{s[|s| - 1]}
  {
    assert s == s[..|s| - 1] + [s[|s| - 1]];
  }

  /** One index for every length n down from |s|, each below its n. */
  predicate Choices(choices: seq<nat>, n: nat) {
    |choices| == n && forall k | 0 <= k < n :: choices[k] < n - k
  }

  /** The shuffle as a function of its choices: the last place takes a chosen element, the rest is shuffled. */
  function Shuffled<T>(s: seq<T>, choices: seq<nat>): (t: seq<T>)
    requires Choices(choices, |s|)
    ensures |t| == |s|
    decreases |s|
  {
    if s == [] then []
    else
      var n := |s| - 1;
      var swapped := Swap(s, n, choices[0]);
      Shuffled(swapped[..n], choices[1..]) + [swapped[n]]
  }

  lemma {:induction false} ShuffledIsAPermutation<T>(s: seq<T>, choices: seq<nat>)
    requires Choices(choices, |s|)
    ensures multiset(Shuffled(s, choices)) == multiset(s)
    decreases |s|
  {
    if s != [] {
      var n := |s| - 1;
      var swapped := Swap(s, n, choices[0]);
      ShuffledIsAPermutation(swapped[..n], choices[1..]);
      LastAndRest(swapped);
      SwapKeepsElements(s, n, choices[0]);
    }
  }

  lemma SameButLast<T>(s: seq<T>, t: seq<T>)
    requires multiset(s) == multiset(t) && s != [] && t != [] && s[|s| - 1] == t[|t| - 1]
    ensures multiset(s[..|s| - 1]) == multiset(t[..|t| - 1])
  {
    LastAndRest(s);
    LastAndRest(t);
    assert multiset(s[..|s| - 1]) == multiset(s) - multiset{s[|s| - 1]};
    assert multiset(t[..|t| - 1]) == multiset(t) - multiset{t[|t| - 1]};
  }

  lemma SameLength<T>(s: seq<T>, t: seq<T>)
    requires multiset(s) == multiset(t)
    ensures |s| == |t|
  {
    assert |s| == |multiset(s)| && |t| == |multiset(t)|;
  }

  lemma Occurs<T>(s: seq<T>, target: seq<T>) returns (j: nat)
    requires multiset(target) == multiset(s) && target != []
    ensures j < |s| && s[j] == target[|target| - 1]
  {
    assert target[|target| - 1] in multiset(s);
    j :| j < |s| && s[j] == target[|target| - 1];
  }

  /** Every order of the elements comes from some choices. */
  lemma {:induction false} EveryOrderIsReachable<T>(s: seq<T>, target: seq<T>) returns (choices: seq<nat>)
    requires multiset(target) == multiset(s)
    ensures Choices(choices, |s|) && Shuffled(s, choices) == target
    decreases |s|
  {
    SameLength(s, target);
    if s == [] { return []; }
    var n := |s| - 1;
    var j := Occurs(s, target);
    var swapped := Swap(s, n, j);
    SwapKeepsElements(s, n, j);
    SameButLast(swapped, target);
    hide Shuffled;
    var rest := EveryOrderIsReachable(swapped[..n], target[..n]);
    FirstChoice(s, j, rest);
    assert target == target[..n] + [target[n]];
    return [j] + rest;
  }

  lemma FirstChoice<T>(s: seq<T>, j: nat, rest: seq<nat>)
    requires j < |s| && Choices(rest, |s| - 1)
    ensures Choices([j] + rest, |s|)
    ensures var swapped := Swap(s, |s| - 1, j);
      Shuffled(s, [j] + rest) == Shuffled(swapped[..|s| - 1], rest) + [s[j]]
  {
    assert ([j] + rest)[1..] == rest;
  }

  lemma ByFirstChoice<T>(s: seq<T>, choices: seq<nat>)
    requires s != [] && Choices(choices, |s|)
    ensures choices[0] < |s| && Choices(choices[1..], |s| - 1)
    ensures var swapped := Swap(s, |s| - 1, choices[0]);
      Shuffled(s, choices) == Shuffled(swapped[..|s| - 1], choices[1..]) + [s[choices[0]]]
  {
    hide Shuffled;
    assert choices == [choices[0]] + choices[1..];
    FirstChoice(s, choices[0], choices[1..]);
  }

  predicate AllDiffer<T(==)>(s: seq<T>) {
    forall j, k | 0 <= j < k < |s| :: s[j] != s[k]
  }

  lemma SwapKeepsDiffering<T>(s: seq<T>, j: nat)
    requires AllDiffer(s) && j < |s|
    ensures AllDiffer(Swap(s, |s| - 1, j)[..|s| - 1])
  {}

  /** From exactly one, if the elements differ: no order is favoured. */
  lemma {:induction false} OneWayToEveryOrder<T>(s: seq<T>, a: seq<nat>, b: seq<nat>)
    requires AllDiffer(s)
    requires Choices(a, |s|) && Choices(b, |s|) && Shuffled(s, a) == Shuffled(s, b)
    ensures a == b
    decreases |s|
  {
    if s != [] {
      ByFirstChoice(s, a);
      ByFirstChoice(s, b);
      hide Shuffled;
      var n := |s| - 1;
      var x := Shuffled(Swap(s, n, a[0])[..n], a[1..]);
      var y := Shuffled(Swap(s, n, b[0])[..n], b[1..]);
      assert (x + [s[a[0]]])[n] == (y + [s[b[0]]])[n];
      assert a[0] == b[0];
      assert (x + [s[a[0]]])[..n] == x && (y + [s[b[0]]])[..n] == y;
      SwapKeepsDiffering(s, a[0]);
      OneWayToEveryOrder(Swap(s, n, a[0])[..n], a[1..], b[1..]);
      assert a == [a[0]] + a[1..] && b == [b[0]] + b[1..];
    }
  }

  /** What is left to shuffle after some choices, and what is already in place. */
  ghost predicate ShuffledSoFar<T>(start: seq<T>, choices: seq<nat>, now: seq<T>, left: nat) {
    && |now| == |start| == |choices| + left
    && (forall k | 0 <= k < |choices| :: choices[k] < |start| - k)
    && forall rest | Choices(rest, left) ::
         Choices(choices + rest, |start|)
         && Shuffled(start, choices + rest) == Shuffled(now[..left], rest) + now[left..]
  }

  lemma ShuffleStep<T>(start: seq<T>, choices: seq<nat>, now: seq<T>, left: nat, j: nat)
    requires ShuffledSoFar(start, choices, now, left) && j < left
    ensures ShuffledSoFar(start, choices + [j], Swap(now, left - 1, j), left - 1)
  {
    var next := Swap(now, left - 1, j);
    hide Shuffled;
    forall rest | Choices(rest, left - 1)
      ensures Choices(choices + [j] + rest, |start|)
      ensures Shuffled(start, choices + [j] + rest) == Shuffled(next[..left - 1], rest) + next[left - 1..]
    {
      assert choices + [j] + rest == choices + ([j] + rest);
      FirstChoice(now[..left], j, rest);
      SwapParts(now, left, j);
    }
  }

  lemma SwapParts<T>(now: seq<T>, left: nat, j: nat)
    requires j < left <= |now|
    ensures var next := Swap(now, left - 1, j);
      && Swap(now[..left], left - 1, j)[..left - 1] == next[..left - 1]
      && next[left - 1..] == [now[j]] + now[left..]
  {}

  /** Shuffles in place, from the end; the choices it draws determine the order. */
  method Shuffle<T>(items: array<T>, random: Generator) returns (choices: seq<nat>)
    requires random.Valid()
    modifies items, random
    ensures random.Valid()
    ensures Choices(choices, items.Length) && items[..] == Shuffled(old(items[..]), choices)
    ensures multiset(items[..]) == multiset(old(items[..]))
  {
    hide Fraction, Mix;
    var currentIndex := items.Length;
    choices := [];
    ghost var start := items[..];
    NothingChosen(start);
    while currentIndex != 0
      invariant 0 <= currentIndex <= items.Length && random.Valid()
      invariant ShuffledSoFar(start, choices, items[..], currentIndex)
    {
      var r := random.Next();
      ScaledFloor(r, currentIndex);
      var randomIndex := (r * currentIndex as real).Floor;
      currentIndex := currentIndex - 1;
      ShuffleStep(start, choices, items[..], currentIndex + 1, randomIndex);
      hide ShuffledSoFar;
      ghost var before := items[..];
      items[currentIndex], items[randomIndex] := items[randomIndex], items[currentIndex];
      assert items[..] == Swap(before, currentIndex, randomIndex);
      choices := choices + [randomIndex];
    }
    AllChosen(start, choices, items[..]);
    ShuffledIsAPermutation(start, choices);
  }

  lemma NothingChosen<T>(s: seq<T>)
    ensures ShuffledSoFar(s, [], s, |s|)
  {
    forall rest | Choices(rest, |s|)
      ensures Choices([] + rest, |s|) && Shuffled(s, [] + rest) == Shuffled(s[..|s|], rest) + s[|s|..]
    {
      assert [] + rest == rest && s[..|s|] == s;
    }
  }

  lemma AllChosen<T>(start: seq<T>, choices: seq<nat>, now: seq<T>)
    requires ShuffledSoFar(start, choices, now, 0)
    ensures Choices(choices, |start|) && now == Shuffled(start, choices)
  {
    assert Shuffled<T>([], []) == [];
    hide Shuffled;
    assert Choices([], 0) && choices + [] == choices && now[..0] == [] && now[0..] == now;
  }

  // ---- the dataset ----

  datatype Scenario = InsufficientFundsCase | BankTimeoutCase | CardExpiredCase | DoNotHonorCase | InvalidCvvCase | FraudCase

  const SCENARIOS := [InsufficientFundsCase, BankTimeoutCase, CardExpiredCase, DoNotHonorCase, InvalidCvvCase, FraudCase]

  function ScenarioCount(s: Scenario): nat {
    match s
    case InsufficientFundsCase => 205
    case BankTimeoutCase => 94
    case CardExpiredCase => 71
    case DoNotHonorCase => 54
    case InvalidCvvCase => 53
    case FraudCase => 23
  }

  datatype Truth = Truth(
    recoverable: bool,
    expectedRecovery: int,
    minimumAttempts: nat,
    maximumAttempts: nat,
    providerScenario: ProviderScenario,
    expectedEscalation: bool,
    expectedStop: bool)

  datatype GeneratedCase = GeneratedCase(index: nat, scenario: Scenario, amountMinor: int, truth: Truth)

  /** What each scenario promises: who can be recovered, how the provider answers, how the case is expected to end. */
  predicate AsPromised(c: GeneratedCase) {
    var t, s := c.truth, c.scenario;
    && t.maximumAttempts == 3
    && (t.recoverable <==> s in {BankTimeoutCase, CardExpiredCase, InvalidCvvCase})
    && (t.expectedEscalation <==> s.DoNotHonorCase?)
    && (t.providerScenario in {Success, TimeoutOnceThenSuccess} <==> s.BankTimeoutCase?)
    && (t.providerScenario.PaymentLinkPaidAfterEvent? <==> s in {CardExpiredCase, InvalidCvvCase})
    && (t.providerScenario.PermanentFailure? <==> s in {InsufficientFundsCase, DoNotHonorCase, FraudCase})
    && t.minimumAttempts == (if t.providerScenario.TimeoutOnceThenSuccess? then 2 else 1)
  }

  /** What a case promises: what its scenario does, and besides that only a case that is not expected to stop is
      recoverable, and then for its whole amount, within its attempts. */
  predicate Sound(c: GeneratedCase) {
    && 10_000 <= c.amountMinor <= 500_000 && AsPromised(c)
    && (c.truth.recoverable <==> !c.truth.expectedStop)
    && c.truth.expectedRecovery == (if c.truth.recoverable then c.amountMinor else 0)
    && (c.truth.expectedEscalation ==> c.truth.expectedStop)
    && 1 <= c.truth.minimumAttempts <= c.truth.maximumAttempts
    && (c.truth.recoverable <==> exists k: nat :: k < c.truth.maximumAttempts && Succeeds(c.truth.providerScenario, k))
    && (c.truth.recoverable ==>
          && Succeeds(c.truth.providerScenario, c.truth.minimumAttempts - 1)
          && forall k: nat | k < c.truth.minimumAttempts - 1 :: !Succeeds(c.truth.providerScenario, k))
  }

  method GenerateGroundTruth(scenario: Scenario, amountMinor: int, random: Generator) returns (t: Truth)
    requires random.Valid() && 10_000 <= amountMinor <= 500_000
    modifies random
    ensures random.Valid()
    ensures forall index: nat :: Sound(GeneratedCase(index, scenario, amountMinor, t))
  {
    hide Fraction, Mix;
    t := Truth(false, 0, 1, 3, PermanentFailure, false, false);
    match scenario {
      case InsufficientFundsCase =>
        t := t.(expectedStop := true);
      case BankTimeoutCase =>
        var r := random.Next();
        var provider := if r > 0.5 then Success else TimeoutOnceThenSuccess;
        t := t.(recoverable := true, expectedRecovery := amountMinor, providerScenario := provider,
                minimumAttempts := if provider.Success? then 1 else 2);
      case CardExpiredCase =>
        t := t.(recoverable := true, expectedRecovery := amountMinor, providerScenario := PaymentLinkPaidAfterEvent);
      case DoNotHonorCase =>
        t := t.(expectedEscalation := true, expectedStop := true);
      case InvalidCvvCase =>
        t := t.(recoverable := true, expectedRecovery := amountMinor, providerScenario := PaymentLinkPaidAfterEvent);
      case FraudCase =>
        t := t.(expectedStop := true);
    }
    assert t.recoverable ==> Succeeds(t.providerScenario, t.minimumAttempts - 1);
  }

  method GenerateCase(index: nat, scenario: Scenario, random: Generator) returns (c: GeneratedCase)
    requires random.Valid()
    modifies random
    ensures random.Valid() && c.index == index && c.scenario == scenario && Sound(c)
  {
    var amountMinor := random.RandomInt(10_000, 500_000);
    var eventSuffix := random.RandomInt(1_000, 9_999);
    var customer := random.RandomInt(10_000, 99_999);
    var age := random.RandomInt(0, 10_000_000);
    var truth := GenerateGroundTruth(scenario, amountMinor, random);
    c := GeneratedCase(index, scenario, amountMinor, truth);
  }

  function CountOf(cases: seq<GeneratedCase>, s: Scenario): nat {
    if cases == [] then 0
    else CountOf(cases[..|cases| - 1], s) + if cases[|cases| - 1].scenario == s then 1 else 0
  }

  lemma {:induction false} CountsAdd(a: seq<GeneratedCase>, b: seq<GeneratedCase>, s: Scenario)
    ensures CountOf(a + b, s) == CountOf(a, s) + CountOf(b, s)
    decreases |b|
  {
    if b == [] {
      assert a + b == a;
    } else {
      assert (a + b)[..|a + b| - 1] == a + b[..|b| - 1];
      CountsAdd(a, b[..|b| - 1], s);
    }
  }

  function Dropped<T>(a: seq<T>, j: nat): seq<T>
    requires j < |a|
  {
    a[..j] + a[j + 1..]
  }

  lemma DroppedElements<T>(a: seq<T>, j: nat)
    requires j < |a|
    ensures multiset(a) == multiset(Dropped(a, j)) + multiset{a[j]}
  {
    assert a == a[..j] + [a[j]] + a[j + 1..];
  }

  lemma DroppedCount(a: seq<GeneratedCase>, j: nat, s: Scenario)
    requires j < |a|
    ensures CountOf(a, s) == CountOf(Dropped(a, j), s) + if a[j].scenario == s then 1 else 0
  {
    assert a == a[..j] + [a[j]] + a[j + 1..];
    CountsAdd(a[..j], a[j + 1..], s);
    CountsAdd(a[..j] + [a[j]], a[j + 1..], s);
    CountsAdd(a[..j], [a[j]], s);
    assert CountOf([a[j]], s) == CountOf([], s) + if a[j].scenario == s then 1 else 0;
  }

  lemma SameWithoutOne<T>(a: seq<T>, j: nat, b: seq<T>)
    requires j < |a| && b != [] && a[j] == b[|b| - 1] && multiset(a) == multiset(b)
    ensures multiset(Dropped(a, j)) == multiset(b[..|b| - 1])
  {
    DroppedElements(a, j);
    LastAndRest(b);
    hide Dropped;
    assert multiset(Dropped(a, j)) == multiset(a) - multiset{a[j]};
    assert multiset(b[..|b| - 1]) == multiset(b) - multiset{a[j]};
  }

  /** Counts depend on the elements, not on their order. */
  lemma {:induction false} CountsIgnoreOrder(a: seq<GeneratedCase>, b: seq<GeneratedCase>, s: Scenario)
    requires multiset(a) == multiset(b)
    ensures CountOf(a, s) == CountOf(b, s)
    decreases |b|
  {
    SameLength(a, b);
    if b != [] {
      hide Dropped;
      var j := Occurs(a, b);
      SameWithoutOne(a, j, b);
      DroppedCount(a, j, s);
      CountsIgnoreOrder(Dropped(a, j), b[..|b| - 1], s);
    }
  }

  function Earlier(k: nat): nat
    requires k <= |SCENARIOS|
  {
    if k == 0 then 0 else Earlier(k - 1) + ScenarioCount(SCENARIOS[k - 1])
  }

  lemma FiveHundred()
    ensures Earlier(6) == 500
  {
    assert Earlier(1) == 205 && Earlier(2) == 299 && Earlier(3) == 370 && Earlier(4) == 424 && Earlier(5) == 477;
  }

  /** The scenarios before number k are complete, the later ones are not begun. */
  ghost predicate CountedUpTo(cases: seq<GeneratedCase>, k: nat, extra: nat) {
    && k <= |SCENARIOS|
    && forall i | 0 <= i < |SCENARIOS| ::
         CountOf(cases, SCENARIOS[i]) == if i < k then ScenarioCount(SCENARIOS[i]) else if i == k then extra else 0
  }

  lemma OneMoreCase(cases: seq<GeneratedCase>, c: GeneratedCase, k: nat, extra: nat)
    requires CountedUpTo(cases, k, extra) && k < |SCENARIOS| && c.scenario == SCENARIOS[k]
    ensures CountedUpTo(cases + [c], k, extra + 1)
  {
    assert (cases + [c])[..|cases|] == cases;
    assert forall i, j | 0 <= i < j < |SCENARIOS| :: SCENARIOS[i] != SCENARIOS[j];
  }

  method GenerateAll(random: Generator) returns (all: seq<GeneratedCase>)
    requires random.Valid()
    modifies random
    ensures random.Valid() && |all| == 500
    ensures forall i | 0 <= i < |all| :: all[i].index == i && Sound(all[i])
    ensures forall s :: CountOf(all, s) == ScenarioCount(s)
  {
    hide Sound;
    all := [];
    var globalIndex := 0;
    for k := 0 to |SCENARIOS|
      invariant random.Valid() && globalIndex == |all| == Earlier(k)
      invariant forall i | 0 <= i < |all| :: all[i].index == i && Sound(all[i])
      invariant CountedUpTo(all, k, 0)
    {
      for n := 0 to ScenarioCount(SCENARIOS[k])
        invariant random.Valid() && globalIndex == |all| == Earlier(k) + n
        invariant forall i | 0 <= i < |all| :: all[i].index == i && Sound(all[i])
        invariant CountedUpTo(all, k, n)
      {
        hide CountedUpTo;
        var c := GenerateCase(globalIndex, SCENARIOS[k], random);
        globalIndex := globalIndex + 1;
        OneMoreCase(all, c, k, n);
        all := all + [c];
      }
    }
    FiveHundred();
    forall s: Scenario ensures CountOf(all, s) == ScenarioCount(s) {
      var i := match s
        case InsufficientFundsCase => 0 case BankTimeoutCase => 1 case CardExpiredCase => 2
        case DoNotHonorCase => 3 case InvalidCvvCase => 4 case FraudCase => 5;
      assert SCENARIOS[i] == s;
    }
  }

  const TRAIN := 165
  const VALIDATION := 165

  /** The three splits share out the generated cases: every case is in exactly one place of one split, and the counts
      of every scenario add up. */
  method GenerateDataset(random: Generator)
    returns (train: seq<GeneratedCase>, validation: seq<GeneratedCase>, heldout: seq<GeneratedCase>)
    requires random.Valid()
    modifies random
    ensures |train| == 165 && |validation| == 165 && |heldout| == 170
    ensures EachOnce(train + validation + heldout, 500)
    ensures forall c | c in train + validation + heldout :: Sound(c)
    ensures forall s :: CountOf(train, s) + CountOf(validation, s) + CountOf(heldout, s) == ScenarioCount(s)
  {
    hide Sound, Generator.Valid;
    var all := GenerateAll(random);
    var items := new GeneratedCase[|all|](i requires 0 <= i < |all| => all[i]);
    assert items[..] == all;
    var choices := Shuffle(items, random);
    var shuffled := items[..];
    train, validation, heldout := shuffled[..TRAIN], shuffled[TRAIN..TRAIN + VALIDATION], shuffled[TRAIN + VALIDATION..];
    assert train + validation + heldout == shuffled;
    Shared(all, shuffled);
    forall s ensures CountOf(train, s) + CountOf(validation, s) + CountOf(heldout, s) == ScenarioCount(s) {
      CountsAdd(train, validation, s);
      CountsAdd(train + validation, heldout, s);
      CountsIgnoreOrder(shuffled, all, s);
    }
  }

  lemma {:induction false} OnlyOnce(all: seq<GeneratedCase>, i: nat)
    requires forall k | 0 <= k < |all| :: all[k].index == k
    requires i < |all|
    ensures multiset(all)[all[i]] == 1
  {
    var before, after := all[..i], all[i + 1..];
    assert all == before + [all[i]] + after;
    assert all[i] !in before && all[i] !in after;
  }

  /** The numbers below n, each carried by one case. */
  ghost predicate EachOnce(cases: seq<GeneratedCase>, n: nat) {
    && |cases| == n
    && (forall k | 0 <= k < n :: cases[k].index < n)
    && (forall j, k | 0 <= j < k < n :: cases[j].index != cases[k].index)
  }

  /** Elements, multiplicities and soundness survive the shuffle. */
  lemma Shared(all: seq<GeneratedCase>, shuffled: seq<GeneratedCase>)
    requires forall k | 0 <= k < |all| :: all[k].index == k && Sound(all[k])
    requires multiset(shuffled) == multiset(all)
    ensures EachOnce(shuffled, |all|)
    ensures forall c | c in shuffled :: Sound(c)
  {
    hide Sound;
    SameLength(shuffled, all);
    forall k | 0 <= k < |shuffled| ensures shuffled[k] in all { assert shuffled[k] in multiset(all); }
    forall j, k | 0 <= j < k < |shuffled| ensures shuffled[j].index != shuffled[k].index {
      assert shuffled[j] in all && shuffled[k] in all;
      if shuffled[j].index == shuffled[k].index {
        OnlyOnce(all, shuffled[j].index);
        Twice(shuffled, j, k);
        assert false;
      }
    }
  }

  lemma Twice(s: seq<GeneratedCase>, j: nat, k: nat)
    requires j < k < |s| && s[j] == s[k]
    ensures multiset(s)[s[j]] >= 2
  {
    assert s == s[..k] + [s[k]] + s[k + 1..];
    assert s[j] in s[..k];
  }
}
