/** The idempotency keys as text: which of them can be told apart. */
module Keys {
  import opened Contracts
  import opened Text
  import opened Planning

  /** The key of an intervention, built by the worker: three fields joined by hyphens. */
  function InterventionKeyText(planId: string, t: InterventionType, attempt: nat): string {
    planId + "-" + TypeName(t) + "-" + Number(attempt)
  }

  lemma {:induction false} DecimalHasOnlyDigits(n: nat)
    ensures forall c | c in Decimal(n) :: '0' <= c <= '9'
    ensures Decimal(n) != []
  {
    if n >= 10 { DecimalHasOnlyDigits(n / 10); }
  }

  lemma {:induction false} DecimalIsInjective(n: nat, m: nat)
    requires Decimal(n) == Decimal(m)
    ensures n == m
  {
    DecimalHasOnlyDigits(n / 10);
    DecimalHasOnlyDigits(m / 10);
    var a, b := Decimal(n), Decimal(m);
    if n >= 10 && m >= 10 {
      assert a[..|a| - 1] == Decimal(n / 10) && b[..|b| - 1] == Decimal(m / 10);
      DecimalIsInjective(n / 10, m / 10);
      assert a[|a| - 1] == Digit(n % 10) && b[|b| - 1] == Digit(m % 10);
    }
  }

  lemma ShorterTail(x: string, a: string, y: string, b: string, separator: char)
    requires x + [separator] + a == y + [separator] + b
    ensures |a| < |b| ==> separator in b
  {
    if |a| < |b| {
      assert (x + [separator] + a)[|x|] == separator;
      assert (y + [separator] + b)[|x|] == b[|x| - |y| - 1];
    }
  }

  /** A text is split uniquely at the last separator. */
  lemma SplitAtLast(x: string, a: string, y: string, b: string, separator: char)
    requires x + [separator] + a == y + [separator] + b
    requires separator !in a && separator !in b
    ensures x == y && a == b
  {
    ShorterTail(x, a, y, b, separator);
    ShorterTail(y, b, x, a, separator);
    assert |a| == |b|;
    assert (x + [separator] + a)[..|x|] == x && (y + [separator] + b)[..|y|] == y;
    assert (x + [separator] + a)[|x| + 1..] == a && (y + [separator] + b)[|y| + 1..] == b;
  }

  lemma TypeNames(t: InterventionType, u: InterventionType)
    ensures '-' !in TypeName(t)
    ensures TypeName(t) == TypeName(u) ==> t == u
  {
    var a, b := TypeName(t), TypeName(u);
    if a == b {
      assert a[0] == b[0] && a[|a| - 1] == b[|b| - 1];
    }
  }

  /** Interventions have distinct keys unless plan, type and attempt all agree, whatever the plan identifiers
      contain. */
  lemma InterventionKeysDiffer(p: string, t: InterventionType, n: nat, q: string, u: InterventionType, m: nat)
    ensures InterventionKeyText(p, t, n) == InterventionKeyText(q, u, m) <==> p == q && t == u && n == m
  {
    if InterventionKeyText(p, t, n) == InterventionKeyText(q, u, m) {
      DecimalHasOnlyDigits(n);
      DecimalHasOnlyDigits(m);
      SplitAtLast(p + "-" + TypeName(t), Number(n), q + "-" + TypeName(u), Number(m), '-');
      TypeNames(t, u);
      TypeNames(u, t);
      SplitAtLast(p, TypeName(t), q, TypeName(u), '-');
      DecimalIsInjective(n, m);
    }
  }

  lemma FromTheEnd(x: string, t: string, k: nat)
    requires 0 < k <= |t|
    ensures (x + "_" + t)[|x + "_" + t| - k] == t[|t| - k]
  {}

  /** Three characters, counted from the end, tell the names apart. */
  function Fingerprint(t: InterventionType): (char, char, char) {
    match t
    case PaymentRetry => ('Y', 'R', ' ')
    case PaymentLink => ('K', '_', ' ')
    case EmailReminder => ('R', 'I', 'L')
    case SmsReminder => ('R', 'I', 'S')
    case VoiceReminder => ('R', 'I', 'E')
    case HumanEscalation => ('N', 'A', ' ')
    case NoAction => ('N', 'C', ' ')
  }

  lemma NameEnds(t: InterventionType)
    ensures var name, f := TypeName(t), Fingerprint(t);
      && |name| >= 9 && name[|name| - 1] == f.0 && name[|name| - 5] == f.1
      && (IsReminder(t) ==> |name| >= 12 && name[|name| - 10] == f.2)
  {}

  lemma FingerprintsDiffer(t: InterventionType, u: InterventionType)
    requires Fingerprint(t) == Fingerprint(u)
    ensures t == u
  {}

  /** The type can be read off the end of a text, although its name contains the separator. */
  lemma TypeFromTheEnd(x: string, t: InterventionType, y: string, u: InterventionType)
    requires x + "_" + TypeName(t) == y + "_" + TypeName(u)
    ensures x == y && t == u
  {
    var a, b := TypeName(t), TypeName(u);
    NameEnds(t);
    NameEnds(u);
    hide TypeName;
    FromTheEnd(x, a, 1);
    FromTheEnd(y, b, 1);
    FromTheEnd(x, a, 5);
    FromTheEnd(y, b, 5);
    if IsReminder(t) && IsReminder(u) {
      FromTheEnd(x, a, 10);
      FromTheEnd(y, b, 10);
    }
    FingerprintsDiffer(t, u);
    assert (x + "_" + a)[..|x|] == x && (y + "_" + b)[..|y|] == y;
  }

  /** Two plans share a key exactly when type and attempt agree and the joined texts of case and policy version do. */
  lemma PlanKeysCollideExactly(c: string, v: string, t: InterventionType, n: nat,
    d: string, w: string, u: InterventionType, m: nat)
    ensures PlanKey(c, v, t, n) == PlanKey(d, w, u, m) <==> c + "_" + v == d + "_" + w && t == u && n == m
  {
    if PlanKey(c, v, t, n) == PlanKey(d, w, u, m) {
      DecimalHasOnlyDigits(n);
      DecimalHasOnlyDigits(m);
      SplitAtLast(c + "_" + v + "_" + TypeName(t), Number(n), d + "_" + w + "_" + TypeName(u), Number(m), '_');
      DecimalIsInjective(n, m);
      TypeFromTheEnd(c + "_" + v, t, d + "_" + w, u);
    }
  }

  /** Within one case, or under one policy version, plans have distinct keys. */
  lemma PlanKeysDifferWithinACase(c: string, v: string, t: InterventionType, n: nat,
    d: string, w: string, u: InterventionType, m: nat)
    requires (c == d || v == w) && PlanKey(c, v, t, n) == PlanKey(d, w, u, m)
    ensures c == d && v == w && t == u && n == m
  {
    PlanKeysCollideExactly(c, v, t, n, d, w, u, m);
    var s, r := c + "_" + v, d + "_" + w;
    assert |c| + |v| == |d| + |w|;
    assert s[..|c|] == c && r[..|d|] == d && s[|c| + 1..] == v && r[|d| + 1..] == w;
  }

  /** What generateId makes: a prefix, an underscore and sixteen random bytes in hexadecimal. */
  predicate IsGenerated(prefix: string, id: string) {
    && |id| == |prefix| + 33 && id[..|prefix| + 1] == prefix + "_"
    && forall k | |prefix| + 1 <= k < |id| :: '0' <= id[k] <= '9' || 'a' <= id[k] <= 'f'
  }

  /** So plan keys are unambiguous, although the separator also occurs in the identifiers and may occur in the policy
      version: all identifiers of cases have one length. */
  lemma PlanKeysDiffer(c: string, v: string, t: InterventionType, n: nat,
    d: string, w: string, u: InterventionType, m: nat)
    requires IsGenerated("case", c) && IsGenerated("case", d)
    ensures PlanKey(c, v, t, n) == PlanKey(d, w, u, m) <==> c == d && v == w && t == u && n == m
  {
    PlanKeysCollideExactly(c, v, t, n, d, w, u, m);
    var s, r := c + "_" + v, d + "_" + w;
    if s == r { assert s[..|c|] == c && r[..|d|] == d && s[|c| + 1..] == v && r[|d| + 1..] == w; }
  }
}
