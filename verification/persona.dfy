/** The seeded persona generators of backend/persona.py.

    Faker is modelled as a draw stream: `ints` and `texts` are the raw
    values a seeded Faker instance would produce, read at position `pos`,
    and every draw consumes one position. The model maps raw numbers into
    the ranges the source asks for, so the structural rules of each
    persona (counts, ranges, sort orders, sums, the risk rule) hold for
    every stream, which is every seed.

    Money amounts are integer cents (`round(x, 2)` of a float drawn in
    [lo, hi] is modelled as a whole number of cents in [100 lo, 100 hi]).
    Dates that are compared are whole days relative to today (negative is
    past): ISO dates order as their strings do, so sorting by the day
    number is sorting by the `isoformat()` string. Dates that are only
    displayed are text draws. */
module Persona {
  import opened Strings
  import opened Sorting

  /** A seeded Faker instance: raw number and text streams and a cursor. */
  datatype Faker = Faker(ints: nat -> nat, texts: nat -> string, pos: nat)

  /** A drawn value and the instance after the draw. */
  datatype Draw<T> = Draw(value: T, rest: Faker)

  function Advance(f: Faker): (g: Faker)
    ensures g.pos == f.pos + 1
  {
    f.(pos := f.pos + 1)
  }

  /** `fake.pyint(min_value=lo, max_value=hi)` and `fake.random_int(lo, hi)`. */
  function PyInt(f: Faker, lo: int, hi: int): (d: Draw<int>)
    requires lo <= hi
    ensures lo <= d.value <= hi
    ensures d.rest.pos == f.pos + 1
  {
    Draw(lo + f.ints(f.pos) % (hi - lo + 1), Advance(f))
  }

  /** Every value of the range is drawn by some stream. */
  lemma PyIntOnto(f: Faker, lo: int, hi: int, v: int)
    requires lo <= v <= hi
    ensures PyInt(f.(ints := _ => (v - lo) as nat), lo, hi).value == v
  {
  }

  function PyBool(f: Faker): Draw<bool> {
    Draw(f.ints(f.pos) % 2 == 0, Advance(f))
  }

  /** `round(fake.pyfloat(min_value=lo, max_value=hi), 2)`, in cents. */
  function Cents(f: Faker, lo: int, hi: int): (d: Draw<int>)
    requires lo <= hi
    ensures 100 * lo <= d.value <= 100 * hi
  {
    PyInt(f, 100 * lo, 100 * hi)
  }

  /** `fake.random_element(xs)` */
  function RandomElement<T>(f: Faker, xs: seq<T>): (d: Draw<T>)
    requires |xs| > 0
    ensures d.value in xs
  {
    Draw(xs[f.ints(f.pos) % |xs|], Advance(f))
  }

  /** A text draw: a name, company, city, or a date rendered for display. */
  function Text(f: Faker): Draw<string> {
    Draw(f.texts(f.pos), Advance(f))
  }

  predicate Distinct<T(==)>(xs: seq<T>) {
    forall i, j :: 0 <= i < j < |xs| ==> xs[i] != xs[j]
  }

  function Without<T>(xs: seq<T>, j: nat): (r: seq<T>)
    requires j < |xs|
    ensures |r| == |xs| - 1
  {
    xs[..j] + xs[j + 1..]
  }

  lemma WithoutFacts<T>(xs: seq<T>, j: nat)
    requires j < |xs|
    ensures forall x :: x in Without(xs, j) ==> x in xs
    ensures Distinct(xs) ==> Distinct(Without(xs, j)) && xs[j] !in Without(xs, j)
  {
    var r := Without(xs, j);
    assert forall k :: 0 <= k < |r| ==> r[k] == (if k < j then xs[k] else xs[k + 1]);
  }

  /** `fake.random_elements(elements=xs, length=k, unique=True)`: `k`
      elements drawn without replacement. */
  function Sample<T(==)>(f: Faker, xs: seq<T>, k: nat): (d: Draw<seq<T>>)
    requires k <= |xs|
    ensures |d.value| == k
    ensures forall i :: 0 <= i < k ==> d.value[i] in xs
    ensures Distinct(xs) ==> Distinct(d.value)
    decreases k
  {
    if k == 0 then Draw([], f)
    else
      var j := f.ints(f.pos) % |xs|;
      var rest := Sample(Advance(f), Without(xs, j), k - 1);
      WithoutFacts(xs, j);
      Draw([xs[j]] + rest.value, rest.rest)
  }

  /** A letter of `string.ascii_letters`, as `bothify` draws for `?`. */
  function LetterChar(k: nat): (c: char)
    requires k < 52
    ensures IsLetter(c)
  {
    if k < 26 then ('a' as int + k) as char else ('A' as int + k - 26) as char
  }

  /** The character `bothify` puts for one pattern character, given a raw
      draw. */
  function BothifyChar(c: char, raw: nat): char {
    if c == '#' then DigitChar(raw % 10)
    else if c == '?' then LetterChar(raw % 52)
    else c
  }

  /** `fake.bothify(pattern)`: each `#` becomes a digit, each `?` a letter,
      everything else is kept. Each pattern position reads one draw. */
  function Bothify(f: Faker, pattern: string): (d: Draw<string>)
    ensures |d.value| == |pattern|
    ensures forall i :: 0 <= i < |pattern| ==>
      if pattern[i] == '#' then IsDigit(d.value[i])
      else if pattern[i] == '?' then IsLetter(d.value[i])
      else d.value[i] == pattern[i]
  {
    var s := seq(|pattern|, i requires 0 <= i < |pattern| => BothifyChar(pattern[i], f.ints(f.pos + i)));
    Draw(s, f.(pos := f.pos + |pattern|))
  }

  /** `fake.bothify(pattern).upper()` for a pattern whose fixed characters
      are upper-case letters, digits or '-'. */
  function Identifier(f: Faker, pattern: string): (d: Draw<string>)
    ensures |d.value| == |pattern|
    ensures forall i :: 0 <= i < |pattern| ==>
      if pattern[i] == '#' then IsDigit(d.value[i])
      else if pattern[i] == '?' then IsUpper(d.value[i])
      else d.value[i] == UpperChar(pattern[i])
  {
    var b := Bothify(f, pattern);
    Draw(Upper(b.value), b.rest)
  }

  const Owner := "Marco Casalaina"

  // ---------------------------------------------------------------------
  // Banking

  /** `date` is the day relative to today; `amount` is in cents. */
  datatype Transaction = Transaction(date: int, description: string, amount: int, category: string)

  datatype BankingPersona = BankingPersona(
    name: string,
    memberSince: string,
    checkingBalance: int,
    savingsBalance: int,
    accountNumberLast4: string,
    creditScore: int,
    creditLimit: int,
    recentTransactions: seq<Transaction>)

  /** A debit is a company payment of $5..$500; a credit is a deposit of
      $100..$3000; both in the last 30 days. */
  predicate ValidTransaction(t: Transaction) {
    -30 <= t.date <= 0
    && ((t.category == "debit" && 500 <= t.amount <= 50000)
        || (t.category == "credit" && 10000 <= t.amount <= 300000))
  }

  /** One transaction: the debit flag, the day, the text and the amount are
      drawn in that order. A debit is described by the company text as
      drawn, a credit by the title-cased catch phrase. */
  function DrawTransaction(f: Faker): (d: Draw<Transaction>)
    ensures ValidTransaction(d.value)
    ensures d.value.category == (if PyBool(f).value then "debit" else "credit")
    ensures d.value.category == "debit" <==> PyBool(f).value
    ensures d.value.description == (if PyBool(f).value then f.texts(f.pos + 2) else Title(f.texts(f.pos + 2)))
    ensures d.rest.pos == f.pos + 4
  {
    var isDebit := PyBool(f);
    var date := PyInt(isDebit.rest, -30, 0);
    var text := Text(date.rest);
    var description := if isDebit.value then text.value else Title(text.value);
    var amount := if isDebit.value then Cents(text.rest, 5, 500) else Cents(text.rest, 100, 3000);
    Draw(Transaction(date.value, description, amount.value, if isDebit.value then "debit" else "credit"),
      amount.rest)
  }

  function DrawTransactions(f: Faker, n: nat): (d: Draw<seq<Transaction>>)
    ensures |d.value| == n
    ensures forall i :: 0 <= i < n ==> ValidTransaction(d.value[i])
    decreases n
  {
    if n == 0 then Draw([], f)
    else
      var t := DrawTransaction(f);
      var rest := DrawTransactions(t.rest, n - 1);
      Draw([t.value] + rest.value, rest.rest)
  }

  predicate NewestFirst(ts: seq<Transaction>) {
    forall i, j :: 0 <= i < j < |ts| ==> ts[i].date >= ts[j].date
  }

  /** The sort key of newest-first order. */
  function Recency(t: Transaction): int {
    -t.date
  }

  /** `transactions.sort(key=lambda t: t.date, reverse=True)`. Python's sort
      is stable, also in reverse, so transactions of one date keep their
      drawn order. */
  function SortNewestFirst(ts: seq<Transaction>): (r: seq<Transaction>)
    ensures NewestFirst(r)
    ensures multiset(r) == multiset(ts)
    ensures forall k :: WithKey(r, Recency, k) == WithKey(ts, Recency, k)
  {
    SortByStableAll(ts, Recency);
    var r := SortBy(ts, Recency);
    assert forall i, j :: 0 <= i < j < |r| ==> -r[i].date <= -r[j].date;
    r
  }

  lemma SortedTransactionsValid(drawn: seq<Transaction>, sorted: seq<Transaction>)
    requires multiset(sorted) == multiset(drawn)
    requires forall i :: 0 <= i < |drawn| ==> ValidTransaction(drawn[i])
    ensures forall i :: 0 <= i < |sorted| ==> ValidTransaction(sorted[i])
  {
    forall i | 0 <= i < |sorted|
      ensures ValidTransaction(sorted[i])
    {
      assert sorted[i] in multiset(drawn);
    }
  }

  predicate ValidBanking(p: BankingPersona) {
    && p.name == Owner
    && 5 <= |p.recentTransactions| <= 10
    && (forall i :: 0 <= i < |p.recentTransactions| ==> ValidTransaction(p.recentTransactions[i]))
    && NewestFirst(p.recentTransactions)
    && 50000 <= p.checkingBalance <= 1500000
    && 100000 <= p.savingsBalance <= 5000000
    && |p.accountNumberLast4| == 4
    && (forall i :: 0 <= i < 4 ==> IsDigit(p.accountNumberLast4[i]))
    && 620 <= p.creditScore <= 820
    && 200000 <= p.creditLimit <= 2500000
  }

  /** generate_banking_persona */
  function GenerateBanking(f: Faker): (p: BankingPersona)
    ensures ValidBanking(p)
  {
    var n := PyInt(f, 5, 10);
    var drawn := DrawTransactions(n.rest, n.value);
    var sorted := SortNewestFirst(drawn.value);
    SortedTransactionsValid(drawn.value, sorted);
    var since := Text(drawn.rest);
    var checking := Cents(since.rest, 500, 15000);
    var savings := Cents(checking.rest, 1000, 50000);
    var last4 := Bothify(savings.rest, "####");
    var score := PyInt(last4.rest, 620, 820);
    var limit := Cents(score.rest, 2000, 25000);
    BankingPersona(Owner, since.value, checking.value, savings.value, last4.value,
      score.value, limit.value, sorted)
  }

  /** The sort keeps exactly the drawn transactions, and those of one date
      in their drawn order. */
  lemma BankingTransactionsAreDrawn(f: Faker)
    ensures var n := PyInt(f, 5, 10);
      var drawn := DrawTransactions(n.rest, n.value).value;
      var listed := GenerateBanking(f).recentTransactions;
      multiset(listed) == multiset(drawn)
      && forall k :: WithKey(listed, Recency, k) == WithKey(drawn, Recency, k)
  {
  }

  // ---------------------------------------------------------------------
  // Insurance

  const PolicyTypes: seq<string> := ["Auto", "Home", "Life", "Umbrella"]
  const ClaimTypes: seq<string> := ["Collision", "Property Damage", "Medical", "Theft", "Weather"]
  const ClaimStatuses: seq<string> := ["approved", "pending", "in_review", "denied"]

  /** `coverage` and `deductible` in dollars, `premium` in cents,
      `renewalDate` in days from today. `kind` is the source's `type`. */
  datatype Policy = Policy(kind: string, coverage: int, premium: int, deductible: int,
    policyNumber: string, renewalDate: int)

  datatype Claim = Claim(claimId: string, date: int, kind: string, amount: int, status: string)

  datatype InsurancePersona = InsurancePersona(
    name: string,
    memberSince: string,
    activePolicies: seq<Policy>,
    claimsHistory: seq<Claim>,
    totalCoverage: int,
    monthlyPremium: int,
    riskScore: string)

  /** The coverage and deductible rules of each policy type. */
  predicate ValidPolicy(p: Policy) {
    && (p.kind == "Auto" ==> 25000 <= p.coverage <= 100000 && p.deductible in {250, 500, 1000})
    && (p.kind == "Home" ==> 200000 <= p.coverage <= 750000 && p.deductible in {500, 1000, 2500})
    && (p.kind == "Life" ==> 100000 <= p.coverage <= 1000000 && p.deductible == 0)
    && (p.kind !in {"Auto", "Home", "Life"} ==> 1000000 <= p.coverage <= 5000000 && p.deductible == 0)
    && |p.policyNumber| == 13 && p.policyNumber[..4] == "POL-" && p.policyNumber[8] == '-'
    && 30 <= p.renewalDate <= 365
  }

  function PolicyNumber(f: Faker): (d: Draw<string>)
    ensures |d.value| == 13 && d.value[..4] == "POL-" && d.value[8] == '-'
  {
    var d := Identifier(f, "POL-####-????");
    assert d.value[..4] == "POL-" by {
      forall i | 0 <= i < 4 ensures d.value[i] == "POL-"[i] {
        assert "POL-####-????"[i] == "POL-"[i];
      }
    }
    assert "POL-####-????"[8] == '-';
    d
  }

  /** One policy of the given type: the `if/elif/else` chain of the loop. */
  function DrawPolicy(f: Faker, kind: string): (d: Draw<Policy>)
    ensures d.value.kind == kind && ValidPolicy(d.value)
  {
    var coverage :=
      if kind == "Auto" then PyInt(f, 25000, 100000)
      else if kind == "Home" then PyInt(f, 200000, 750000)
      else if kind == "Life" then PyInt(f, 100000, 1000000)
      else PyInt(f, 1000000, 5000000);
    var premium :=
      if kind == "Auto" then Cents(coverage.rest, 80, 250)
      else if kind == "Home" then Cents(coverage.rest, 100, 400)
      else if kind == "Life" then Cents(coverage.rest, 30, 150)
      else Cents(coverage.rest, 20, 80);
    var deductible :=
      if kind == "Auto" then RandomElement(premium.rest, [250, 500, 1000])
      else if kind == "Home" then RandomElement(premium.rest, [500, 1000, 2500])
      else Draw(0, premium.rest);
    var number := PolicyNumber(deductible.rest);
    var renewal := PyInt(number.rest, 30, 365);
    Draw(Policy(kind, coverage.value, premium.value, deductible.value, number.value, renewal.value),
      renewal.rest)
  }

  function SumCoverage(ps: seq<Policy>): int {
    if |ps| == 0 then 0 else ps[0].coverage + SumCoverage(ps[1..])
  }

  function SumPremium(ps: seq<Policy>): int {
    if |ps| == 0 then 0 else ps[0].premium + SumPremium(ps[1..])
  }

  /** The policies drawn so far and the running totals of the loop. */
  datatype PolicyRun = PolicyRun(policies: seq<Policy>, coverage: int, premium: int)

  /** The policy loop, accumulating `total_coverage` and `total_premium`. */
  function DrawPolicies(f: Faker, kinds: seq<string>, coverage: int, premium: int): (d: Draw<PolicyRun>)
    ensures |d.value.policies| == |kinds|
    ensures forall i :: 0 <= i < |kinds| ==>
      d.value.policies[i].kind == kinds[i] && ValidPolicy(d.value.policies[i])
    ensures d.value.coverage == coverage + SumCoverage(d.value.policies)
    ensures d.value.premium == premium + SumPremium(d.value.policies)
    decreases |kinds|
  {
    if |kinds| == 0 then Draw(PolicyRun([], coverage, premium), f)
    else
      var p := DrawPolicy(f, kinds[0]);
      var rest := DrawPolicies(p.rest, kinds[1..], coverage + p.value.coverage, premium + p.value.premium);
      var ps := [p.value] + rest.value.policies;
      assert ps[1..] == rest.value.policies;
      Draw(PolicyRun(ps, rest.value.coverage, rest.value.premium), rest.rest)
  }

  predicate ValidClaim(c: Claim) {
    && |c.claimId| == 12 && c.claimId[..4] == "CLM-"
    && -730 <= c.date <= -30
    && c.kind in ClaimTypes
    && 50000 <= c.amount <= 1500000
    && c.status in ClaimStatuses
  }

  function DrawClaim(f: Faker): (d: Draw<Claim>)
    ensures ValidClaim(d.value)
  {
    var id := Identifier(f, "CLM-########");
    assert id.value[..4] == "CLM-" by {
      forall i | 0 <= i < 4 ensures id.value[i] == "CLM-"[i] {
        assert "CLM-########"[i] == "CLM-"[i];
      }
    }
    var date := PyInt(id.rest, -730, -30);
    var kind := RandomElement(date.rest, ClaimTypes);
    var amount := Cents(kind.rest, 500, 15000);
    var status := RandomElement(amount.rest, ClaimStatuses);
    Draw(Claim(id.value, date.value, kind.value, amount.value, status.value), status.rest)
  }

  function DrawClaims(f: Faker, n: nat): (d: Draw<seq<Claim>>)
    ensures |d.value| == n
    ensures forall i :: 0 <= i < n ==> ValidClaim(d.value[i])
    decreases n
  {
    if n == 0 then Draw([], f)
    else
      var c := DrawClaim(f);
      var rest := DrawClaims(c.rest, n - 1);
      Draw([c.value] + rest.value, rest.rest)
  }

  /** The risk score follows the number of claims. */
  predicate RiskRule(claims: nat, risk: string) {
    && (claims == 0 ==> risk == "low")
    && (claims == 1 ==> risk in {"low", "medium"})
    && (claims >= 2 ==> risk in {"medium", "high"})
  }

  function DrawRisk(f: Faker, claims: nat): (d: Draw<string>)
    ensures RiskRule(claims, d.value)
  {
    if claims == 0 then Draw("low", f)
    else if claims == 1 then RandomElement(f, ["low", "medium"])
    else RandomElement(f, ["medium", "high"])
  }

  predicate ValidInsurance(p: InsurancePersona) {
    && p.name == Owner
    && 1 <= |p.activePolicies| <= 3
    && (forall i :: 0 <= i < |p.activePolicies| ==>
          p.activePolicies[i].kind in PolicyTypes && ValidPolicy(p.activePolicies[i]))
    && (forall i, j :: 0 <= i < j < |p.activePolicies| ==>
          p.activePolicies[i].kind != p.activePolicies[j].kind)
    && p.totalCoverage == SumCoverage(p.activePolicies)
    && p.monthlyPremium == SumPremium(p.activePolicies)
    && |p.claimsHistory| <= 2
    && (forall i :: 0 <= i < |p.claimsHistory| ==> ValidClaim(p.claimsHistory[i]))
    && RiskRule(|p.claimsHistory|, p.riskScore)
  }

  lemma PolicyTypesDistinct()
    ensures Distinct(PolicyTypes)
  {
  }

  /** Policies drawn for distinct types have distinct types. */
  lemma DistinctKinds(kinds: seq<string>, ps: seq<Policy>)
    requires Distinct(kinds) && |ps| == |kinds|
    requires forall i :: 0 <= i < |kinds| ==> ps[i].kind == kinds[i]
    ensures forall i, j :: 0 <= i < j < |ps| ==> ps[i].kind != ps[j].kind
  {
  }

  /** generate_insurance_persona */
  function GenerateInsurance(f: Faker): (p: InsurancePersona)
    ensures ValidInsurance(p)
  {
    var n := PyInt(f, 1, 3);
    var kinds := Sample(n.rest, PolicyTypes, n.value);
    PolicyTypesDistinct();
    var run := DrawPolicies(kinds.rest, kinds.value, 0, 0);
    DistinctKinds(kinds.value, run.value.policies);
    var claimCount := PyInt(run.rest, 0, 2);
    var claims := DrawClaims(claimCount.rest, claimCount.value);
    var risk := DrawRisk(claims.rest, claimCount.value);
    var since := Text(risk.rest);
    InsurancePersona(Owner, since.value, run.value.policies, claims.value,
      run.value.coverage, run.value.premium, risk.value)
  }

  /** A Life or Umbrella policy has no deductible. */
  lemma LifeAndUmbrellaHaveNoDeductible(f: Faker, i: nat)
    requires i < |GenerateInsurance(f).activePolicies|
    requires GenerateInsurance(f).activePolicies[i].kind in {"Life", "Umbrella"}
    ensures GenerateInsurance(f).activePolicies[i].deductible == 0
  {
  }

  // ---------------------------------------------------------------------
  // Healthcare

  const Specialties: seq<string> :=
    ["Primary Care", "Cardiology", "Dermatology", "Orthopedics", "Ophthalmology", "Dentistry"]
  const AppointmentTimes: seq<string> := ["9:00 AM", "10:30 AM", "1:00 PM", "2:30 PM", "4:00 PM"]
  const PlanNames: seq<string> := ["Gold PPO", "Silver HMO", "Bronze HDHP", "Platinum PPO"]
  const Deductibles: seq<int> := [500, 1000, 1500, 2500, 3000, 5000]
  const OutOfPocketMaxima: seq<int> := [3000, 5000, 6500, 8000]

  datatype Medication = Medication(name: string, dosage: string, frequency: string)

  const Medications: seq<Medication> := [
    Medication("Lisinopril", "10mg", "Once daily"),
    Medication("Metformin", "500mg", "Twice daily"),
    Medication("Atorvastatin", "20mg", "Once daily at bedtime"),
    Medication("Omeprazole", "20mg", "Once daily before breakfast"),
    Medication("Amlodipine", "5mg", "Once daily"),
    Medication("Levothyroxine", "50mcg", "Once daily on empty stomach"),
    Medication("Sertraline", "50mg", "Once daily"),
    Medication("Gabapentin", "300mg", "Three times daily")
  ]

  /** `date` in days from today. */
  datatype Appointment = Appointment(date: int, time: string, provider: string, specialty: string, location: string)

  datatype Prescription = Prescription(medication: string, dosage: string, frequency: string, refillsRemaining: int)

  /** `deductible` and `outOfPocketMax` in dollars; `deductibleMet` and
      `outOfPocketSpent` in cents. */
  datatype HealthcarePersona = HealthcarePersona(
    name: string,
    memberId: string,
    dateOfBirth: string,
    primaryCareProvider: string,
    planName: string,
    deductible: int,
    deductibleMet: int,
    outOfPocketMax: int,
    outOfPocketSpent: int,
    upcomingAppointments: seq<Appointment>,
    activePrescriptions: seq<Prescription>)

  predicate ValidAppointment(a: Appointment) {
    && 1 <= a.date <= 90
    && a.time in AppointmentTimes
    && a.specialty in Specialties
    && |a.provider| >= 4 && a.provider[..4] == "Dr. "
  }

  function DrawAppointment(f: Faker): (d: Draw<Appointment>)
    ensures ValidAppointment(d.value)
  {
    var specialty := RandomElement(f, Specialties);
    var date := PyInt(specialty.rest, 1, 90);
    var time := RandomElement(date.rest, AppointmentTimes);
    var doctor := Text(time.rest);
    var city := Text(doctor.rest);
    var provider := "Dr. " + doctor.value;
    assert provider[..4] == "Dr. ";
    Draw(Appointment(date.value, time.value, provider, specialty.value, city.value + " Medical Center"),
      city.rest)
  }

  function DrawAppointments(f: Faker, n: nat): (d: Draw<seq<Appointment>>)
    ensures |d.value| == n
    ensures forall i :: 0 <= i < n ==> ValidAppointment(d.value[i])
    decreases n
  {
    if n == 0 then Draw([], f)
    else
      var a := DrawAppointment(f);
      var rest := DrawAppointments(a.rest, n - 1);
      Draw([a.value] + rest.value, rest.rest)
  }

  predicate Soonest(xs: seq<Appointment>) {
    forall i, j :: 0 <= i < j < |xs| ==> xs[i].date <= xs[j].date
  }

  function AppointmentDate(a: Appointment): int {
    a.date
  }

  /** `appointments.sort(key=lambda a: a.date)`, stable: appointments on one
      day keep their drawn order. */
  function SortSoonestFirst(xs: seq<Appointment>): (r: seq<Appointment>)
    ensures Soonest(r)
    ensures multiset(r) == multiset(xs)
    ensures forall d :: WithKey(r, AppointmentDate, d) == WithKey(xs, AppointmentDate, d)
  {
    SortByStableAll(xs, AppointmentDate);
    SortBy(xs, AppointmentDate)
  }

  /** Two appointments on the same day stay in the order they were drawn. */
  lemma SameDayKeepsDrawOrder(x: Appointment, y: Appointment)
    requires x.date == y.date
    ensures SortSoonestFirst([x, y]) == [x, y]
  {
    assert [x, y][1..] == [y];
    assert SortBy([y], AppointmentDate) == [y];
    assert InsertBy(x, [y], AppointmentDate) == [x, y];
  }

  lemma SortedAppointmentsValid(drawn: seq<Appointment>, sorted: seq<Appointment>)
    requires multiset(sorted) == multiset(drawn)
    requires forall i :: 0 <= i < |drawn| ==> ValidAppointment(drawn[i])
    ensures forall i :: 0 <= i < |sorted| ==> ValidAppointment(sorted[i])
  {
    forall i | 0 <= i < |sorted|
      ensures ValidAppointment(sorted[i])
    {
      assert sorted[i] in multiset(drawn);
    }
  }

  /** One prescription per chosen medication, each with 0..5 refills. */
  function DrawPrescriptions(f: Faker, meds: seq<Medication>): (d: Draw<seq<Prescription>>)
    ensures |d.value| == |meds|
    ensures forall i :: 0 <= i < |meds| ==>
      && d.value[i].medication == meds[i].name
      && d.value[i].dosage == meds[i].dosage
      && d.value[i].frequency == meds[i].frequency
      && 0 <= d.value[i].refillsRemaining <= 5
    decreases |meds|
  {
    if |meds| == 0 then Draw([], f)
    else
      var refills := PyInt(f, 0, 5);
      var rest := DrawPrescriptions(refills.rest, meds[1..]);
      var m := meds[0];
      Draw([Prescription(m.name, m.dosage, m.frequency, refills.value)] + rest.value, rest.rest)
  }

  lemma MedicationNamesDistinct()
    ensures forall i, j :: 0 <= i < j < |Medications| ==> Medications[i].name != Medications[j].name
  {
  }

  predicate ValidHealthcare(p: HealthcarePersona) {
    && p.name == Owner
    && |p.upcomingAppointments| <= 2
    && (forall i :: 0 <= i < |p.upcomingAppointments| ==> ValidAppointment(p.upcomingAppointments[i]))
    && Soonest(p.upcomingAppointments)
    && 1 <= |p.activePrescriptions| <= 3
    && (forall i :: 0 <= i < |p.activePrescriptions| ==> 0 <= p.activePrescriptions[i].refillsRemaining <= 5)
    && (forall i, j :: 0 <= i < j < |p.activePrescriptions| ==>
          p.activePrescriptions[i].medication != p.activePrescriptions[j].medication)
    && p.planName in PlanNames
    && p.deductible in Deductibles
    && 0 <= p.deductibleMet <= 100 * p.deductible
    && p.outOfPocketMax in OutOfPocketMaxima
    && 0 <= p.outOfPocketSpent <= 60 * p.outOfPocketMax
    && |p.memberId| == 13 && p.memberId[..4] == "MBR-"
    && |p.primaryCareProvider| >= 4 && p.primaryCareProvider[..4] == "Dr. "
  }

  lemma MedicationsDistinct()
    ensures Distinct(Medications)
  {
    MedicationNamesDistinct();
  }

  /** The prescriptions' medications are distinct because the chosen
      medications are. */
  lemma DistinctPrescriptions(meds: seq<Medication>, ps: seq<Prescription>)
    requires Distinct(meds) && |ps| == |meds|
    requires forall i :: 0 <= i < |meds| ==> meds[i] in Medications && ps[i].medication == meds[i].name
    ensures forall i, j :: 0 <= i < j < |ps| ==> ps[i].medication != ps[j].medication
  {
    MedicationNamesDistinct();
    forall i, j | 0 <= i < j < |ps|
      ensures ps[i].medication != ps[j].medication
    {
      assert meds[i] != meds[j];
    }
  }

  /** A member id is "MBR-" and nine digits. */
  lemma MemberIdShape(f: Faker)
    ensures var id := Identifier(f, "MBR-#########").value;
      |id| == 13 && id[..4] == "MBR-" && forall i :: 4 <= i < 13 ==> IsDigit(id[i])
  {
    var id := Identifier(f, "MBR-#########").value;
    forall i | 0 <= i < 13
      ensures i < 4 ==> id[i] == "MBR-"[i]
      ensures 4 <= i ==> IsDigit(id[i])
    {
      assert "MBR-#########"[i] == if i < 4 then "MBR-"[i] else '#';
    }
  }

  /** generate_healthcare_persona */
  function GenerateHealthcare(f: Faker): (p: HealthcarePersona)
    ensures ValidHealthcare(p)
  {
    var n := PyInt(f, 0, 2);
    var drawn := DrawAppointments(n.rest, n.value);
    var appointments := SortSoonestFirst(drawn.value);
    SortedAppointmentsValid(drawn.value, appointments);
    var count := PyInt(drawn.rest, 1, 3);
    var meds := Sample(count.rest, Medications, count.value);
    MedicationsDistinct();
    var prescriptions := DrawPrescriptions(meds.rest, meds.value);
    DistinctPrescriptions(meds.value, prescriptions.value);
    var deductible := RandomElement(prescriptions.rest, Deductibles);
    var met := Cents(deductible.rest, 0, deductible.value);
    var oopMax := RandomElement(met.rest, OutOfPocketMaxima);
    var spent := PyInt(oopMax.rest, 0, 60 * oopMax.value);
    var memberId := Identifier(spent.rest, "MBR-#########");
    MemberIdShape(spent.rest);
    var birth := Text(memberId.rest);
    var doctor := Text(birth.rest);
    var plan := RandomElement(doctor.rest, PlanNames);
    var pcp := "Dr. " + doctor.value;
    assert pcp[..4] == "Dr. ";
    HealthcarePersona(Owner, memberId.value, birth.value, pcp, plan.value,
      deductible.value, met.value, oopMax.value, spent.value, appointments, prescriptions.value)
  }
  /** The listed appointments are exactly the drawn ones, soonest first, and
      those of one day in their drawn order. */
  lemma HealthcareAppointmentsAreDrawn(f: Faker)
    ensures var n := PyInt(f, 0, 2);
      var drawn := DrawAppointments(n.rest, n.value).value;
      var listed := GenerateHealthcare(f).upcomingAppointments;
      Soonest(listed) && multiset(listed) == multiset(drawn)
      && forall d :: WithKey(listed, AppointmentDate, d) == WithKey(drawn, AppointmentDate, d)
  {
  }


  // ---------------------------------------------------------------------
  // Generic persona and dispatch

  const Statuses: seq<string> := ["Bronze", "Silver", "Gold", "Platinum"]

  /** `accountValue` in cents. */
  datatype GenericPersona = GenericPersona(
    name: string,
    customerSince: string,
    accountValue: int,
    recentActivityCount: int,
    loyaltyPoints: int,
    status: string,
    contextHint: string)

  function ContextHint(modeName: string): string {
    "This is a " + modeName + " customer dashboard."
  }

  /** generate_generic_persona: the display name only shapes the context
      hint; everything else is drawn. */
  function GenerateGeneric(modeName: string, f: Faker): (p: GenericPersona)
    ensures 100000 <= p.accountValue <= 5000000
    ensures 5 <= p.recentActivityCount <= 30
    ensures 100 <= p.loyaltyPoints <= 10000
    ensures p.status in Statuses
    ensures StartsWith(p.contextHint, "This is a ") && EndsWith(p.contextHint, " customer dashboard.")
  {
    var name := Text(f);
    var since := Text(name.rest);
    var value := Cents(since.rest, 1000, 50000);
    var activity := PyInt(value.rest, 5, 30);
    var points := PyInt(activity.rest, 100, 10000);
    var status := RandomElement(points.rest, Statuses);
    var hint := ContextHint(modeName);
    assert hint[..10] == "This is a ";
    assert hint[|hint| - 20..] == " customer dashboard.";
    GenericPersona(name.value, since.value, value.value, activity.value, points.value, status.value, hint)
  }

  /** The name a dynamically generated mode id is shown under:
      `mode_id.replace('_', ' ').title()`. */
  function DisplayName(modeId: string): (r: string)
    ensures |r| == |modeId|
    ensures forall i :: 0 <= i < |r| ==> (r[i] == ' ' <==> modeId[i] == '_' || modeId[i] == ' ')
  {
    Title(ReplaceChar(modeId, '_', ' '))
  }

  datatype Persona =
    | Banking(banking: BankingPersona)
    | Insurance(insurance: InsurancePersona)
    | Healthcare(healthcare: HealthcarePersona)
    | Generic(generic: GenericPersona)

  predicate Valid(p: Persona) {
    match p
    case Banking(b) => ValidBanking(b)
    case Insurance(i) => ValidInsurance(i)
    case Healthcare(h) => ValidHealthcare(h)
    case Generic(_) => true
  }

  /** generate_persona: the three built-in industries are looked up by the
      lower-cased id; any other id gets the generic persona. */
  function GeneratePersona(modeId: string, f: Faker): (p: Persona)
    ensures Valid(p)
    ensures p.Banking? <==> Lower(modeId) == "banking"
    ensures p.Insurance? <==> Lower(modeId) == "insurance"
    ensures p.Healthcare? <==> Lower(modeId) == "healthcare"
    ensures p.Generic? <==> Lower(modeId) !in {"banking", "insurance", "healthcare"}
  {
    var key := Lower(modeId);
    if key == "banking" then Banking(GenerateBanking(f))
    else if key == "insurance" then Insurance(GenerateInsurance(f))
    else if key == "healthcare" then Healthcare(GenerateHealthcare(f))
    else Generic(GenerateGeneric(DisplayName(modeId), f))
  }

  /** A dynamic mode's persona names the mode's display name in its hint. */
  lemma GenericHintNamesMode(modeId: string, f: Faker)
    requires Lower(modeId) !in {"banking", "insurance", "healthcare"}
    ensures GeneratePersona(modeId, f).generic.contextHint
      == "This is a " + DisplayName(modeId) + " customer dashboard."
  {
  }

  lemma PetStoreDisplayName()
    ensures DisplayName("pet_store") == "Pet Store"
  {
  }

  /** Upper-case ids reach the built-in generators too. */
  lemma UpperCaseBanking(f: Faker)
    ensures GeneratePersona("BANKING", f) == Banking(GenerateBanking(f))
  {
  }
}
