/** The course of a recovery that nobody disturbs, told from its world alone: which repairs are put in place, which tests they meet. */
module RecoveryPlay {
  import opened Ordering
  import opened Records
  import opened TestCommands
  import opened Testing
  import opened RecoveryStanding

  // ---- one attempt, given the fingerprints known before it ----

  function Tries(o: DebugOutcome): set<Digest> {
    if o.Repairs? then {Sha256(o.proposal)} else {}
  }

  // The patch is new and applies.
  predicate Lands(o: DebugOutcome, known: set<Digest>) {
    o.Repairs? && o.apply.Applies? && Sha256(o.proposal) !in known
  }

  // The code under which the attempt fails.
  function Blame(o: DebugOutcome, known: set<Digest>): Code
    requires !Lands(o, known)
  {
    match o
    case DebugBreaks(code) => code
    case Repairs(proposal, apply) => if Sha256(proposal) in known then IdenticalDebugPatch else apply.code
  }

  // The failure stops the recovery instead of counting as one used attempt: after a cancellation, an
  // unexpected failure or an unreadable diff, and after a patch that may be half applied.
  predicate Halts(o: DebugOutcome, known: set<Digest>) {
    !Lands(o, known)
    && (Blame(o, known) in {DebugCancelled, PatchDiffFailed, PatchDiffTooLarge, DebugOperationFailed}
        || (o.Repairs? && Sha256(o.proposal) !in known
            && Blame(o, known) in {PatchApplyFailed, PatchGitTimeout, PatchGitUnavailable}))
  }

  // ---- the course of all attempts ----

  function KnownAfter(world: World, known: set<Digest>, n: nat): set<Digest> {
    if n == 0 then known else KnownAfter(world, known, n - 1) + Tries(world.debugs(n - 1))
  }

  predicate LandsAt(world: World, known: set<Digest>, i: nat) {
    Lands(world.debugs(i), KnownAfter(world, known, i))
  }

  predicate HaltsAt(world: World, known: set<Digest>, i: nat) {
    Halts(world.debugs(i), KnownAfter(world, known, i))
  }

  // How many of the first n attempts put a patch in place.
  function Landings(world: World, known: set<Digest>, n: nat): nat {
    if n == 0 then 0 else Landings(world, known, n - 1) + if LandsAt(world, known, n - 1) then 1 else 0
  }

  lemma {:induction false} LandingsGrow(world: World, known: set<Digest>, m: nat, n: nat)
    requires m <= n
    ensures Landings(world, known, m) <= Landings(world, known, n)
  {
    if m < n { LandingsGrow(world, known, m, n - 1); }
  }

  // Every one of the first n repairs is new and applies.
  ghost predicate AllLands(world: World, known: set<Digest>, n: nat) {
    forall i: nat :: i < n ==> LandsAt(world, known, i)
  }

  lemma {:induction false} AllLand(world: World, known: set<Digest>, n: nat)
    requires AllLands(world, known, n)
    ensures Landings(world, known, n) == n
  {
    if n > 0 { AllLand(world, known, n - 1); }
  }

  lemma {:induction false} KnownAfterHas(world: World, known: set<Digest>, n: nat, f: Digest)
    ensures f in KnownAfter(world, known, n) <==> f in known || exists i: nat :: i < n && f in Tries(world.debugs(i))
  {
    if n > 0 { KnownAfterHas(world, known, n - 1, f); }
  }

  // Repairs that apply and are all different, and different from what was known, all land.
  lemma DifferentLand(world: World, known: set<Digest>, n: nat)
    requires forall i: nat :: i < n ==>
      world.debugs(i).Repairs? && world.debugs(i).apply.Applies? && Sha256(world.debugs(i).proposal) !in known
    requires forall i: nat, j: nat :: i < j < n ==> world.debugs(i).proposal != world.debugs(j).proposal
    ensures AllLands(world, known, n)
  {
    forall i: nat | i < n ensures LandsAt(world, known, i) {
      KnownAfterHas(world, known, i, Sha256(world.debugs(i).proposal));
    }
  }

  // Every required command ran to its end with exit code 0.
  ghost predicate Wins(required: seq<string>, sandbox: Sandbox) {
    var n := |Dedup(required)|;
    0 < n <= |sandbox.outcomes| && forall j :: 0 <= j < n ==> sandbox.outcomes[j] == Ran(Some(0), false)
  }

  // The reports are those of the test turns in their order, and only the last can have passed.
  ghost predicate Reports(reports: seq<Report>, required: seq<string>, world: World) {
    reports != []
    && (forall j: nat :: j < |reports| ==> Told(required, world.tests(j), reports[j]))
    && forall j :: 0 <= j < |reports| - 1 ==> !reports[j].passed
  }

  // After n attempts there is one report more than patches were put in place, the last attempt put one
  // in place if the tests pass, and no attempt halted.
  ghost predicate Course(reports: seq<Report>, n: nat, world: World, known: set<Digest>) {
    reports != [] && |reports| == 1 + Landings(world, known, n)
    && (n > 0 && reports[|reports| - 1].passed ==> LandsAt(world, known, n - 1))
    && forall i: nat :: i < n ==> !HaltsAt(world, known, i)
  }

  lemma ReportsMore(reports: seq<Report>, report: Report, required: seq<string>, world: World)
    requires Reports(reports, required, world) && !reports[|reports| - 1].passed
    requires Told(required, world.tests(|reports|), report)
    ensures Reports(reports + [report], required, world)
  {
    var all := reports + [report];
    forall j: nat | j < |all| ensures Told(required, world.tests(j), all[j]) {
    }
  }

  lemma CourseMore(reports: seq<Report>, all: seq<Report>, n: nat, world: World, known: set<Digest>)
    requires Course(reports, n, world, known) && !reports[|reports| - 1].passed && !HaltsAt(world, known, n) && all != []
    requires if LandsAt(world, known, n) then |all| == |reports| + 1 else all == reports
    ensures Course(all, n + 1, world, known)
  {
  }

  lemma ToldWins(required: seq<string>, sandbox: Sandbox, report: Report)
    requires Told(required, sandbox, report)
    ensures report.passed <==> Wins(required, sandbox)
  {
  }

  // The turn of the last report wins exactly if it passed; none before it does.
  ghost predicate FirstWin(reports: seq<Report>, required: seq<string>, world: World) {
    reports != [] && (reports[|reports| - 1].passed <==> Wins(required, world.tests(|reports| - 1)))
    && forall j: nat :: j < |reports| - 1 ==> !Wins(required, world.tests(j))
  }

  lemma ReportsWin(reports: seq<Report>, required: seq<string>, world: World)
    requires Reports(reports, required, world)
    ensures FirstWin(reports, required, world)
  {
    forall j: nat | j < |reports| ensures reports[j].passed <==> Wins(required, world.tests(j)) {
      ToldWins(required, world.tests(j), reports[j]);
    }
  }

  // So the recovery passes exactly if one of the test turns within the limit succeeds.
  lemma CourseVerdict(reports: seq<Report>, n: nat, limit: nat, required: seq<string>, world: World, known: set<Digest>)
    requires FirstWin(reports, required, world) && Course(reports, n, world, known) && n <= limit
    requires !reports[|reports| - 1].passed ==> n == limit
    ensures reports[|reports| - 1].passed <==>
      exists j: nat :: j <= Landings(world, known, limit) && Wins(required, world.tests(j))
  {
    LandingsGrow(world, known, n, limit);
  }

  // And if every repair is new and applies, the number of the first turn to succeed is the number of attempts.
  lemma FreshVerdict(reports: seq<Report>, n: nat, limit: nat, required: seq<string>, world: World, known: set<Digest>)
    requires FirstWin(reports, required, world) && Course(reports, n, world, known) && n <= limit
    requires !reports[|reports| - 1].passed ==> n == limit
    requires AllLands(world, known, limit)
    ensures reports[|reports| - 1].passed <==> exists j: nat :: j <= limit && Wins(required, world.tests(j))
    ensures reports[|reports| - 1].passed ==>
      Wins(required, world.tests(n)) && forall j: nat :: j < n ==> !Wins(required, world.tests(j))
  {
    AllLand(world, known, limit);
    AllLand(world, known, n);
  }
}
