/**
 * Company matching: every catalog company is scored against the required
 * process steps (machine coverage, text bonuses and category-keyword boosts),
 * the matches are ranked by score with a stable sort, and when no single
 * company covers every step an alliance of companies is picked greedily in
 * rank order and attached to the top match.
 */
module CompanyMatching {
  import opened Wrappers
  import opened Text
  import opened Seqs
  import opened ProcessBreakdown
  import opened TaskMapping
  import opened Ranking

  /** A catalog company, as the company store returns it. */
  datatype CompanyRow = CompanyRow(
    id: int, name: string, machines: string, skills: string, notes: string,
    capacity: Option<string>, location: Option<string>)

  /**
   * One match: the company, its stored score in hundredths (the score
   * `0.73` is `73`), the names of the steps it can take on, and the
   * alliance proposal attached to it, if any.
   */
  datatype Match = Match(company: CompanyRow, score: int, steps: seq<string>, alliance: Option<seq<CompanyRow>>)

  // ---------------------------------------------------------------------
  // Comma-separated fields
  // ---------------------------------------------------------------------

  /** The trimmed pieces that are not blank, in order. */
  function NonBlank(parts: seq<string>): seq<string> {
    if parts == [] then []
    else
      var rest := NonBlank(parts[..|parts| - 1]);
      var x := Strip(parts[|parts| - 1]);
      if x != "" then rest + [x] else rest
  }

  /** `_split_csv`: the trimmed, non-empty pieces of a comma split, in order. */
  function SplitCsv(s: string): seq<string> {
    NonBlank(Split(s, ','))
  }

  /** The kept pieces are non-empty and trimmed. */
  lemma {:induction false} NonBlankTrimmed(parts: seq<string>)
    ensures |NonBlank(parts)| <= |parts|
    ensures forall x :: x in NonBlank(parts) ==> x != "" && IsTrimmed(x)
  {
    if parts != [] {
      var init := parts[..|parts| - 1];
      var x := Strip(parts[|parts| - 1]);
      NonBlankTrimmed(init);
      StripSpec(parts[|parts| - 1]);
      if x != "" {
        assert NonBlank(parts) == NonBlank(init) + [x];
      } else {
        assert NonBlank(parts) == NonBlank(init);
      }
    }
  }

  /** Every piece of a split field is non-empty, trimmed and free of commas. */
  lemma SplitCsvPieces(s: string)
    ensures forall x :: x in SplitCsv(s) ==> x != "" && IsTrimmed(x) && ',' !in x
  {
    NonBlankTrimmed(Split(s, ','));
    NonBlankFrom(Split(s, ','));
  }

  /** Each kept piece is the trimmed form of some piece. */
  lemma {:induction false} NonBlankFrom(parts: seq<string>)
    ensures forall x :: x in NonBlank(parts) ==> exists p :: p in parts && x == Strip(p)
    ensures (forall p :: p in parts ==> ',' !in p) ==> forall x :: x in NonBlank(parts) ==> ',' !in x
  {
    if parts != [] {
      var init := parts[..|parts| - 1];
      NonBlankFrom(init);
      assert parts == init + [parts[|parts| - 1]];
      forall x | x in NonBlank(parts) ensures exists p :: p in parts && x == Strip(p) {
        if x in NonBlank(init) {
          var p :| p in init && x == Strip(p);
          assert p in parts;
        } else {
          assert parts[|parts| - 1] in parts;
        }
      }
      if forall p :: p in parts ==> ',' !in p {
        forall x | x in NonBlank(parts) ensures ',' !in x {
          var p :| p in parts && x == Strip(p);
          StripSubstring(p);
        }
      }
    }
  }

  /** Every character of the stripped string is a character of the string. */
  lemma StripSubstring(p: string)
    ensures forall c :: c in Strip(p) ==> c in p
  {
    var r := Strip(p);
    if r != [] {
      forall c | c in r ensures c in p {
        var k :| 0 <= k < |r| && r[k] == c;
        assert p[LeadingSpaces(p) + k] == c;
      }
    }
  }

  lemma {:induction false} NonBlankAppend(a: seq<string>, b: seq<string>)
    ensures NonBlank(a + b) == NonBlank(a) + NonBlank(b)
  {
    if b != [] {
      var b' := b[..|b| - 1];
      assert (a + b)[..|a + b| - 1] == a + b';
      NonBlankAppend(a, b');
    } else {
      assert a + b == a;
    }
  }

  /** A comma splits the field in two: the pieces of each side, in order. */
  lemma SplitCsvAtComma(a: string, b: string)
    ensures SplitCsv(a + [','] + b) == SplitCsv(a) + SplitCsv(b)
  {
    SplitAtSeparator(a, b, ',');
    NonBlankAppend(Split(a, ','), Split(b, ','));
  }

  /** Joining trimmed, non-empty, comma-free names with commas and splitting gives them back. */
  lemma {:induction false} SplitCsvJoin(names: seq<string>)
    requires |names| >= 1
    requires forall x :: x in names ==> x != "" && IsTrimmed(x) && ',' !in x
    ensures SplitCsv(Join(names, ',')) == names
  {
    var x := names[0];
    SplitWithoutSeparator(x, ',');
    StripTrimmed(x);
    assert NonBlank([x]) == [x] by {
      assert [x][..0] == [];
    }
    if |names| > 1 {
      SplitCsvJoin(names[1..]);
      SplitCsvAtComma(x, Join(names[1..], ','));
      assert names == [x] + names[1..];
    }
  }

  /** `set(_split_csv(s))`. */
  function MachineSet(s: string): set<string> {
    set x | x in SplitCsv(s)
  }

  /** `{s.machine for s in steps}`. */
  function RequiredMachines(steps: seq<ProcessStep>): set<string> {
    set s | s in steps :: s.machine
  }

  // ---------------------------------------------------------------------
  // Score terms
  // ---------------------------------------------------------------------

  function MaxInt(a: int, b: int): int { if a < b then b else a }
  function MinReal(a: real, b: real): real { if a < b then a else b }

  /** `0.6 * len(required & machines) / max(1, len(required))`. */
  function CoverageTerm(required: set<string>, machines: set<string>): (r: real)
    ensures 0.0 <= r <= 0.6
    ensures required == {} ==> r == 0.0
    ensures required != {} && required <= machines ==> r == 0.6
  {
    var hit := |required * machines|;
    var d := MaxInt(1, |required|);
    SubsetSize(required * machines, required);
    assert required <= machines ==> required * machines == required;
    FractionBounds(hit as real, d as real);
    0.6 * hit as real / d as real
  }

  /** A share of at most the whole, scaled by 0.6. */
  lemma FractionBounds(h: real, d: real)
    requires 0.0 <= h <= d && 1.0 <= d
    ensures 0.0 <= 0.6 * h / d <= 0.6
    ensures h == d ==> 0.6 * h / d == 0.6
  {
    var q := h / d;
    assert q * d == h;
    assert 0.0 <= q <= 1.0;
    assert 0.6 * h / d == 0.6 * q;
  }

  /** A subset is no larger than its superset. */
  lemma {:induction false} SubsetSize<T>(a: set<T>, b: set<T>)
    requires a <= b
    ensures |a| <= |b|
    decreases |b|
  {
    if a != {} {
      var x :| x in a;
      SubsetSize(a - {x}, b - {x});
    }
  }

  /** `" ".join(parts)`, empty for no parts. */
  function SpaceJoin(parts: seq<string>): string {
    if parts == [] then "" else Join(parts, ' ')
  }

  /** The skills-and-notes text the bonuses look at. */
  function BonusText(c: CompanyRow): string {
    Lower(SpaceJoin(SplitCsv(c.skills)) + " " + c.notes)
  }

  /** The machines-skills-notes text the keyword boost looks at. */
  function CompanyText(c: CompanyRow): string {
    Lower(c.machines + " " + c.skills + " " + c.notes)
  }

  /** The two text bonuses of one step. */
  function StepBonus(machine: string, text: string): real {
    (if (Contains(text, "sus") || Contains(text, "ステンレス")) && (Contains(machine, "VMC") || Contains(machine, "タッピング"))
     then 0.1 else 0.0)
    + (if Contains(machine, "タッピング") && Contains(text, "ねじ") then 0.1 else 0.0)
  }

  /** The text bonuses of all steps, added up. */
  function BonusTotal(steps: seq<ProcessStep>, text: string): (r: real)
    ensures 0.0 <= r <= 0.2 * |steps| as real
  {
    if steps == [] then 0.0
    else BonusTotal(steps[..|steps| - 1], text) + StepBonus(steps[|steps| - 1].machine, text)
  }

  /** `sum(1 for kw in kws if kw and kw in text)`. */
  function KeywordHits(kws: seq<string>, text: string): (n: nat)
    ensures n <= |kws|
  {
    if kws == [] then 0
    else KeywordHits(kws[..|kws| - 1], text) + (if kws[|kws| - 1] != "" && Contains(text, kws[|kws| - 1]) then 1 else 0)
  }

  /** The boost of a keyword list: 0.02 per keyword found in the text, at most 0.15. */
  function KeywordBoost(kws: seq<string>, text: string): (r: real)
    ensures 0.0 <= r <= 0.15
    ensures KeywordHits(kws, text) == 0 ==> r == 0.0
  {
    if kws == [] then 0.0
    else
      var hit := KeywordHits(kws, text);
      if hit > 0 then MinReal(0.15, 0.02 * hit as real) else 0.0
  }

  /** The category-keyword boost of one step: that of its machine's category, nothing for an unclassified machine. */
  function StepBoost(machine: string, text: string): (r: real)
    ensures 0.0 <= r <= 0.15
    ensures ClassifyMachine(machine).None? ==> r == 0.0
  {
    match ClassifyMachine(machine)
    case None => 0.0
    case Some(cat) => KeywordBoost(KeywordsForCategory(cat), text)
  }

  /**
   * A per-step boost of a machine against a company text. The program's is
   * `StepBoost`; the scoring, ranking and alliance layers below take it as a
   * parameter, so their proofs never unfold the taxonomy.
   */
  type Booster = (string, string) -> real

  /** Every boost lies in [0, 0.15]. */
  ghost predicate BoostsBounded(boost: Booster) {
    forall m, t :: 0.0 <= boost(m, t) <= 0.15
  }

  lemma StepBoostBounded()
    ensures BoostsBounded(StepBoost)
  {
  }

  /** The keyword boosts of all steps, added up. */
  function BoostTotal(steps: seq<ProcessStep>, text: string, boost: Booster): real {
    if steps == [] then 0.0
    else BoostTotal(steps[..|steps| - 1], text, boost) + boost(steps[|steps| - 1].machine, text)
  }

  /** Bounded boosts add up to at most 0.15 per step. */
  lemma {:induction false} BoostTotalBounds(steps: seq<ProcessStep>, text: string, boost: Booster)
    requires BoostsBounded(boost)
    ensures 0.0 <= BoostTotal(steps, text, boost) <= 0.15 * |steps| as real
  {
    if steps != [] {
      BoostTotalBounds(steps[..|steps| - 1], text, boost);
    }
  }

  /** The score before capping and rounding. */
  function RawScore(c: CompanyRow, steps: seq<ProcessStep>, boost: Booster): real {
    CoverageTerm(RequiredMachines(steps), MachineSet(c.machines))
    + BonusTotal(steps, BonusText(c))
    + BoostTotal(steps, CompanyText(c), boost)
  }

  /** `round(min(score, 1.0), 2)` in hundredths, rounding half up. */
  function StoredScore(raw: real): (r: int)
    ensures 0.0 <= raw ==> 0 <= r <= 100
    ensures (r as real) - 0.5 <= MinReal(raw, 1.0) * 100.0 < (r as real) + 0.5
  {
    (MinReal(raw, 1.0) * 100.0 + 0.5).Floor
  }

  /** The names of the steps whose machine is among `machines`, in step order, repeats kept. */
  function CoverNames(steps: seq<ProcessStep>, machines: set<string>): (r: seq<string>)
    ensures |r| <= |steps|
  {
    if steps == [] then []
    else
      var rest := CoverNames(steps[..|steps| - 1], machines);
      var s := steps[|steps| - 1];
      if s.machine in machines then rest + [s.name] else rest
  }

  /** The step names, in order. */
  function Names(steps: seq<ProcessStep>): (r: seq<string>)
    ensures |r| == |steps|
    ensures forall i :: 0 <= i < |steps| ==> r[i] == steps[i].name
  {
    seq(|steps|, i requires 0 <= i < |steps| => steps[i].name)
  }

  /**
   * `idx` lists, in increasing order, exactly the positions of the steps
   * whose machine is among `machines`, and `names` are those steps' names.
   */
  predicate HeldNamesAt(names: seq<string>, idx: seq<nat>, steps: seq<ProcessStep>, machines: set<string>) {
    |names| == |idx|
    && (forall k :: 0 <= k < |idx| ==> idx[k] < |steps| && names[k] == steps[idx[k]].name)
    && (forall k, l :: 0 <= k < l < |idx| ==> idx[k] < idx[l])
    && (forall i :: 0 <= i < |steps| ==> (i in idx <==> steps[i].machine in machines))
  }

  /**
   * The covered names are the names of exactly the steps whose machine is
   * held, one per such step (repeats kept), in step order; so they are an
   * in-order selection of the step names.
   */
  lemma {:induction false} CoverNamesSelects(steps: seq<ProcessStep>, machines: set<string>)
    ensures exists idx :: HeldNamesAt(CoverNames(steps, machines), idx, steps, machines)
    ensures IsSubsequence(CoverNames(steps, machines), Names(steps))
  {
    if steps == [] {
      var none: seq<nat> := [];
      assert HeldNamesAt(CoverNames(steps, machines), none, steps, machines);
    } else {
      var init := steps[..|steps| - 1];
      var s := steps[|steps| - 1];
      assert steps == init + [s];
      CoverNamesSelects(init, machines);
      var prev := CoverNames(init, machines);
      var idx0 :| HeldNamesAt(prev, idx0, init, machines);
      assert Names(steps) == Names(init) + [s.name];
      if s.machine in machines {
        SubsequenceKeep(prev, Names(init), s.name);
        assert CoverNames(steps, machines) == prev + [s.name];
        HeldNamesKeep(prev, idx0, init, machines, s);
      } else {
        SubsequenceSkip(prev, Names(init), s.name);
        assert CoverNames(steps, machines) == prev;
        HeldNamesSkip(prev, idx0, init, machines, s);
      }
    }
  }

  /** A held step appended to the steps adds its position and its name. */
  lemma HeldNamesKeep(names: seq<string>, idx: seq<nat>, steps: seq<ProcessStep>, machines: set<string>, s: ProcessStep)
    requires HeldNamesAt(names, idx, steps, machines)
    requires s.machine in machines
    ensures HeldNamesAt(names + [s.name], idx + [|steps|], steps + [s], machines)
  {
    var steps', idx' := steps + [s], idx + [|steps|];
    forall i | 0 <= i < |steps'| ensures i in idx' <==> steps'[i].machine in machines {
      if i < |steps| {
        assert steps'[i] == steps[i];
        assert i in idx' <==> i in idx;
      }
    }
  }

  /** A step whose machine is not held, appended to the steps, adds nothing. */
  lemma HeldNamesSkip(names: seq<string>, idx: seq<nat>, steps: seq<ProcessStep>, machines: set<string>, s: ProcessStep)
    requires HeldNamesAt(names, idx, steps, machines)
    requires s.machine !in machines
    ensures HeldNamesAt(names, idx, steps + [s], machines)
  {
    var steps' := steps + [s];
    forall i | 0 <= i < |steps'| ensures i in idx <==> steps'[i].machine in machines {
      if i < |steps| {
        assert steps'[i] == steps[i];
      } else {
        assert i == |steps|;
      }
    }
  }

  /** When every machine is held, every step name is covered; when none is, none is. */
  lemma {:induction false} CoverNamesAllOrNone(steps: seq<ProcessStep>, machines: set<string>)
    ensures (forall s :: s in steps ==> s.machine in machines) ==> CoverNames(steps, machines) == Names(steps)
    ensures (forall s :: s in steps ==> s.machine !in machines) ==> CoverNames(steps, machines) == []
  {
    if steps != [] {
      var init := steps[..|steps| - 1];
      var s := steps[|steps| - 1];
      CoverNamesAllOrNone(init, machines);
      assert Names(steps) == Names(init) + [s.name];
      assert forall t :: t in init ==> t in steps;
      assert s in steps;
    }
  }

  /** The raw score is never negative and at most 0.6 + 0.35 per step. */
  lemma RawScoreBounds(c: CompanyRow, steps: seq<ProcessStep>, boost: Booster)
    requires BoostsBounded(boost)
    ensures 0.0 <= RawScore(c, steps, boost) <= 0.6 + 0.35 * |steps| as real
    ensures 0 <= StoredScore(RawScore(c, steps, boost)) <= 100
  {
    BoostTotalBounds(steps, CompanyText(c), boost);
  }

  /** A company holding every required machine gets the full coverage term. */
  lemma FullCoverage(c: CompanyRow, steps: seq<ProcessStep>)
    requires steps != []
    requires forall s :: s in steps ==> s.machine in MachineSet(c.machines)
    ensures CoverageTerm(RequiredMachines(steps), MachineSet(c.machines)) == 0.6
    ensures CoverNames(steps, MachineSet(c.machines)) == Names(steps)
  {
    assert steps[0].machine in RequiredMachines(steps);
    CoverNamesAllOrNone(steps, MachineSet(c.machines));
  }

  /** One company scored: the three per-step loops of `match_companies`. */
  method ScoreCompany(c: CompanyRow, steps: seq<ProcessStep>, boost: Booster) returns (score: real, cover: seq<string>)
    ensures score == RawScore(c, steps, boost)
    ensures cover == CoverNames(steps, MachineSet(c.machines))
  {
    var cMachines := MachineSet(c.machines);
    score := CoverageTerm(RequiredMachines(steps), cMachines);

    var text := BonusText(c);
    var bonus := AddBonuses(steps, text);
    score := score + bonus;

    cover := CoveredSteps(steps, cMachines);

    var compText := CompanyText(c);
    var boosts := AddBoosts(steps, compText, boost);
    score := score + boosts;
  }

  /** The text-bonus loop. */
  method AddBonuses(steps: seq<ProcessStep>, text: string) returns (total: real)
    ensures total == BonusTotal(steps, text)
  {
    total := 0.0;
    var i := 0;
    while i < |steps|
      invariant 0 <= i <= |steps|
      invariant total == BonusTotal(steps[..i], text)
    {
      assert steps[..i + 1][..i] == steps[..i];
      var m := steps[i].machine;
      if (Contains(text, "sus") || Contains(text, "ステンレス")) && (Contains(m, "VMC") || Contains(m, "タッピング")) {
        total := total + 0.1;
      }
      if Contains(m, "タッピング") && Contains(text, "ねじ") {
        total := total + 0.1;
      }
      i := i + 1;
    }
    assert steps[..i] == steps;
  }

  /** The step-assignment loop. */
  method CoveredSteps(steps: seq<ProcessStep>, machines: set<string>) returns (cover: seq<string>)
    ensures cover == CoverNames(steps, machines)
  {
    cover := [];
    var i := 0;
    while i < |steps|
      invariant 0 <= i <= |steps|
      invariant cover == CoverNames(steps[..i], machines)
    {
      assert steps[..i + 1][..i] == steps[..i];
      if steps[i].machine in machines {
        cover := cover + [steps[i].name];
      }
      i := i + 1;
    }
    assert steps[..i] == steps;
  }

  /** The category-keyword boost loop. */
  method AddBoosts(steps: seq<ProcessStep>, compText: string, boost: Booster) returns (total: real)
    ensures total == BoostTotal(steps, compText, boost)
  {
    total := 0.0;
    var i := 0;
    while i < |steps|
      invariant 0 <= i <= |steps|
      invariant total == BoostTotal(steps[..i], compText, boost)
    {
      assert steps[..i + 1][..i] == steps[..i];
      total := total + boost(steps[i].machine, compText);
      i := i + 1;
    }
    assert steps[..i] == steps;
  }

  // ---------------------------------------------------------------------
  // Ranking and the alliance proposal
  // ---------------------------------------------------------------------

  /** The matches in catalog order, before sorting. */
  function Unranked(steps: seq<ProcessStep>, catalog: seq<CompanyRow>, boost: Booster): (r: seq<Match>)
    ensures |r| == |catalog|
  {
    if catalog == [] then []
    else Unranked(steps, catalog[..|catalog| - 1], boost) + [Scored(catalog[|catalog| - 1], steps, boost)]
  }

  /** One match per company, each scoring the company at its own position. */
  lemma {:induction false} UnrankedAt(steps: seq<ProcessStep>, catalog: seq<CompanyRow>, boost: Booster)
    ensures forall i :: 0 <= i < |catalog| ==> Unranked(steps, catalog, boost)[i] == Scored(catalog[i], steps, boost)
  {
    if catalog != [] {
      var init := catalog[..|catalog| - 1];
      UnrankedAt(steps, init, boost);
      var prev := Unranked(steps, init, boost);
      assert Unranked(steps, catalog, boost) == prev + [Scored(catalog[|catalog| - 1], steps, boost)];
      forall i | 0 <= i < |catalog| ensures Unranked(steps, catalog, boost)[i] == Scored(catalog[i], steps, boost) {
        if i < |init| {
          assert init[i] == catalog[i];
          assert prev[i] == Scored(init[i], steps, boost);
          assert Unranked(steps, catalog, boost)[i] == prev[i];
        } else {
          assert i == |catalog| - 1;
        }
      }
    }
  }

  /** The unranked match of one company. */
  function Scored(c: CompanyRow, steps: seq<ProcessStep>, boost: Booster): Match {
    Match(c, StoredScore(RawScore(c, steps, boost)), CoverNames(steps, MachineSet(c.machines)), None)
  }

  /** The sort key of each match: its score. */
  function ScoreKeys(ms: seq<Match>): (r: seq<SortKey>)
    ensures |r| == |ms|
    ensures forall i :: 0 <= i < |ms| ==> r[i] == SortKey(ms[i].score, 0)
  {
    seq(|ms|, i requires 0 <= i < |ms| => SortKey(ms[i].score, 0))
  }

  /** `matches.sort(key=lambda m: m.score, reverse=True)`, as the positions it puts first. */
  function RankOrder(ms: seq<Match>): (perm: seq<nat>)
    ensures |perm| == |ms|
    ensures forall i :: 0 <= i < |perm| ==> perm[i] < |ms|
  {
    StableSortDesc(ScoreKeys(ms))
  }

  function Rank(ms: seq<Match>): (r: seq<Match>)
    ensures |r| == |ms|
  {
    ApplyPerm(ms, RankOrder(ms))
  }

  /** Some match covers steps, and as many distinct step names as there are steps. */
  predicate HasFullCover(ms: seq<Match>, stepCount: nat) {
    exists i :: 0 <= i < |ms| && |set x | x in ms[i].steps| > 0 && |set x | x in ms[i].steps| == stepCount
  }

  /** A ranked company with its parsed machine set. */
  type Offer = (CompanyRow, set<string>)

  function Offers(ms: seq<Match>): (r: seq<Offer>)
    ensures |r| == |ms|
    ensures forall i :: 0 <= i < |ms| ==> r[i] == (ms[i].company, MachineSet(ms[i].company.machines))
  {
    seq(|ms|, i requires 0 <= i < |ms| => (ms[i].company, MachineSet(ms[i].company.machines)))
  }

  /**
   * The alliance loop without its early exit, over the first offers: the
   * companies picked so far and the machines still needed.
   */
  function Greedy(offers: seq<Offer>, required: set<string>): (seq<CompanyRow>, set<string>) {
    if offers == [] then ([], required)
    else
      var prev := Greedy(offers[..|offers| - 1], required);
      var o := offers[|offers| - 1];
      if prev.1 * o.1 != {} then (prev.0 + [o.0], prev.1 - o.1) else prev
  }

  /** All machines of the offers. */
  function AllMachines(offers: seq<Offer>): set<string> {
    if offers == [] then {} else AllMachines(offers[..|offers| - 1]) + offers[|offers| - 1].1
  }

  /** The companies of the offers, in order. */
  function OfferCompanies(offers: seq<Offer>): (r: seq<CompanyRow>)
    ensures |r| == |offers|
    ensures forall i :: 0 <= i < |offers| ==> r[i] == offers[i].0
  {
    seq(|offers|, i requires 0 <= i < |offers| => offers[i].0)
  }

  /** The proposal attached to the top match, when there is one to attach. */
  function AttachAlliance(ms: seq<Match>, steps: seq<ProcessStep>): (r: seq<Match>)
    ensures |r| == |ms|
  {
    var alliance := Greedy(Offers(ms), RequiredMachines(steps)).0;
    if !HasFullCover(ms, |steps|) && ms != [] && alliance != [] then ms[0 := ms[0].(alliance := Some(alliance))]
    else ms
  }

  /** What `match_companies` returns for a catalog (the advisory nudge aside). */
  function MatchSpec(steps: seq<ProcessStep>, catalog: seq<CompanyRow>, boost: Booster): seq<Match> {
    AttachAlliance(Rank(Unranked(steps, catalog, boost)), steps)
  }

  /** `match_companies`, with the catalog as a parameter. */
  method MatchCompanies(steps: seq<ProcessStep>, catalog: seq<CompanyRow>) returns (matches: seq<Match>)
    ensures matches == MatchSpec(steps, catalog, StepBoost)
  {
    matches := MatchWith(steps, catalog, StepBoost);
  }

  /** The body of `match_companies`, for the per-step boost `boost`. */
  method MatchWith(steps: seq<ProcessStep>, catalog: seq<CompanyRow>, boost: Booster) returns (matches: seq<Match>)
    ensures matches == MatchSpec(steps, catalog, boost)
  {
    var scored := ScoreCatalog(steps, catalog, boost);
    matches := Rank(scored);

    var haveFullCover := HasFullCover(matches, |steps|);
    if !haveFullCover && matches != [] {
      var alliance := BuildAlliance(matches, RequiredMachines(steps));
      if alliance != [] {
        matches := matches[0 := matches[0].(alliance := Some(alliance))];
      }
    }
  }

  /** The scoring loop: one unranked match per catalog company, in catalog order. */
  method ScoreCatalog(steps: seq<ProcessStep>, catalog: seq<CompanyRow>, boost: Booster) returns (scored: seq<Match>)
    ensures scored == Unranked(steps, catalog, boost)
  {
    scored := [];
    var i := 0;
    while i < |catalog|
      invariant 0 <= i <= |catalog|
      invariant scored == Unranked(steps, catalog[..i], boost)
    {
      assert catalog[..i + 1][..i] == catalog[..i];
      var m := ScoreOne(catalog[i], steps, boost);
      scored := scored + [m];
      i := i + 1;
    }
    assert catalog[..i] == catalog;
  }

  /** One loop iteration: the company's match before ranking. */
  method ScoreOne(c: CompanyRow, steps: seq<ProcessStep>, boost: Booster) returns (m: Match)
    ensures m == Scored(c, steps, boost)
  {
    var score, cover := ScoreCompany(c, steps, boost);
    m := Match(c, StoredScore(score), cover, None);
  }

  /** The alliance loop: companies in rank order, while machines are still needed. */
  method BuildAlliance(ms: seq<Match>, required: set<string>) returns (alliance: seq<CompanyRow>)
    ensures alliance == Greedy(Offers(ms), required).0
  {
    var offers := Offers(ms);
    var needed := required;
    alliance := [];
    var j := 0;
    while j < |ms|
      invariant 0 <= j <= |ms|
      invariant (alliance, needed) == Greedy(offers[..j], required)
    {
      assert offers[..j + 1][..j] == offers[..j];
      var cm := MachineSet(ms[j].company.machines);
      if needed * cm != {} {
        alliance := alliance + [ms[j].company];
        needed := needed - cm;
      }
      j := j + 1;
      if needed == {} {
        GreedyDone(offers, j, required);
        return;
      }
    }
    assert offers[..j] == offers;
  }

  /** Once nothing is needed, later offers change nothing. */
  lemma {:induction false} GreedyDone(offers: seq<Offer>, j: nat, required: set<string>)
    requires j <= |offers|
    requires Greedy(offers[..j], required).1 == {}
    ensures Greedy(offers, required) == Greedy(offers[..j], required)
    decreases |offers| - j
  {
    if j < |offers| {
      assert offers[..j + 1][..j] == offers[..j];
      GreedyDone(offers, j + 1, required);
    } else {
      assert offers[..j] == offers;
    }
  }

  // ---------------------------------------------------------------------
  // Properties of the greedy alliance
  // ---------------------------------------------------------------------

  /**
   * The loop leaves needed exactly the required machines no listed company
   * has, and picks nobody exactly when no listed company has a required machine.
   */
  lemma {:induction false} GreedyNeeded(offers: seq<Offer>, required: set<string>)
    ensures Greedy(offers, required).1 == required - AllMachines(offers)
    ensures Greedy(offers, required).0 == [] <==> required * AllMachines(offers) == {}
  {
    if offers != [] {
      var init := offers[..|offers| - 1];
      GreedyNeeded(init, required);
      var cm := offers[|offers| - 1].1;
      var needed := Greedy(init, required).1;
      if needed * cm == {} {
        forall x | x in needed ensures x !in cm {
          assert x !in needed * cm;
        }
        assert needed - cm == needed;
      }
      if Greedy(init, required).0 == [] {
        forall x | x in required ensures x !in AllMachines(init) {
          assert x !in required * AllMachines(init);
        }
        assert needed == required;
      } else {
        var x :| x in required * AllMachines(init);
        assert x in required * AllMachines(offers);
      }
    }
  }

  /** The loop ends with nothing needed exactly when the offers hold every required machine. */
  lemma GreedyCovers(offers: seq<Offer>, required: set<string>)
    ensures Greedy(offers, required).1 == {} <==> required <= AllMachines(offers)
    ensures Greedy(offers, required).1 <= required
  {
    GreedyNeeded(offers, required);
    if !(required <= AllMachines(offers)) {
      var x :| x in required && x !in AllMachines(offers);
      assert x in Greedy(offers, required).1;
    }
  }

  /** The alliance lists companies in offer order. */
  lemma {:induction false} GreedyInOrder(offers: seq<Offer>, required: set<string>)
    ensures IsSubsequence(Greedy(offers, required).0, OfferCompanies(offers))
  {
    if offers != [] {
      var n := |offers| - 1;
      var init := offers[..n];
      GreedyInOrder(init, required);
      var prev := Greedy(init, required);
      var o := offers[n];
      assert OfferCompanies(offers) == OfferCompanies(init) + [o.0];
      if prev.1 * o.1 != {} {
        SubsequenceKeep(prev.0, OfferCompanies(init), o.0);
      } else {
        SubsequenceSkip(prev.0, OfferCompanies(init), o.0);
      }
    }
  }

  /** Offer `j` helps: it holds a machine still needed after the offers before it. */
  predicate Helps(offers: seq<Offer>, j: nat, required: set<string>)
    requires j < |offers|
  {
    Greedy(offers[..j], required).1 * offers[j].1 != {}
  }

  /** Each member of the alliance had a machine still needed when it was picked. */
  lemma {:induction false} GreedyUseful(offers: seq<Offer>, required: set<string>)
    ensures forall k :: 0 <= k < |Greedy(offers, required).0| ==>
      exists j :: 0 <= j < |offers| && Greedy(offers, required).0[k] == offers[j].0 && Helps(offers, j, required)
  {
    if offers != [] {
      var n := |offers| - 1;
      var init := offers[..n];
      GreedyUseful(init, required);
      var prev := Greedy(init, required);
      var alliance := Greedy(offers, required).0;
      assert offers[..n] == init;
      forall k | 0 <= k < |alliance|
        ensures exists j :: 0 <= j < |offers| && alliance[k] == offers[j].0 && Helps(offers, j, required)
      {
        if k < |prev.0| {
          assert alliance[k] == prev.0[k];
          var j :| 0 <= j < |init| && prev.0[k] == init[j].0 && Helps(init, j, required);
          assert init[..j] == offers[..j];
          assert Helps(offers, j, required);
        } else {
          assert alliance == prev.0 + [offers[n].0];
          assert alliance[k] == offers[n].0 && Helps(offers, n, required);
        }
      }
      assert forall k :: 0 <= k < |alliance| ==>
        exists j :: 0 <= j < |offers| && alliance[k] == offers[j].0 && Helps(offers, j, required);
    } else {
      assert Greedy(offers, required).0 == [];
    }
  }

  // ---------------------------------------------------------------------
  // Properties of the ranked matches
  // ---------------------------------------------------------------------

  /** Ranking puts every match exactly once, higher scores first, equal scores in their original order. */
  lemma RankSorted(ms: seq<Match>)
    ensures forall i :: 0 <= i < |ms| ==> Rank(ms)[i] == ms[RankOrder(ms)[i]]
    ensures forall j :: 0 <= j < |ms| ==> j in RankOrder(ms)
    ensures forall i, k :: 0 <= i < k < |ms| ==> RankOrder(ms)[i] != RankOrder(ms)[k]
    ensures forall i, k :: 0 <= i < k < |ms| ==>
      Rank(ms)[i].score > Rank(ms)[k].score
      || (Rank(ms)[i].score == Rank(ms)[k].score && RankOrder(ms)[i] < RankOrder(ms)[k])
  {
    StableSortCorrect(ScoreKeys(ms));
  }

  /** Attaching the proposal changes only the top match's `alliance`. */
  lemma AttachOnlyTop(ms: seq<Match>, steps: seq<ProcessStep>)
    ensures forall i :: 0 <= i < |ms| ==>
      AttachAlliance(ms, steps)[i].company == ms[i].company
      && AttachAlliance(ms, steps)[i].score == ms[i].score
      && AttachAlliance(ms, steps)[i].steps == ms[i].steps
    ensures forall i :: 0 < i < |ms| ==> AttachAlliance(ms, steps)[i] == ms[i]
    ensures HasFullCover(AttachAlliance(ms, steps), |steps|) == HasFullCover(ms, |steps|)
  {
    var alliance := Greedy(Offers(ms), RequiredMachines(steps)).0;
    if !HasFullCover(ms, |steps|) && ms != [] && alliance != [] {
      SetTopAlliance(ms, Some(alliance), |steps|);
    }
  }

  /** Setting the top match's proposal changes that field alone, so the full-cover test gives the same answer. */
  lemma SetTopAlliance(ms: seq<Match>, a: Option<seq<CompanyRow>>, n: nat)
    requires ms != []
    ensures var r := ms[0 := ms[0].(alliance := a)];
      (forall i :: 0 <= i < |ms| ==> r[i].company == ms[i].company && r[i].score == ms[i].score && r[i].steps == ms[i].steps)
      && (forall i :: 0 < i < |ms| ==> r[i] == ms[i])
      && HasFullCover(r, n) == HasFullCover(ms, n)
  {
    var r := ms[0 := ms[0].(alliance := a)];
    if HasFullCover(ms, n) {
      var i :| 0 <= i < |ms| && |set x | x in ms[i].steps| > 0 && |set x | x in ms[i].steps| == n;
      assert r[i].steps == ms[i].steps;
    }
    if HasFullCover(r, n) {
      var i :| 0 <= i < |r| && |set x | x in r[i].steps| > 0 && |set x | x in r[i].steps| == n;
      assert r[i].steps == ms[i].steps;
    }
  }

  /** Ranking and attaching move whole matches: match `i` is the company, score and cover of position `RankOrder(ms)[i]`. */
  lemma RankedFrom(ms: seq<Match>, steps: seq<ProcessStep>)
    ensures forall i :: 0 <= i < |ms| ==>
      var m, src := AttachAlliance(Rank(ms), steps)[i], ms[RankOrder(ms)[i]];
      m.company == src.company && m.score == src.score && m.steps == src.steps
  {
    RankSorted(ms);
    AttachOnlyTop(Rank(ms), steps);
  }

  /** The unranked match of a company: its stored score in [0, 100] and the steps it can take. */
  lemma UnrankedScores(steps: seq<ProcessStep>, catalog: seq<CompanyRow>, boost: Booster)
    requires BoostsBounded(boost)
    ensures forall j :: 0 <= j < |catalog| ==>
      var u := Unranked(steps, catalog, boost)[j];
      u.company == catalog[j]
      && u.score == StoredScore(RawScore(catalog[j], steps, boost))
      && 0 <= u.score <= 100
      && u.steps == CoverNames(steps, MachineSet(catalog[j].machines))
  {
    forall j | 0 <= j < |catalog| ensures 0 <= StoredScore(RawScore(catalog[j], steps, boost)) <= 100 {
      RawScoreBounds(catalog[j], steps, boost);
    }
    UnrankedAt(steps, catalog, boost);
  }

  /** Every match scores its own company, its score lies in [0, 100], and it lists the steps its company can take. */
  lemma MatchScores(steps: seq<ProcessStep>, catalog: seq<CompanyRow>, boost: Booster)
    requires BoostsBounded(boost)
    ensures |MatchSpec(steps, catalog, boost)| == |catalog|
    ensures forall i :: 0 <= i < |catalog| ==>
      var m := MatchSpec(steps, catalog, boost)[i];
      m.company == catalog[RankOrder(Unranked(steps, catalog, boost))[i]]
      && m.score == StoredScore(RawScore(m.company, steps, boost))
      && 0 <= m.score <= 100
      && m.steps == CoverNames(steps, MachineSet(m.company.machines))
  {
    var u := Unranked(steps, catalog, boost);
    var ms := MatchSpec(steps, catalog, boost);
    RankedFrom(u, steps);
    UnrankedScores(steps, catalog, boost);
    forall i | 0 <= i < |catalog|
      ensures ms[i].company == catalog[RankOrder(u)[i]]
      ensures ms[i].score == StoredScore(RawScore(ms[i].company, steps, boost)) && 0 <= ms[i].score <= 100
      ensures ms[i].steps == CoverNames(steps, MachineSet(ms[i].company.machines))
    {
      var j := RankOrder(u)[i];
      assert ms[i].company == u[j].company == catalog[j];
      assert ms[i].score == u[j].score && ms[i].steps == u[j].steps;
    }
  }

  /**
   * Each catalog company has exactly one match; matches are in descending
   * score order, equal scores in catalog order.
   */
  lemma MatchesRanked(steps: seq<ProcessStep>, catalog: seq<CompanyRow>, boost: Booster)
    ensures var perm := RankOrder(Unranked(steps, catalog, boost));
      (forall j :: 0 <= j < |catalog| ==> j in perm)
      && (forall i, k :: 0 <= i < k < |catalog| ==> perm[i] != perm[k])
    ensures var ms, perm := MatchSpec(steps, catalog, boost), RankOrder(Unranked(steps, catalog, boost));
      forall i, k :: 0 <= i < k < |ms| ==> ms[i].score > ms[k].score || (ms[i].score == ms[k].score && perm[i] < perm[k])
    ensures var ms := MatchSpec(steps, catalog, boost);
      forall i, k :: 0 <= i < k < |ms| ==> ms[i].score >= ms[k].score
  {
    RankedInOrder(Unranked(steps, catalog, boost), steps);
  }

  /** Ranking then attaching, for any matches: every position once, scores descending, ties in original order. */
  lemma RankedInOrder(ms: seq<Match>, steps: seq<ProcessStep>)
    ensures var perm := RankOrder(ms);
      (forall j :: 0 <= j < |ms| ==> j in perm)
      && (forall i, k :: 0 <= i < k < |ms| ==> perm[i] != perm[k])
    ensures var r, perm := AttachAlliance(Rank(ms), steps), RankOrder(ms);
      forall i, k :: 0 <= i < k < |r| ==> r[i].score > r[k].score || (r[i].score == r[k].score && perm[i] < perm[k])
    ensures var r := AttachAlliance(Rank(ms), steps);
      forall i, k :: 0 <= i < k < |r| ==> r[i].score >= r[k].score
  {
    RankSorted(ms);
    AttachOnlyTop(Rank(ms), steps);
  }

  /**
   * Only the top match can carry a proposal. It carries one exactly when no
   * match covers as many distinct step names as there are steps and the
   * greedy loop picked somebody, and then it is that pick.
   */
  lemma AllianceOnTop(steps: seq<ProcessStep>, catalog: seq<CompanyRow>, boost: Booster)
    ensures forall i :: 0 < i < |MatchSpec(steps, catalog, boost)| ==> MatchSpec(steps, catalog, boost)[i].alliance.None?
    ensures var ms, ranked := MatchSpec(steps, catalog, boost), Rank(Unranked(steps, catalog, boost));
      ms != [] ==>
        (ms[0].alliance.Some? <==> !HasFullCover(ms, |steps|) && Greedy(Offers(ranked), RequiredMachines(steps)).0 != [])
        && (ms[0].alliance.Some? ==> ms[0].alliance.value == Greedy(Offers(ranked), RequiredMachines(steps)).0)
  {
    var u := Unranked(steps, catalog, boost);
    UnrankedNoAlliance(steps, catalog, boost);
    RankSorted(u);
    AttachOnTop(Rank(u), steps);
  }

  /** No match carries a proposal before ranking. */
  lemma {:induction false} UnrankedNoAlliance(steps: seq<ProcessStep>, catalog: seq<CompanyRow>, boost: Booster)
    ensures forall m :: m in Unranked(steps, catalog, boost) ==> m.alliance.None?
  {
    if catalog != [] {
      UnrankedNoAlliance(steps, catalog[..|catalog| - 1], boost);
    }
  }

  /** Attaching to matches without proposals: only the top one can get one, and exactly when the program attaches it. */
  lemma AttachOnTop(ranked: seq<Match>, steps: seq<ProcessStep>)
    requires forall m :: m in ranked ==> m.alliance.None?
    ensures forall i :: 0 < i < |ranked| ==> AttachAlliance(ranked, steps)[i].alliance.None?
    ensures var ms := AttachAlliance(ranked, steps);
      ms != [] ==>
        (ms[0].alliance.Some? <==> !HasFullCover(ms, |steps|) && Greedy(Offers(ranked), RequiredMachines(steps)).0 != [])
        && (ms[0].alliance.Some? ==> ms[0].alliance.value == Greedy(Offers(ranked), RequiredMachines(steps)).0)
  {
    AttachOnlyTop(ranked, steps);
    assert forall i :: 0 <= i < |ranked| ==> ranked[i] in ranked;
  }

  /** An empty step list never yields a proposal. */
  lemma NoStepsNoAlliance(catalog: seq<CompanyRow>, boost: Booster)
    ensures forall m :: m in MatchSpec([], catalog, boost) ==> m.alliance.None?
  {
    var ranked := Rank(Unranked([], catalog, boost));
    AllianceOnTop([], catalog, boost);
    assert RequiredMachines([]) == {};
    GreedyNeeded(Offers(ranked), {});
    RankSorted(Unranked([], catalog, boost));
  }

  /** A one-company catalog ranks that company's match alone. */
  lemma SingleCompanyRank(steps: seq<ProcessStep>, company: CompanyRow, boost: Booster)
    ensures Rank(Unranked(steps, [company], boost))
      == [Match(company, StoredScore(RawScore(company, steps, boost)), CoverNames(steps, MachineSet(company.machines)), None)]
  {
    var u := Unranked(steps, [company], boost);
    UnrankedAt(steps, [company], boost);
    RankSorted(u);
  }

  /** The greedy loop over a single offer takes it exactly when it brings a needed machine. */
  lemma GreedySingle(o: Offer, required: set<string>)
    ensures Greedy([o], required) == if required * o.1 != {} then ([o.0], required - o.1) else ([], required)
  {
    assert [o][..0] == [];
    assert Greedy([], required) == ([], required);
    var prev := Greedy([o][..0], required);
    assert prev == ([], required);
    assert prev.0 + [o.0] == [o.0];
  }

  /** A step whose machine is held, listed twice, is covered twice. */
  lemma CoveredTwice(step: ProcessStep, machines: set<string>)
    requires step.machine in machines
    ensures CoverNames([step, step], machines) == [step.name, step.name]
    ensures RequiredMachines([step, step]) == {step.machine}
  {
    assert [step, step][..1] == [step];
    assert [step][..0] == [];
  }

  /** A single match listing one step name twice is not a full cover of two steps. */
  lemma RepeatedNameNotFull(m: Match, name: string)
    requires m.steps == [name, name]
    ensures !HasFullCover([m], 2)
  {
    assert (set x | x in m.steps) == {name};
  }

  /** A lone match that is no full cover and holds a needed machine gets itself as the proposal. */
  lemma AttachSingle(m: Match, steps: seq<ProcessStep>)
    requires !HasFullCover([m], |steps|)
    requires RequiredMachines(steps) * MachineSet(m.company.machines) != {}
    ensures AttachAlliance([m], steps) == [m.(alliance := Some([m.company]))]
  {
    assert Offers([m]) == [(m.company, MachineSet(m.company.machines))];
    GreedySingle((m.company, MachineSet(m.company.machines)), RequiredMachines(steps));
  }

  /**
   * The full-cover test counts distinct step names against the number of
   * steps. With a step listed twice, a company holding its machine takes on
   * both listings, yet that is not a full cover, so a proposal made of that
   * company alone is attached.
   */
  lemma RepeatedStepStillAllies(step: ProcessStep, company: CompanyRow, boost: Booster)
    requires step.machine in MachineSet(company.machines)
    ensures var ms := MatchSpec([step, step], [company], boost);
      |ms| == 1 && ms[0].steps == [step.name, step.name] && ms[0].alliance == Some([company])
  {
    var steps := [step, step];
    CoveredTwice(step, MachineSet(company.machines));
    SingleCompanyRank(steps, company, boost);
    var m := Rank(Unranked(steps, [company], boost))[0];
    RepeatedNameNotFull(m, step.name);
    AttachSingle(m, steps);
  }

  /** Pairwise distinct elements: the set of a sequence has as many elements as the sequence. */
  lemma {:induction false} DistinctCard<T>(s: seq<T>)
    requires forall i, j :: 0 <= i < j < |s| ==> s[i] != s[j]
    ensures |set x | x in s| == |s|
  {
    if s != [] {
      var init, last := s[..|s| - 1], s[|s| - 1];
      DistinctCard(init);
      assert (set x | x in s) == (set x | x in init) + {last};
      assert last !in (set x | x in init);
    }
  }

  /**
   * With pairwise distinct step names, a company that holds every required
   * machine is a full cover, so no match carries a proposal: the alliance is
   * proposed only when no single company can take on the steps.
   */
  lemma SoleCoverNoAlliance(steps: seq<ProcessStep>, catalog: seq<CompanyRow>, boost: Booster, j: nat)
    requires steps != []
    requires forall a, b :: 0 <= a < b < |steps| ==> steps[a].name != steps[b].name
    requires j < |catalog| && RequiredMachines(steps) <= MachineSet(catalog[j].machines)
    ensures HasFullCover(MatchSpec(steps, catalog, boost), |steps|)
    ensures forall i :: 0 <= i < |MatchSpec(steps, catalog, boost)| ==> MatchSpec(steps, catalog, boost)[i].alliance.None?
  {
    var u := Unranked(steps, catalog, boost);
    var ranked := Rank(u);
    SoleCoverUnranked(steps, catalog, boost, j);
    RankKeepsFullCover(u, |steps|);
    assert AttachAlliance(ranked, steps) == ranked;
    UnrankedNoAlliance(steps, catalog, boost);
    RankKeepsNoAlliance(u);
  }

  /** Ranking matches without proposals gives matches without proposals. */
  lemma RankKeepsNoAlliance(ms: seq<Match>)
    requires forall m :: m in ms ==> m.alliance.None?
    ensures forall i :: 0 <= i < |Rank(ms)| ==> Rank(ms)[i].alliance.None?
  {
    RankSorted(ms);
    forall i | 0 <= i < |Rank(ms)| ensures Rank(ms)[i].alliance.None? {
      assert ms[RankOrder(ms)[i]] in ms;
    }
  }

  /** The unranked match of a company holding every required machine lists every (distinct) step name. */
  lemma SoleCoverUnranked(steps: seq<ProcessStep>, catalog: seq<CompanyRow>, boost: Booster, j: nat)
    requires steps != []
    requires forall a, b :: 0 <= a < b < |steps| ==> steps[a].name != steps[b].name
    requires j < |catalog| && RequiredMachines(steps) <= MachineSet(catalog[j].machines)
    ensures HasFullCover(Unranked(steps, catalog, boost), |steps|)
  {
    var u := Unranked(steps, catalog, boost);
    assert forall s :: s in steps ==> s.machine in RequiredMachines(steps);
    FullCoverage(catalog[j], steps);
    UnrankedAt(steps, catalog, boost);
    assert u[j].steps == Names(steps);
    DistinctCard(Names(steps));
  }

  /** Ranking moves whole matches, so a full cover stays a full cover. */
  lemma RankKeepsFullCover(ms: seq<Match>, n: nat)
    requires HasFullCover(ms, n)
    ensures HasFullCover(Rank(ms), n)
  {
    var j :| 0 <= j < |ms| && |set x | x in ms[j].steps| > 0 && |set x | x in ms[j].steps| == n;
    RankSorted(ms);
    assert j in RankOrder(ms);
    var i :| 0 <= i < |RankOrder(ms)| && RankOrder(ms)[i] == j;
    assert Rank(ms)[i] == ms[j];
  }
}
