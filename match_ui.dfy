/**
 * The category view of the matching screen: posted step records are coerced
 * into steps, a task category is selected, the steps are narrowed to that
 * category, and the category's matches are re-sorted so that companies whose
 * machines, skills and notes mention more of the category's keywords come
 * first.
 */
module MatchUi {
  import opened Wrappers
  import opened Text
  import opened Seqs
  import opened Json
  import opened ProcessBreakdown
  import opened TaskMapping
  import opened CompanyMatching
  import opened Ranking
  import DiagramAnalysis

  // ---------------------------------------------------------------------
  // Posted step records
  // ---------------------------------------------------------------------

  /** The record has `key`, and its value is truthy. */
  predicate Present(item: Json, key: string) {
    item.JObject? && key in item.fields && Truthy(item.fields[key])
  }

  /**
   * The step built from one posted record: name, else operation, else the
   * empty string; machine, else the empty string; `int(minutes or 10)`.
   * `Raised` when the record is no object or its minutes do not convert.
   */
  function CoercePostedItem(item: Json): (r: Result<ProcessStep>)
    ensures !item.JObject? ==> r.Raised?
    ensures item.JObject? ==> (r.Ok? <==> !Present(item, "minutes") || PyInt(item.fields["minutes"]).Ok?)
    ensures r.Ok? ==> (r.value.name ==
      if Present(item, "name") then PyStr(item.fields["name"])
      else if Present(item, "operation") then PyStr(item.fields["operation"])
      else "")
    ensures r.Ok? ==> r.value.machine == (if Present(item, "machine") then PyStr(item.fields["machine"]) else "")
    ensures r.Ok? ==> r.value.minutes == (if Present(item, "minutes") then PyInt(item.fields["minutes"]).value else 10)
    ensures r.Ok? ==> r.value.tolerance == (if "tolerance" in item.fields then item.fields["tolerance"] else JNull)
    ensures r.Ok? ==> r.value.precision == (if "precision" in item.fields then item.fields["precision"] else JNull)
  {
    match item
    case JObject(_) =>
      var minutes := PyInt(Or(Get(item, "minutes", JNull).value, JInt(10)));
      if minutes.Raised? then Raised
      else Ok(ProcessStep(
        PyStr(Or(Or(Get(item, "name", JNull).value, Get(item, "operation", JNull).value), JStr(""))),
        PyStr(Or(Get(item, "machine", JNull).value, JStr(""))),
        minutes.value,
        Get(item, "tolerance", JNull).value,
        Get(item, "precision", JNull).value))
    case _ => Raised
  }

  /** The record the screen posts for a step. */
  function PostedRecord(step: ProcessStep): Json {
    JObject(map[
      "name" := JStr(step.name), "machine" := JStr(step.machine), "minutes" := JInt(step.minutes),
      "tolerance" := step.tolerance, "precision" := step.precision])
  }

  /** Posting a step back gives the same step, except that zero minutes become the default 10. */
  lemma PostedRecordRoundTrip(step: ProcessStep)
    ensures CoercePostedItem(PostedRecord(step)) == Ok(step.(minutes := if step.minutes == 0 then 10 else step.minutes))
  {
    var item := PostedRecord(step);
    assert item.fields["name"] == JStr(step.name);
    assert item.fields["machine"] == JStr(step.machine);
    assert item.fields["minutes"] == JInt(step.minutes);
  }

  /** The records that convert, in posted order; the others are skipped. */
  function PostedSteps(items: seq<Json>): seq<ProcessStep> {
    if items == [] then []
    else
      var rest := PostedSteps(items[..|items| - 1]);
      match CoercePostedItem(items[|items| - 1])
      case Ok(st) => rest + [st]
      case Raised => rest
  }

  /** The coercion loop: one step per record that converts, skipping the records that raise. */
  method CoercePosted(items: seq<Json>) returns (steps: seq<ProcessStep>)
    ensures steps == PostedSteps(items)
  {
    steps := [];
    var i := 0;
    while i < |items|
      invariant 0 <= i <= |items|
      invariant steps == PostedSteps(items[..i])
    {
      assert items[..i + 1][..i] == items[..i];
      match CoercePostedItem(items[i]) {
        case Ok(st) => steps := steps + [st];
        case Raised =>
      }
      i := i + 1;
    }
    assert items[..i] == items;
  }

  /** Every posted step is the conversion of some record, and none is invented. */
  lemma {:induction false} PostedStepsSound(items: seq<Json>)
    ensures |PostedSteps(items)| <= |items|
    ensures forall st :: st in PostedSteps(items) ==> exists it :: it in items && CoercePostedItem(it) == Ok(st)
  {
    if items != [] {
      var init := items[..|items| - 1];
      PostedStepsSound(init);
      assert items == init + [items[|items| - 1]];
      forall st | st in PostedSteps(items)
        ensures exists it :: it in items && CoercePostedItem(it) == Ok(st)
      {
        if st in PostedSteps(init) {
          var it :| it in init && CoercePostedItem(it) == Ok(st);
          assert it in items;
        } else {
          assert CoercePostedItem(items[|items| - 1]) == Ok(st);
        }
      }
    }
  }

  /**
   * Coercion works record by record: the steps of a posted list are those of
   * its first part followed by those of the rest, so a record that raises is
   * skipped without disturbing the records around it.
   */
  lemma {:induction false} PostedStepsAppend(a: seq<Json>, b: seq<Json>)
    ensures PostedSteps(a + b) == PostedSteps(a) + PostedSteps(b)
    decreases |b|
  {
    if b == [] {
      assert a + b == a;
    } else {
      var init := b[..|b| - 1];
      assert (a + b)[..|a + b| - 1] == a + init;
      assert (a + b)[|a + b| - 1] == b[|b| - 1];
      PostedStepsAppend(a, init);
    }
  }

  /** A single record gives its conversion, or nothing when it raises. */
  lemma PostedStepsOne(item: Json)
    ensures PostedSteps([item]) == if CoercePostedItem(item).Ok? then [CoercePostedItem(item).value] else []
  {
    assert [item][..0] == [];
  }

  /** A record that raises between two parts of the list is skipped; the steps on both sides stay. */
  lemma PostedStepsSkip(a: seq<Json>, bad: Json, b: seq<Json>)
    requires CoercePostedItem(bad).Raised?
    ensures PostedSteps(a + [bad] + b) == PostedSteps(a) + PostedSteps(b)
  {
    PostedStepsAppend(a + [bad], b);
    PostedStepsAppend(a, [bad]);
    PostedStepsOne(bad);
  }

  /** When every record converts, each gives exactly one step, in posted order. */
  lemma {:induction false} PostedStepsAll(items: seq<Json>)
    requires forall i :: 0 <= i < |items| ==> CoercePostedItem(items[i]).Ok?
    ensures |PostedSteps(items)| == |items|
    ensures forall i :: 0 <= i < |items| ==> PostedSteps(items)[i] == CoercePostedItem(items[i]).value
  {
    if items != [] {
      PostedStepsAll(items[..|items| - 1]);
    }
  }

  /** `(request.get_json(silent=True) or {}).get('steps')`: raises when the body is a truthy non-object. */
  function StepsField(body: Json): (r: Result<Json>)
    ensures !Truthy(body) ==> r == Ok(JNull)
    ensures body.JObject? ==> r == Ok(if "steps" in body.fields then body.fields["steps"] else JNull)
    ensures Truthy(body) && !body.JObject? ==> r.Raised?
  {
    Get(Or(body, JObject(map[])), "steps", JNull)
  }

  /** A truthy list of posted records. */
  predicate PostedList(stepsIn: Json) {
    Truthy(stepsIn) && stepsIn.JArray?
  }

  /** The steps of the plain match route: the coerced records (possibly none) of a posted list, else the last steps. */
  function MatchRouteSteps(stepsIn: Json, last: seq<ProcessStep>): seq<ProcessStep> {
    if PostedList(stepsIn) then PostedSteps(stepsIn.items) else last
  }

  /** The steps of the category view: the coerced records replace the current steps only when there is at least one. */
  function UiSteps(stepsIn: Json, current: seq<ProcessStep>): (r: seq<ProcessStep>)
    ensures PostedList(stepsIn) && PostedSteps(stepsIn.items) != [] ==> r == PostedSteps(stepsIn.items)
    ensures !(PostedList(stepsIn) && PostedSteps(stepsIn.items) != []) ==> r == current
    ensures current != [] ==> r != []
  {
    if PostedList(stepsIn) && PostedSteps(stepsIn.items) != [] then PostedSteps(stepsIn.items) else current
  }

  /** The posted-steps part of the match route: reads the body, coerces a posted list. */
  method PostedMatchSteps(body: Json, last: seq<ProcessStep>) returns (steps: Result<seq<ProcessStep>>)
    ensures steps.Raised? <==> StepsField(body).Raised?
    ensures steps.Ok? ==> steps.value == MatchRouteSteps(StepsField(body).value, last)
  {
    var stepsIn := StepsField(body);
    if stepsIn.Raised? {
      return Raised;
    }
    if PostedList(stepsIn.value) {
      var coerced := CoercePosted(stepsIn.value.items);
      steps := Ok(coerced);
    } else {
      steps := Ok(last);
    }
  }

  /** The posted-steps part of the category view: reads the body, coerces a posted list, keeps it only when non-empty. */
  method PostedUiSteps(body: Json, current: seq<ProcessStep>) returns (steps: Result<seq<ProcessStep>>)
    ensures steps.Raised? <==> StepsField(body).Raised?
    ensures steps.Ok? ==> steps.value == UiSteps(StepsField(body).value, current)
  {
    var stepsIn := StepsField(body);
    if stepsIn.Raised? {
      return Raised;
    }
    var next := current;
    if PostedList(stepsIn.value) {
      var coerced := CoercePosted(stepsIn.value.items);
      if coerced != [] {
        next := coerced;
      }
    }
    steps := Ok(next);
  }

  // ---------------------------------------------------------------------
  // Category selection and scope
  // ---------------------------------------------------------------------

  /** `normalize_category_key(task) or 'drilling'`. */
  function SelectCategory(task: Option<string>): (k: string)
    ensures IsCategoryKey(k)
    ensures NormalizeCategoryKey(task) == Some(k) || (NormalizeCategoryKey(task).None? && k == DefaultKey)
  {
    match NormalizeCategoryKey(task)
    case Some(key) => key
    case None => DefaultKey
  }

  /** Selecting the selected key again keeps it. */
  lemma SelectIdempotent(task: Option<string>)
    ensures SelectCategory(Some(SelectCategory(task))) == SelectCategory(task)
  {
    CanonicalKeyFixed(SelectCategory(task));
  }

  /** The steps of a group, without their positions. */
  function GroupSteps(g: seq<(nat, ProcessStep)>): (r: seq<ProcessStep>)
    ensures |r| == |g|
    ensures forall i :: 0 <= i < |g| ==> r[i] == g[i].1
  {
    seq(|g|, i requires 0 <= i < |g| => g[i].1)
  }

  /** The steps classified under `key`, in step order. */
  function InCategory(steps: seq<ProcessStep>, key: string, classify: Classifier): seq<ProcessStep> {
    GroupSteps(Group(steps, key, classify))
  }

  /** The steps matched in the category view: those of the category, or all steps when it has none. */
  function Scope(steps: seq<ProcessStep>, key: string, classify: Classifier): seq<ProcessStep> {
    var inCat := InCategory(steps, key, classify);
    if inCat != [] then inCat else steps
  }

  /** The category's steps are an in-order selection of the steps, holding exactly those classified under it. */
  lemma {:induction false} InCategoryExact(steps: seq<ProcessStep>, key: string, classify: Classifier)
    ensures IsSubsequence(InCategory(steps, key, classify), steps)
    ensures forall s :: s in InCategory(steps, key, classify) <==> s in steps && classify(s) == Some(key)
    ensures |InCategory(steps, key, classify)| == CountIn(steps, key, classify)
  {
    GroupSize(steps, key, classify);
    if steps != [] {
      var init, last := steps[..|steps| - 1], steps[|steps| - 1];
      InCategoryExact(init, key, classify);
      var prev := InCategory(init, key, classify);
      assert steps == init + [last];
      if classify(last) == Some(key) {
        assert InCategory(steps, key, classify) == prev + [last];
        SubsequenceKeep(prev, init, last);
      } else {
        assert InCategory(steps, key, classify) == prev;
        SubsequenceSkip(prev, init, last);
      }
    }
  }

  /** The scope is empty only for an empty step list, and is a selection of the steps. */
  lemma ScopeShape(steps: seq<ProcessStep>, key: string, classify: Classifier)
    ensures Scope(steps, key, classify) == [] <==> steps == []
    ensures IsSubsequence(Scope(steps, key, classify), steps)
    ensures CountIn(steps, key, classify) == 0 ==> Scope(steps, key, classify) == steps
  {
    InCategoryExact(steps, key, classify);
    if steps != [] {
      SelfSubsequence(steps);
    }
  }

  lemma {:induction false} SelfSubsequence<T>(s: seq<T>)
    ensures IsSubsequence(s, s)
  {
    if s != [] {
      SelfSubsequence(s[..|s| - 1]);
      SubsequenceKeep(s[..|s| - 1], s[..|s| - 1], s[|s| - 1]);
      assert s[..|s| - 1] + [s[|s| - 1]] == s;
    }
  }

  /** `[s for _, s in cat_map.get(sel_key, [])]`, else all steps. */
  method ScopeFor(steps: seq<ProcessStep>, key: string) returns (scope: seq<ProcessStep>)
    ensures scope == Scope(steps, key, ClassifyStep)
  {
    var catMap := StepsByCategory(steps);
    var inCat := if key in catMap then GroupSteps(catMap[key]) else [];
    scope := if inCat != [] then inCat else steps;
  }

  // ---------------------------------------------------------------------
  // Keyword priority
  // ---------------------------------------------------------------------

  function LowerAll(ws: seq<string>): (r: seq<string>)
    ensures |r| == |ws|
    ensures forall i :: 0 <= i < |ws| ==> r[i] == Lower(ws[i])
  {
    seq(|ws|, i requires 0 <= i < |ws| => Lower(ws[i]))
  }

  /** `[k.lower() for k in keywords_for_category(sel_key)]`. */
  function PriorityKeys(key: string): seq<string> {
    LowerAll(KeywordsForCategory(key))
  }

  /** The keywords are lowercase already, so lowering them again changes nothing. */
  lemma PriorityKeysAreKeywords(key: string)
    ensures PriorityKeys(key) == KeywordsForCategory(key)
  {
    var kws := KeywordsForCategory(key);
    KeywordsNormalized(key);
    assert forall i :: 0 <= i < |kws| ==> kws[i] in kws;
  }

  /** `prio_count(m)`: the keywords found in the company's lowered machines, skills and notes. */
  function PrioCount(m: Match, keys: seq<string>): (n: nat)
    ensures n <= |keys|
  {
    KeywordHits(keys, CompanyText(m.company))
  }

  /** The non-empty keywords that the text contains. */
  function FoundKeywords(kws: seq<string>, text: string): set<string> {
    set w | w in kws && w != "" && Contains(text, w)
  }

  /** With distinct keywords, the hit count is the number of distinct keywords found. */
  lemma {:induction false} KeywordHitsCountsFound(kws: seq<string>, text: string)
    requires forall i, j :: 0 <= i < j < |kws| ==> kws[i] != kws[j]
    ensures KeywordHits(kws, text) == |FoundKeywords(kws, text)|
  {
    if kws == [] {
      assert FoundKeywords(kws, text) == {};
    } else {
      var init, w := kws[..|kws| - 1], kws[|kws| - 1];
      KeywordHitsCountsFound(init, text);
      assert kws == init + [w];
      forall i | 0 <= i < |init| ensures init[i] != w {
        assert init[i] == kws[i];
      }
      if w != "" && Contains(text, w) {
        assert FoundKeywords(kws, text) == FoundKeywords(init, text) + {w};
      } else {
        assert FoundKeywords(kws, text) == FoundKeywords(init, text);
      }
    }
  }

  /** The category keywords are distinct, so a company's priority is the number of distinct keywords it mentions. */
  lemma PrioCountIsFound(m: Match, key: string)
    ensures PrioCount(m, PriorityKeys(key)) == |FoundKeywords(KeywordsForCategory(key), CompanyText(m.company))|
  {
    PriorityKeysAreKeywords(key);
    var kws := KeywordsForCategory(key);
    forall i, j | 0 <= i < j < |kws| ensures kws[i] != kws[j] {
      ShortLexStrictTotal(kws[i], kws[j], kws[j]);
    }
    KeywordHitsCountsFound(kws, CompanyText(m.company));
  }

  /** The sort key `(prio_count(m), m.score)` of each match. */
  function PrioKeys(ms: seq<Match>, keys: seq<string>): (r: seq<SortKey>)
    ensures |r| == |ms|
    ensures forall i :: 0 <= i < |ms| ==> r[i] == SortKey(PrioCount(ms[i], keys), ms[i].score)
  {
    seq(|ms|, i requires 0 <= i < |ms| => SortKey(PrioCount(ms[i], keys), ms[i].score))
  }

  /** `sorted(matches, key=lambda m: (prio_count(m), m.score), reverse=True)`, as the positions it puts first. */
  function ViewOrder(ms: seq<Match>, keys: seq<string>): (perm: seq<nat>)
    ensures |perm| == |ms|
    ensures forall i :: 0 <= i < |perm| ==> perm[i] < |ms|
  {
    StableSortDesc(PrioKeys(ms, keys))
  }

  function CategoryView(ms: seq<Match>, keys: seq<string>): (r: seq<Match>)
    ensures |r| == |ms|
  {
    ApplyPerm(ms, ViewOrder(ms, keys))
  }

  /**
   * The view holds every match exactly once, ordered by keyword priority,
   * then score, both descending; equal pairs keep their prior order.
   */
  lemma CategoryViewSorted(ms: seq<Match>, keys: seq<string>)
    ensures forall i :: 0 <= i < |ms| ==> CategoryView(ms, keys)[i] == ms[ViewOrder(ms, keys)[i]]
    ensures forall j :: 0 <= j < |ms| ==> j in ViewOrder(ms, keys)
    ensures forall i, k :: 0 <= i < k < |ms| ==> ViewOrder(ms, keys)[i] != ViewOrder(ms, keys)[k]
    ensures forall i, k :: 0 <= i < k < |ms| ==>
      var a, b := CategoryView(ms, keys)[i], CategoryView(ms, keys)[k];
      PrioCount(a, keys) > PrioCount(b, keys)
      || (PrioCount(a, keys) == PrioCount(b, keys) && a.score > b.score)
      || (PrioCount(a, keys) == PrioCount(b, keys) && a.score == b.score && ViewOrder(ms, keys)[i] < ViewOrder(ms, keys)[k])
  {
    StableSortCorrect(PrioKeys(ms, keys));
  }

  /** When every match has the same priority, re-sorting a score ranking leaves it as it was. */
  lemma EqualPriorityKeepsRanking(ms: seq<Match>, keys: seq<string>)
    requires forall i, k :: 0 <= i < k < |ms| ==> ms[i].score >= ms[k].score
    requires forall i :: 0 <= i < |ms| ==> PrioCount(ms[i], keys) == PrioCount(ms[0], keys)
    ensures CategoryView(ms, keys) == ms
  {
    var pk := PrioKeys(ms, keys);
    assert NonIncreasing(pk);
    SortedStaysPut(pk);
  }

  /** A category without keywords shows the matches in their score ranking. */
  lemma NoKeywordsKeepsRanking(steps: seq<ProcessStep>, catalog: seq<CompanyRow>, boost: Booster)
    ensures CategoryView(MatchSpec(steps, catalog, boost), []) == MatchSpec(steps, catalog, boost)
  {
    var ms := MatchSpec(steps, catalog, boost);
    MatchesRanked(steps, catalog, boost);
    NoKeywordsNoReorder(ms);
  }

  /** Without keywords every match has priority 0, so matches in score order stay put. */
  lemma NoKeywordsNoReorder(ms: seq<Match>)
    requires forall i, k :: 0 <= i < k < |ms| ==> ms[i].score >= ms[k].score
    ensures CategoryView(ms, []) == ms
  {
    assert forall i :: 0 <= i < |ms| ==> PrioCount(ms[i], []) == 0;
    EqualPriorityKeepsRanking(ms, []);
  }

  // ---------------------------------------------------------------------
  // The view
  // ---------------------------------------------------------------------

  /** What the category view shows: the selected key, the steps, the full and the category matches, and the tabs. */
  datatype View = View(selected: string, steps: seq<ProcessStep>, full: seq<Match>, matches: seq<Match>, tabs: seq<Tab>)

  /** `categories_for_steps` as a function of the steps. */
  function TabsOf(steps: seq<ProcessStep>): seq<Tab> {
    if PresentTabs(Cats, steps, ClassifyStep) != [] then PresentTabs(Cats, steps, ClassifyStep) else FallbackTabs()
  }

  /** The steps the view works on: the posted or current steps, or the planned steps when there are none. */
  function ViewSteps(stepsIn: Json, current: seq<ProcessStep>, features: Option<DiagramAnalysis.Features>, reply: Json): seq<ProcessStep> {
    var steps := UiSteps(stepsIn, current);
    if steps == [] && features.Some? then Plan(features.value, reply) else steps
  }

  /** The steps part of `match_ui`: the posted steps of a POST, else the current ones, else the planned ones. */
  method StepsForView(current: seq<ProcessStep>, post: Option<Json>, features: Option<DiagramAnalysis.Features>, reply: Json)
    returns (r: Result<seq<ProcessStep>>)
    ensures r.Raised? <==> post.Some? && StepsField(post.value).Raised?
    ensures r.Ok? ==>
      r.value == ViewSteps(if post.Some? then StepsField(post.value).value else JNull, current, features, reply)
  {
    var steps := current;
    if post.Some? {
      var posted := PostedUiSteps(post.value, current);
      if posted.Raised? {
        return Raised;
      }
      steps := posted.value;
    }
    if steps == [] && features.Some? {
      steps := BreakdownProcess(features.value, reply);
    }
    r := Ok(steps);
  }

  /** The matching part of `match_ui`, for the steps in effect. */
  method ViewFor(steps: seq<ProcessStep>, task: Option<string>, catalog: seq<CompanyRow>) returns (v: View)
    ensures var sel := SelectCategory(task);
      var scope := Scope(steps, sel, ClassifyStep);
      v == View(
        sel, steps,
        if steps != [] then MatchSpec(steps, catalog, StepBoost) else [],
        if scope != [] then CategoryView(MatchSpec(scope, catalog, StepBoost), PriorityKeys(sel)) else [],
        TabsOf(steps))
  {
    var sel := SelectCategory(task);
    var scope := ScopeFor(steps, sel);

    var full: seq<Match> := [];
    if steps != [] {
      full := MatchCompanies(steps, catalog);
    }
    var matches: seq<Match> := [];
    if scope != [] {
      matches := MatchCompanies(scope, catalog);
    }
    matches := CategoryView(matches, PriorityKeys(sel));

    var tabs := CategoriesForSteps(steps);
    v := View(sel, steps, full, matches, tabs);
  }

  /**
   * `match_ui`: `post` is the request body of a POST (`None` for a GET),
   * `features` the last drawing features, `reply` the model's process
   * reply, `task` the query parameter and `catalog` the company store.
   */
  method MatchView(
    current: seq<ProcessStep>, post: Option<Json>, features: Option<DiagramAnalysis.Features>, reply: Json,
    task: Option<string>, catalog: seq<CompanyRow>)
    returns (r: Result<View>)
    ensures r.Raised? <==> post.Some? && StepsField(post.value).Raised?
    ensures r.Ok? ==>
      var stepsIn := if post.Some? then StepsField(post.value).value else JNull;
      var steps := ViewSteps(stepsIn, current, features, reply);
      var sel := SelectCategory(task);
      var scope := Scope(steps, sel, ClassifyStep);
      r.value == View(
        sel, steps,
        if steps != [] then MatchSpec(steps, catalog, StepBoost) else [],
        if scope != [] then CategoryView(MatchSpec(scope, catalog, StepBoost), PriorityKeys(sel)) else [],
        TabsOf(steps))
  {
    var steps := StepsForView(current, post, features, reply);
    if steps.Raised? {
      return Raised;
    }
    var v := ViewFor(steps.value, task, catalog);
    r := Ok(v);
  }
}
