/**
 * The task taxonomy: six ordered task categories, each with synonym phrases
 * and equipment names (Japanese and English), an alias table for old UI
 * names, and the lookups and classifiers built on them.
 */
module TaskMapping {
  import opened Wrappers
  import opened Text
  import opened ProcessBreakdown

  /** One task category: canonical key, display label (`display`), synonym phrases and equipment names. */
  datatype TaskCategory = TaskCategory(key: string, display: string, synonyms: seq<string>, machines: seq<string>)

  /** The taxonomy, in declaration order; that order is the classifiers' tie-break. */
  const Cats: seq<TaskCategory> := [
    TaskCategory(
      "drilling", "Drilling / 穴あけ",
      ["drill", "drilling", "穴", "穴あけ", "下穴", "座ぐり", "カウンターボア", "ream", "reaming", "リーマ", "boring", "ボーリング", "tap", "tapping", "タップ", "タッピング", "ねじ立て"],
      ["drill press", "ボール盤", "卓上ボール盤", "tapping center", "タッピングセンタ", "リーマ", "ボーリングヘッド"]),
    TaskCategory(
      "milling", "Milling / フライス",
      ["mill", "milling", "フライス", "エンドミル", "マシニング", "切削", "端面", "側面", "vmc", "hmc", "加工センタ", "マシニングセンタ", "ポケット", "溝削り"],
      ["VMC", "立形マシニングセンタ", "HMC", "横形マシニングセンタ", "フライス盤", "汎用フライス"]),
    TaskCategory(
      "turning", "Turning / 旋削",
      ["turn", "turning", "lathe", "旋削", "旋盤", "突切り", "外径", "内径"],
      ["NC旋盤", "CNC lathe", "旋盤", "複合旋盤"]),
    TaskCategory(
      "cutting", "Cutting / 切断",
      ["cut", "cutting", "切断", "レーザ", "レーザー", "plasma", "プラズマ", "waterjet", "ウォータージェット", "saw", "ノコ", "バンドソー", "せん断"],
      ["レーザー加工機", "ファイバーレーザー", "CO2レーザー", "ウォータージェット", "プラズマ切断機", "バンドソー", "丸ノコ", "シャーリング"]),
    TaskCategory(
      "finishing", "Finishing / 仕上げ",
      ["finish", "finishing", "研磨", "研削", "polish", "grind", "バフ", "deburr", "面取り", "バリ取り", "ラッピング", "ホーニング", "バレル"],
      ["研削盤", "平面研削盤", "円筒研削盤", "バレル研磨機", "ブラスト", "ショットブラスト"]),
    TaskCategory(
      "inspection", "Inspection / 検査",
      ["inspection", "inspect", "検査", "測定", "計測", "寸法検査", "CMM", "三次元"],
      ["三次元測定機", "CMM", "投影機", "マイクロメータ", "ハイトゲージ"])
  ]

  /** Old UI names and common words, mapped to canonical keys. */
  const Aliases: map<string, string> := map[
    "drilling" := "drilling", "穴あけ" := "drilling", "穴" := "drilling", "tap" := "drilling",
    "tapping" := "drilling", "タッピング" := "drilling",
    "milling" := "milling", "フライス" := "milling", "マシニング" := "milling", "vmc" := "milling", "hmc" := "milling",
    "cutting" := "cutting", "切断" := "cutting", "レーザー" := "cutting", "waterjet" := "cutting",
    "ウォータージェット" := "cutting",
    "finishing" := "finishing", "仕上げ" := "finishing", "研磨" := "finishing", "研削" := "finishing",
    "turning" := "turning", "旋削" := "turning", "旋盤" := "turning", "lathe" := "turning",
    "inspection" := "inspection", "検査" := "inspection", "三次元" := "inspection", "cmm" := "inspection"
  ]

  /** The category shown first when nothing else is selected. */
  const DefaultKey := "drilling"

  /** The four tabs suggested when no step is classifiable. */
  const FallbackKeys: seq<string> := ["drilling", "milling", "cutting", "finishing"]

  /** The declared keys, in declaration order. */
  const CategoryKeys: seq<string> := ["drilling", "milling", "turning", "cutting", "finishing", "inspection"]

  /** `k` is the key of a declared category. */
  predicate IsCategoryKey(k: string) {
    k in CategoryKeys
  }

  /** The key list is the taxonomy's keys, and they are pairwise distinct. */
  lemma KeysOfCats()
    ensures |Cats| == |CategoryKeys| == 6
    ensures forall i :: 0 <= i < |Cats| ==> Cats[i].key == CategoryKeys[i]
    ensures forall i, j :: 0 <= i < j < |Cats| ==> Cats[i].key != Cats[j].key
  {
  }

  /** `TASK_CATEGORIES.get(key)`: the category with that key. */
  function FindCategory(key: string): (r: Option<TaskCategory>)
    ensures r.Some? <==> IsCategoryKey(key)
    ensures r.Some? ==> exists i :: 0 <= i < |Cats| && Cats[i] == r.value && r.value.key == key
  {
    KeysOfCats();
    FindIn(Cats, key)
  }

  function FindIn(cats: seq<TaskCategory>, key: string): (r: Option<TaskCategory>)
    ensures r.Some? <==> exists i :: 0 <= i < |cats| && cats[i].key == key
    ensures r.Some? ==> exists i :: 0 <= i < |cats| && cats[i] == r.value && r.value.key == key
  {
    if cats == [] then None
    else if cats[0].key == key then Some(cats[0])
    else
      var r := FindIn(cats[1..], key);
      assert r.Some? ==> exists i :: 0 <= i < |cats[1..]| && cats[1..][i] == r.value;
      r
  }

  /** The position of a declared key in the taxonomy. */
  function IndexOfKey(key: string): (i: nat)
    requires IsCategoryKey(key)
    ensures i < |Cats| && Cats[i].key == key
  {
    KeysOfCats();
    var i :| 0 <= i < |Cats| && Cats[i].key == key; i
  }

  // ---------------------------------------------------------------------
  // Category keys and aliases
  // ---------------------------------------------------------------------

  /** Every alias points at a declared category, and every key is its own alias. */
  lemma AliasTargetsAreKeys()
    ensures forall a :: a in Aliases ==> IsCategoryKey(Aliases[a])
    ensures forall k :: IsCategoryKey(k) ==> k in Aliases && Aliases[k] == k
  {
  }

  /** `normalize_category_key`: empty input gives None; otherwise the alias, or the key itself, of the trimmed lowered text. */
  function NormalizeCategoryKey(s: Option<string>): (r: Option<string>)
    ensures s.None? || s == Some("") ==> r.None?
    ensures r.Some? ==> IsCategoryKey(r.value)
  {
    if s.None? || s.value == "" then None
    else
      var k := Lower(Strip(s.value));
      AliasTargetsAreKeys();
      if k in Aliases then Some(Aliases[k])
      else if IsCategoryKey(k) then Some(k)
      else None
  }

  /** A canonical key is already trimmed and lowercase. */
  lemma KeyIsNormal(k: string)
    requires IsCategoryKey(k)
    ensures Lower(Strip(k)) == k
  {
    if k == "drilling" {
      NormalWord(k);
    } else if k == "milling" {
      NormalWord(k);
    } else if k == "turning" {
      NormalWord(k);
    } else if k == "cutting" {
      NormalWord(k);
    } else if k == "finishing" {
      NormalWord(k);
    } else {
      assert k == "inspection";
      NormalWord(k);
    }
  }

  /** Lowercase ASCII letters are left alone by trimming and lowering. */
  lemma NormalWord(k: string)
    requires forall i :: 0 <= i < |k| ==> IsLowerAscii(k[i])
    ensures Lower(Strip(k)) == k
  {
    StripTrimmed(k);
    LoweredFixed(k);
  }

  /** A canonical key normalizes to itself. */
  lemma CanonicalKeyFixed(k: string)
    requires IsCategoryKey(k)
    ensures NormalizeCategoryKey(Some(k)) == Some(k)
  {
    AliasTargetsAreKeys();
    KeyIsNormal(k);
  }

  /** Normalizing twice is normalizing once: every result is a canonical key. */
  lemma NormalizeIdempotent(s: Option<string>)
    ensures NormalizeCategoryKey(NormalizeCategoryKey(s)) == NormalizeCategoryKey(s)
  {
    var r := NormalizeCategoryKey(s);
    if r.Some? {
      CanonicalKeyFixed(r.value);
    }
  }

  // ---------------------------------------------------------------------
  // Keywords of a category
  // ---------------------------------------------------------------------

  /** Strictly increasing in the `(len, text)` order, hence free of duplicates. */
  predicate StrictlySorted(ws: seq<string>) {
    forall i, j :: 0 <= i < j < |ws| ==> ShortLexLess(ws[i], ws[j])
  }

  /** Inserts `w` into a strictly sorted list unless it is already there. */
  function InsertWord(w: string, ws: seq<string>): (r: seq<string>)
    requires StrictlySorted(ws)
    ensures StrictlySorted(r)
    ensures forall v :: v in r <==> v == w || v in ws
  {
    if ws == [] then [w]
    else if w == ws[0] then ws
    else if ShortLexLess(w, ws[0]) then
      forall j | 0 <= j < |ws| ensures ShortLexLess(w, ws[j]) {
        ShortLexStrictTotal(w, ws[0], ws[j]);
      }
      [w] + ws
    else
      var rest := InsertWord(w, ws[1..]);
      ShortLexStrictTotal(w, ws[0], w);
      assert forall v :: v in rest ==> ShortLexLess(ws[0], v);
      [ws[0]] + rest
  }

  /** The normalized form of one phrase: trimmed, then lowered. */
  function NormWord(x: string): string {
    Lower(Strip(x))
  }

  /** `_lc_words`: the distinct trimmed, lowered, non-empty phrases, sorted by `(len, text)`. */
  function LcWords(xs: seq<string>): (r: seq<string>)
    ensures StrictlySorted(r)
  {
    if xs == [] then []
    else
      var rest := LcWords(xs[..|xs| - 1]);
      var x := xs[|xs| - 1];
      if Strip(x) == "" then rest else InsertWord(NormWord(x), rest)
  }

  /** The keywords are exactly the normalized forms of the phrases that are not blank. */
  lemma LcWordsMembers(xs: seq<string>)
    ensures forall w :: w in LcWords(xs) <==> exists i :: 0 <= i < |xs| && Strip(xs[i]) != "" && w == NormWord(xs[i])
  {
    LcWordsSound(xs);
    LcWordsComplete(xs);
  }

  /** Every keyword comes from a phrase that is not blank. */
  lemma {:induction false} LcWordsSound(xs: seq<string>)
    ensures forall w :: w in LcWords(xs) ==> exists i :: 0 <= i < |xs| && Strip(xs[i]) != "" && w == NormWord(xs[i])
  {
    if xs != [] {
      var init := xs[..|xs| - 1];
      var last := |xs| - 1;
      LcWordsSound(init);
      forall w | w in LcWords(xs) ensures exists i :: 0 <= i < |xs| && Strip(xs[i]) != "" && w == NormWord(xs[i]) {
        if w in LcWords(init) {
          var i :| 0 <= i < |init| && Strip(init[i]) != "" && w == NormWord(init[i]);
          assert init[i] == xs[i];
        } else {
          assert Strip(xs[last]) != "" && w == NormWord(xs[last]);
        }
      }
    }
  }

  /** Every phrase that is not blank contributes its normalized form. */
  lemma {:induction false} LcWordsComplete(xs: seq<string>)
    ensures forall i :: 0 <= i < |xs| && Strip(xs[i]) != "" ==> NormWord(xs[i]) in LcWords(xs)
  {
    if xs != [] {
      var init := xs[..|xs| - 1];
      LcWordsComplete(init);
      LcWordsStep(xs);
      forall i | 0 <= i < |xs| && Strip(xs[i]) != "" ensures NormWord(xs[i]) in LcWords(xs) {
        if i < |xs| - 1 {
          assert init[i] == xs[i];
        }
      }
    }
  }

  /** One more phrase keeps every keyword and adds its own normalized form unless it is blank. */
  lemma LcWordsStep(xs: seq<string>)
    requires xs != []
    ensures forall w :: w in LcWords(xs[..|xs| - 1]) ==> w in LcWords(xs)
    ensures Strip(xs[|xs| - 1]) != "" ==> NormWord(xs[|xs| - 1]) in LcWords(xs)
  {
  }

  /** Every keyword is non-empty, trimmed and already lowercase. */
  lemma LcWordsNormalized(xs: seq<string>)
    ensures forall w :: w in LcWords(xs) ==> w != "" && Strip(w) == w && Lower(w) == w
  {
    LcWordsMembers(xs);
    forall w | w in LcWords(xs) ensures w != "" && Strip(w) == w && Lower(w) == w {
      var i :| 0 <= i < |xs| && Strip(xs[i]) != "" && w == NormWord(xs[i]);
      NormWordNormal(xs[i]);
    }
  }

  /** `keywords_for_category`: [] for an unknown key, else the category's normalized phrases. */
  function KeywordsForCategory(key: string): (r: seq<string>)
    ensures !IsCategoryKey(key) ==> r == []
    ensures StrictlySorted(r)
    ensures IsCategoryKey(key) ==>
      forall w :: w in r <==>
        exists t :: t in Cats[IndexOfKey(key)].synonyms + Cats[IndexOfKey(key)].machines && Strip(t) != "" && w == NormWord(t)
  {
    match FindCategory(key)
    case None => []
    case Some(cat) =>
      KeysOfCats();
      var xs := cat.synonyms + cat.machines;
      var r := LcWords(xs);
      LcWordsMembers(xs);
      assert cat == Cats[IndexOfKey(key)];
      assert forall t :: t in xs <==> exists i :: 0 <= i < |xs| && xs[i] == t;
      r
  }

  /** Every keyword of a category is non-empty, trimmed and lowercase. */
  lemma KeywordsNormalized(key: string)
    ensures forall w :: w in KeywordsForCategory(key) ==> w != "" && Strip(w) == w && Lower(w) == w
  {
    forall w | w in KeywordsForCategory(key) ensures w != "" && Strip(w) == w && Lower(w) == w {
      var c := Cats[IndexOfKey(key)];
      var t :| t in c.synonyms + c.machines && Strip(t) != "" && w == NormWord(t);
      NormWordNormal(t);
    }
  }

  /** The normalized form of a phrase that is not blank is non-empty, trimmed and lowercase. */
  lemma NormWordNormal(t: string)
    requires Strip(t) != ""
    ensures NormWord(t) != "" && Strip(NormWord(t)) == NormWord(t) && Lower(NormWord(t)) == NormWord(t)
  {
    StripSpec(t);
    LowerKeepsTrimmed(Strip(t));
    StripTrimmed(NormWord(t));
    LowerIsLowered(Strip(t));
  }

  // ---------------------------------------------------------------------
  // Classification
  // ---------------------------------------------------------------------

  /** Some token, lowered, occurs in the lowered input `m`. */
  predicate TokenHit(tokens: seq<string>, m: string) {
    exists t :: t in tokens && Contains(m, Lower(t))
  }

  /** Category `c` matches `m` in the equipment pass (`byMachines`) or in the synonym pass. */
  predicate CategoryHit(c: TaskCategory, m: string, byMachines: bool) {
    TokenHit(if byMachines then c.machines else c.synonyms, m)
  }

  /** The first category, in declaration order, that matches in the given pass. */
  function FirstHit(cats: seq<TaskCategory>, m: string, byMachines: bool): (r: Option<nat>)
    ensures r.Some? ==> r.value < |cats| && CategoryHit(cats[r.value], m, byMachines)
    ensures r.Some? ==> forall j :: 0 <= j < r.value ==> !CategoryHit(cats[j], m, byMachines)
    ensures r.None? <==> forall j :: 0 <= j < |cats| ==> !CategoryHit(cats[j], m, byMachines)
  {
    if cats == [] then None
    else if CategoryHit(cats[0], m, byMachines) then Some(0)
    else
      match FirstHit(cats[1..], m, byMachines)
      case None => None
      case Some(k) => Some(k + 1)
  }

  /** The text the classifier searches: the machine name trimmed and lowered. */
  function MachineText(machine: string): string {
    Lower(Strip(machine))
  }

  /** `classify_machine`: the equipment pass over every category, then the synonym pass. */
  function ClassifyMachine(machine: string): (r: Option<string>)
    ensures Strip(machine) == "" ==> r.None?
    ensures r.Some? ==> IsCategoryKey(r.value)
    ensures r.Some? <==>
      MachineText(machine) != "" &&
      exists j, byMachines :: 0 <= j < |Cats| && CategoryHit(Cats[j], MachineText(machine), byMachines)
  {
    var m := MachineText(machine);
    KeysOfCats();
    if m == "" then None
    else
      match FirstHit(Cats, m, true)
      case Some(i) => Some(Cats[i].key)
      case None =>
        match FirstHit(Cats, m, false)
        case Some(i) => Some(Cats[i].key)
        case None => None
  }

  /**
   * Equipment names take precedence: when some category's equipment name
   * occurs, the result is the first such category, whatever synonyms of
   * earlier categories occur as well.
   */
  lemma MachinesBeforeSynonyms(machine: string, j: nat)
    requires j < |Cats| && MachineText(machine) != ""
    requires CategoryHit(Cats[j], MachineText(machine), true)
    ensures exists i :: (0 <= i <= j && ClassifyMachine(machine) == Some(Cats[i].key)
      && CategoryHit(Cats[i], MachineText(machine), true)
      && forall k :: 0 <= k < i ==> !CategoryHit(Cats[k], MachineText(machine), true))
  {
    var r := FirstHit(Cats, MachineText(machine), true);
    assert r.Some?;
  }

  /** Without any equipment name, the first category whose synonym occurs wins. */
  lemma SynonymsWhenNoMachine(machine: string, j: nat)
    requires j < |Cats| && MachineText(machine) != ""
    requires forall k :: 0 <= k < |Cats| ==> !CategoryHit(Cats[k], MachineText(machine), true)
    requires CategoryHit(Cats[j], MachineText(machine), false)
    ensures exists i :: (0 <= i <= j && ClassifyMachine(machine) == Some(Cats[i].key)
      && CategoryHit(Cats[i], MachineText(machine), false)
      && forall k :: 0 <= k < i ==> !CategoryHit(Cats[k], MachineText(machine), false))
  {
    var m := MachineText(machine);
    SecondPass(Cats, m, j);
    var i := FirstHit(Cats, m, false).value;
    assert ClassifyMachine(machine) == Some(Cats[i].key);
  }

  /** With no hit in the first pass, the second pass finds a hit no later than any known one. */
  lemma SecondPass(cats: seq<TaskCategory>, m: string, j: nat)
    requires j < |cats|
    requires forall k :: 0 <= k < |cats| ==> !CategoryHit(cats[k], m, true)
    requires CategoryHit(cats[j], m, false)
    ensures FirstHit(cats, m, true).None?
    ensures FirstHit(cats, m, false).Some? && FirstHit(cats, m, false).value <= j
  {
  }

  /** `classify_step`: the machine's category when there is one, otherwise the step name's alias. */
  function ClassifyStep(step: ProcessStep): (r: Option<string>)
    ensures ClassifyMachine(step.machine).Some? ==> r == ClassifyMachine(step.machine)
    ensures ClassifyMachine(step.machine).None? ==> r == NormalizeCategoryKey(Some(Lower(step.name)))
    ensures r.Some? ==> IsCategoryKey(r.value)
  {
    var k := ClassifyMachine(step.machine);
    if k.Some? then k else NormalizeCategoryKey(Some(Lower(step.name)))
  }

  // ---------------------------------------------------------------------
  // Category tabs
  //
  // The counting and grouping functions take the step classifier as a
  // parameter, so that their lemmas hold for any classifier; the methods
  // use `ClassifyStep`.
  // ---------------------------------------------------------------------

  /** A classifier into the taxonomy. */
  type Classifier = ProcessStep -> Option<string>

  /** Every result of `classify` is a declared key. */
  ghost predicate IntoKeys(classify: Classifier) {
    forall s :: classify(s).Some? ==> IsCategoryKey(classify(s).value)
  }

  lemma ClassifyStepIntoKeys()
    ensures IntoKeys(ClassifyStep)
  {
  }

  /** The number of steps classified under `k`. */
  function CountIn(steps: seq<ProcessStep>, k: string, classify: Classifier): nat {
    if steps == [] then 0
    else CountIn(steps[..|steps| - 1], k, classify) + (if classify(steps[|steps| - 1]) == Some(k) then 1 else 0)
  }

  /** The number of steps that classify at all. */
  function Classified(steps: seq<ProcessStep>, classify: Classifier): nat {
    if steps == [] then 0
    else Classified(steps[..|steps| - 1], classify) + (if classify(steps[|steps| - 1]).Some? then 1 else 0)
  }

  /** One tab: category key, display label and step count. */
  type Tab = (string, string, nat)

  /** The tabs of the categories of `cats` that some step falls in, in `cats` order. */
  function PresentTabs(cats: seq<TaskCategory>, steps: seq<ProcessStep>, classify: Classifier): seq<Tab> {
    if cats == [] then []
    else
      var c := cats[|cats| - 1];
      var n := CountIn(steps, c.key, classify);
      PresentTabs(cats[..|cats| - 1], steps, classify) + (if n > 0 then [(c.key, c.display, n)] else [])
  }

  /** The suggested tabs, each with count 0. */
  function FallbackTabs(): (r: seq<Tab>)
    ensures |r| == |FallbackKeys|
    ensures forall i :: 0 <= i < |r| ==> r[i].0 == FallbackKeys[i] && r[i].2 == 0
  {
    KeysOfCats();
    seq(|FallbackKeys|, i requires 0 <= i < |FallbackKeys| =>
      var c := Cats[IndexOfKey(FallbackKeys[i])];
      (c.key, c.display, 0))
  }

  /** `categories_for_steps`: the present categories in taxonomy order, or the four suggested tabs. */
  method CategoriesForSteps(steps: seq<ProcessStep>) returns (tabs: seq<Tab>)
    ensures PresentTabs(Cats, steps, ClassifyStep) != [] ==> tabs == PresentTabs(Cats, steps, ClassifyStep)
    ensures PresentTabs(Cats, steps, ClassifyStep) == [] ==> tabs == FallbackTabs()
  {
    tabs := TabsFor(steps, ClassifyStep);
  }

  /** The loops of `categories_for_steps`, for the classifier `classify`. */
  method TabsFor(steps: seq<ProcessStep>, classify: Classifier) returns (tabs: seq<Tab>)
    ensures PresentTabs(Cats, steps, classify) != [] ==> tabs == PresentTabs(Cats, steps, classify)
    ensures PresentTabs(Cats, steps, classify) == [] ==> tabs == FallbackTabs()
  {
    var cnt := CountSteps(steps, classify);
    tabs := OrderedTabs(steps, classify, cnt);
    if tabs == [] {
      tabs := SuggestedTabs();
    }
  }

  /** The first loop: the number of steps of each key, for the keys that occur. */
  method CountSteps(steps: seq<ProcessStep>, classify: Classifier) returns (cnt: map<string, nat>)
    ensures forall k :: k in cnt ==> cnt[k] == CountIn(steps, k, classify) && cnt[k] > 0
    ensures forall k :: k !in cnt ==> CountIn(steps, k, classify) == 0
  {
    cnt := map[];
    var i := 0;
    while i < |steps|
      invariant 0 <= i <= |steps|
      invariant forall k :: k in cnt ==> cnt[k] == CountIn(steps[..i], k, classify) && cnt[k] > 0
      invariant forall k :: k !in cnt ==> CountIn(steps[..i], k, classify) == 0
    {
      assert steps[..i + 1][..i] == steps[..i];
      var k := classify(steps[i]);
      if k.Some? {
        var prev := if k.value in cnt then cnt[k.value] else 0;
        cnt := cnt[k.value := prev + 1];
      }
      i := i + 1;
    }
    assert steps[..i] == steps;
  }

  /** The second loop: one tab per counted category, in taxonomy order. */
  method OrderedTabs(steps: seq<ProcessStep>, classify: Classifier, cnt: map<string, nat>) returns (ordered: seq<Tab>)
    requires forall k :: k in cnt ==> cnt[k] == CountIn(steps, k, classify)
    requires forall k :: k !in cnt ==> CountIn(steps, k, classify) == 0
    ensures ordered == PresentTabs(Cats, steps, classify)
  {
    ordered := [];
    var j := 0;
    while j < |Cats|
      invariant 0 <= j <= |Cats|
      invariant ordered == PresentTabs(Cats[..j], steps, classify)
    {
      assert Cats[..j + 1][..j] == Cats[..j];
      var c := Cats[j];
      if c.key in cnt && cnt[c.key] != 0 {
        ordered := ordered + [(c.key, c.display, cnt[c.key])];
      }
      j := j + 1;
    }
    assert Cats[..j] == Cats;
  }

  /** The fallback loop: the suggested categories, looked up by key, each with count 0. */
  method SuggestedTabs() returns (ordered: seq<Tab>)
    ensures ordered == FallbackTabs()
  {
    ghost var all := FallbackTabs();
    ordered := [];
    var f := 0;
    while f < |FallbackKeys|
      invariant 0 <= f <= |FallbackKeys|
      invariant ordered == all[..f]
    {
      var c := Cats[IndexOfKey(FallbackKeys[f])];
      assert all[f] == (c.key, c.display, 0);
      assert all[..f + 1] == all[..f] + [all[f]];
      ordered := ordered + [(c.key, c.display, 0)];
      f := f + 1;
    }
    assert all[..f] == all;
  }

  /** The counts of a tab list, added up. */
  function TabTotal(tabs: seq<Tab>): nat {
    if tabs == [] then 0 else TabTotal(tabs[..|tabs| - 1]) + tabs[|tabs| - 1].2
  }

  /** The step counts of all categories of `cats`, added up. */
  function CatTotal(cats: seq<TaskCategory>, steps: seq<ProcessStep>, classify: Classifier): nat {
    if cats == [] then 0
    else CatTotal(cats[..|cats| - 1], steps, classify) + CountIn(steps, cats[|cats| - 1].key, classify)
  }

  /** How many categories of `cats` have the key `r` names. */
  function KeyHits(cats: seq<TaskCategory>, r: Option<string>): nat {
    if cats == [] then 0
    else KeyHits(cats[..|cats| - 1], r) + (if r == Some(cats[|cats| - 1].key) then 1 else 0)
  }

  /** Each present tab carries the key and label of a category of `cats`, and its positive step count. */
  lemma {:induction false} PresentTabsSound(cats: seq<TaskCategory>, steps: seq<ProcessStep>, classify: Classifier)
    ensures forall t :: t in PresentTabs(cats, steps, classify) ==>
      t.2 > 0 && t.2 == CountIn(steps, t.0, classify) && exists c :: c in cats && c.key == t.0 && c.display == t.1
  {
    if cats != [] {
      var init := cats[..|cats| - 1];
      var c := cats[|cats| - 1];
      PresentTabsSound(init, steps, classify);
      forall t | t in PresentTabs(cats, steps, classify)
        ensures t.2 > 0 && t.2 == CountIn(steps, t.0, classify) && exists c :: c in cats && c.key == t.0 && c.display == t.1
      {
        if t in PresentTabs(init, steps, classify) {
          var d :| d in init && d.key == t.0 && d.display == t.1;
          assert d in cats;
        } else {
          assert c in cats;
        }
      }
    }
  }

  /** Every category of `cats` with a classified step has a tab. */
  lemma {:induction false} PresentTabsComplete(cats: seq<TaskCategory>, steps: seq<ProcessStep>, classify: Classifier)
    ensures forall i :: 0 <= i < |cats| && CountIn(steps, cats[i].key, classify) > 0 ==>
      (cats[i].key, cats[i].display, CountIn(steps, cats[i].key, classify)) in PresentTabs(cats, steps, classify)
  {
    if cats != [] {
      var init := cats[..|cats| - 1];
      PresentTabsComplete(init, steps, classify);
      forall i | 0 <= i < |init| ensures cats[i] == init[i] {
      }
    }
  }

  /** The tab counts add up to the category counts. */
  lemma {:induction false} TabTotalIsCatTotal(cats: seq<TaskCategory>, steps: seq<ProcessStep>, classify: Classifier)
    ensures TabTotal(PresentTabs(cats, steps, classify)) == CatTotal(cats, steps, classify)
  {
    if cats != [] {
      var init := cats[..|cats| - 1];
      TabTotalIsCatTotal(init, steps, classify);
      var c := cats[|cats| - 1];
      var tabs := PresentTabs(cats, steps, classify);
      if CountIn(steps, c.key, classify) > 0 {
        assert tabs == PresentTabs(init, steps, classify) + [(c.key, c.display, CountIn(steps, c.key, classify))];
        assert tabs[..|tabs| - 1] == PresentTabs(init, steps, classify);
      } else {
        assert tabs == PresentTabs(init, steps, classify);
      }
    }
  }

  /** One more step adds, to the category total, one per category with the step's key. */
  lemma {:induction false} CatTotalStep(cats: seq<TaskCategory>, steps: seq<ProcessStep>, s: ProcessStep, classify: Classifier)
    ensures CatTotal(cats, steps + [s], classify) == CatTotal(cats, steps, classify) + KeyHits(cats, classify(s))
  {
    if cats != [] {
      CatTotalStep(cats[..|cats| - 1], steps, s, classify);
      assert (steps + [s])[..|steps|] == steps;
    }
  }

  /** With distinct keys, a key names at most one category. */
  lemma {:induction false} KeyHitsDistinct(cats: seq<TaskCategory>, r: Option<string>)
    requires forall i, j :: 0 <= i < j < |cats| ==> cats[i].key != cats[j].key
    ensures KeyHits(cats, r) == if r.Some? && exists i :: 0 <= i < |cats| && cats[i].key == r.value then 1 else 0
  {
    if cats != [] {
      var init := cats[..|cats| - 1];
      KeyHitsDistinct(init, r);
      if r.Some? && exists i :: 0 <= i < |init| && init[i].key == r.value {
        var i :| 0 <= i < |init| && init[i].key == r.value;
        assert cats[i].key != cats[|cats| - 1].key;
      }
      if r.Some? && r.value == cats[|cats| - 1].key {
        assert exists i :: 0 <= i < |cats| && cats[i].key == r.value;
      }
      if r.Some? && exists i :: 0 <= i < |cats| && cats[i].key == r.value {
        var i :| 0 <= i < |cats| && cats[i].key == r.value;
        if i < |init| {
          assert init[i].key == r.value;
        }
      }
    }
  }

  lemma {:induction false} CatTotalEmpty(cats: seq<TaskCategory>, classify: Classifier)
    ensures CatTotal(cats, [], classify) == 0
  {
    if cats != [] {
      CatTotalEmpty(cats[..|cats| - 1], classify);
    }
  }

  /** Over the whole taxonomy, the category counts add up to the classifiable steps. */
  lemma {:induction false} CatTotalIsClassified(steps: seq<ProcessStep>, classify: Classifier)
    requires IntoKeys(classify)
    ensures CatTotal(Cats, steps, classify) == Classified(steps, classify)
  {
    if steps == [] {
      CatTotalEmpty(Cats, classify);
    } else {
      var init := steps[..|steps| - 1];
      var s := steps[|steps| - 1];
      CatTotalIsClassified(init, classify);
      assert init + [s] == steps;
      CatTotalStep(Cats, init, s, classify);
      KeysOfCats();
      KeyHitsDistinct(Cats, classify(s));
      if classify(s).Some? {
        var k := IndexOfKey(classify(s).value);
        assert Cats[k].key == classify(s).value;
      }
    }
  }

  /** A list of positive counts is empty exactly when its total is 0. */
  lemma {:induction false} TabTotalZero(tabs: seq<Tab>)
    requires forall t :: t in tabs ==> t.2 > 0
    ensures tabs == [] <==> TabTotal(tabs) == 0
  {
    if tabs != [] {
      assert tabs[|tabs| - 1] in tabs;
    }
  }

  /**
   * The tab counts add up to the number of classifiable steps, and the
   * suggested tabs appear exactly when no step is classifiable.
   */
  lemma TabsCountClassified(steps: seq<ProcessStep>, classify: Classifier)
    requires IntoKeys(classify)
    ensures TabTotal(PresentTabs(Cats, steps, classify)) == Classified(steps, classify)
    ensures PresentTabs(Cats, steps, classify) == [] <==> Classified(steps, classify) == 0
  {
    TabTotalIsCatTotal(Cats, steps, classify);
    CatTotalIsClassified(steps, classify);
    PresentTabsSound(Cats, steps, classify);
    TabTotalZero(PresentTabs(Cats, steps, classify));
  }

  // ---------------------------------------------------------------------
  // Steps grouped by category
  // ---------------------------------------------------------------------

  /** The steps classified under `k`, each with its position, in step order. */
  function Group(steps: seq<ProcessStep>, k: string, classify: Classifier): seq<(nat, ProcessStep)> {
    if steps == [] then []
    else
      var last := |steps| - 1;
      Group(steps[..last], k, classify) + (if classify(steps[last]) == Some(k) then [(last, steps[last])] else [])
  }

  /** `steps_by_category`: each classifiable step, with its index, under its category key. */
  method StepsByCategory(steps: seq<ProcessStep>) returns (res: map<string, seq<(nat, ProcessStep)>>)
    ensures forall k :: k in res <==> Group(steps, k, ClassifyStep) != []
    ensures forall k :: k in res ==> res[k] == Group(steps, k, ClassifyStep)
    ensures forall k :: k in res ==> IsCategoryKey(k)
  {
    ClassifyStepIntoKeys();
    res := GroupsFor(steps, ClassifyStep);
  }

  /** The loop of `steps_by_category`, for the classifier `classify`. */
  method GroupsFor(steps: seq<ProcessStep>, classify: Classifier) returns (res: map<string, seq<(nat, ProcessStep)>>)
    requires IntoKeys(classify)
    ensures forall k :: k in res <==> Group(steps, k, classify) != []
    ensures forall k :: k in res ==> res[k] == Group(steps, k, classify)
    ensures forall k :: k in res ==> IsCategoryKey(k)
  {
    res := map[];
    var i := 0;
    while i < |steps|
      invariant 0 <= i <= |steps|
      invariant forall k :: k in res <==> Group(steps[..i], k, classify) != []
      invariant forall k :: k in res ==> res[k] == Group(steps[..i], k, classify)
    {
      GroupExtend(steps, i, classify);
      var k := classify(steps[i]);
      if k.Some? {
        var prev := if k.value in res then res[k.value] else [];
        res := res[k.value := prev + [(i, steps[i])]];
      }
      i := i + 1;
    }
    assert steps[..i] == steps;
    forall k | k in res ensures IsCategoryKey(k) {
      GroupSound(steps, k, classify);
      assert res[k][0] in Group(steps, k, classify);
    }
  }

  /** One more step adds itself to its own group and leaves every other group alone. */
  lemma GroupExtend(steps: seq<ProcessStep>, i: nat, classify: Classifier)
    requires i < |steps|
    ensures forall k :: (Group(steps[..i + 1], k, classify)
      == Group(steps[..i], k, classify) + (if classify(steps[i]) == Some(k) then [(i, steps[i])] else []))
  {
    assert steps[..i + 1][..i] == steps[..i];
  }

  /** Every grouped entry is a step at its own index, classified under the group's key. */
  lemma {:induction false} GroupSound(steps: seq<ProcessStep>, k: string, classify: Classifier)
    ensures forall e :: e in Group(steps, k, classify) ==>
      e.0 < |steps| && steps[e.0] == e.1 && classify(e.1) == Some(k)
  {
    if steps != [] {
      GroupSound(steps[..|steps| - 1], k, classify);
    }
  }

  /** Every step classified under `k` is in its group. */
  lemma {:induction false} GroupComplete(steps: seq<ProcessStep>, k: string, classify: Classifier)
    ensures forall i :: 0 <= i < |steps| && classify(steps[i]) == Some(k) ==> (i, steps[i]) in Group(steps, k, classify)
  {
    if steps != [] {
      var init := steps[..|steps| - 1];
      GroupComplete(init, k, classify);
      forall i | 0 <= i < |steps| && classify(steps[i]) == Some(k)
        ensures (i, steps[i]) in Group(steps, k, classify)
      {
        if i < |init| {
          assert init[i] == steps[i];
        }
      }
    }
  }

  /** Indices increase strictly within a group, so no step appears twice. */
  lemma {:induction false} GroupIncreasing(steps: seq<ProcessStep>, k: string, classify: Classifier)
    ensures forall a, b :: 0 <= a < b < |Group(steps, k, classify)| ==>
      Group(steps, k, classify)[a].0 < Group(steps, k, classify)[b].0
  {
    if steps != [] {
      var init := steps[..|steps| - 1];
      GroupIncreasing(init, k, classify);
      GroupSound(init, k, classify);
      var g := Group(steps, k, classify);
      forall a, b | 0 <= a < b < |g| ensures g[a].0 < g[b].0 {
        if b >= |Group(init, k, classify)| {
          assert g[a] in Group(init, k, classify);
        }
      }
    }
  }

  /** A group has one entry per step classified under its key. */
  lemma {:induction false} GroupSize(steps: seq<ProcessStep>, k: string, classify: Classifier)
    ensures |Group(steps, k, classify)| == CountIn(steps, k, classify)
  {
    if steps != [] {
      GroupSize(steps[..|steps| - 1], k, classify);
    }
  }
}
