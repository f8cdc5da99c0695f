/**
 * The post-extraction heuristics of drawing analysis: once the drawing's text
 * has been extracted and an optional language-model guess obtained, fixed
 * substring rules fill in material, part type, dimension marker, tolerances
 * and the recommended process and machine.
 */
module DiagramAnalysis {
  import opened Wrappers
  import opened Text
  import opened Seqs

  /** The drawing-features record handed on to process planning. */
  datatype Features = Features(
    filename: string,
    ext: string,
    title: Option<string>,
    drawingNo: Option<string>,
    material: Option<string>,
    partType: Option<string>,
    surfaceFinish: Option<string>,
    tolerances: Option<seq<string>>,
    recommendedProcess: Option<string>,
    recommendedMachine: Option<string>,
    notes: Option<string>,
    dimsText: Option<string>)

  /** The fields a language model may have proposed (all absent when none is configured). */
  datatype ModelGuess = ModelGuess(
    title: Option<string>,
    drawingNo: Option<string>,
    material: Option<string>,
    partType: Option<string>,
    surfaceFinish: Option<string>,
    tolerances: Option<seq<string>>,
    recommendedProcess: Option<string>,
    recommendedMachine: Option<string>)

  const NoGuess := ModelGuess(None, None, None, None, None, None, None, None)

  const MaterialTokens: seq<string> := ["SUS", "AL", "FC", "SS", "真鍮", "アルミ", "鋼"]
  const PartTokens: seq<string> := ["ブラケット", "フランジ", "シャフト", "プレート", "ケース", "ハウジング"]
  const DimensionTokens: seq<string> := ["φ", "±", "R", "mm", "+0", "-0"]
  const FinishCues: seq<string> := ["Ra", "RA", "ｒａ"]
  const ToleranceTokens: seq<string> := ["±0.01", "±0.02", "±0.05", "±0.1", "±0.20", "H7"]
  const DimsMarker := "...寸法表記を検出..."
  const NotesLength := 500

  /** Python truthiness of an optional string. */
  predicate Filled(o: Option<string>) {
    o.Some? && o.value != ""
  }

  /** A token is seen in the extracted text or in the file name. */
  predicate SeenIn(t: string, text: string, filename: string) {
    Contains(text, t) || Contains(filename, t)
  }

  /** Index of the first token seen in the text or the file name. */
  function FirstSeen(tokens: seq<string>, text: string, filename: string): (r: Option<nat>)
    ensures r.Some? ==> r.value < |tokens| && SeenIn(tokens[r.value], text, filename)
    ensures r.Some? ==> forall j :: 0 <= j < r.value ==> !SeenIn(tokens[j], text, filename)
    ensures r.None? <==> forall j :: 0 <= j < |tokens| ==> !SeenIn(tokens[j], text, filename)
  {
    if tokens == [] then None
    else if SeenIn(tokens[0], text, filename) then Some(0)
    else
      match FirstSeen(tokens[1..], text, filename)
      case None => None
      case Some(k) => Some(k + 1)
  }

  /** The first token seen, or `fallback` when none is. */
  function FirstSeenOr(tokens: seq<string>, text: string, filename: string, fallback: Option<string>): Option<string> {
    match FirstSeen(tokens, text, filename)
    case Some(i) => Some(tokens[i])
    case None => fallback
  }

  /** The tokens that occur in the text, in list order. */
  function FoundTokens(tokens: seq<string>, text: string): (r: seq<string>)
    ensures forall t :: t in r <==> t in tokens && Contains(text, t)
    ensures IsSubsequence(r, tokens)
  {
    if tokens == [] then []
    else
      var init := tokens[..|tokens| - 1];
      var last := tokens[|tokens| - 1];
      assert tokens == init + [last];
      var rest := FoundTokens(init, text);
      if Contains(text, last) then
        SubsequenceKeep(rest, init, last);
        rest + [last]
      else
        SubsequenceSkip(rest, init, last);
        rest
  }

  /** The first-match scan with `break` used for material and part type. */
  method ScanFirstSeen(tokens: seq<string>, text: string, filename: string, fallback: Option<string>)
    returns (r: Option<string>)
    ensures r == FirstSeenOr(tokens, text, filename, fallback)
  {
    r := fallback;
    var i := 0;
    while i < |tokens|
      invariant 0 <= i <= |tokens|
      invariant forall j :: 0 <= j < i ==> !SeenIn(tokens[j], text, filename)
      invariant r == fallback
    {
      if SeenIn(tokens[i], text, filename) {
        r := Some(tokens[i]);
        assert FirstSeen(tokens, text, filename) == Some(i);
        return;
      }
      i := i + 1;
    }
  }

  /** The dimension-notation scan: the marker exactly when some notation occurs in the text. */
  method DetectDimensions(text: string) returns (dimsText: Option<string>)
    ensures dimsText.Some? <==> exists j :: 0 <= j < |DimensionTokens| && Contains(text, DimensionTokens[j])
    ensures dimsText.Some? ==> dimsText.value == DimsMarker
  {
    dimsText := None;
    var i := 0;
    while i < |DimensionTokens|
      invariant 0 <= i <= |DimensionTokens|
      invariant forall j :: 0 <= j < i ==> !Contains(text, DimensionTokens[j])
      invariant dimsText == None
    {
      if Contains(text, DimensionTokens[i]) {
        dimsText := Some(DimsMarker);
        break;
      }
      i := i + 1;
    }
  }

  /** The tolerance scan: every listed token found in the text, in list order. */
  method CollectTolerances(text: string) returns (tolList: seq<string>)
    ensures tolList == FoundTokens(ToleranceTokens, text)
  {
    tolList := [];
    var i := 0;
    while i < |ToleranceTokens|
      invariant 0 <= i <= |ToleranceTokens|
      invariant tolList == FoundTokens(ToleranceTokens[..i], text)
    {
      assert ToleranceTokens[..i + 1][..i] == ToleranceTokens[..i];
      if Contains(text, ToleranceTokens[i]) {
        tolList := tolList + [ToleranceTokens[i]];
      }
      i := i + 1;
    }
    assert ToleranceTokens[..i] == ToleranceTokens;
  }

  /** The surface finish: the pattern's match, only when the model gave none and a roughness cue occurs. */
  method SurfaceFinishFor(text: string, given: Option<string>, finishMatch: Option<string>) returns (sf: Option<string>)
    ensures sf ==
      if !Filled(given) && (exists j :: 0 <= j < |FinishCues| && Contains(text, FinishCues[j])) && finishMatch.Some?
      then finishMatch else given
  {
    sf := given;
    if !Filled(sf) && (exists j :: 0 <= j < |FinishCues| && Contains(text, FinishCues[j])) {
      if finishMatch.Some? {
        sf := finishMatch;
      }
    }
  }

  /** The tolerances: the model's list when it gave one, else the tokens found, if any. */
  method TolerancesFor(text: string, given: Option<seq<string>>) returns (tol: Option<seq<string>>)
    ensures given.Some? ==> tol == given
    ensures given.None? ==> tol == if FoundTokens(ToleranceTokens, text) == [] then None else Some(FoundTokens(ToleranceTokens, text))
  {
    var tolList := CollectTolerances(text);
    tol := given;
    if tol.None? && tolList != [] {
      tol := Some(tolList);
    }
  }

  /** The recommended process and machine, each filled in only when not already given. */
  method Recommend(partType: Option<string>, text: string, given: Option<string>, givenMachine: Option<string>)
    returns (process: Option<string>, machine: Option<string>)
    ensures Filled(given) ==> process == given
    ensures !Filled(given) ==>
      process ==
        if Contains(partType.GetOr(""), "フランジ") || Contains(text, "φ") then Some("旋盤")
        else if Contains(partType.GetOr(""), "プレート") then Some("フライス")
        else given
    ensures Filled(givenMachine) ==> machine == givenMachine
    ensures !Filled(givenMachine) ==>
      machine ==
        if process == Some("旋盤") then Some("NC旋盤")
        else if process == Some("フライス") then Some("VMC")
        else givenMachine
  {
    process := given;
    if !Filled(process) {
      if Contains(partType.GetOr(""), "フランジ") || Contains(text, "φ") {
        process := Some("旋盤");
      } else if Contains(partType.GetOr(""), "プレート") {
        process := Some("フライス");
      }
    }
    machine := givenMachine;
    if !Filled(machine) {
      if process == Some("旋盤") {
        machine := Some("NC旋盤");
      } else if process == Some("フライス") {
        machine := Some("VMC");
      }
    }

  }

  /**
   * The heuristic part of drawing analysis, as a function of the extracted
   * `text`, the file name, the model's guess and the result of the surface
   * finish pattern search (`finishMatch`, kept abstract).
   */
  method ApplyHeuristics(text: string, filename: string, ext: string, guess: ModelGuess, finishMatch: Option<string>)
    returns (f: Features)
    ensures f.filename == filename && f.ext == ext
    ensures f.title == guess.title && f.drawingNo == guess.drawingNo
    ensures f.material == FirstSeenOr(MaterialTokens, text, filename, guess.material)
    ensures f.partType == FirstSeenOr(PartTokens, text, filename, guess.partType)
    ensures f.dimsText.Some? <==> exists j :: 0 <= j < |DimensionTokens| && Contains(text, DimensionTokens[j])
    ensures f.dimsText.Some? ==> f.dimsText.value == DimsMarker
    ensures f.surfaceFinish ==
      if !Filled(guess.surfaceFinish) && (exists j :: 0 <= j < |FinishCues| && Contains(text, FinishCues[j])) && finishMatch.Some?
      then finishMatch else guess.surfaceFinish
    ensures guess.tolerances.Some? ==> f.tolerances == guess.tolerances
    ensures guess.tolerances.None? ==>
      f.tolerances == if FoundTokens(ToleranceTokens, text) == [] then None else Some(FoundTokens(ToleranceTokens, text))
    ensures Filled(guess.recommendedProcess) ==> f.recommendedProcess == guess.recommendedProcess
    ensures !Filled(guess.recommendedProcess) ==>
      f.recommendedProcess ==
        if Contains(f.partType.GetOr(""), "フランジ") || Contains(text, "φ") then Some("旋盤")
        else if Contains(f.partType.GetOr(""), "プレート") then Some("フライス")
        else guess.recommendedProcess
    ensures Filled(guess.recommendedMachine) ==> f.recommendedMachine == guess.recommendedMachine
    ensures !Filled(guess.recommendedMachine) ==>
      f.recommendedMachine ==
        if f.recommendedProcess == Some("旋盤") then Some("NC旋盤")
        else if f.recommendedProcess == Some("フライス") then Some("VMC")
        else guess.recommendedMachine
    ensures f.notes == if text == "" then None else Some(text[..if |text| < NotesLength then |text| else NotesLength])
  {
    var material := ScanFirstSeen(MaterialTokens, text, filename, guess.material);
    var partType := ScanFirstSeen(PartTokens, text, filename, guess.partType);
    var dimsText := DetectDimensions(text);

    var surfaceFinish := SurfaceFinishFor(text, guess.surfaceFinish, finishMatch);
    var tolerances := TolerancesFor(text, guess.tolerances);

    var process, machine := Recommend(partType, text, guess.recommendedProcess, guess.recommendedMachine);

    var notes := if text == "" then None else Some(text[..if |text| < NotesLength then |text| else NotesLength]);
    f := Features(filename, ext, guess.title, guess.drawingNo, material, partType, surfaceFinish,
                  tolerances, process, machine, notes, dimsText);
  }

  /** Stainless seen anywhere wins: "SUS" is the first material token. */
  lemma StainlessSeenWins(text: string, filename: string, fallback: Option<string>)
    requires SeenIn("SUS", text, filename)
    ensures FirstSeenOr(MaterialTokens, text, filename, fallback) == Some("SUS")
  {
    assert SeenIn(MaterialTokens[0], text, filename);
  }

  /** The model's material survives exactly when no material token is seen. */
  lemma {:induction false} GuessKeptIffUnseen(tokens: seq<string>, text: string, filename: string, fallback: Option<string>)
    requires forall j :: 0 <= j < |tokens| ==> Some(tokens[j]) != fallback
    ensures FirstSeenOr(tokens, text, filename, fallback) == fallback
        <==> forall j :: 0 <= j < |tokens| ==> !SeenIn(tokens[j], text, filename)
  {
    var r := FirstSeen(tokens, text, filename);
    if r.Some? {
      assert Some(tokens[r.value]) != fallback;
    }
  }
}
