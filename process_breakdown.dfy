/**
 * Process planning: the list of manufacturing steps proposed for a drawing.
 * Steps suggested by a language model (an optional JSON reply) come first,
 * then a fixed rule-based sequence chosen by the material, then an inspection
 * step when dimensions were detected.
 */
module ProcessBreakdown {
  import opened Wrappers
  import opened Text
  import opened Json
  import DiagramAnalysis

  /** One required manufacturing step; `tolerance` and `precision` are `JNull` when absent. */
  datatype ProcessStep = ProcessStep(name: string, machine: string, minutes: int, tolerance: Json, precision: Json)

  /** One item of the model's reply as `ProcessStep(...)` builds it; `Raised` when that raises. */
  function CoerceModelItem(item: Json): (r: Result<ProcessStep>)
    ensures !item.JObject? ==> r.Raised?
    ensures item.JObject? && "minutes" !in item.fields ==> r.Ok? && r.value.minutes == 10
    ensures item.JObject? && "minutes" in item.fields ==> (r.Ok? <==> PyInt(item.fields["minutes"]).Ok?)
    ensures r.Ok? ==> r.value.name == PyStr(Get(item, "name", JNull).value)
    ensures r.Ok? ==> r.value.machine == PyStr(Get(item, "machine", JNull).value)
  {
    match item
    case JObject(_) =>
      var minutes := PyInt(Get(item, "minutes", JInt(10)).value);
      if minutes.Raised? then Raised
      else Ok(ProcessStep(
        PyStr(Get(item, "name", JNull).value),
        PyStr(Get(item, "machine", JNull).value),
        minutes.value,
        Get(item, "tolerance", JNull).value,
        Get(item, "precision", JNull).value))
    case _ => Raised
  }

  /** The items that convert, in reply order; the others are skipped. */
  function AcceptedItems(items: seq<Json>): seq<ProcessStep> {
    if items == [] then []
    else
      var rest := AcceptedItems(items[..|items| - 1]);
      match CoerceModelItem(items[|items| - 1])
      case Ok(st) => rest + [st]
      case Raised => rest
  }

  /** The model's contribution: nothing unless the reply is a JSON list. */
  function ModelSteps(reply: Json): seq<ProcessStep> {
    if reply.JArray? then AcceptedItems(reply.items) else []
  }

  const StainlessSteps: seq<ProcessStep> := [
    ProcessStep("荒加工", "VMC", 30, JNull, JStr("粗")),
    ProcessStep("穴あけ", "タッピングセンタ", 20, JNull, JStr("中")),
    ProcessStep("仕上げ", "VMC", 25, JStr("±0.05"), JStr("仕上"))
  ]

  const StandardSteps: seq<ProcessStep> := [
    ProcessStep("荒加工", "汎用フライス", 20, JNull, JStr("粗")),
    ProcessStep("穴あけ", "ボール盤", 15, JNull, JStr("中")),
    ProcessStep("仕上げ", "フライス盤", 15, JStr("±0.1"), JStr("仕上"))
  ]

  const InspectionStep := ProcessStep("検査", "三次元測定機", 10, JNull, JStr("検査"))

  /** The upper-cased material (absent counts as empty) names stainless steel. */
  predicate IsStainless(material: Option<string>) {
    Contains(Upper(material.GetOr("")), "SUS")
  }

  /** Upper-casing the material first decides nothing differently. */
  lemma StainlessUpperInvariant(m: string)
    ensures IsStainless(Some(Upper(m))) == IsStainless(Some(m))
  {
    UpperIdempotent(m);
  }

  /** The upper case of a three-letter material, character by character. */
  lemma UpperThree(a: char, b: char, c: char)
    ensures Upper([a, b, c]) == UpperChar(a) + UpperChar(b) + UpperChar(c)
  {
    assert [c][1..] == [];
    assert Upper([c]) == UpperChar(c);
    assert [b, c][1..] == [c];
    assert Upper([b, c]) == UpperChar(b) + UpperChar(c);
    assert [a, b, c][1..] == [b, c];
  }

  /** Lower-case spellings count, including the sharp s and the long s, while a carbon steel grade does not. */
  lemma StainlessSpellings()
    ensures IsStainless(Some("sus"))
    ensures IsStainless(Some("su\U{00DF}"))
    ensures IsStainless(Some("\U{017F}us"))
    ensures !IsStainless(Some("S4C"))
  {
    UpperThree('s', 'u', 's');
    assert "SUS" <= Upper("sus")[0..];
    UpperThree('s', 'u', '\U{00DF}');
    assert "SUS" <= Upper("su\U{00DF}")[0..];
    UpperThree('\U{017F}', 'u', 's');
    assert "SUS" <= Upper("\U{017F}us")[0..];
    UpperThree('S', '4', 'C');
    assert Upper("S4C") == "S4C";
  }

  /** The planned steps: the model's, then the material's rule sequence, then inspection when dimensions were seen. */
  function Plan(features: DiagramAnalysis.Features, reply: Json): seq<ProcessStep> {
    ModelSteps(reply)
    + (if IsStainless(features.material) then StainlessSteps else StandardSteps)
    + (if DiagramAnalysis.Filled(features.dimsText) then [InspectionStep] else [])
  }

  /**
   * `breakdown_process`, with the model's reply as an input (`JNull` when no
   * model is configured). With a model configured, the program as written
   * raises while formatting its prompt, before any reply exists; the reply
   * loop here is the one at process_breakdown.py:31-44 as it would run.
   */
  method BreakdownProcess(features: DiagramAnalysis.Features, reply: Json) returns (steps: seq<ProcessStep>)
    ensures steps == ModelSteps(reply)
                     + (if IsStainless(features.material) then StainlessSteps else StandardSteps)
                     + (if DiagramAnalysis.Filled(features.dimsText) then [InspectionStep] else [])
    ensures steps == Plan(features, reply)
    ensures |steps| == |ModelSteps(reply)| + 3 + (if DiagramAnalysis.Filled(features.dimsText) then 1 else 0)
  {
    steps := [];
    if reply.JArray? {
      var items := reply.items;
      var i := 0;
      while i < |items|
        invariant 0 <= i <= |items|
        invariant steps == AcceptedItems(items[..i])
      {
        assert items[..i + 1][..i] == items[..i];
        match CoerceModelItem(items[i]) {
          case Ok(st) => steps := steps + [st];
          case Raised =>
        }
        i := i + 1;
      }
      assert items[..i] == items;
    }
    if IsStainless(features.material) {
      steps := steps + [StainlessSteps[0]];
      steps := steps + [StainlessSteps[1]];
      steps := steps + [StainlessSteps[2]];
    } else {
      steps := steps + [StandardSteps[0]];
      steps := steps + [StandardSteps[1]];
      steps := steps + [StandardSteps[2]];
    }
    if DiagramAnalysis.Filled(features.dimsText) {
      steps := steps + [InspectionStep];
    }
  }

  /** Every accepted step is the conversion of some item of the reply, and none is invented. */
  lemma {:induction false} AcceptedItemsSound(items: seq<Json>)
    ensures |AcceptedItems(items)| <= |items|
    ensures forall st :: st in AcceptedItems(items) ==> exists it :: it in items && CoerceModelItem(it) == Ok(st)
  {
    if items != [] {
      var init := items[..|items| - 1];
      AcceptedItemsSound(init);
      assert items == init + [items[|items| - 1]];
      forall st | st in AcceptedItems(items)
        ensures exists it :: it in items && CoerceModelItem(it) == Ok(st)
      {
        if st in AcceptedItems(init) {
          var it :| it in init && CoerceModelItem(it) == Ok(st);
          assert it in items;
        } else {
          assert CoerceModelItem(items[|items| - 1]) == Ok(st);
        }
      }
    }
  }

  /**
   * Filtering works item by item: the steps of a reply are the steps of its
   * first part followed by those of the rest, so an item that raises drops
   * out without disturbing the items around it.
   */
  lemma {:induction false} AcceptedItemsAppend(a: seq<Json>, b: seq<Json>)
    ensures AcceptedItems(a + b) == AcceptedItems(a) + AcceptedItems(b)
    decreases |b|
  {
    if b == [] {
      assert a + b == a;
    } else {
      var init := b[..|b| - 1];
      assert (a + b)[..|a + b| - 1] == a + init;
      assert (a + b)[|a + b| - 1] == b[|b| - 1];
      AcceptedItemsAppend(a, init);
    }
  }

  /** A single item gives its conversion, or nothing when it raises. */
  lemma AcceptedItemsOne(item: Json)
    ensures AcceptedItems([item]) == if CoerceModelItem(item).Ok? then [CoerceModelItem(item).value] else []
  {
    assert [item][..0] == [];
  }

  /** An item that raises between two parts of the reply is skipped; the steps on both sides stay. */
  lemma AcceptedItemsSkip(a: seq<Json>, bad: Json, b: seq<Json>)
    requires CoerceModelItem(bad).Raised?
    ensures AcceptedItems(a + [bad] + b) == AcceptedItems(a) + AcceptedItems(b)
  {
    AcceptedItemsAppend(a + [bad], b);
    AcceptedItemsAppend(a, [bad]);
    AcceptedItemsOne(bad);
  }

  /** When every item converts, every item contributes exactly one step, in order. */
  lemma {:induction false} AcceptedItemsAll(items: seq<Json>)
    requires forall i :: 0 <= i < |items| ==> CoerceModelItem(items[i]).Ok?
    ensures |AcceptedItems(items)| == |items|
    ensures forall i :: 0 <= i < |items| ==> AcceptedItems(items)[i] == CoerceModelItem(items[i]).value
  {
    if items != [] {
      AcceptedItemsAll(items[..|items| - 1]);
    }
  }

  /** The step list ends with the inspection step exactly when dimensions were detected. */
  lemma InspectionLastIffDimensions(features: DiagramAnalysis.Features, reply: Json)
    ensures var steps := Plan(features, reply);
      steps[|steps| - 1] == InspectionStep <==> DiagramAnalysis.Filled(features.dimsText)
  {
  }
}
