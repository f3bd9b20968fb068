/** The step indicator above the wizard: one marker per step, its label, and the connectors
    between markers. */
module Steps {
  import opened Wrappers
  import opened Types
  import opened Text
  import opened Translations

  /** How a step is drawn relative to the current one. */
  datatype Status = Completed | Active | Upcoming

  /** What a marker shows: a check mark for a completed step, else its one-based number. */
  datatype Marker = CheckMark | Number(n: int)

  function StatusOf(current: int, index: int): (st: Status)
    ensures st == Completed <==> index < current
    ensures st == Active <==> index == current
    ensures st == Upcoming <==> index > current
  {
    if current > index then Completed else if current == index then Active else Upcoming
  }

  /** The four step labels; an index past them has no label. */
  function StepLabel(index: int, lang: Language): (r: Option<string>)
    ensures r.Some? <==> 0 <= index < 4
  {
    if index == 0 then Some(GetTranslation(Step1, lang))
    else if index == 1 then Some(GetTranslation(Step2, lang))
    else if index == 2 then Some(GetTranslation(Step3, lang))
    else if index == 3 then Some(GetTranslation(Step4, lang))
    else None
  }

  /** The label of step `i` is the UI table's `step<i+1>`. */
  lemma StepLabelKeys(index: int, lang: Language)
    requires 0 <= index < 4
    ensures exists k: UiKey :: k.Name() == "step" + DecimalText(index + 1) && StepLabel(index, lang) == Some(GetTranslation(k, lang))
  {
    var k := if index == 0 then Step1 else if index == 1 then Step2 else if index == 2 then Step3 else Step4;
    assert DecimalText(index + 1) == [DigitChar(index + 1)];
    assert k.Name() == "step" + DecimalText(index + 1);
  }

  /** One step as drawn: status, marker, label, and the connector after it (absent after the
      last step; highlighted when the step is completed). */
  datatype StepView = StepView(status: Status, marker: Marker, caption: Option<string>, connector: Option<bool>)

  function ViewOf(current: int, total: int, index: int, lang: Language): StepView {
    var st := StatusOf(current, index);
    StepView(st,
      if st == Completed then CheckMark else Number(index + 1),
      StepLabel(index, lang),
      if index < total - 1 then Some(current > index) else None)
  }

  /** `Array.from({ length: totalSteps })`: a negative length yields no steps. */
  function Indicator(current: int, total: int, lang: Language): (r: seq<StepView>)
    ensures |r| == if total < 0 then 0 else total
    ensures forall i :: 0 <= i < |r| ==>
              (r[i].status == Completed <==> i < current) && (r[i].status == Active <==> i == current)
    ensures forall i :: 0 <= i < |r| ==> r[i].marker == if i < current then CheckMark else Number(i + 1)
    ensures forall i :: 0 <= i < |r| ==> (r[i].caption.Some? <==> i < 4)
    ensures forall i :: 0 <= i < |r| ==> r[i].caption == StepLabel(i, lang)
    ensures forall i :: 0 <= i < |r| ==> (r[i].connector.Some? <==> i < total - 1)
  {
    var n := if total < 0 then 0 else total;
    seq(n, i requires 0 <= i < n => ViewOf(current, total, i, lang))
  }

  /** Exactly the steps before the current one are completed; exactly one step is active when
      the current step is in range, and none otherwise. */
  lemma ExactlyOneActive(current: int, total: int, lang: Language)
    ensures var r := Indicator(current, total, lang);
            (forall i :: 0 <= i < |r| ==> (r[i].status == Completed <==> i < current))
            && (forall i, j :: 0 <= i < |r| && 0 <= j < |r| && r[i].status == Active && r[j].status == Active ==> i == j)
            && ((exists i :: 0 <= i < |r| && r[i].status == Active) <==> 0 <= current < |r|)
  {
    var r := Indicator(current, total, lang);
    if 0 <= current < |r| {
      assert r[current].status == Active;
    }
  }

  /** There is one connector fewer than steps, and a connector is highlighted exactly when the
      step before it is completed. */
  lemma Connectors(current: int, total: int, lang: Language)
    ensures var r := Indicator(current, total, lang);
            (forall i :: 0 <= i < |r| ==> (r[i].connector.Some? <==> i < total - 1))
            && (forall i :: 0 <= i < |r| && r[i].connector.Some? ==> (r[i].connector.value <==> r[i].status == Completed))
            && (forall i :: 0 <= i < |r| ==> (r[i].marker == CheckMark <==> r[i].status == Completed))
  {
  }

  /** The wizard's four-step indicator labels every step, step `i` with the UI table's
      `step<i+1>`. */
  lemma FourStepsLabelled(current: int, lang: Language)
    ensures forall i :: 0 <= i < 4 ==> Indicator(current, 4, lang)[i].caption == StepLabel(i, lang)
    ensures var r := Indicator(current, 4, lang);
            r[0].caption == Some(GetTranslation(Step1, lang)) && r[1].caption == Some(GetTranslation(Step2, lang))
            && r[2].caption == Some(GetTranslation(Step3, lang)) && r[3].caption == Some(GetTranslation(Step4, lang))
  {
  }
}
