/** The control panel (src/components/LogoControls.tsx): three handlers that
    each replace one field of the settings record, the list of position
    options and the ranges of the two sliders. */
module LogoControls {
  import opened Wrappers
  import opened LogoSettings

  /** A slider's closed range of values. */
  datatype Slider = Slider(min: real, max: real)

  const SizeSlider: Slider := Slider(5.0, 100.0)
  const OpacitySlider: Slider := Slider(10.0, 100.0)

  predicate InRange(slider: Slider, v: real) {
    slider.min <= v <= slider.max
  }

  /** One entry of the position radio group: the value it sets and the text
      it shows (the source's `label`, a reserved word here). */
  datatype PositionOption = PositionOption(value: string, caption: string)

  const PositionOptions: seq<PositionOption> :=
    [PositionOption("top-left", "Top Left"),
     PositionOption("top-center", "Top Center"),
     PositionOption("top-right", "Top Right"),
     PositionOption("middle-left", "Middle Left"),
     PositionOption("middle-center", "Middle Center"),
     PositionOption("middle-right", "Middle Right"),
     PositionOption("bottom-left", "Bottom Left"),
     PositionOption("bottom-center", "Bottom Center"),
     PositionOption("bottom-right", "Bottom Right")]

  /** A position the radio group can produce. */
  predicate IsOptionValue(position: string) {
    exists i :: 0 <= i < |PositionOptions| && PositionOptions[i].value == position
  }

  /** The settings the controls can produce: both sliders within their ranges
      and the position one of the radio group's values. */
  predicate Valid(s: Settings) {
    && InRange(SizeSlider, s.size)
    && InRange(OpacitySlider, s.opacity)
    && IsOptionValue(RawValue(s.position))
  }

  /** Each handler copies the settings with one field replaced. */
  function HandleSizeChange(s: Settings, value: real): (r: Settings)
    ensures r.size == value
    ensures r.opacity == s.opacity && r.position == s.position
  {
    s.(size := value)
  }

  function HandleOpacityChange(s: Settings, value: real): (r: Settings)
    ensures r.opacity == value
    ensures r.size == s.size && r.position == s.position
  {
    s.(opacity := value)
  }

  /** The radio group passes the chosen option's string, which is stored as
      it is. */
  function HandlePositionChange(s: Settings, value: string): (r: Settings)
    ensures WellFormed(r.position) && RawValue(r.position) == value
    ensures r.size == s.size && r.opacity == s.opacity
  {
    s.(position := PositionOf(value))
  }

  /** The radio group offers exactly the nine anchors, in order, each under
      its own value, so no value appears twice. */
  lemma PositionOptionsAreTheAnchors()
    ensures |PositionOptions| == |Anchors| == 9
    ensures forall i :: 0 <= i < |PositionOptions| ==> PositionOptions[i].value == Value(Anchors[i])
    ensures forall i, j :: 0 <= i < j < |PositionOptions| ==> PositionOptions[i].value != PositionOptions[j].value
  {
    assert forall i :: 0 <= i < |PositionOptions| ==> PositionOptions[i].value == Value(Anchors[i]);
    forall i, j | 0 <= i < j < |PositionOptions|
      ensures PositionOptions[i].value != PositionOptions[j].value
    {
      assert Anchors[i] != Anchors[j];
      ValueInjective(Anchors[i], Anchors[j]);
    }
  }

  /** Every anchor's value is among the options. */
  lemma EveryAnchorIsOffered(a: Anchor)
    ensures IsOptionValue(Value(a))
  {
    match a
    case TopLeft => assert PositionOptions[0].value == Value(a);
    case TopCenter => assert PositionOptions[1].value == Value(a);
    case TopRight => assert PositionOptions[2].value == Value(a);
    case MiddleLeft => assert PositionOptions[3].value == Value(a);
    case MiddleCenter => assert PositionOptions[4].value == Value(a);
    case MiddleRight => assert PositionOptions[5].value == Value(a);
    case BottomLeft => assert PositionOptions[6].value == Value(a);
    case BottomCenter => assert PositionOptions[7].value == Value(a);
    case BottomRight => assert PositionOptions[8].value == Value(a);
  }

  /** The page's initial settings are ones the controls could have produced. */
  lemma DefaultIsValid()
    ensures Valid(Default)
  {
    assert PositionOptions[8].value == RawValue(Default.position);
  }

  /** The positions the radio group offers are exactly the strings that name
      an anchor, so valid settings always hold a named position. */
  lemma OptionValuesAreRecognised(value: string)
    ensures IsOptionValue(value) <==> AnchorOf(value).Some?
  {
    PositionOptionsAreTheAnchors();
    AnchorOfValue(value);
    if IsOptionValue(value) {
      var i :| 0 <= i < |PositionOptions| && PositionOptions[i].value == value;
      assert AnchorOf(value) == Some(Anchors[i]);
    } else if AnchorOf(value).Some? {
      EveryAnchorIsOffered(AnchorOf(value).value);
    }
  }

  /** Valid settings are exactly those with the size in [5, 100], the
      opacity in [10, 100] and a position that is one of the nine anchors. */
  lemma ValidMeansNamed(s: Settings)
    ensures Valid(s) <==>
      && 5.0 <= s.size <= 100.0
      && 10.0 <= s.opacity <= 100.0
      && s.position.Named?
  {
    match s.position
    case Named(a) => EveryAnchorIsOffered(a);
    case Unlisted(raw) => OptionValuesAreRecognised(raw);
  }

  /** Moving the size slider keeps the settings valid exactly when the new
      value lies within the slider's range. */
  lemma SizeChangeKeepsValid(s: Settings, value: real)
    requires Valid(s)
    ensures Valid(HandleSizeChange(s, value)) <==> InRange(SizeSlider, value)
  {
  }

  lemma OpacityChangeKeepsValid(s: Settings, value: real)
    requires Valid(s)
    ensures Valid(HandleOpacityChange(s, value)) <==> InRange(OpacitySlider, value)
  {
  }

  lemma PositionChangeKeepsValid(s: Settings, value: string)
    requires Valid(s)
    ensures Valid(HandlePositionChange(s, value)) <==> IsOptionValue(value)
  {
  }

  /** Changes to different fields commute. */
  lemma ChangesCommute(s: Settings, size: real, opacity: real, position: string)
    ensures HandleOpacityChange(HandleSizeChange(s, size), opacity)
         == HandleSizeChange(HandleOpacityChange(s, opacity), size)
    ensures HandlePositionChange(HandleSizeChange(s, size), position)
         == HandleSizeChange(HandlePositionChange(s, position), size)
    ensures HandlePositionChange(HandleOpacityChange(s, opacity), position)
         == HandleOpacityChange(HandlePositionChange(s, position), opacity)
  {
  }

  /** Repeating a change, or overriding it with a later change of the same
      field, leaves only the last value. */
  lemma ChangesOverride(s: Settings, v1: real, v2: real, p1: string, p2: string)
    ensures HandleSizeChange(HandleSizeChange(s, v1), v2) == HandleSizeChange(s, v2)
    ensures HandleOpacityChange(HandleOpacityChange(s, v1), v2) == HandleOpacityChange(s, v2)
    ensures HandlePositionChange(HandlePositionChange(s, p1), p2) == HandlePositionChange(s, p2)
    ensures HandleSizeChange(HandleSizeChange(s, v1), v1) == HandleSizeChange(s, v1)
  {
  }
}
