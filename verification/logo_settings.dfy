/** The settings record the page keeps for the logo overlay (src/pages/Index.tsx):
    a size percentage, an opacity percentage and one of nine anchor positions. */
module LogoSettings {
  import opened Wrappers

  /** The nine anchors of the position union type, in declaration order. */
  datatype Anchor =
    | TopLeft | TopCenter | TopRight
    | MiddleLeft | MiddleCenter | MiddleRight
    | BottomLeft | BottomCenter | BottomRight

  /** The vertical band an anchor names. */
  datatype Row = Top | Middle | Bottom

  /** The horizontal band an anchor names. */
  datatype Column = Left | Center | Right

  function RowOf(a: Anchor): Row {
    match a
    case TopLeft | TopCenter | TopRight => Top
    case MiddleLeft | MiddleCenter | MiddleRight => Middle
    case BottomLeft | BottomCenter | BottomRight => Bottom
  }

  function ColumnOf(a: Anchor): Column {
    match a
    case TopLeft | MiddleLeft | BottomLeft => Left
    case TopCenter | MiddleCenter | BottomCenter => Center
    case TopRight | MiddleRight | BottomRight => Right
  }

  /** The anchor at a given row and column. */
  function AnchorAt(row: Row, col: Column): (a: Anchor)
    ensures RowOf(a) == row && ColumnOf(a) == col
  {
    match (row, col)
    case (Top, Left) => TopLeft
    case (Top, Center) => TopCenter
    case (Top, Right) => TopRight
    case (Middle, Left) => MiddleLeft
    case (Middle, Center) => MiddleCenter
    case (Middle, Right) => MiddleRight
    case (Bottom, Left) => BottomLeft
    case (Bottom, Center) => BottomCenter
    case (Bottom, Right) => BottomRight
  }

  /** An anchor is determined by its row and its column: the nine anchors are
      exactly the product of three rows and three columns. */
  lemma AnchorIsRowTimesColumn(a: Anchor)
    ensures AnchorAt(RowOf(a), ColumnOf(a)) == a
  {
    match a
    case TopLeft =>
    case TopCenter =>
    case TopRight =>
    case MiddleLeft =>
    case MiddleCenter =>
    case MiddleRight =>
    case BottomLeft =>
    case BottomCenter =>
    case BottomRight =>
  }

  /** The string literal that stands for an anchor in the settings record. */
  function Value(a: Anchor): string {
    match a
    case TopLeft => "top-left"
    case TopCenter => "top-center"
    case TopRight => "top-right"
    case MiddleLeft => "middle-left"
    case MiddleCenter => "middle-center"
    case MiddleRight => "middle-right"
    case BottomLeft => "bottom-left"
    case BottomCenter => "bottom-center"
    case BottomRight => "bottom-right"
  }

  /** Distinct anchors have distinct string values. */
  lemma ValueInjective(a: Anchor, b: Anchor)
    ensures Value(a) == Value(b) <==> a == b
  {
  }

  /** All anchors, in the order the union type, the placement switch and the
      position radio group list them. */
  const Anchors: seq<Anchor> :=
    [TopLeft, TopCenter, TopRight,
     MiddleLeft, MiddleCenter, MiddleRight,
     BottomLeft, BottomCenter, BottomRight]

  lemma AnchorInAnchors(a: Anchor)
    ensures a in Anchors
  {
    match a
    case TopLeft => assert Anchors[0] == a;
    case TopCenter => assert Anchors[1] == a;
    case TopRight => assert Anchors[2] == a;
    case MiddleLeft => assert Anchors[3] == a;
    case MiddleCenter => assert Anchors[4] == a;
    case MiddleRight => assert Anchors[5] == a;
    case BottomLeft => assert Anchors[6] == a;
    case BottomCenter => assert Anchors[7] == a;
    case BottomRight => assert Anchors[8] == a;
  }

  /** The first anchor in `cases` whose value is `value`: the placement switch
      compares the position with its case labels one after another. */
  function Find(cases: seq<Anchor>, value: string): (r: Option<Anchor>)
    ensures r.Some? ==> r.value in cases && Value(r.value) == value
    ensures r.None? ==> forall a :: a in cases ==> Value(a) != value
    decreases |cases|
  {
    if |cases| == 0 then None
    else if Value(cases[0]) == value then Some(cases[0])
    else Find(cases[1..], value)
  }

  /** The anchor whose value a string is, if any. */
  function AnchorOf(value: string): Option<Anchor> {
    Find(Anchors, value)
  }

  /** A string names anchor a exactly when it is a's value. */
  lemma AnchorOfValue(value: string)
    ensures forall a :: AnchorOf(value) == Some(a) <==> Value(a) == value
  {
    forall a: Anchor
      ensures AnchorOf(value) == Some(a) <==> Value(a) == value
    {
      if AnchorOf(value).Some? {
        ValueInjective(a, AnchorOf(value).value);
      } else {
        AnchorInAnchors(a);
      }
    }
  }

  /** The position field as it is at run time: its type admits only the nine
      literals, but nothing stops another string from reaching it, and the
      placement switch has a default branch for that case. A raw position is
      either one of the anchors or some other string. */
  datatype RawPosition = Named(anchor: Anchor) | Unlisted(raw: string)

  /** An unlisted string is none of the nine values, so that each string has
      exactly one representation. */
  predicate WellFormed(p: RawPosition) {
    p.Unlisted? ==> AnchorOf(p.raw).None?
  }

  /** The value the position field can hold: exactly one per string. */
  type Position = p: RawPosition | WellFormed(p) witness Named(BottomRight)

  /** The string a position stands for. */
  function RawValue(p: Position): string {
    match p
    case Named(a) => Value(a)
    case Unlisted(raw) => raw
  }

  /** The position a string stands for. */
  function PositionOf(value: string): (p: Position)
    ensures WellFormed(p)
    ensures RawValue(p) == value
  {
    match AnchorOf(value)
    case Some(a) => Named(a)
    case None => Unlisted(value)
  }

  /** Positions and strings correspond one to one: `PositionOf` inverts
      `RawValue`, as it does by its contract the other way round. */
  lemma PositionOfRawValue(p: Position)
    ensures PositionOf(RawValue(p)) == p
  {
    if p.Named? {
      AnchorOfValue(Value(p.anchor));
    }
  }

  /** The settings record. */
  datatype Settings = Settings(size: real, opacity: real, position: Position)

  /** The settings the page starts with. */
  const Default: Settings := Settings(20.0, 80.0, Named(BottomRight))
}
