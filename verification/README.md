# Logo overlay geometry, in Dafny

A model of the compositing core of a small web app that overlays a logo on a
base image. The user picks a size percentage, an opacity percentage and one
of nine anchor positions. The renderer sizes a canvas to the base image and
draws the base image. It then scales the logo: the logo keeps its own aspect
ratio, and its width is capped at 30% of the canvas's smaller side. Finally
it places the logo at the chosen anchor with a 20-unit padding and draws it
under the chosen opacity.

Modules (one per source file, plus two helpers):

- `LogoSettings` (`logo_settings.dfy`): the settings record and its
  defaults, the nine anchors with their string values, rows and columns, and
  the correspondence between position strings and anchors.
- `LogoControls` (`logo_controls.dfy`): the three handlers that each replace
  one field, the position option list, the slider ranges, and the validity
  predicate they induce.
- `Canvas` (`canvas.dfy`): an abstract 2D context. A surface records its
  size, its global alpha and the drawing commands issued since its bitmap
  was last reset. Two rules of the HTML canvas element are kept. Assigning
  width or height resets the bitmap and the context state. Assigning a
  global alpha outside [0, 1] is ignored.
- `ImageCanvas` (`image_canvas.dfy`): the placement switch (`LogoPosition`,
  `Place`), the logo sizing (`LogoWidth`, `LogoSize`) and one render
  (`DrawImages`, `Composite`).
- `Wrappers` (`wrappers.dfy`): `Option`.

The position field is typed as one of nine string literals, but nothing
stops another string from reaching it at run time, and the placement switch
has a default branch for that case. The model represents the field as a
`Position`: a `RawPosition` (either one of the nine anchors, or an unlisted
string) restricted by a subset type so that an unlisted string is none of the
anchors' values, and each string has exactly one representation.
`PositionOf` maps a string to its position and `RawValue` maps back, and the
two are proved inverse. `Find` models the switch's
comparisons of the string with its case labels, in order. Dimensions of
decoded images are `nat`. Computed geometry and the two percentages are
`real`.

The renderer does not guard a zero-width logo:
src/components/ImageCanvas.tsx:69 divides by the natural width. `DrawImages`
therefore requires a positive logo width when the render is ready.

## Model

| member | source | states |
|---|---|---|
| LogoSettings.AnchorAt | src/pages/Index.tsx:16 | the anchor built from a row and a column has exactly that row and column |
| LogoSettings.AnchorIsRowTimesColumn | src/pages/Index.tsx:16 | every anchor is recovered from its row and column, so the nine anchors are the product of three rows and three columns |
| LogoSettings.ValueInjective | src/pages/Index.tsx:16 | two anchors have the same string value exactly when they are the same anchor |
| LogoSettings.Find | src/components/ImageCanvas.tsx:22-42 | a found anchor is among the cases and has the string as its value; when nothing is found, no case has that value |
| LogoSettings.AnchorOfValue | src/components/ImageCanvas.tsx:22-40 | the switch selects anchor a exactly when the string is a's value |
| LogoSettings.PositionOf | src/components/ImageCanvas.tsx:22-42 | every string maps to a well-formed position that stands for that same string |
| LogoSettings.PositionOfRawValue | src/pages/Index.tsx:13-17 | every position is recovered from the string it stands for, so positions and strings correspond one to one |
| LogoControls.HandleSizeChange | src/components/LogoControls.tsx:15-17 | a size change sets the size to the new value and keeps opacity and position |
| LogoControls.HandleOpacityChange | src/components/LogoControls.tsx:19-21 | an opacity change sets the opacity and keeps size and position |
| LogoControls.HandlePositionChange | src/components/LogoControls.tsx:23-25 | a position change stores exactly the given string and keeps size and opacity |
| LogoControls.PositionOptionsAreTheAnchors | src/components/LogoControls.tsx:27-37 | the option list has nine entries, the i-th carries the i-th anchor's value, and no value repeats |
| LogoControls.EveryAnchorIsOffered | src/components/LogoControls.tsx:27-37 | every anchor's value is among the options |
| LogoControls.OptionValuesAreRecognised | src/components/LogoControls.tsx:27-37 | a string is offered by the radio group if and only if it names an anchor of the placement switch |
| LogoControls.DefaultIsValid | src/pages/Index.tsx:23-27 | the initial settings (20, 80, bottom-right) lie within both slider ranges and name an offered position |
| LogoControls.ValidMeansNamed | src/components/LogoControls.tsx:27-77 | settings are ones the controls can produce exactly when the size lies in [5, 100], the opacity in [10, 100] and the position is one of the nine anchors |
| LogoControls.SizeChangeKeepsValid | src/components/LogoControls.tsx:54-61 | from valid settings, a size change gives valid settings if and only if the value lies in [5, 100] |
| LogoControls.OpacityChangeKeepsValid | src/components/LogoControls.tsx:70-77 | from valid settings, an opacity change gives valid settings if and only if the value lies in [10, 100] |
| LogoControls.PositionChangeKeepsValid | src/components/LogoControls.tsx:86-102 | from valid settings, a position change gives valid settings if and only if the string is one the radio group offers |
| LogoControls.ChangesCommute | src/components/LogoControls.tsx:15-25 | changes to two different fields give the same settings in either order |
| LogoControls.ChangesOverride | src/components/LogoControls.tsx:15-25 | a second change of the same field overrides the first, and repeating a change is idempotent |
| Canvas.Resize | src/components/ImageCanvas.tsx:56-57 | resizing gives a surface of the new size with no commands and global alpha 1, whatever it held before |
| Canvas.ClearRect | src/components/ImageCanvas.tsx:60 | clearing appends one clear command of the given area and keeps size, alpha and earlier commands |
| Canvas.DrawImage | src/components/ImageCanvas.tsx:78 | drawing appends one draw command under the current global alpha and keeps size, alpha and earlier commands |
| Canvas.SetGlobalAlpha | src/components/ImageCanvas.tsx:71-81 | an alpha in [0, 1] becomes the global alpha; any other value leaves the surface unchanged; size and commands never change |
| ImageCanvas.LogoPosition | src/components/ImageCanvas.tsx:19-44 | x is the column offset and y the row offset of the position's anchor, with bottom-right used for an unlisted string, which lands at (width less logo less 20, height less logo less 20) |
| ImageCanvas.Place | src/components/ImageCanvas.tsx:23-40 | x depends only on the anchor's column (20, centred, or width less logo less 20) and y only on its row, likewise |
| ImageCanvas.PositionOfAnchor | src/components/ImageCanvas.tsx:19-40 | the switch on each anchor's string value places the logo at that anchor's column and row offsets |
| ImageCanvas.UnrecognisedIsBottomRight | src/components/ImageCanvas.tsx:39-42 | the switch on a string outside the nine values gives the same point as on "bottom-right" |
| ImageCanvas.Margins | src/components/ImageCanvas.tsx:24-40 | centre placements leave equal margins on both sides; edge placements leave exactly 20 to their own edge |
| ImageCanvas.NoClamping | src/components/ImageCanvas.tsx:28-40 | right-column x is negative exactly when the logo is wider than the canvas less 20, and bottom-row y likewise for height |
| ImageCanvas.PlacementTable | src/components/ImageCanvas.tsx:19-44 | the nine placements of a 100 by 50 logo on a 1000 by 800 canvas, from (20, 20) to (880, 730) |
| ImageCanvas.LogoWidth | src/components/ImageCanvas.tsx:66-68 | the drawn width is at most 30% of each canvas side and at most the requested share of the natural width, and equals one of these |
| ImageCanvas.LogoSize | src/components/ImageCanvas.tsx:66-69 | the drawn size has the capped width and the height that keeps the logo's own aspect ratio |
| ImageCanvas.LogoRect | src/components/ImageCanvas.tsx:65-78 | the logo's rectangle has the capped width, the logo's aspect ratio, and sits at the column and row offsets of the position's anchor for that size |
| ImageCanvas.LogoSizeKeepsAspect | src/components/ImageCanvas.tsx:68-69 | the drawn height times the natural width equals the natural height times the drawn width |
| ImageCanvas.LogoWidthMonotone | src/components/ImageCanvas.tsx:66-68 | a larger size setting never gives a narrower logo |
| ImageCanvas.LogoSizeMonotone | src/components/ImageCanvas.tsx:66-69 | a larger size setting never gives a smaller drawn width or height |
| ImageCanvas.Composite | src/components/ImageCanvas.tsx:55-81 | the canvas ends at the main image's size with alpha 1, holding a full clear, the main image opaque at the origin, then the logo at its rectangle under the alpha if that lies in [0, 1] and opaque otherwise |
| ImageCanvas.DrawImages | src/components/ImageCanvas.tsx:46-82 | when the canvas or either image is missing nothing changes; otherwise the canvas takes the main image's natural size and ends with global alpha 1 |
| ImageCanvas.DrawImagesCommands | src/components/ImageCanvas.tsx:55-81 | a render issues exactly: clear the canvas, draw the main image at the origin fully opaque, draw the logo at its rectangle under opacity/100, or fully opaque when the opacity lies outside [0, 100] |
| ImageCanvas.LogoAlphaIsOpacity | src/components/ImageCanvas.tsx:71-81 | with valid settings the logo is drawn under alpha opacity/100, which lies in [0.1, 1] |
| ImageCanvas.DrawImagesIsStateless | src/components/ImageCanvas.tsx:55-63 | a render's result does not depend on the canvas's prior state, so rendering again with the same inputs changes nothing |
| ImageCanvas.WorkedExample | src/components/ImageCanvas.tsx:65-78 | a 200 by 100 logo at 50% in the top-right corner of an 800 by 600 image is drawn 100 by 50 at (680, 20) |

## Left out

- File upload, image decoding, data URLs, the download through `toDataURL`, toasts and all JSX layout: browser I/O and UI plumbing.
- The "Process All" action: it only calls the single-image download, so there is no batch logic to model.
- Asynchronous image loading and the effect hooks that trigger a render: event wiring. A render is modelled as one call whose missing inputs are `None`.
- Pixel compositing by the canvas (source-over blending): a foreign API. It is modelled only as a recorded draw command with its rectangle and alpha.
- Floating-point rounding and NaN: all geometry is exact `real` arithmetic, and 0.3 is the exact decimal.
- DrawImages: a zero-width logo is excluded by a precondition, because the source divides by it unguarded and the resulting NaN has no `real` counterpart.
- HandleSizeChange, HandleOpacityChange: take the slider's single value, where the source receives a one-element array and reads its first entry; the empty-array case is not modelled.
- The slider step of 1 is not modelled; only the ranges are.
